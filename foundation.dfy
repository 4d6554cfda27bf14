/*
 * The slice of Swift and Foundation that the player relies on: optionals,
 * error-carrying results, UUIDs, file URLs, `Int(_: Double)` and Swift's
 * truncating integer division.
 */
module Foundation {

  /** Swift's `Optional`. */
  datatype Option<+T> = None | Some(value: T)

  /** A value or the error a throwing Swift call raised. Usable with `:-`. */
  datatype Result<+T, +E> = Success(value: T) | Failure(error: E) {
    predicate IsFailure() { Failure? }
    function PropagateFailure<U>(): Result<U, E> requires Failure? { Failure(error) }
    function Extract(): T requires Success? { value }
  }

  /** Foundation's `UUID`, known by its `uuidString`. */
  datatype Uuid = Uuid(uuidString: string)

  /** A file URL, known by its path. */
  datatype Url = Url(path: string)

  /** Foundation's `Data`. */
  type Bytes = seq<bv8>

  // ---------------------------------------------------------------------
  // Integer conversion and arithmetic

  /** `Int(x)` for a `Double` x: rounds toward zero. */
  function Trunc(x: real): (n: int)
    ensures x >= 0.0 ==> n == x.Floor
    ensures 0.0 <= x ==> 0 <= n && n as real <= x < n as real + 1.0
    ensures x < 0.0 ==> n <= 0 && n as real - 1.0 < x <= n as real
  {
    if x >= 0.0 then x.Floor else -((-x).Floor)
  }

  /** Swift's `a / b` on `Int` (truncates toward zero), for a positive divisor. */
  function Quot(a: int, b: int): (q: int)
    requires b > 0
    ensures a >= 0 ==> 0 <= q && b * q <= a < b * q + b
    ensures a < 0 ==> q <= 0 && b * q - b < a <= b * q
  {
    if a >= 0 then
      assert a == b * (a / b) + a % b && 0 <= a % b < b;
      a / b
    else
      assert -a == b * ((-a) / b) + (-a) % b && 0 <= (-a) % b < b;
      -((-a) / b)
  }

  /** Swift's `a % b` on `Int`: the remainder takes the sign of `a`. */
  function Rem(a: int, b: int): (r: int)
    requires b > 0
    ensures a == b * Quot(a, b) + r
    ensures a >= 0 ==> 0 <= r < b
    ensures a < 0 ==> -b < r <= 0
  {
    if a >= 0 then a % b else -((-a) % b)
  }

  lemma {:induction false} TruncOfWhole(n: int)
    ensures Trunc(n as real) == n
  {
    if n < 0 {
      assert (-(n as real)).Floor == -n;
    }
  }

  // ---------------------------------------------------------------------
  // URL path components

  /** `path` with every trailing '/' removed. */
  function TrimTrailingSlashes(path: string): (t: string)
    ensures |t| <= |path| && t == path[..|t|]
    ensures t != [] ==> t[|t| - 1] != '/'
    ensures forall i :: |t| <= i < |path| ==> path[i] == '/'
  {
    if path != [] && path[|path| - 1] == '/' then TrimTrailingSlashes(path[..|path| - 1]) else path
  }

  /** The characters after the last '/' of `s` (all of `s` if it has none). */
  function AfterLastSlash(s: string): (c: string)
    ensures |c| <= |s| && c == s[|s| - |c|..]
    ensures '/' !in c
    ensures |c| < |s| ==> s[|s| - |c| - 1] == '/'
  {
    if s == [] || s[|s| - 1] == '/' then [] else AfterLastSlash(s[..|s| - 1]) + [s[|s| - 1]]
  }

  /**
   * `URL.lastPathComponent` of a file URL: trailing slashes are ignored, the
   * root path "/" is its own last component, and the empty path has none.
   */
  function LastPathComponent(path: string): (c: string)
    ensures c == "/" || '/' !in c
    ensures c == [] <==> path == []
  {
    var trimmed := TrimTrailingSlashes(path);
    if trimmed == [] then (if path == [] then "" else "/") else AfterLastSlash(trimmed)
  }

  /**
   * `URL.appendingPathComponent`: the result lies inside `dir`, and for a
   * plain file name its last path component is that name again.
   */
  function AppendingPathComponent(dir: Url, component: string): (u: Url)
    ensures |u.path| > |dir.path| && u.path[..|dir.path|] == dir.path && u.path[|dir.path|] == '/'
    ensures IsFileName(component) ==> LastPathComponent(u.path) == component
  {
    if IsFileName(component) then LastPathComponentOfJoined(dir.path, component); Url(dir.path + "/" + component)
    else Url(dir.path + "/" + component)
  }

  /** A plain file name: non-empty and without '/'. */
  predicate IsFileName(name: string)
  {
    name != [] && '/' !in name
  }

  /**
   * A path that ends in '/' and then a plain file name has that name as its
   * last path component, whatever comes before.
   */
  lemma {:induction false} LastPathComponentOfJoined(dirPath: string, name: string)
    requires IsFileName(name)
    ensures LastPathComponent(dirPath + "/" + name) == name
  {
    var p := dirPath + "/" + name;
    assert p[|p| - 1] == name[|name| - 1] != '/';
    assert TrimTrailingSlashes(p) == p;
    var c := AfterLastSlash(p);
    // A '/' sits just before `name` and none inside it, so the last
    // component is exactly `name`.
    assert p[|p| - |name| - 1] == '/';
    assert forall j :: |p| - |name| <= j < |p| ==> p[j] == name[j - (|p| - |name|)] != '/';
    assert c == p[|p| - |name|..] == name;
  }
}
