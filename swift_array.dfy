/*
 * The Swift `Array` operations the playlist and the export list use:
 * `firstIndex(where:)`, `contains(where:)`, `removeAll(where:)`, and
 * SwiftUI's `remove(atOffsets:)` and `move(fromOffsets:toOffset:)`.
 */
module SwiftArray {
  import opened Foundation

  /** `firstIndex(where:)`: the first position whose element satisfies `p`. */
  function FirstIndex<T>(s: seq<T>, p: T -> bool): (r: Option<nat>)
    ensures r.Some? ==> r.value < |s| && p(s[r.value])
    ensures r.Some? ==> forall j :: 0 <= j < r.value ==> !p(s[j])
    ensures r.None? <==> forall j :: 0 <= j < |s| ==> !p(s[j])
  {
    if s == [] then None
    else if p(s[0]) then Some(0)
    else match FirstIndex(s[1..], p)
      case None => None
      case Some(i) => Some(i + 1)
  }

  /** `contains(where:)`. */
  function Contains<T>(s: seq<T>, p: T -> bool): (r: bool)
    ensures r <==> exists i :: 0 <= i < |s| && p(s[i])
  {
    if s == [] then false else p(s[0]) || Contains(s[1..], p)
  }

  /** `removeAll(where:)`: the elements that do not satisfy `p`, in order. */
  function RemoveAll<T>(s: seq<T>, p: T -> bool): (r: seq<T>)
    ensures |r| <= |s|
    ensures forall i :: 0 <= i < |r| ==> !p(r[i])
  {
    if s == [] then [] else (if p(s[0]) then [] else [s[0]]) + RemoveAll(s[1..], p)
  }

  /** Removing distributes over concatenation: the kept elements keep their order. */
  lemma {:induction false} RemoveAllConcat<T>(a: seq<T>, b: seq<T>, p: T -> bool)
    ensures RemoveAll(a + b, p) == RemoveAll(a, p) + RemoveAll(b, p)
  {
    if a != [] {
      assert (a + b)[1..] == a[1..] + b;
      RemoveAllConcat(a[1..], b, p);
    } else {
      assert a + b == b;
    }
  }

  /** Nothing is left exactly when every element satisfies `p`. */
  lemma {:induction false} RemoveAllEmpty<T>(s: seq<T>, p: T -> bool)
    ensures RemoveAll(s, p) == [] <==> forall i :: 0 <= i < |s| ==> p(s[i])
  {
    if s != [] {
      RemoveAllEmpty(s[1..], p);
      assert forall i :: 1 <= i < |s| ==> s[i] == s[1..][i - 1];
    }
  }

  /**
   * Every element that satisfies `p` is gone, and every other element keeps
   * all of its occurrences.
   */
  lemma {:induction false} RemoveAllCounts<T>(s: seq<T>, p: T -> bool, x: T)
    ensures multiset(RemoveAll(s, p))[x] == if p(x) then 0 else multiset(s)[x]
  {
    if s != [] {
      RemoveAllCounts(s[1..], p, x);
      assert s == [s[0]] + s[1..];
    }
  }

  // ---------------------------------------------------------------------
  // Offsets (SwiftUI's IndexSet operations)

  /** Every offset names an element of a collection of `n` elements. */
  predicate ValidOffsets(offsets: set<int>, n: nat)
  {
    forall i :: i in offsets ==> 0 <= i < n
  }

  /**
   * The elements of `s[lo..hi]` whose offset is in `offsets` (when `inside`)
   * or not in it (when `!inside`), in their order in `s`.
   */
  function Pick<T>(s: seq<T>, offsets: set<int>, inside: bool, lo: nat, hi: nat): seq<T>
    requires lo <= hi <= |s|
    decreases hi - lo
  {
    if lo == hi then []
    else (if (lo in offsets) == inside then [s[lo]] else []) + Pick(s, offsets, inside, lo + 1, hi)
  }

  /** The offsets `Pick` takes, in increasing order. */
  function PickedOffsets(offsets: set<int>, inside: bool, lo: nat, hi: nat): (o: seq<int>)
    requires lo <= hi
    ensures forall k :: 0 <= k < |o| ==> lo <= o[k] < hi && (o[k] in offsets) == inside
    ensures forall i :: lo <= i < hi && (i in offsets) == inside ==> i in o
    ensures forall k, l :: 0 <= k < l < |o| ==> o[k] < o[l]
    decreases hi - lo
  {
    if lo == hi then []
    else (if (lo in offsets) == inside then [lo] else []) + PickedOffsets(offsets, inside, lo + 1, hi)
  }

  /** `picked` holds the elements of `s` at the offsets `at`, one for one. */
  ghost predicate Selects<T>(s: seq<T>, picked: seq<T>, at: seq<int>)
  {
    && |picked| == |at|
    && forall k :: 0 <= k < |at| ==> 0 <= at[k] < |s| && picked[k] == s[at[k]]
  }

  /** Taking one more element in front keeps the selection one for one. */
  lemma PrependSelects<T>(s: seq<T>, x: nat, picked: seq<T>, at: seq<int>)
    requires x < |s| && Selects(s, picked, at)
    ensures Selects(s, [s[x]] + picked, [x] + at)
  {
    forall k | 1 <= k < |at| + 1
      ensures ([s[x]] + picked)[k] == s[([x] + at)[k]]
    {
      assert ([s[x]] + picked)[k] == picked[k - 1];
    }
  }

  /** `Pick` holds exactly the elements at `PickedOffsets`, one for one. */
  lemma {:induction false} PickSelects<T>(s: seq<T>, offsets: set<int>, inside: bool, lo: nat, hi: nat)
    requires lo <= hi <= |s|
    ensures Selects(s, Pick(s, offsets, inside, lo, hi), PickedOffsets(offsets, inside, lo, hi))
    decreases hi - lo
  {
    if lo < hi {
      PickSelects(s, offsets, inside, lo + 1, hi);
      if (lo in offsets) == inside {
        PrependSelects(s, lo, Pick(s, offsets, inside, lo + 1, hi), PickedOffsets(offsets, inside, lo + 1, hi));
      }
    }
  }

  lemma {:induction false} PickSplit<T>(s: seq<T>, offsets: set<int>, inside: bool, lo: nat, mid: nat, hi: nat)
    requires lo <= mid <= hi <= |s|
    ensures Pick(s, offsets, inside, lo, hi) == Pick(s, offsets, inside, lo, mid) + Pick(s, offsets, inside, mid, hi)
    decreases mid - lo
  {
    if lo < mid {
      PickSplit(s, offsets, inside, lo + 1, mid, hi);
    }
  }

  /** The two picks of a range split its elements between them. */
  lemma {:induction false} PickComplement<T>(s: seq<T>, offsets: set<int>, lo: nat, hi: nat)
    requires lo <= hi <= |s|
    ensures multiset(Pick(s, offsets, true, lo, hi)) + multiset(Pick(s, offsets, false, lo, hi)) == multiset(s[lo..hi])
    decreases hi - lo
  {
    if lo < hi {
      PickComplement(s, offsets, lo + 1, hi);
      assert s[lo..hi] == [s[lo]] + s[lo + 1..hi];
    }
  }

  /** The members of `offsets` in `lo..hi`. */
  ghost function OffsetsIn(offsets: set<int>, lo: int, hi: int): set<int>
  {
    set i | i in offsets && lo <= i < hi
  }

  /** Peeling the lowest offset off the range. */
  lemma OffsetsInStep(offsets: set<int>, lo: nat, hi: nat)
    requires lo < hi
    ensures OffsetsIn(offsets, lo, hi) == OffsetsIn(offsets, lo + 1, hi) + (if lo in offsets then {lo} else {})
    ensures lo !in OffsetsIn(offsets, lo + 1, hi)
  {
  }

  /** The offsets inside the set number as many as the set's members in range. */
  lemma {:induction false} PickedOffsetsCount(offsets: set<int>, lo: nat, hi: nat)
    requires lo <= hi
    ensures |PickedOffsets(offsets, true, lo, hi)| == |OffsetsIn(offsets, lo, hi)|
    decreases hi - lo
  {
    if lo == hi {
      assert OffsetsIn(offsets, lo, hi) == {};
    } else {
      PickedOffsetsCount(offsets, lo + 1, hi);
      OffsetsInStep(offsets, lo, hi);
      assert |PickedOffsets(offsets, true, lo, hi)|
          == (if lo in offsets then 1 else 0) + |PickedOffsets(offsets, true, lo + 1, hi)|;
    }
  }

  /**
   * SwiftUI's `remove(atOffsets:)`: it deletes exactly the elements at the
   * offsets, so what is left is `s` at the offsets outside the set, in
   * increasing order, and it is shorter by the number of offsets.
   */
  function RemovingOffsets<T>(s: seq<T>, offsets: set<int>): (r: seq<T>)
    requires ValidOffsets(offsets, |s|)
    ensures var kept := PickedOffsets(offsets, false, 0, |s|);
            |r| == |kept| && forall k :: 0 <= k < |kept| ==> r[k] == s[kept[k]]
    ensures |r| == |s| - |offsets|
  {
    PickSelects(s, offsets, false, 0, |s|);
    PickSelects(s, offsets, true, 0, |s|);
    PickComplement(s, offsets, 0, |s|);
    assert s[0..|s|] == s;
    assert |multiset(s)| == |s|;
    PickedOffsetsCount(offsets, 0, |s|);
    assert OffsetsIn(offsets, 0, |s|) == offsets;
    Pick(s, offsets, false, 0, |s|)
  }

  /**
   * SwiftUI's `move(fromOffsets:toOffset:)`: the unmoved elements before the
   * destination, then the moved elements in their original order, then the
   * unmoved elements from the destination on. Moving only reorders: the
   * result is a permutation of `s`.
   */
  function MovingOffsets<T>(s: seq<T>, offsets: set<int>, destination: nat): (r: seq<T>)
    requires ValidOffsets(offsets, |s|) && destination <= |s|
    ensures var before, moved, after :=
              PickedOffsets(offsets, false, 0, destination), PickedOffsets(offsets, true, 0, |s|),
              PickedOffsets(offsets, false, destination, |s|);
            && |r| == |before| + |moved| + |after|
            && Selects(s, r[..|before|], before)
            && Selects(s, r[|before|..|before| + |moved|], moved)
            && Selects(s, r[|before| + |moved|..], after)
    ensures multiset(r) == multiset(s)
  {
    var before := Pick(s, offsets, false, 0, destination);
    var moved := Pick(s, offsets, true, 0, |s|);
    var after := Pick(s, offsets, false, destination, |s|);
    PickSelects(s, offsets, false, 0, destination);
    PickSelects(s, offsets, true, 0, |s|);
    PickSelects(s, offsets, false, destination, |s|);
    PickSplit(s, offsets, false, 0, destination, |s|);
    PickComplement(s, offsets, 0, |s|);
    assert s[0..|s|] == s;
    var r := before + moved + after;
    assert r[..|before|] == before;
    assert r[|before|..|before| + |moved|] == moved;
    assert r[|before| + |moved|..] == after;
    r
  }

  /** Moving the first of three elements to the end, as the playlist's test does. */
  lemma MoveFirstToEnd<T>(s: seq<T>)
    requires |s| == 3
    ensures MovingOffsets(s, {0}, 3) == [s[1], s[2], s[0]]
  {
    assert Pick(s, {0}, false, 0, 3) == [s[1], s[2]];
    assert Pick(s, {0}, true, 0, 3) == [s[0]];
    assert Pick(s, {0}, false, 3, 3) == [];
    assert [s[1], s[2]] + [s[0]] + [] == [s[1], s[2], s[0]];
  }
}
