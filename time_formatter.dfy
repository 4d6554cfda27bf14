/*
 * `TimeFormatter.formatTime`: seconds as "M:SS", or "H:MM:SS" from one hour
 * on. The partner of the formatter is `ParseClock`, which reads such text
 * back; together they show that the text determines the whole seconds.
 */
module TimeFormatter {
  import opened Foundation
  import opened Decimal

  /** The three integer fields `formatTime` computes from `Int(time)`. */
  function Hours(n: int): int { Quot(n, 3600) }
  function Minutes(n: int): int { Quot(Rem(n, 3600), 60) }
  function Seconds(n: int): int { Rem(n, 60) }

  /** `TimeFormatter.formatTime(time)`. */
  function FormatTime(time: real): string
  {
    var n := Trunc(time);
    if Hours(n) > 0 then
      FormatD(Hours(n)) + ":" + Format02D(Minutes(n)) + ":" + Format02D(Seconds(n))
    else
      FormatD(Minutes(n)) + ":" + Format02D(Seconds(n))
  }

  /**
   * The three fields recompose the whole seconds, for either sign; the
   * minutes and seconds lie in 0..59 for a non-negative count and in -59..0
   * for a negative one, because Swift's `/` and `%` truncate.
   */
  lemma {:induction false} ClockDecomposition(n: int)
    ensures 3600 * Hours(n) + 60 * Minutes(n) + Seconds(n) == n
    ensures n >= 0 ==> 0 <= Hours(n) && 0 <= Minutes(n) < 60 && 0 <= Seconds(n) < 60
    ensures n < 0 ==> Hours(n) <= 0 && -60 < Minutes(n) <= 0 && -60 < Seconds(n) <= 0
    ensures Hours(n) > 0 <==> n >= 3600
  {
    var a := if n >= 0 then n else -n;
    var h, r := a / 3600, a % 3600;
    assert a == 60 * (60 * h + r / 60) + r % 60;
    assert a % 60 == r % 60;
  }

  // ---------------------------------------------------------------------
  // Reading clock text back

  /** The pieces of `s` between ':' characters. */
  function SplitColons(s: string): (parts: seq<string>)
    ensures |parts| >= 1
    decreases |s|
  {
    if s == [] then [""]
    else
      var rest := SplitColons(s[1..]);
      if s[0] == ':' then [""] + rest else [[s[0]] + rest[0]] + rest[1..]
  }

  lemma {:induction false} SplitWithoutColon(x: string)
    requires ':' !in x
    ensures SplitColons(x) == [x]
  {
    if x != [] {
      assert ':' !in x[1..];
      SplitWithoutColon(x[1..]);
      assert [x[0]] + x[1..] == x;
    }
  }

  lemma {:induction false} SplitAtFirstColon(x: string, y: string)
    requires ':' !in x
    ensures SplitColons(x + ":" + y) == [x] + SplitColons(y)
  {
    var s := x + ":" + y;
    if x == [] {
      assert s[1..] == y;
    } else {
      assert s[1..] == x[1..] + ":" + y;
      assert ':' !in x[1..];
      SplitAtFirstColon(x[1..], y);
      assert [x[0]] + x[1..] == x;
    }
  }

  /** Clock fields: two or three runs of digits, all but the first exactly two long. */
  predicate ClockFields(parts: seq<string>)
  {
    (|parts| == 2 || |parts| == 3)
    && (forall i :: 0 <= i < |parts| ==> parts[i] != [] && AllDigits(parts[i]))
    && (forall i :: 1 <= i < |parts| ==> |parts[i]| == 2)
  }

  /** The whole seconds that "M:SS" or "H:MM:SS" text denotes; None for other text. */
  function ParseClock(text: string): Option<nat>
  {
    var parts := SplitColons(text);
    if !ClockFields(parts) then None
    else if |parts| == 2 then Some(60 * DigitsValue(parts[0]) + DigitsValue(parts[1]))
    else Some(3600 * DigitsValue(parts[0]) + 60 * DigitsValue(parts[1]) + DigitsValue(parts[2]))
  }

  lemma DigitsHaveNoColon(s: string)
    requires AllDigits(s)
    ensures ':' !in s
  {
  }

  /** Two-field clock text reads back as minutes * 60 + seconds. */
  lemma {:induction false} ReadTwoFields(a: string, b: string)
    requires a != [] && AllDigits(a) && |b| == 2 && AllDigits(b)
    ensures SplitColons(a + ":" + b) == [a, b]
    ensures ParseClock(a + ":" + b) == Some(60 * DigitsValue(a) + DigitsValue(b))
  {
    DigitsHaveNoColon(a);
    DigitsHaveNoColon(b);
    SplitAtFirstColon(a, b);
    SplitWithoutColon(b);
  }

  /** Three-field clock text reads back as hours * 3600 + minutes * 60 + seconds. */
  lemma {:induction false} ReadThreeFields(a: string, b: string, c: string)
    requires a != [] && AllDigits(a) && |b| == 2 && AllDigits(b) && |c| == 2 && AllDigits(c)
    ensures SplitColons(a + ":" + b + ":" + c) == [a, b, c]
    ensures ParseClock(a + ":" + b + ":" + c) == Some(3600 * DigitsValue(a) + 60 * DigitsValue(b) + DigitsValue(c))
  {
    assert a + ":" + b + ":" + c == a + ":" + (b + ":" + c);
    DigitsHaveNoColon(a);
    SplitAtFirstColon(a, b + ":" + c);
    ReadTwoFields(b, c);
  }

  /**
   * For a non-negative time the text reads back as the whole seconds
   * `Int(time)`, it has three fields exactly from one hour on, and its
   * leading field carries no padding zero.
   */
  lemma {:induction false} FormatTimeReadsBack(time: real)
    requires time >= 0.0
    ensures ParseClock(FormatTime(time)) == Some(Trunc(time))
    ensures |SplitColons(FormatTime(time))| == (if time >= 3600.0 then 3 else 2)
    ensures var lead := SplitColons(FormatTime(time))[0]; lead != [] && (lead[0] == '0' ==> lead == "0")
  {
    var n := Trunc(time);
    ClockDecomposition(n);
    var h, m, s := Hours(n), Minutes(n), Seconds(n);
    TwoDigitField(s);
    if h > 0 {
      NonNegativeField(h);
      TwoDigitField(m);
      ReadThreeFields(FormatD(h), Format02D(m), Format02D(s));
    } else {
      NonNegativeField(m);
      ReadTwoFields(FormatD(m), Format02D(s));
    }
  }

  /** Two non-negative times format alike exactly when their whole seconds agree. */
  lemma {:induction false} FormatTimeDistinguishesSeconds(t1: real, t2: real)
    requires t1 >= 0.0 && t2 >= 0.0
    ensures FormatTime(t1) == FormatTime(t2) <==> Trunc(t1) == Trunc(t2)
  {
    FormatTimeReadsBack(t1);
    FormatTimeReadsBack(t2);
  }

  /** The text depends on the whole seconds only, for either sign. */
  lemma {:induction false} FormatTimeOfWholeSeconds(time: real)
    ensures FormatTime(time) == FormatTime(Trunc(time) as real)
  {
    TruncOfWhole(Trunc(time));
  }

  /** Times under an hour, as the formatter's tests check them. */
  lemma FormatTimeExamplesUnderAnHour()
    ensures FormatTime(0.0) == "0:00"
    ensures FormatTime(45.0) == "0:45"
    ensures FormatTime(60.0) == "1:00"
    ensures FormatTime(125.0) == "2:05"
  {
    assert Trunc(125.0) == 125 && Hours(125) == 0 && Minutes(125) == 2 && Seconds(125) == 5;
    assert Trunc(60.0) == 60 && Hours(60) == 0 && Minutes(60) == 1 && Seconds(60) == 0;
    assert Trunc(45.0) == 45 && Hours(45) == 0 && Minutes(45) == 0 && Seconds(45) == 45;
  }

  /** Times of an hour or more, as the formatter's tests check them. */
  lemma FormatTimeExamplesFromAnHour()
    ensures FormatTime(3600.0) == "1:00:00"
    ensures FormatTime(3665.0) == "1:01:05"
    ensures FormatTime(7384.0) == "2:03:04"
  {
    assert Trunc(3600.0) == 3600 && Hours(3600) == 1 && Minutes(3600) == 0 && Seconds(3600) == 0;
    assert Trunc(3665.0) == 3665 && Hours(3665) == 1 && Minutes(3665) == 1 && Seconds(3665) == 5;
    assert Trunc(7384.0) == 7384 && Hours(7384) == 2 && Minutes(7384) == 3 && Seconds(7384) == 4;
  }

  /** A negative time keeps its sign in the seconds field. */
  lemma FormatTimeNegativeExample()
    ensures FormatTime(-45.0) == "0:-45"
  {
    assert Trunc(-45.0) == -45 && Hours(-45) == 0 && Minutes(-45) == 0 && Seconds(-45) == -45;
  }
}
