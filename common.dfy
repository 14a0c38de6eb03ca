/** Value types and JavaScript arithmetic shared by every dashboard component model. */
module Common {

  /** A value that may be absent: a reading that did not parse, a record not yet received. */
  datatype Option<+T> = None | Some(value: T) {
    /** The `x || default` idiom of the dashboard: the value when present, else the default. */
    function GetOr(default: T): T {
      match this
      case Some(v) => v
      case None => default
    }
  }

  function Abs(x: real): real {
    if x < 0.0 then -x else x
  }

  /** `Math.max(a, b)` on numbers. */
  function Max(a: real, b: real): real {
    if a < b then b else a
  }

  /** `Math.min(a, b)` on numbers. */
  function Min(a: real, b: real): real {
    if a < b then a else b
  }

  /** `Math.round(x)`: the nearest integer, halves rounded towards positive infinity. */
  function Round(x: real): (r: int)
    ensures x - 0.5 < r as real <= x + 0.5
  {
    (x + 0.5).Floor
  }

  /** `Math.floor(x)`. */
  function FloorOf(x: real): (r: int)
    ensures r as real <= x < r as real + 1.0
  {
    x.Floor
  }

  /** `Math.ceil(x)`. */
  function CeilOf(x: real): (r: int)
    ensures x <= r as real < x + 1.0
  {
    -((-x).Floor)
  }

  /** Rounding is monotone: a larger argument never rounds to a smaller integer. */
  lemma RoundMonotone(x: real, y: real)
    requires x <= y
    ensures Round(x) <= Round(y)
  {
  }

  /** Rounding keeps a value inside integer bounds it already lies in. */
  lemma RoundWithin(x: real, lo: int, hi: int)
    requires lo as real <= x <= hi as real
    ensures lo <= Round(x) <= hi
  {
    RoundMonotone(lo as real, x);
    RoundMonotone(x, hi as real);
    assert Round(lo as real) == lo;
    assert Round(hi as real) == hi;
  }

  /** `s.slice(-n)` for a positive `n`: the last `n` elements, or all of `s` when it is shorter. */
  function SliceLast<T>(s: seq<T>, n: nat): (r: seq<T>)
    requires n > 0
    ensures |r| == if |s| <= n then |s| else n
    ensures r == s[|s| - |r|..]
  {
    if |s| <= n then s else s[|s| - n..]
  }

  /** Appending one element and trimming step by step is the same as trimming once at the end. */
  lemma SliceLastAppend<T>(s: seq<T>, x: T, n: nat)
    requires n > 0
    ensures SliceLast(SliceLast(s, n) + [x], n) == SliceLast(s + [x], n)
  {
    var t := SliceLast(s, n);
    var l := SliceLast(t + [x], n);
    var r := SliceLast(s + [x], n);
    assert |l| == |r|;
    forall k | 0 <= k < |l|
      ensures l[k] == r[k]
    {
      if k == |l| - 1 {
        assert l[k] == x && r[k] == x;
      } else {
        assert l[k] == (t + [x])[|t| + 1 - |l| + k];
        assert r[k] == (s + [x])[|s| + 1 - |r| + k];
      }
    }
  }

  /** `a.reverse()`: the elements of `s` in the opposite order. */
  function Reversed<T>(s: seq<T>): (r: seq<T>)
    ensures |r| == |s|
    ensures forall k :: 0 <= k < |s| ==> r[k] == s[|s| - 1 - k]
  {
    if s == [] then [] else Reversed(s[1..]) + [s[0]]
  }

  /**
   * The `clampedPosition` expression shared by the feed-drive animations: the position as a
   * percentage of the travel range `[lo, hi]`, clamped into `[0, 100]`.
   */
  function ClampedPercent(position: real, lo: real, hi: real): (r: real)
    requires lo < hi
    ensures 0.0 <= r <= 100.0
    ensures lo <= position <= hi ==> r == (position - lo) / (hi - lo) * 100.0
    ensures position <= lo ==> r == 0.0
    ensures hi <= position ==> r == 100.0
  {
    var pct := (position - lo) / (hi - lo) * 100.0;
    PercentOfRange(position, lo, hi);
    Max(0.0, Min(100.0, pct))
  }

  /** Where the percentage of a range lies, depending on where the position lies. */
  lemma PercentOfRange(position: real, lo: real, hi: real)
    requires lo < hi
    ensures position <= lo ==> (position - lo) / (hi - lo) * 100.0 <= 0.0
    ensures lo <= position ==> 0.0 <= (position - lo) / (hi - lo) * 100.0
    ensures position <= hi ==> (position - lo) / (hi - lo) * 100.0 <= 100.0
    ensures hi <= position ==> 100.0 <= (position - lo) / (hi - lo) * 100.0
  {
    var d := hi - lo;
    if position <= hi {
      QuotientAtMostOne(position - lo, d);
    }
    if hi <= position {
      QuotientAtLeastOne(position - lo, d);
    }
  }

  lemma QuotientAtMostOne(a: real, d: real)
    requires 0.0 < d && a <= d
    ensures a / d <= 1.0
  {
  }

  lemma QuotientAtLeastOne(a: real, d: real)
    requires 0.0 < d && d <= a
    ensures 1.0 <= a / d
  {
  }
}
