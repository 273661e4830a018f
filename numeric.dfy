/**
 * Small pieces shared by several components: machine-width bounds, bytes,
 * the clamp used by every volume and pan setter, the min/max-with-zero folds
 * that waveform envelopes are built from, and an Option type.
 */
module Numeric {

  /** One more than the largest `uint32_t`. */
  const U32_LIMIT: int := 0x1_0000_0000

  type byte = x: int | 0 <= x < 256

  datatype Option<+T> = None | Some(value: T)

  function Abs(x: real): real { if x < 0.0 then -x else x }

  function Dist(x: real, y: real): real { Abs(x - y) }

  /**
   * Clamps `x` into `[lo, hi]`, written as the source writes it
   * (`x > hi ? hi : (x < lo ? lo : x)`, the same value as `max(lo, min(hi, x))`).
   */
  function Clamp(x: real, lo: real, hi: real): (r: real)
    requires lo <= hi
    ensures lo <= r <= hi
  {
    if x > hi then hi else if x < lo then lo else x
  }

  /** The clamped value is the point of `[lo, hi]` nearest to `x`. */
  lemma ClampIsNearest(x: real, lo: real, hi: real, y: real)
    requires lo <= hi && lo <= y <= hi
    ensures Dist(Clamp(x, lo, hi), x) <= Dist(y, x)
    ensures lo <= x <= hi ==> Clamp(x, lo, hi) == x
  {
  }

  /** The smaller of 0 and every element of `s` (an accumulator started at 0). */
  function MinWithZero(s: seq<real>): (m: real)
    ensures m <= 0.0
    ensures forall i :: 0 <= i < |s| ==> m <= s[i]
    ensures m == 0.0 || exists i :: 0 <= i < |s| && m == s[i]
  {
    if s == [] then 0.0
    else
      var rest := MinWithZero(s[..|s| - 1]);
      if s[|s| - 1] < rest then s[|s| - 1] else rest
  }

  /** The larger of 0 and every element of `s` (an accumulator started at 0). */
  function MaxWithZero(s: seq<real>): (m: real)
    ensures m >= 0.0
    ensures forall i :: 0 <= i < |s| ==> s[i] <= m
    ensures m == 0.0 || exists i :: 0 <= i < |s| && m == s[i]
  {
    if s == [] then 0.0
    else
      var rest := MaxWithZero(s[..|s| - 1]);
      if s[|s| - 1] > rest then s[|s| - 1] else rest
  }

  /** Extending the sequence by `v` folds `v` into the minimum. */
  lemma MinWithZeroSnoc(s: seq<real>, v: real)
    ensures MinWithZero(s + [v]) == if v < MinWithZero(s) then v else MinWithZero(s)
  {
    assert (s + [v])[..|s|] == s;
  }

  /** Extending the sequence by `v` folds `v` into the maximum. */
  lemma MaxWithZeroSnoc(s: seq<real>, v: real)
    ensures MaxWithZero(s + [v]) == if v > MaxWithZero(s) then v else MaxWithZero(s)
  {
    assert (s + [v])[..|s|] == s;
  }

  /** Extending a slice by its next element folds that element into the minimum. */
  lemma MinWithZeroStep(s: seq<real>, from: nat, j: nat)
    requires from <= j < |s|
    ensures MinWithZero(s[from..j + 1]) == if s[j] < MinWithZero(s[from..j]) then s[j] else MinWithZero(s[from..j])
  {
    assert s[from..j + 1] == s[from..j] + [s[j]];
    MinWithZeroSnoc(s[from..j], s[j]);
  }

  /** Extending a slice by its next element folds that element into the maximum. */
  lemma MaxWithZeroStep(s: seq<real>, from: nat, j: nat)
    requires from <= j < |s|
    ensures MaxWithZero(s[from..j + 1]) == if s[j] > MaxWithZero(s[from..j]) then s[j] else MaxWithZero(s[from..j])
  {
    assert s[from..j + 1] == s[from..j] + [s[j]];
    MaxWithZeroSnoc(s[from..j], s[j]);
  }

  /** The largest absolute value in `s`, or 0 for an empty sequence. */
  function PeakAbs(s: seq<real>): (m: real)
    ensures m >= 0.0
    ensures forall i :: 0 <= i < |s| ==> Abs(s[i]) <= m
    ensures m == 0.0 || exists i :: 0 <= i < |s| && m == Abs(s[i])
  {
    if s == [] then 0.0
    else
      var rest := PeakAbs(s[..|s| - 1]);
      if Abs(s[|s| - 1]) > rest then Abs(s[|s| - 1]) else rest
  }

  function Sum(s: seq<real>): real
  {
    if s == [] then 0.0 else Sum(s[..|s| - 1]) + s[|s| - 1]
  }

  function SumOfSquares(s: seq<real>): (r: real)
    ensures r >= 0.0
  {
    if s == [] then 0.0 else SumOfSquares(s[..|s| - 1]) + s[|s| - 1] * s[|s| - 1]
  }

  /** The mean of the squares: 0 for an empty sequence, the square of the RMS otherwise. */
  function MeanSquare(s: seq<real>): (r: real)
    ensures r >= 0.0
    ensures s == [] ==> r == 0.0
  {
    if s == [] then 0.0 else SumOfSquares(s) / (|s| as real)
  }

  lemma SquareMonotone(a: real, b: real)
    requires 0.0 <= a <= b
    ensures a * a <= b * b
  {
    assert a * a <= a * b;
    assert a * b <= b * b;
  }

  /** A bound on every square bounds the sum of squares by the count times that bound. */
  lemma {:induction false} SumOfSquaresBound(s: seq<real>, b: real)
    requires forall i :: 0 <= i < |s| ==> s[i] * s[i] <= b
    ensures SumOfSquares(s) <= (|s| as real) * b
  {
    if s != [] {
      var init := s[..|s| - 1];
      assert forall i :: 0 <= i < |init| ==> init[i] == s[i];
      SumOfSquaresBound(init, b);
      assert (|s| as real) * b == (|init| as real) * b + b;
    }
  }

  lemma AbsSquare(x: real)
    ensures x * x == Abs(x) * Abs(x)
  {
    if x < 0.0 {
      assert Abs(x) == -x;
    }
  }

  /** Every square is at most the square of a bound on the magnitudes. */
  lemma SquaresAtMost(s: seq<real>, p: real)
    requires forall i :: 0 <= i < |s| ==> Abs(s[i]) <= p
    ensures forall i :: 0 <= i < |s| ==> s[i] * s[i] <= p * p
  {
    forall i | 0 <= i < |s|
      ensures s[i] * s[i] <= p * p
    {
      var x := s[i];
      AbsSquare(x);
      SquareMonotone(Abs(x), p);
    }
  }

  /** A bound on the sum of squares per sample is a bound on the mean square. */
  lemma MeanSquareBound(s: seq<real>, b: real)
    requires s != [] && SumOfSquares(s) <= (|s| as real) * b
    ensures MeanSquare(s) <= b
  {
    var n := |s| as real;
    assert (n * b) / n == b;
  }

  /**
   * The RMS never exceeds an amplitude bound: the mean square is at most the
   * square of any `p` bounding every magnitude, the peak (`PeakAbs`) included.
   */
  lemma MeanSquareAtMost(s: seq<real>, p: real)
    requires forall i :: 0 <= i < |s| ==> Abs(s[i]) <= p
    ensures MeanSquare(s) <= p * p
  {
    if s != [] {
      SquaresAtMost(s, p);
      SumOfSquaresBound(s, p * p);
      MeanSquareBound(s, p * p);
    } else {
      assert 0.0 <= p * p;
    }
  }

  /** Column `x` of a partition of `s` into columns of `spp` elements: from `x * spp` up to the next column or the end, whichever is first. */
  function Span(s: seq<real>, x: nat, spp: nat): (r: seq<real>)
    ensures |r| <= spp
    ensures x * spp < |s| ==> r == s[x * spp..if x * spp + spp < |s| then x * spp + spp else |s|]
    ensures x * spp >= |s| ==> r == []
  {
    var start := x * spp;
    var end := if start + spp < |s| then start + spp else |s|;
    if start < end then s[start..end] else []
  }

  /** Column `x` as a loop computes its bounds: a slice when they are in order, empty otherwise. */
  lemma SpanBetween(s: seq<real>, x: nat, spp: nat, start: nat, end: nat)
    requires start == x * spp && end == if start + spp < |s| then start + spp else |s|
    ensures start < end ==> Span(s, x, spp) == s[start..end]
    ensures start >= end ==> Span(s, x, spp) == []
  {
  }

  /** The spans of columns `0 .. n - 1`, one after the other. */
  function Spans(s: seq<real>, spp: nat, n: nat): seq<real>
  {
    if n == 0 then [] else Spans(s, spp, n - 1) + Span(s, n - 1, spp)
  }

  /**
   * The columns partition the buffer's prefix: laid end to end, the spans of
   * the first `n` columns are exactly the first `min(n * spp, size)` samples,
   * each sample in exactly one column, in order.
   */
  lemma {:induction false} SpansCoverPrefix(s: seq<real>, spp: nat, n: nat)
    requires spp >= 1
    ensures Spans(s, spp, n) == s[..if n * spp < |s| then n * spp else |s|]
  {
    if n > 0 {
      SpansCoverPrefix(s, spp, n - 1);
      assert (n - 1) * spp + spp == n * spp;
    }
  }

  /** The unsigned little-endian value of `b[at..at + n]`. */
  function LittleEndian(b: seq<byte>, at: nat, n: nat): (v: nat)
    requires at + n <= |b|
    decreases n
  {
    if n == 0 then 0 else b[at] + 256 * LittleEndian(b, at + 1, n - 1)
  }

  function Pow256(n: nat): (p: nat)
    ensures p >= 1
  {
    if n == 0 then 1 else 256 * Pow256(n - 1)
  }

  /** An `n`-byte little-endian read is an unsigned `8n`-bit value. */
  lemma {:induction false} LittleEndianBound(b: seq<byte>, at: nat, n: nat)
    requires at + n <= |b|
    ensures LittleEndian(b, at, n) < Pow256(n)
    decreases n
  {
    if n > 0 {
      LittleEndianBound(b, at + 1, n - 1);
    }
  }

  /** The `n` little-endian bytes of `v mod 256^n`: the writer matching `LittleEndian`. */
  function ToLittleEndian(v: nat, n: nat): (b: seq<byte>)
    ensures |b| == n
  {
    if n == 0 then [] else [v % 256] + ToLittleEndian(v / 256, n - 1)
  }

  /** Reading back what `ToLittleEndian` wrote gives the value, wherever it sits. */
  lemma {:induction false} LittleEndianRoundTrip(pre: seq<byte>, v: nat, n: nat, post: seq<byte>)
    requires v < Pow256(n)
    ensures LittleEndian(pre + ToLittleEndian(v, n) + post, |pre|, n) == v
    decreases n
  {
    if n > 0 {
      var b := pre + ToLittleEndian(v, n) + post;
      var pre' := pre + [v % 256];
      assert b == pre' + ToLittleEndian(v / 256, n - 1) + post;
      LittleEndianRoundTrip(pre', v / 256, n - 1, post);
    }
  }
}
