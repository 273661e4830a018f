/**
 * The waveform visualizer: holds a copy of a sample buffer and turns it into
 * one min/max point per pixel column. Column `x` summarizes the interleaved
 * samples `[x * spp, min((x + 1) * spp, size))`, where `spp` (samples per
 * pixel) is the buffer size over width times zoom, truncated, and at least 1.
 * Both extremes start at 0, so every point straddles the zero line.
 */
module Waveform {
  import opened Numeric

  /** One pixel column: its index and the extremes of its span. */
  datatype WaveformPoint = WaveformPoint(x: nat, minAmplitude: real, maxAmplitude: real)

  /**
   * Samples per pixel column: `size / (width * zoom)` truncated toward zero,
   * raised to 1 when that is 0.
   */
  function SamplesPerPixel(size: nat, width: nat, zoom: real): (spp: nat)
    requires width > 0 && zoom > 0.0
    ensures spp >= 1
    ensures spp == 1 || (spp as real) <= (size as real) / ((width as real) * zoom) < (spp + 1) as real
  {
    var q := ((size as real) / ((width as real) * zoom)).Floor;
    if q <= 0 then 1 else q
  }

  /** Column `x` as the source builds it: the span's extremes, each taken together with 0. */
  function PointAt(s: seq<real>, x: nat, spp: nat): (p: WaveformPoint)
    ensures p.x == x
    ensures p.minAmplitude <= 0.0 <= p.maxAmplitude
    ensures forall v :: v in Span(s, x, spp) ==> p.minAmplitude <= v <= p.maxAmplitude
  {
    var span := Span(s, x, spp);
    WaveformPoint(x, MinWithZero(span), MaxWithZero(span))
  }

  /** A column past the end of the buffer is the flat point (0, 0). */
  lemma ColumnPastEndIsFlat(s: seq<real>, x: nat, spp: nat)
    requires x * spp >= |s|
    ensures PointAt(s, x, spp).minAmplitude == 0.0 && PointAt(s, x, spp).maxAmplitude == 0.0
  {
  }

  /** The inner loop of a column: running extremes over `s[from..to]`, both started at 0. */
  method RunningExtremes(s: seq<real>, from: nat, to: nat) returns (minAmplitude: real, maxAmplitude: real)
    requires from <= to <= |s|
    ensures minAmplitude == MinWithZero(s[from..to])
    ensures maxAmplitude == MaxWithZero(s[from..to])
  {
    minAmplitude, maxAmplitude := 0.0, 0.0;
    for i := from to to
      invariant minAmplitude == MinWithZero(s[from..i])
      invariant maxAmplitude == MaxWithZero(s[from..i])
    {
      var sample := s[i];
      MinWithZeroStep(s, from, i);
      MaxWithZeroStep(s, from, i);
      minAmplitude := if sample < minAmplitude then sample else minAmplitude;
      maxAmplitude := if sample > maxAmplitude then sample else maxAmplitude;
    }
  }

  class WaveformVisualizer {
    var samples: seq<real>
    var cache: seq<WaveformPoint>
    var zoom: real
    var stereoDisplay: bool

    ghost predicate Valid()
      reads this
    {
      zoom > 0.0
    }

    /** Zoom 1, stereo display, no samples and an empty cache. */
    constructor ()
      ensures Valid()
      ensures zoom == 1.0 && stereoDisplay && samples == [] && cache == []
    {
      samples := [];
      cache := [];
      zoom := 1.0;
      stereoDisplay := true;
    }

    /** Keeps a copy of the buffer; the cache is left as it was. */
    method SetAudioData(data: seq<real>)
      modifies this`samples
      ensures samples == data
    {
      samples := data;
    }

    /** Empties both the samples and the cache. */
    method ClearAudioData()
      modifies this`samples, this`cache
      ensures samples == [] && cache == []
    {
      samples := [];
      cache := [];
    }

    /**
     * One point per pixel column, rebuilt into the cache: none for an empty
     * buffer or a zero width, otherwise exactly `pixelWidth` points, point `i`
     * at x = i summarizing column i's span. The height is not used.
     */
    method GenerateWaveformPoints(pixelWidth: nat, pixelHeight: nat) returns (points: seq<WaveformPoint>)
      requires Valid()
      modifies this`cache
      ensures cache == points
      ensures samples == [] || pixelWidth == 0 ==> points == []
      ensures samples != [] && pixelWidth > 0 ==>
                var spp := SamplesPerPixel(|samples|, pixelWidth, zoom);
                && |points| == pixelWidth
                && forall i :: 0 <= i < pixelWidth ==> points[i] == PointAt(samples, i, spp)
    {
      cache := [];
      if samples == [] || pixelWidth == 0 {
        return cache;
      }
      var spp := SamplesPerPixel(|samples|, pixelWidth, zoom);
      for x := 0 to pixelWidth
        invariant |cache| == x
        invariant forall i :: 0 <= i < x ==> cache[i] == PointAt(samples, i, spp)
      {
        var point := ColumnPoint(x, spp);
        cache := cache + [point];
      }
      points := cache;
    }

    /** Column `x`'s point: the inner loop over its span, keeping running extremes that start at 0. */
    method ColumnPoint(x: nat, spp: nat) returns (point: WaveformPoint)
      ensures point == PointAt(samples, x, spp)
    {
      var sampleStart := x * spp;
      var sampleEnd := if sampleStart + spp < |samples| then sampleStart + spp else |samples|;
      SpanBetween(samples, x, spp, sampleStart, sampleEnd);
      var minAmplitude, maxAmplitude := 0.0, 0.0;
      if sampleStart < sampleEnd {
        minAmplitude, maxAmplitude := RunningExtremes(samples, sampleStart, sampleEnd);
      }
      point := WaveformPoint(x, minAmplitude, maxAmplitude);
    }

    /** The largest magnitude in the buffer, 0 when it is empty. */
    method GetPeakAmplitude() returns (peak: real)
      ensures peak == PeakAbs(samples)
    {
      peak := 0.0;
      for k := 0 to |samples|
        invariant peak == PeakAbs(samples[..k])
      {
        assert samples[..k + 1][..k] == samples[..k];
        var a := Abs(samples[k]);
        peak := if peak < a then a else peak;
      }
      assert samples[..|samples|] == samples;
    }

    /**
     * The mean of the squared samples, 0 when the buffer is empty; the RMS
     * amplitude is its square root.
     */
    method GetMeanSquare() returns (ms: real)
      ensures ms == MeanSquare(samples)
    {
      if samples == [] {
        return 0.0;
      }
      var sumSquares := 0.0;
      for k := 0 to |samples|
        invariant sumSquares == SumOfSquares(samples[..k])
      {
        assert samples[..k + 1][..k] == samples[..k];
        sumSquares := sumSquares + samples[k] * samples[k];
      }
      assert samples[..|samples|] == samples;
      ms := sumSquares / (|samples| as real);
    }

    /** Adopts a positive zoom; zero or negative is ignored. */
    method SetZoomLevel(zoomFactor: real)
      requires Valid()
      modifies this`zoom
      ensures Valid()
      ensures zoom == if zoomFactor > 0.0 then zoomFactor else old(zoom)
    {
      if zoomFactor > 0.0 {
        zoom := zoomFactor;
      }
    }

    method SetDisplayMode(stereo: bool)
      modifies this`stereoDisplay
      ensures stereoDisplay == stereo
    {
      stereoDisplay := stereo;
    }
  }
}
