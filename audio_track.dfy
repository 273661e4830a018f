/**
 * An audio track: a buffer of interleaved float samples with its sample
 * rate, channel count and bit depth, plus a name, a file path, and clamped
 * volume and pan. Loading from a file names the track after the path, tries
 * the WAV reader, and, when that fails, fills the buffer with a 5-second
 * stereo test tone.
 *
 * The file is `Option<seq<byte>>`: `None` when it cannot be opened.
 * Floating-point content comes in as parameters. `tone` is the un-enveloped
 * sine value per frame. `asFloat` reads four bytes as an IEEE-754
 * single-precision value.
 */
module Tracks {
  import opened Numeric
  import opened Wav

  // ---------------------------------------------------------------------
  // The track name taken from the file path
  // ---------------------------------------------------------------------

  predicate IsSeparator(c: char)
  {
    c == '/' || c == '\\'
  }

  /** The index of the last '/' or '\\' in `s`, if any. */
  function LastSeparator(s: string): (r: Option<nat>)
    ensures r.Some? ==> r.value < |s| && IsSeparator(s[r.value])
    ensures r.Some? ==> forall j :: r.value < j < |s| ==> !IsSeparator(s[j])
    ensures r.None? ==> forall j :: 0 <= j < |s| ==> !IsSeparator(s[j])
  {
    if s == [] then None
    else if IsSeparator(s[|s| - 1]) then Some(|s| - 1)
    else LastSeparator(s[..|s| - 1])
  }

  /** The index of the last '.' in `s`, if any. */
  function LastDot(s: string): (r: Option<nat>)
    ensures r.Some? ==> r.value < |s| && s[r.value] == '.'
    ensures r.Some? ==> forall j :: r.value < j < |s| ==> s[j] != '.'
    ensures r.None? ==> forall j :: 0 <= j < |s| ==> s[j] != '.'
  {
    if s == [] then None
    else if s[|s| - 1] == '.' then Some(|s| - 1)
    else LastDot(s[..|s| - 1])
  }

  /** The last separator is at `k` when `s[k]` is one and none follows it. */
  lemma LastSeparatorAt(s: string, k: nat)
    requires k < |s| && IsSeparator(s[k])
    requires forall j :: k < j < |s| ==> !IsSeparator(s[j])
    ensures LastSeparator(s) == Some(k)
  {
  }

  /** The last dot is at `k` when `s[k]` is one and none follows it. */
  lemma LastDotAt(s: string, k: nat)
    requires k < |s| && s[k] == '.'
    requires forall j :: k < j < |s| ==> s[j] != '.'
    ensures LastDot(s) == Some(k)
  {
  }

  /**
   * The track name for `path`. When the path has both a separator and a dot,
   * the name starts after the last separator and runs up to the last dot. If
   * that dot comes before the separator, the unsigned length wraps around and
   * the name runs to the end. Otherwise the name is the whole path.
   */
  function ExtractName(path: string): (name: string)
    ensures |name| <= |path|
    ensures LastSeparator(path).Some? && LastDot(path).Some? ==> |name| < |path|
  {
    var lastSlash, lastDot := LastSeparator(path), LastDot(path);
    if lastSlash.None? || lastDot.None? then path
    else if lastDot.value > lastSlash.value then path[lastSlash.value + 1..lastDot.value]
    else path[lastSlash.value + 1..]
  }

  /**
   * What the name is, in terms of the path: the whole path when it lacks a
   * separator or a dot. Otherwise it is a run without separators. With the
   * last dot after the last separator, the path is the directory part with
   * its separator, the name, then the extension from the dot. With the last
   * dot before it, the name is the whole tail after the separator.
   */
  lemma ExtractNameShape(path: string)
    ensures LastSeparator(path).None? || LastDot(path).None? ==> ExtractName(path) == path
    ensures LastSeparator(path).Some? && LastDot(path).Some? ==>
              var slash, dot, name := LastSeparator(path).value, LastDot(path).value, ExtractName(path);
              && NoSeparators(name)
              && (dot > slash ==> path == path[..slash + 1] + name + path[dot..])
              && (dot < slash ==> path == path[..slash + 1] + name)
  {
    if LastSeparator(path).Some? && LastDot(path).Some? {
      NameHasNoSeparator(path);
      NameSplitsPath(path);
    }
  }

  lemma NameHasNoSeparator(path: string)
    requires LastSeparator(path).Some? && LastDot(path).Some?
    ensures NoSeparators(ExtractName(path))
  {
    var slash, dot := LastSeparator(path).value, LastDot(path).value;
    if dot > slash {
      assert ExtractName(path) == path[slash + 1..dot];
      NoSeparatorAfter(path, slash, dot);
    } else {
      assert ExtractName(path) == path[slash + 1..|path|];
      NoSeparatorAfter(path, slash, |path|);
    }
  }

  lemma NameSplitsPath(path: string)
    requires LastSeparator(path).Some? && LastDot(path).Some?
    ensures var slash, dot := LastSeparator(path).value, LastDot(path).value;
      && (dot > slash ==> path == path[..slash + 1] + ExtractName(path) + path[dot..])
      && (dot < slash ==> path == path[..slash + 1] + ExtractName(path))
  {
    var slash, dot := LastSeparator(path).value, LastDot(path).value;
    SplitAround(path, slash, dot, ExtractName(path));
  }

  /** A path is its head up to `slash`, then `name`, then the tail from `dot` when that lies beyond. */
  lemma SplitAround(path: string, slash: nat, dot: nat, name: string)
    requires slash < |path| && dot < |path|
    requires name == if dot > slash then path[slash + 1..dot] else path[slash + 1..]
    ensures dot > slash ==> path == path[..slash + 1] + name + path[dot..]
    ensures dot < slash ==> path == path[..slash + 1] + name
  {
    if dot > slash {
      assert path == path[..slash + 1] + path[slash + 1..dot] + path[dot..];
    } else {
      assert path == path[..slash + 1] + path[slash + 1..];
    }
  }

  /** The characters after the last separator hold no separator. */
  lemma NoSeparatorAfter(path: string, slash: nat, to: nat)
    requires slash < to <= |path|
    requires forall j :: slash < j < |path| ==> !IsSeparator(path[j])
    ensures NoSeparators(path[slash + 1..to])
  {
    var name := path[slash + 1..to];
    forall k | 0 <= k < |name|
      ensures !IsSeparator(name[k])
    {
      assert name[k] == path[slash + 1 + k];
    }
  }

  predicate NoSeparators(s: string)
  {
    forall k :: 0 <= k < |s| ==> !IsSeparator(s[k])
  }

  /**
   * A path `dir/base.ext`, where the base holds no separator and the
   * extension neither a separator nor a dot, names the track `base`; the base
   * itself may hold dots.
   */
  lemma NameOfFile(dir: string, base: string, ext: string)
    requires forall k :: 0 <= k < |base| ==> !IsSeparator(base[k])
    requires forall k :: 0 <= k < |ext| ==> !IsSeparator(ext[k]) && ext[k] != '.'
    ensures ExtractName(dir + "/" + base + "." + ext) == base
  {
    var path := dir + "/" + base + "." + ext;
    var slash, dot := |dir|, |dir| + 1 + |base|;
    assert forall j :: slash < j < |path| ==> path[j] == if j < dot then base[j - slash - 1] else if j == dot then '.' else ext[j - dot - 1];
    LastSeparatorAt(path, slash);
    LastDotAt(path, dot);
    assert path[slash + 1..dot] == base;
  }

  /**
   * When the only dots are in the directory part, the length wraps around and
   * the name is everything after the last separator.
   */
  lemma NameWhenDotInDirectory(dir: string, file: string)
    requires '.' in dir
    requires forall k :: 0 <= k < |file| ==> !IsSeparator(file[k]) && file[k] != '.'
    ensures ExtractName(dir + "/" + file) == file
  {
    var path := dir + "/" + file;
    var slash := |dir|;
    assert forall j :: slash < j < |path| ==> path[j] == file[j - slash - 1];
    LastSeparatorAt(path, slash);
    var d :| 0 <= d < |dir| && dir[d] == '.';
    assert path[d] == '.';
    assert LastDot(path).Some? && LastDot(path).value < slash;
    assert path[slash + 1..] == file;
  }

  // ---------------------------------------------------------------------
  // The fallback test tone
  // ---------------------------------------------------------------------

  const FallbackRate: nat := 44100
  /** Five seconds of frames at 44100 Hz. */
  const FallbackFrames: nat := 220500
  /** The length of each fade, in frames: a tenth of the rate. */
  const FadeFrames: nat := 4410

  /**
   * The fade envelope: up from 0 over the first 4410 frames, 1 in the middle,
   * and down over the frames after 216090.
   */
  function Envelope(i: nat): (e: real)
    ensures 0.0 <= e <= 1.0
  {
    if i < FadeFrames then (i as real) / (FadeFrames as real)
    else if i > FallbackFrames - FadeFrames then
      (if i <= FallbackFrames then ((FallbackFrames - i) as real) / (FadeFrames as real) else 0.0)
    else 1.0
  }

  /** Frame `i` of the fallback: the tone under the envelope. */
  function FallbackSample(tone: nat -> real, i: nat): (v: real)
    ensures Abs(v) <= Abs(tone(i))
  {
    var e := Envelope(i);
    ScaledDown(tone(i), e);
    tone(i) * e
  }

  lemma ScaledDown(x: real, e: real)
    requires 0.0 <= e <= 1.0
    ensures Abs(x * e) <= Abs(x)
  {
    if x >= 0.0 {
      assert x * e <= x * 1.0;
    } else {
      assert x * e >= x * 1.0;
    }
  }

  /** The fallback starts silent whatever the tone, and is at full level between the two fades. */
  lemma FallbackFades(tone: nat -> real, i: nat)
    ensures FallbackSample(tone, 0) == 0.0
    ensures FadeFrames <= i <= FallbackFrames - FadeFrames ==> FallbackSample(tone, i) == tone(i)
  {
  }

  /** Seconds of audio: frames over the rate, or 0 when the buffer is empty or the rate 0. */
  function DurationSeconds(size: nat, channels: nat, rate: nat): (d: real)
    requires channels > 0 || size == 0 || rate == 0
    ensures d >= 0.0
    ensures size == 0 || rate == 0 ==> d == 0.0
    ensures rate > 0 && size > 0 ==> channels > 0 && d * (rate as real) == (size / channels) as real
  {
    if size == 0 || rate == 0 then 0.0 else ((size / channels) as real) / (rate as real)
  }

  /** The fallback buffer: frame `i` of the enveloped tone on both channels, interleaved. */
  function FallbackBuffer(tone: nat -> real): (b: seq<real>)
    ensures |b| == 2 * FallbackFrames
  {
    seq(2 * FallbackFrames, k requires 0 <= k < 2 * FallbackFrames => FallbackSample(tone, k / 2))
  }

  /**
   * The fallback lasts exactly five seconds at 44100 Hz stereo, both channels
   * carry the same frame, and it starts in silence.
   */
  lemma FallbackBufferShape(tone: nat -> real)
    ensures DurationSeconds(|FallbackBuffer(tone)|, 2, FallbackRate) == 5.0
    ensures forall i :: 0 <= i < FallbackFrames ==>
              FallbackBuffer(tone)[2 * i] == FallbackBuffer(tone)[2 * i + 1] == FallbackSample(tone, i)
    ensures FallbackBuffer(tone)[0] == 0.0 && FallbackBuffer(tone)[1] == 0.0
  {
    var b := FallbackBuffer(tone);
    assert |b| / 2 == FallbackFrames;
    forall i | 0 <= i < FallbackFrames
      ensures b[2 * i] == b[2 * i + 1] == FallbackSample(tone, i)
    {
      FrameOfPair(i);
    }
    FrameOfPair(0);
    FallbackFades(tone, 0);
  }

  lemma FrameOfPair(i: nat)
    ensures (2 * i) / 2 == i && (2 * i + 1) / 2 == i
  {
  }

  // ---------------------------------------------------------------------
  // Sample access
  // ---------------------------------------------------------------------

  /**
   * Sample `channel` of frame `index`, or 0 when the channel does not exist,
   * the buffer is empty, or the position is past the end.
   */
  function SampleAt(samples: seq<real>, channels: nat, index: nat, channel: nat): (v: real)
    ensures channel < channels && index * channels + channel < |samples| ==> v == samples[index * channels + channel]
    ensures channel >= channels || index * channels + channel >= |samples| ==> v == 0.0
  {
    if channel >= channels || samples == [] then 0.0
    else
      var k := index * channels + channel;
      if k >= |samples| then 0.0 else samples[k]
  }

  lemma FramePositionBound(index: nat, channel: nat, channels: nat, frames: nat)
    requires index < frames && channel < channels
    ensures index * channels + channel < frames * channels
  {
    assert (index + 1) * channels <= frames * channels;
  }

  /**
   * Storing `frames` frames of `channels` interleaved samples and then reading
   * any frame and channel gives back the stored value.
   */
  lemma StoreThenRead(data: seq<real>, frames: nat, channels: nat, index: nat, channel: nat)
    requires |data| >= frames * channels && index < frames && channel < channels
    ensures index * channels + channel < |data|
    ensures SampleAt(data[..frames * channels], channels, index, channel) == data[index * channels + channel]
  {
    FramePositionBound(index, channel, channels, frames);
  }

  /** Every whole frame lies inside the buffer. */
  lemma FrameFits(size: nat, channels: nat, j: nat)
    requires channels > 0 && j < size / channels
    ensures j * channels + channels <= size
  {
    assert (j + 1) * channels <= (size / channels) * channels;
  }

  /** The mean over the channels of whole frame `j`. */
  function FrameAverage(samples: seq<real>, channels: nat, j: nat): real
    requires channels > 0 && j < |samples| / channels
  {
    FrameFits(|samples|, channels, j);
    Sum(samples[j * channels..j * channels + channels]) / (channels as real)
  }

  /** One average per whole frame; a trailing partial frame is ignored. */
  function FrameAverages(samples: seq<real>, channels: nat): (avgs: seq<real>)
    requires channels > 0
    ensures |avgs| == |samples| / channels
    ensures forall j :: 0 <= j < |avgs| ==> avgs[j] == FrameAverage(samples, channels, j)
  {
    seq(|samples| / channels, j requires 0 <= j < |samples| / channels => FrameAverage(samples, channels, j))
  }

  /** Frames per envelope point: frames over points, at least 1. */
  function FramesPerPoint(frames: nat, numPoints: nat): (n: nat)
    requires numPoints > 0
    ensures n >= 1
  {
    if frames / numPoints > 1 then frames / numPoints else 1
  }

  /**
   * The envelope the track reports for `numPoints` points: empty for an empty
   * buffer or no points. Otherwise point `i` holds the extremes, each taken
   * together with 0, of the frame averages in its span.
   */
  function PeakEnvelope(samples: seq<real>, channels: nat, numPoints: nat): (r: (seq<real>, seq<real>))
    requires channels > 0 || samples == [] || numPoints == 0
    ensures samples == [] || numPoints == 0 ==> r.0 == [] && r.1 == []
    ensures samples != [] && numPoints > 0 ==> |r.0| == numPoints && |r.1| == numPoints
    ensures forall i :: 0 <= i < |r.0| && i < |r.1| ==> r.0[i] <= 0.0 <= r.1[i]
  {
    if samples == [] || numPoints == 0 then ([], [])
    else
      var avgs := FrameAverages(samples, channels);
      var spp := FramesPerPoint(|avgs|, numPoints);
      (seq(numPoints, i requires 0 <= i < numPoints => MinWithZero(Span(avgs, i, spp))),
       seq(numPoints, i requires 0 <= i < numPoints => MaxWithZero(Span(avgs, i, spp))))
  }

  /** A point whose span starts past the last frame is the flat pair (0, 0). */
  lemma EnvelopePastEndIsFlat(samples: seq<real>, channels: nat, numPoints: nat, i: nat)
    requires channels > 0 && samples != [] && i < numPoints
    requires i * FramesPerPoint(|samples| / channels, numPoints) >= |samples| / channels
    ensures PeakEnvelope(samples, channels, numPoints).0[i] == 0.0
    ensures PeakEnvelope(samples, channels, numPoints).1[i] == 0.0
  {
  }

  /** Each point's extremes bound the average of every frame in its span. */
  lemma EnvelopeBoundsSpan(samples: seq<real>, channels: nat, numPoints: nat, i: nat)
    requires channels > 0 && samples != [] && i < numPoints
    ensures var spp := FramesPerPoint(|samples| / channels, numPoints);
      forall v :: v in Span(FrameAverages(samples, channels), i, spp) ==>
        PeakEnvelope(samples, channels, numPoints).0[i] <= v <= PeakEnvelope(samples, channels, numPoints).1[i]
  {
  }

  /** Averages computed frame by frame from `from` on are the matching slice of FrameAverages. */
  lemma AveragesSlice(samples: seq<real>, channels: nat, from: nat, to: nat, seen: seq<real>)
    requires channels > 0 && from <= to <= |samples| / channels && |seen| == to - from
    requires forall k :: 0 <= k < |seen| ==> seen[k] == FrameAverage(samples, channels, from + k)
    ensures FrameAverages(samples, channels)[from..to] == seen
  {
  }

  class AudioTrack {
    var name: string
    var filePath: string
    var samples: seq<real>
    var sampleRate: nat
    var numChannels: nat
    var bitsPerSample: nat
    var volume: real
    var pan: real
    var muted: bool
    var soloed: bool

    /** The clamped setters keep volume in `[0, 1]` and pan in `[-1, 1]`. */
    ghost predicate Valid()
      reads this
    {
      0.0 <= volume <= 1.0 && -1.0 <= pan <= 1.0
    }

    /** 44100 Hz stereo 16-bit, empty; full volume, centred, neither muted nor soloed. */
    constructor ()
      ensures Valid()
      ensures sampleRate == 44100 && numChannels == 2 && bitsPerSample == 16
      ensures volume == 1.0 && pan == 0.0 && !muted && !soloed
      ensures samples == [] && name == "" && filePath == ""
    {
      name := "";
      filePath := "";
      samples := [];
      sampleRate := 44100;
      numChannels := 2;
      bitsPerSample := 16;
      volume := 1.0;
      pan := 0.0;
      muted := false;
      soloed := false;
    }

    /** Frames in the buffer: samples over channels. */
    function GetNumSamples(): (frames: nat)
      reads this
      requires numChannels > 0
      ensures frames * numChannels <= |samples| < frames * numChannels + numChannels
    {
      |samples| / numChannels
    }

    /** An empty track lasts no time and reads 0 at every frame and channel. */
    predicate IsEmpty()
      reads this
      ensures IsEmpty() ==> samples == [] && DurationSeconds(|samples|, numChannels, sampleRate) == 0.0
      ensures IsEmpty() ==> forall index: nat, channel: nat :: SampleAt(samples, numChannels, index, channel) == 0.0
    {
      samples == []
    }

    function GetDurationSeconds(): (d: real)
      reads this
      requires numChannels > 0 || samples == [] || sampleRate == 0
      ensures d >= 0.0
      ensures d == DurationSeconds(|samples|, numChannels, sampleRate)
    {
      DurationSeconds(|samples|, numChannels, sampleRate)
    }

    /** Sample `channel` of frame `index`; 0 for a missing channel, an empty buffer or a position past the end. */
    function GetSample(index: nat, channel: nat): (v: real)
      reads this
      ensures v == SampleAt(samples, numChannels, index, channel)
    {
      if channel >= numChannels || samples == [] then 0.0
      else
        var k := index * numChannels + channel;
        if k >= |samples| then 0.0 else samples[k]
    }

    /**
     * Names the track after the path, then tries the WAV reader. When the
     * reader fails, the buffer becomes the fallback tone: 44100 Hz, stereo,
     * 16-bit, 220500 frames, the same sample on both channels. The result is
     * true either way.
     */
    method LoadFromFile(path: string, file: Option<seq<byte>>, tone: nat -> real, asFloat: seq<byte> -> real)
      returns (ok: bool)
      modifies this`filePath, this`name, this`samples, this`sampleRate, this`numChannels, this`bitsPerSample
      ensures ok
      ensures filePath == path && name == ExtractName(path)
      ensures numChannels > 0
      ensures file.Some? && Accepted(file.value) ==>
                var p := ParseWav(file.value).value;
                && sampleRate == p.format.sampleRate && numChannels == p.format.numChannels
                && bitsPerSample == p.format.bitsPerSample
                && samples == Converted(old(samples), file.value[p.data.start..p.data.start + p.data.dataSize],
                                        bitsPerSample, asFloat)
      ensures !(file.Some? && Accepted(file.value)) ==>
                && sampleRate == FallbackRate && numChannels == 2 && bitsPerSample == 16
                && samples == FallbackBuffer(tone)
    {
      filePath := path;
      name := ExtractName(path);
      var loaded := LoadWAV(file, asFloat);
      if !loaded {
        GenerateTestTone(tone);
      }
      return true;
    }

    /** The fallback: 44100 Hz stereo 16-bit, five seconds of the enveloped tone on both channels. */
    method GenerateTestTone(tone: nat -> real)
      modifies this`samples, this`sampleRate, this`numChannels, this`bitsPerSample
      ensures sampleRate == FallbackRate && numChannels == 2 && bitsPerSample == 16
      ensures samples == FallbackBuffer(tone)
    {
      sampleRate := 44100;
      numChannels := 2;
      bitsPerSample := 16;
      var numSamples := sampleRate * 5;
      samples := Resized(samples, numSamples * numChannels);
      for i := 0 to numSamples
        modifies this`samples
        invariant |samples| == 2 * FallbackFrames
        invariant forall k :: 0 <= k < 2 * i ==> samples[k] == FallbackSample(tone, k / 2)
      {
        var sample := FallbackSample(tone, i);
        samples := samples[i * numChannels := sample];
        samples := samples[i * numChannels + 1 := sample];
      }
    }

    /**
     * Takes `numSamples` frames of `channels` interleaved samples, marks the
     * depth as 32-bit float, and reports true.
     */
    method LoadFromMemory(data: seq<real>, numSamples: nat, rate: nat, channels: nat) returns (ok: bool)
      requires |data| >= numSamples * channels
      modifies this`samples, this`sampleRate, this`numChannels, this`bitsPerSample
      ensures ok
      ensures sampleRate == rate && numChannels == channels && bitsPerSample == 32
      ensures samples == data[..numSamples * channels]
    {
      sampleRate := rate;
      numChannels := channels;
      bitsPerSample := 32;
      samples := data[..numSamples * channels];
      return true;
    }

    /**
     * The WAV reader, with one check added to the source's: a format with no
     * channels or fewer than 8 bits per sample is refused. The format fields
     * are stored once the parse succeeds. A data chunk running past the end
     * of the file then fails without touching the buffer.
     */
    method LoadWAV(file: Option<seq<byte>>, asFloat: seq<byte> -> real) returns (ok: bool)
      modifies this`samples, this`sampleRate, this`numChannels, this`bitsPerSample
      ensures ok <==> file.Some? && Accepted(file.value)
      ensures ok ==>
                var p := ParseWav(file.value).value;
                && sampleRate == p.format.sampleRate && numChannels == p.format.numChannels
                && bitsPerSample == p.format.bitsPerSample
                && samples == Converted(old(samples), file.value[p.data.start..p.data.start + p.data.dataSize],
                                        bitsPerSample, asFloat)
      ensures ok ==> numChannels > 0 && bitsPerSample >= 8
      ensures !ok ==> samples == old(samples)
    {
      if file.None? {
        return false;
      }
      var bytes := file.value;
      var parsed := ParseWAVHeader(bytes);
      if parsed.None? {
        return false;
      }
      var format := parsed.value.format;
      if !UsableFormat(format) {
        return false;
      }
      sampleRate := format.sampleRate;
      numChannels := format.numChannels;
      bitsPerSample := format.bitsPerSample;
      var data := parsed.value.data;
      if !data.streamGood || data.start + data.dataSize > |bytes| {
        return false;
      }
      var raw := bytes[data.start..data.start + data.dataSize];
      ConvertToFloat(raw, bitsPerSample, asFloat);
      return true;
    }

    /**
     * Replaces the buffer with `raw` decoded at `bits` per sample. The buffer
     * is first resized to the sample count, then each slot is written; depths
     * other than 8, 16, 24 and 32 keep the resized buffer as it is.
     */
    method ConvertToFloat(raw: seq<byte>, bits: nat, asFloat: seq<byte> -> real)
      requires bits >= 8
      modifies this`samples
      ensures samples == Converted(old(samples), raw, bits, asFloat)
    {
      var n := |raw| / (bits / 8);
      samples := Resized(samples, n);
      if bits == 8 {
        Fill8(raw);
      } else if bits == 16 {
        Fill16(raw);
      } else if bits == 24 {
        Fill24(raw);
      } else if bits == 32 {
        if n > 0 && -1.0 <= asFloat(raw[..4]) <= 1.0 {
          samples := seq(n, i requires 0 <= i < n => asFloat(raw[4 * i..4 * i + 4]));
        } else {
          Fill32(raw, asFloat);
        }
      }
    }

    /** The 8-bit loop: unsigned bytes centred on 128. */
    method Fill8(raw: seq<byte>)
      requires |samples| == |raw|
      modifies this`samples
      ensures samples == DecodePcm8(raw)
    {
      for i := 0 to |raw|
        invariant |samples| == |raw|
        invariant forall k :: 0 <= k < i ==> samples[k] == DecodePcm8(raw)[k]
      {
        samples := samples[i := ((raw[i] as real) - 128.0) / 128.0];
      }
    }

    /** The 16-bit loop: signed little-endian pairs over 2^15. */
    method Fill16(raw: seq<byte>)
      requires |samples| == |raw| / 2
      modifies this`samples
      ensures samples == DecodePcm16(raw)
    {
      for i := 0 to |raw| / 2
        invariant |samples| == |raw| / 2
        invariant forall k :: 0 <= k < i ==> samples[k] == DecodePcm16(raw)[k]
      {
        samples := samples[i := (SignedLE(raw, 2 * i, 2) as real) / 32768.0];
      }
    }

    /** The 24-bit loop: three bytes assembled and sign-extended, over 2^23. */
    method Fill24(raw: seq<byte>)
      requires |samples| == |raw| / 3
      modifies this`samples
      ensures samples == DecodePcm24(raw)
    {
      for i := 0 to |raw| / 3
        invariant |samples| == |raw| / 3
        invariant forall k :: 0 <= k < i ==> samples[k] == DecodePcm24(raw)[k]
      {
        samples := samples[i := (Int24At(raw, 3 * i) as real) / 8388608.0];
      }
    }

    /** The 32-bit integer loop, taken when the first sample does not read as a float in `[-1, 1]`. */
    method Fill32(raw: seq<byte>, asFloat: seq<byte> -> real)
      requires |samples| == |raw| / 4
      requires |raw| < 4 || !(-1.0 <= asFloat(raw[..4]) <= 1.0)
      modifies this`samples
      ensures samples == DecodePcm32(raw, asFloat)
    {
      for i := 0 to |raw| / 4
        invariant |samples| == |raw| / 4
        invariant forall k :: 0 <= k < i ==> samples[k] == DecodePcm32(raw, asFloat)[k]
      {
        samples := samples[i := (SignedLE(raw, 4 * i, 4) as real) / 2147483648.0];
      }
    }

    /** Clamps the volume to `[0, 1]`. */
    method SetVolume(v: real)
      requires Valid()
      modifies this`volume
      ensures Valid()
      ensures volume == Clamp(v, 0.0, 1.0)
    {
      volume := Clamp(v, 0.0, 1.0);
    }

    /** Clamps the pan to `[-1, 1]`. */
    method SetPan(p: real)
      requires Valid()
      modifies this`pan
      ensures Valid()
      ensures pan == Clamp(p, -1.0, 1.0)
    {
      pan := Clamp(p, -1.0, 1.0);
    }

    method SetName(n: string)
      modifies this`name
      ensures name == n
    {
      name := n;
    }

    method SetMuted(m: bool)
      modifies this`muted
      ensures muted == m
    {
      muted := m;
    }

    method SetSoloed(s: bool)
      modifies this`soloed
      ensures soloed == s
    {
      soloed := s;
    }

    /** Empties the buffer and forgets the path; the name and the format fields stay. */
    method Clear()
      modifies this`samples, this`filePath
      ensures samples == [] && filePath == "" && IsEmpty()
    {
      samples := [];
      filePath := "";
    }

    /** The largest magnitude in the buffer, 0 when it is empty. */
    method GetPeakAmplitude() returns (peak: real)
      ensures peak == PeakAbs(samples)
    {
      peak := 0.0;
      for k := 0 to |samples|
        invariant peak == PeakAbs(samples[..k])
      {
        assert samples[..k + 1][..k] == samples[..k];
        var a := Abs(samples[k]);
        peak := if peak < a then a else peak;
      }
      assert samples[..|samples|] == samples;
    }

    /** The mean of the squared samples, 0 when the buffer is empty; the RMS amplitude is its square root. */
    method GetMeanSquare() returns (ms: real)
      ensures ms == MeanSquare(samples)
    {
      if samples == [] {
        return 0.0;
      }
      var sumSquares := 0.0;
      for k := 0 to |samples|
        invariant sumSquares == SumOfSquares(samples[..k])
      {
        assert samples[..k + 1][..k] == samples[..k];
        sumSquares := sumSquares + samples[k] * samples[k];
      }
      assert samples[..|samples|] == samples;
      ms := sumSquares / (|samples| as real);
    }

    /**
     * The min/max envelope over `numPoints` points. Each frame's channels
     * are averaged, and each point spans `max(1, frames / numPoints)` frames.
     */
    method GetPeakAmplitudes(numPoints: nat) returns (minValues: seq<real>, maxValues: seq<real>)
      requires numChannels > 0 || samples == [] || numPoints == 0
      ensures minValues == PeakEnvelope(samples, numChannels, numPoints).0
      ensures maxValues == PeakEnvelope(samples, numChannels, numPoints).1
    {
      if samples == [] || numPoints == 0 {
        return [], [];
      }
      minValues := seq(numPoints, _ => 0.0);
      maxValues := seq(numPoints, _ => 0.0);
      var numSamples := GetNumSamples();
      var samplesPerPoint := if numSamples / numPoints > 1 then numSamples / numPoints else 1;
      ghost var avgs := FrameAverages(samples, numChannels);
      for i := 0 to numPoints
        invariant |minValues| == numPoints && |maxValues| == numPoints
        invariant forall k :: 0 <= k < i ==> minValues[k] == MinWithZero(Span(avgs, k, samplesPerPoint))
        invariant forall k :: 0 <= k < i ==> maxValues[k] == MaxWithZero(Span(avgs, k, samplesPerPoint))
      {
        var minVal, maxVal := PointExtremes(i, samplesPerPoint);
        minValues := minValues[i := minVal];
        maxValues := maxValues[i := maxVal];
      }
      assert samplesPerPoint == FramesPerPoint(|avgs|, numPoints);
      ghost var env := PeakEnvelope(samples, numChannels, numPoints);
      assert minValues == env.0;
      assert maxValues == env.1;
    }

    /** The extremes, each started at 0, of the frame averages in point `i`'s span. */
    method PointExtremes(i: nat, samplesPerPoint: nat) returns (minVal: real, maxVal: real)
      requires numChannels > 0
      ensures minVal == MinWithZero(Span(FrameAverages(samples, numChannels), i, samplesPerPoint))
      ensures maxVal == MaxWithZero(Span(FrameAverages(samples, numChannels), i, samplesPerPoint))
    {
      var numSamples := GetNumSamples();
      var startSample := i * samplesPerPoint;
      var endSample := if startSample + samplesPerPoint < numSamples then startSample + samplesPerPoint else numSamples;
      SpanBetween(FrameAverages(samples, numChannels), i, samplesPerPoint, startSample, endSample);
      minVal, maxVal := 0.0, 0.0;
      if startSample < endSample {
        minVal, maxVal := FrameSpanExtremes(startSample, endSample);
      }
    }

    /** The running minimum and maximum, both started at 0, of the averages of frames `from .. to - 1`. */
    method FrameSpanExtremes(from: nat, to: nat) returns (minVal: real, maxVal: real)
      requires numChannels > 0 && from <= to <= |samples| / numChannels
      ensures minVal == MinWithZero(FrameAverages(samples, numChannels)[from..to])
      ensures maxVal == MaxWithZero(FrameAverages(samples, numChannels)[from..to])
    {
      ghost var seen: seq<real> := [];
      minVal, maxVal := 0.0, 0.0;
      for j := from to to
        invariant |seen| == j - from
        invariant forall k :: 0 <= k < |seen| ==> seen[k] == FrameAverage(samples, numChannels, from + k)
        invariant minVal == MinWithZero(seen) && maxVal == MaxWithZero(seen)
      {
        var avgSample := AverageOfFrame(j);
        MinWithZeroSnoc(seen, avgSample);
        MaxWithZeroSnoc(seen, avgSample);
        minVal := if avgSample < minVal then avgSample else minVal;
        maxVal := if avgSample > maxVal then avgSample else maxVal;
        forall k | 0 <= k < |seen| + 1
          ensures (seen + [avgSample])[k] == FrameAverage(samples, numChannels, from + k)
        {
          if k < |seen| {
            assert (seen + [avgSample])[k] == seen[k];
          } else {
            assert from + k == j && (seen + [avgSample])[k] == avgSample;
          }
        }
        seen := seen + [avgSample];
      }
      AveragesSlice(samples, numChannels, from, to, seen);
    }

    /** The channels of frame `j`, summed through GetSample and divided by the channel count. */
    method AverageOfFrame(j: nat) returns (avg: real)
      requires numChannels > 0 && j < |samples| / numChannels
      ensures avg == FrameAverage(samples, numChannels, j)
    {
      FrameFits(|samples|, numChannels, j);
      var base := j * numChannels;
      var sum := 0.0;
      for ch := 0 to numChannels
        invariant sum == Sum(samples[base..base + ch])
      {
        var v := GetSample(j, ch);
        assert samples[base..base + ch + 1][..ch] == samples[base..base + ch];
        sum := sum + v;
      }
      avg := sum / (numChannels as real);
    }
  }
}
