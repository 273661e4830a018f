/**
 * The RIFF/WAVE container as the track loader reads it, over a byte sequence
 * that stands for the file. A file starts with a 12-byte header ("RIFF",
 * file size, "WAVE") and a 24-byte format chunk ("fmt ", chunk size, then the
 * PCM format fields). Format bytes past the 16 the fixed part holds are
 * skipped. After that, chunks are scanned: a 4-byte tag, a 4-byte
 * little-endian size, then that many bytes. The scan skips exactly `size`
 * bytes; it does not add the pad byte the RIFF form puts after an odd-sized
 * chunk. It stops at the first "data" chunk.
 *
 * A read past the end of the file puts the stream into a failed state, and
 * every later read then fails. This model uses byte positions for that
 * behaviour.
 */
module Wav {
  import opened Numeric

  /** "RIFF", "WAVE", "fmt " and "data" as bytes. */
  const RiffTag: seq<byte> := [0x52, 0x49, 0x46, 0x46]
  const WaveTag: seq<byte> := [0x57, 0x41, 0x56, 0x45]
  const FmtTag: seq<byte> := [0x66, 0x6D, 0x74, 0x20]
  const DataTag: seq<byte> := [0x64, 0x61, 0x74, 0x61]

  /** The packed layouts: header 4 + 4 + 4, format 4 + 4 + 2 + 2 + 4 + 4 + 2 + 2, data header 4 + 4. */
  const HeaderSize: nat := 12
  const FormatSize: nat := 24
  const DataHeaderSize: nat := 8

  datatype WavHeader = WavHeader(fileSize: nat)

  datatype WavFormat = WavFormat(
    chunkSize: nat,
    audioFormat: nat,
    numChannels: nat,
    sampleRate: nat,
    byteRate: nat,
    blockAlign: nat,
    bitsPerSample: nat)

  /**
   * The data chunk the scan stopped at: its declared size, where its bytes
   * begin, and whether the stream is still good. The stream is not good when
   * the tag was read but the size field was cut off by the end of the file.
   */
  datatype DataChunk = DataChunk(dataSize: nat, start: nat, streamGood: bool)

  datatype ParsedWav = ParsedWav(header: WavHeader, format: WavFormat, data: DataChunk)

  /** Every field fits its width in the packed layout. */
  predicate FormatFits(f: WavFormat)
  {
    && f.chunkSize < U32_LIMIT && f.audioFormat < 0x1_0000 && f.numChannels < 0x1_0000
    && f.sampleRate < U32_LIMIT && f.byteRate < U32_LIMIT
    && f.blockAlign < 0x1_0000 && f.bitsPerSample < 0x1_0000
  }

  lemma Pow256Values()
    ensures Pow256(2) == 0x1_0000 && Pow256(3) == 0x100_0000 && Pow256(4) == U32_LIMIT
  {
    assert Pow256(1) == 256;
  }

  /** The format chunk's fields, read little-endian from the 24 bytes at `at`. */
  function ReadFormat(b: seq<byte>, at: nat): (f: WavFormat)
    requires at + FormatSize <= |b|
    ensures FormatFits(f)
  {
    LittleEndianBound(b, at + 4, 4);
    LittleEndianBound(b, at + 8, 2);
    LittleEndianBound(b, at + 10, 2);
    LittleEndianBound(b, at + 12, 4);
    LittleEndianBound(b, at + 16, 4);
    LittleEndianBound(b, at + 20, 2);
    LittleEndianBound(b, at + 22, 2);
    Pow256Values();
    WavFormat(
      LittleEndian(b, at + 4, 4), LittleEndian(b, at + 8, 2), LittleEndian(b, at + 10, 2),
      LittleEndian(b, at + 12, 4), LittleEndian(b, at + 16, 4),
      LittleEndian(b, at + 20, 2), LittleEndian(b, at + 22, 2))
  }

  /** The measure the chunk scan decreases: the bytes left after `pos`. */
  function Remaining(b: seq<byte>, pos: nat): nat
  {
    if pos <= |b| then |b| - pos else 0
  }

  /**
   * The chunk scan from `pos`. It stops at the first "data" chunk. It fails
   * when a tag cannot be read in full. When a tag is read but its size is cut
   * off, a "data" tag still ends the scan, now on a failed stream; any other
   * tag ends it with a failure.
   */
  function FindData(b: seq<byte>, pos: nat): (r: Option<DataChunk>)
    ensures r.Some? ==> pos + 4 <= |b| && r.value.start <= |b|
    ensures r.Some? && r.value.streamGood ==> pos + 8 <= r.value.start
    ensures r.Some? && !r.value.streamGood ==> r.value.start == |b| && r.value.dataSize == 0
    decreases Remaining(b, pos)
  {
    if pos + 4 > |b| then None
    else if pos + 8 > |b| then
      (if b[pos..pos + 4] == DataTag then Some(DataChunk(0, |b|, false)) else None)
    else
      var size := LittleEndian(b, pos + 4, 4);
      if b[pos..pos + 4] == DataTag then Some(DataChunk(size, pos + 8, true))
      else
        var r := FindData(b, pos + 8 + size);
        if r.Some? then r else None
  }

  /** Where the chunk scan begins: after the format chunk, plus any format bytes past the fixed 16. */
  function ScanStart(f: WavFormat): (start: nat)
    ensures start >= HeaderSize + FormatSize
    ensures f.chunkSize >= 16 ==> start == HeaderSize + 8 + f.chunkSize
  {
    HeaderSize + FormatSize + (if f.chunkSize > 16 then f.chunkSize - 16 else 0)
  }

  /**
   * The whole header parse. It fails when the file is too short for the
   * header or the format chunk. It also fails when "RIFF", "WAVE" or "fmt "
   * is not where it belongs, or when the scan finds no data chunk.
   */
  function ParseWav(b: seq<byte>): (r: Option<ParsedWav>)
    ensures r.Some? ==>
              |b| >= HeaderSize + FormatSize && b[0..4] == RiffTag && b[8..12] == WaveTag && b[12..16] == FmtTag
    ensures r.Some? ==> r.value.format == ReadFormat(b, HeaderSize) && FindData(b, ScanStart(r.value.format)) == Some(r.value.data)
  {
    if |b| < HeaderSize || b[0..4] != RiffTag || b[8..12] != WaveTag then None
    else if |b| < HeaderSize + FormatSize || b[12..16] != FmtTag then None
    else
      var f := ReadFormat(b, HeaderSize);
      match FindData(b, ScanStart(f))
      case None => None
      case Some(d) => Some(ParsedWav(WavHeader(LittleEndian(b, 4, 4)), f, d))
  }

  /**
   * The header parse as the loader runs it: checks of the fixed header and
   * the format tag, then a loop that reads a tag and a size and skips the
   * chunk's bytes, until it reads a "data" tag or reaches the end.
   */
  method ParseWAVHeader(b: seq<byte>) returns (r: Option<ParsedWav>)
    ensures r == ParseWav(b)
  {
    if |b| < HeaderSize || b[0..4] != RiffTag || b[8..12] != WaveTag {
      return None;
    }
    if |b| < HeaderSize + FormatSize || b[12..16] != FmtTag {
      return None;
    }
    var header := WavHeader(LittleEndian(b, 4, 4));
    var format := ReadFormat(b, HeaderSize);
    var pos: nat := HeaderSize + FormatSize;
    if format.chunkSize > 16 {
      pos := pos + (format.chunkSize - 16);
    }
    var data := ScanChunks(b, pos);
    if data.None? {
      return None;
    }
    return Some(ParsedWav(header, format, data.value));
  }

  /** The chunk loop of the header parse: read a tag and a size, skip the chunk, until a "data" tag or the end. */
  method ScanChunks(b: seq<byte>, from: nat) returns (r: Option<DataChunk>)
    ensures r == FindData(b, from)
  {
    var pos: nat := from;
    while pos + 4 <= |b|
      invariant FindData(b, pos) == FindData(b, from)
      decreases Remaining(b, pos)
    {
      var tag := b[pos..pos + 4];
      if pos + 8 > |b| {
        if tag == DataTag {
          return Some(DataChunk(0, |b|, false));
        }
        return None;
      }
      var chunkSize := LittleEndian(b, pos + 4, 4);
      if tag == DataTag {
        return Some(DataChunk(chunkSize, pos + 8, true));
      }
      pos := pos + 8 + chunkSize;
    }
    return None;
  }

  /** A scan that ends on a good stream ends just after a "data" tag and its size, inside the file. */
  lemma {:induction false} FindDataFindsDataTag(b: seq<byte>, pos: nat)
    ensures var r := FindData(b, pos);
      r.Some? && r.value.streamGood ==>
        pos + 8 <= r.value.start <= |b| && b[r.value.start - 8..r.value.start - 4] == DataTag
    decreases Remaining(b, pos)
  {
    if pos + 8 <= |b| && b[pos..pos + 4] != DataTag {
      FindDataFindsDataTag(b, pos + 8 + LittleEndian(b, pos + 4, 4));
    }
  }

  /**
   * Whether the loader, as written, goes on to convert samples. The parse
   * must succeed on a good stream, and the declared data size must not run
   * past the end of the file.
   */
  predicate AcceptedAsWritten(b: seq<byte>)
    ensures AcceptedAsWritten(b) ==>
              ParseWav(b).Some? && |b| >= HeaderSize + FormatSize + 8 + ParseWav(b).value.data.dataSize
  {
    match ParseWav(b)
    case None => false
    case Some(p) => p.data.streamGood && p.data.start + p.data.dataSize <= |b|
  }

  /**
   * A format the rest of the track can use. The sample count divides by the
   * channel count and the conversion divides by the bytes per sample, so both
   * must be non-zero.
   */
  predicate UsableFormat(f: WavFormat)
  {
    f.numChannels > 0 && f.bitsPerSample >= 8
  }

  /** Whether the loader, with the format check added, converts samples. */
  predicate Accepted(b: seq<byte>)
    ensures Accepted(b) ==> AcceptedAsWritten(b)
    ensures Accepted(b) ==> ParseWav(b).value.format.numChannels > 0 && ParseWav(b).value.format.bitsPerSample / 8 > 0
  {
    AcceptedAsWritten(b) && UsableFormat(ParseWav(b).value.format)
  }

  // ---------------------------------------------------------------------
  // Writing a canonical file, and reading it back
  // ---------------------------------------------------------------------

  /** The 12-byte header for a file whose payload is `payloadSize` bytes. */
  function HeaderBytes(payloadSize: nat): (b: seq<byte>)
    ensures |b| == HeaderSize
  {
    RiffTag + ToLittleEndian(36 + payloadSize, 4) + WaveTag
  }

  /** The 24-byte format chunk with chunk size 16 (no extra format bytes). */
  function FormatBytes(f: WavFormat): (b: seq<byte>)
    ensures |b| == FormatSize
  {
    FmtTag + ToLittleEndian(16, 4)
    + ToLittleEndian(f.audioFormat, 2) + ToLittleEndian(f.numChannels, 2)
    + ToLittleEndian(f.sampleRate, 4) + ToLittleEndian(f.byteRate, 4)
    + ToLittleEndian(f.blockAlign, 2) + ToLittleEndian(f.bitsPerSample, 2)
  }

  /** The 8-byte data chunk header. */
  function DataHeaderBytes(payloadSize: nat): (b: seq<byte>)
    ensures |b| == DataHeaderSize
  {
    DataTag + ToLittleEndian(payloadSize, 4)
  }

  /** A canonical 44-byte-header file holding `payload` in its data chunk. */
  function WavBytes(f: WavFormat, payload: seq<byte>): (b: seq<byte>)
    ensures |b| == 44 + |payload|
  {
    HeaderBytes(|payload|) + FormatBytes(f) + DataHeaderBytes(|payload|) + payload
  }

  /** A little-endian read inside `m` gives the same value when `m` sits inside a longer sequence. */
  lemma {:induction false} LittleEndianInContext(pre: seq<byte>, m: seq<byte>, post: seq<byte>, k: nat, n: nat)
    requires k + n <= |m|
    ensures LittleEndian(pre + m + post, |pre| + k, n) == LittleEndian(m, k, n)
    decreases n
  {
    if n > 0 {
      assert (pre + m + post)[|pre| + k] == m[k];
      LittleEndianInContext(pre, m, post, k + 1, n - 1);
    }
  }

  /** Reading back a field written at offset `k` of `m`. */
  lemma ReadField(m: seq<byte>, k: nat, v: nat, n: nat)
    requires k + n <= |m| && m[k..k + n] == ToLittleEndian(v, n) && v < Pow256(n)
    ensures LittleEndian(m, k, n) == v
  {
    assert m == m[..k] + ToLittleEndian(v, n) + m[k + n..];
    LittleEndianRoundTrip(m[..k], v, n, m[k + n..]);
  }

  /** Where each field of the format chunk sits. */
  lemma FormatBytesParts(f: WavFormat)
    ensures var m := FormatBytes(f);
      && m[4..8] == ToLittleEndian(16, 4)
      && m[8..10] == ToLittleEndian(f.audioFormat, 2) && m[10..12] == ToLittleEndian(f.numChannels, 2)
      && m[12..16] == ToLittleEndian(f.sampleRate, 4) && m[16..20] == ToLittleEndian(f.byteRate, 4)
      && m[20..22] == ToLittleEndian(f.blockAlign, 2) && m[22..24] == ToLittleEndian(f.bitsPerSample, 2)
  {
  }

  lemma ReadFormatBack(f: WavFormat)
    requires FormatFits(f)
    ensures ReadFormat(FormatBytes(f), 0) == f.(chunkSize := 16)
  {
    Pow256Values();
    var m := FormatBytes(f);
    FormatBytesParts(f);
    ReadField(m, 4, 16, 4);
    ReadField(m, 8, f.audioFormat, 2);
    ReadField(m, 10, f.numChannels, 2);
    ReadField(m, 12, f.sampleRate, 4);
    ReadField(m, 16, f.byteRate, 4);
    ReadField(m, 20, f.blockAlign, 2);
    ReadField(m, 22, f.bitsPerSample, 2);
  }

  /** Where the tags of a canonical file sit, and the two sizes it declares. */
  lemma WavBytesLayout(f: WavFormat, payload: seq<byte>)
    requires 36 + |payload| < U32_LIMIT
    ensures var b := WavBytes(f, payload);
      && b[0..4] == RiffTag && b[8..12] == WaveTag && b[12..16] == FmtTag && b[36..40] == DataTag
      && b[44..] == payload
      && LittleEndian(b, 4, 4) == 36 + |payload| && LittleEndian(b, 40, 4) == |payload|
  {
    WavBytesTags(f, payload);
    WavBytesFileSize(f, payload);
    WavBytesDataSize(f, payload);
  }

  lemma WavBytesTags(f: WavFormat, payload: seq<byte>)
    ensures var b := WavBytes(f, payload);
      && b[0..4] == RiffTag && b[8..12] == WaveTag && b[12..16] == FmtTag && b[36..40] == DataTag
      && b[44..] == payload
  {
    var b := WavBytes(f, payload);
    var h := HeaderBytes(|payload|);
    var d := DataHeaderBytes(|payload|);
    assert b[0..12] == h;
    assert b[12..36] == FormatBytes(f);
    assert b[36..44] == d;
  }

  lemma WavBytesFileSize(f: WavFormat, payload: seq<byte>)
    requires 36 + |payload| < U32_LIMIT
    ensures LittleEndian(WavBytes(f, payload), 4, 4) == 36 + |payload|
  {
    Pow256Values();
    var h := HeaderBytes(|payload|);
    var rest := FormatBytes(f) + DataHeaderBytes(|payload|) + payload;
    assert WavBytes(f, payload) == [] + h + rest;
    assert h[4..8] == ToLittleEndian(36 + |payload|, 4);
    ReadField(h, 4, 36 + |payload|, 4);
    LittleEndianInContext([], h, rest, 4, 4);
  }

  lemma WavBytesDataSize(f: WavFormat, payload: seq<byte>)
    requires 36 + |payload| < U32_LIMIT
    ensures LittleEndian(WavBytes(f, payload), 40, 4) == |payload|
  {
    Pow256Values();
    var front := HeaderBytes(|payload|) + FormatBytes(f);
    var d := DataHeaderBytes(|payload|);
    assert WavBytes(f, payload) == front + d + payload;
    assert d[4..8] == ToLittleEndian(|payload|, 4);
    ReadField(d, 4, |payload|, 4);
    LittleEndianInContext(front, d, payload, 4, 4);
  }

  /** The format fields of a canonical file read back as written, with chunk size 16. */
  lemma WavBytesFormat(f: WavFormat, payload: seq<byte>)
    requires FormatFits(f)
    ensures |WavBytes(f, payload)| >= HeaderSize + FormatSize
    ensures ReadFormat(WavBytes(f, payload), HeaderSize) == f.(chunkSize := 16)
  {
    var h := HeaderBytes(|payload|);
    var fm := FormatBytes(f);
    var rest := DataHeaderBytes(|payload|) + payload;
    var b := WavBytes(f, payload);
    assert b == h + fm + rest;
    ReadFormatBack(f);
    forall k: nat, n: nat | k + n <= FormatSize
      ensures LittleEndian(b, HeaderSize + k, n) == LittleEndian(fm, k, n)
    {
      LittleEndianInContext(h, fm, rest, k, n);
    }
  }

  /**
   * Round trip: the parse of a canonical file gives back its format (with
   * chunk size 16) and finds the data right after the 44-byte header. The
   * loader as written then accepts it, and the payload is the bytes it
   * converts.
   */
  lemma ParseWavBytes(f: WavFormat, payload: seq<byte>)
    requires FormatFits(f) && 36 + |payload| < U32_LIMIT
    ensures ParseWav(WavBytes(f, payload))
         == Some(ParsedWav(WavHeader(36 + |payload|), f.(chunkSize := 16), DataChunk(|payload|, 44, true)))
    ensures AcceptedAsWritten(WavBytes(f, payload))
    ensures WavBytes(f, payload)[44..] == payload
  {
    var b := WavBytes(f, payload);
    WavBytesLayout(f, payload);
    WavBytesFormat(f, payload);
    assert ScanStart(f.(chunkSize := 16)) == 36;
    assert FindData(b, 36) == Some(DataChunk(|payload|, 44, true));
  }

  /**
   * As written, the loader accepts a well-formed file that declares zero
   * channels. The frame count (`samples / numChannels`) then divides by zero.
   * With the format check the file is refused.
   */
  lemma ZeroChannelFileAcceptedAsWritten()
    ensures var b := WavBytes(WavFormat(16, 1, 0, 44100, 0, 0, 16), [0, 0]);
      && AcceptedAsWritten(b)
      && ParseWav(b).value.format.numChannels == 0
      && !Accepted(b)
  {
    ParseWavBytes(WavFormat(16, 1, 0, 44100, 0, 0, 16), [0, 0]);
  }

  /**
   * As written, the loader accepts a well-formed file with 4 bits per sample.
   * The conversion's sample count (`size / (bits / 8)`) then divides by zero.
   * With the format check the file is refused.
   */
  lemma SubByteDepthFileAcceptedAsWritten()
    ensures var b := WavBytes(WavFormat(16, 1, 1, 8000, 4000, 1, 4), [0x12]);
      && AcceptedAsWritten(b)
      && ParseWav(b).value.format.bitsPerSample / 8 == 0
      && !Accepted(b)
  {
    ParseWavBytes(WavFormat(16, 1, 1, 8000, 4000, 1, 4), [0x12]);
  }

  // ---------------------------------------------------------------------
  // PCM decoding
  // ---------------------------------------------------------------------

  lemma Pow256Even(n: nat)
    requires n >= 1
    ensures Pow256(n) % 2 == 0 && Pow256(n) / 2 * 2 == Pow256(n)
  {
  }

  /** The signed two's-complement value of the `n` little-endian bytes at `at`. */
  function SignedLE(b: seq<byte>, at: nat, n: nat): (v: int)
    requires n >= 1 && at + n <= |b|
    ensures -(Pow256(n) / 2) <= v < Pow256(n) / 2
  {
    LittleEndianBound(b, at, n);
    Pow256Even(n);
    var u := LittleEndian(b, at, n);
    if u >= Pow256(n) / 2 then u - Pow256(n) else u
  }

  /**
   * The 24-bit sample at `at` as the source assembles it. The three bytes
   * are or-ed into place, bit 23 is tested, and 0xFF000000 is or-ed in when
   * it is set. The bytes occupy disjoint bits, so the or is their weighted
   * sum. Bit 23 is set exactly when the high byte is at least 128, and or-ing
   * in the top byte of an int32 subtracts 2^24. The result is the 24-bit
   * two's-complement value.
   */
  function Int24At(b: seq<byte>, at: nat): (v: int)
    requires at + 3 <= |b|
    ensures v == SignedLE(b, at, 3)
    ensures -0x80_0000 <= v <= 0x7F_FFFF
  {
    Pow256Values();
    var value := (b[at + 2] as int) * 0x1_0000 + (b[at + 1] as int) * 0x100 + b[at];
    assert LittleEndian(b, at, 3) == value;
    if b[at + 2] >= 128 then value - 0x100_0000 else value
  }

  /** 8-bit samples are unsigned with 128 as the centre: `(b - 128) / 128`. */
  function DecodePcm8(raw: seq<byte>): (s: seq<real>)
    ensures |s| == |raw|
    ensures forall i :: 0 <= i < |s| ==> -1.0 <= s[i] < 1.0
    ensures forall i :: 0 <= i < |s| ==> s[i] == ((raw[i] as real) - 128.0) / 128.0
  {
    seq(|raw|, i requires 0 <= i < |raw| => ((raw[i] as real) - 128.0) / 128.0)
  }

  /** 16-bit samples are signed little-endian over 32768; an odd trailing byte is ignored. */
  function DecodePcm16(raw: seq<byte>): (s: seq<real>)
    ensures |s| == |raw| / 2
    ensures forall i :: 0 <= i < |s| ==> -1.0 <= s[i] < 1.0
    ensures forall i :: 0 <= i < |s| ==> s[i] == (SignedLE(raw, 2 * i, 2) as real) / 32768.0
  {
    Pow256Values();
    seq(|raw| / 2, i requires 0 <= i < |raw| / 2 => (SignedLE(raw, 2 * i, 2) as real) / 32768.0)
  }

  /** 24-bit samples are sign-extended little-endian over 8388608; trailing bytes are ignored. */
  function DecodePcm24(raw: seq<byte>): (s: seq<real>)
    ensures |s| == |raw| / 3
    ensures forall i :: 0 <= i < |s| ==> -1.0 <= s[i] < 1.0
    ensures forall i :: 0 <= i < |s| ==> s[i] == (Int24At(raw, 3 * i) as real) / 8388608.0
  {
    seq(|raw| / 3, i requires 0 <= i < |raw| / 3 => (Int24At(raw, 3 * i) as real) / 8388608.0)
  }

  /**
   * 32-bit samples. When the first four bytes, read as an IEEE-754 float, lie
   * in `[-1, 1]`, every sample is read as a float (`asFloat`). Otherwise
   * every sample is a signed little-endian integer over 2^31. With fewer than
   * four bytes there are no samples, whichever branch the test would take.
   */
  function DecodePcm32(raw: seq<byte>, asFloat: seq<byte> -> real): (s: seq<real>)
    ensures |s| == |raw| / 4
    ensures |raw| >= 4 && -1.0 <= asFloat(raw[..4]) <= 1.0 ==>
              forall i :: 0 <= i < |s| ==> s[i] == asFloat(raw[4 * i..4 * i + 4])
    ensures |raw| >= 4 && !(-1.0 <= asFloat(raw[..4]) <= 1.0) ==>
              forall i :: 0 <= i < |s| ==> -1.0 <= s[i] < 1.0 && s[i] == (SignedLE(raw, 4 * i, 4) as real) / 2147483648.0
  {
    Pow256Values();
    var n := |raw| / 4;
    if n == 0 then []
    else if -1.0 <= asFloat(raw[..4]) <= 1.0 then
      seq(n, i requires 0 <= i < n => asFloat(raw[4 * i..4 * i + 4]))
    else
      seq(n, i requires 0 <= i < n => (SignedLE(raw, 4 * i, 4) as real) / 2147483648.0)
  }

  /** A resize to `n`: the old prefix survives and new slots are 0. */
  function Resized(s: seq<real>, n: nat): (r: seq<real>)
    ensures |r| == n
    ensures forall i :: 0 <= i < n ==> r[i] == if i < |s| then s[i] else 0.0
  {
    if n <= |s| then s[..n] else s + seq(n - |s|, _ => 0.0)
  }

  /**
   * What the float conversion leaves in the buffer for `bits` per sample.
   * The count is the byte count over the bytes per sample. Depths other than
   * 8, 16, 24 and 32 only resize the old buffer.
   */
  function Converted(prior: seq<real>, raw: seq<byte>, bits: nat, asFloat: seq<byte> -> real): (s: seq<real>)
    requires bits >= 8
    ensures |s| == |raw| / (bits / 8)
  {
    if bits == 8 then DecodePcm8(raw)
    else if bits == 16 then DecodePcm16(raw)
    else if bits == 24 then DecodePcm24(raw)
    else if bits == 32 then DecodePcm32(raw, asFloat)
    else Resized(prior, |raw| / (bits / 8))
  }

  // ---------------------------------------------------------------------
  // Encoding PCM, and decoding it back
  // ---------------------------------------------------------------------

  /** `v` as `n` two's-complement little-endian bytes. */
  function EncodeSigned(v: int, n: nat): (b: seq<byte>)
    requires n >= 1 && -(Pow256(n) / 2) <= v < Pow256(n) / 2
    ensures |b| == n
  {
    ToLittleEndian(if v < 0 then v + Pow256(n) else v, n)
  }

  /** Reading back a signed value written anywhere in a byte sequence. */
  lemma SignedRoundTrip(pre: seq<byte>, v: int, n: nat, post: seq<byte>)
    requires n >= 1 && -(Pow256(n) / 2) <= v < Pow256(n) / 2
    ensures SignedLE(pre + EncodeSigned(v, n) + post, |pre|, n) == v
  {
    Pow256Even(n);
    LittleEndianRoundTrip(pre, if v < 0 then v + Pow256(n) else v, n, post);
  }

  predicate InSignedRange(vs: seq<int>, n: nat)
  {
    forall i :: 0 <= i < |vs| ==> -(Pow256(n) / 2) <= vs[i] < Pow256(n) / 2
  }

  /** A sequence of integer samples as `n`-byte PCM. */
  function EncodePcm(vs: seq<int>, n: nat): (b: seq<byte>)
    requires n >= 1 && InSignedRange(vs, n)
    ensures |b| == n * |vs|
  {
    if vs == [] then [] else EncodePcm(vs[..|vs| - 1], n) + EncodeSigned(vs[|vs| - 1], n)
  }

  /** Sample `i` of encoded PCM sits at `n * i`, between the samples before it and the ones after. */
  lemma {:induction false} EncodePcmSplit(vs: seq<int>, n: nat, i: nat)
    requires n >= 1 && InSignedRange(vs, n) && i < |vs|
    ensures exists post :: EncodePcm(vs, n) == EncodePcm(vs[..i], n) + EncodeSigned(vs[i], n) + post
    ensures |EncodePcm(vs[..i], n)| == n * i
  {
    if i == |vs| - 1 {
      assert vs[..|vs| - 1] == vs[..i];
      assert EncodePcm(vs, n) == EncodePcm(vs[..i], n) + EncodeSigned(vs[i], n) + [];
    } else {
      var init := vs[..|vs| - 1];
      assert init[..i] == vs[..i] && init[i] == vs[i];
      EncodePcmSplit(init, n, i);
      var post :| EncodePcm(init, n) == EncodePcm(init[..i], n) + EncodeSigned(init[i], n) + post;
      assert EncodePcm(vs, n) == EncodePcm(vs[..i], n) + EncodeSigned(vs[i], n) + (post + EncodeSigned(vs[|vs| - 1], n));
    }
  }

  /** Every sample of encoded PCM reads back as written. */
  lemma EncodePcmReadBack(vs: seq<int>, n: nat, i: nat)
    requires n >= 1 && InSignedRange(vs, n) && i < |vs|
    ensures n * i + n <= |EncodePcm(vs, n)|
    ensures SignedLE(EncodePcm(vs, n), n * i, n) == vs[i]
  {
    EncodePcmSplit(vs, n, i);
    var post :| EncodePcm(vs, n) == EncodePcm(vs[..i], n) + EncodeSigned(vs[i], n) + post;
    SignedRoundTrip(EncodePcm(vs[..i], n), vs[i], n, post);
  }

  /** 16-bit round trip: encoding integer samples and converting them gives each sample over 32768. */
  lemma Pcm16RoundTrip(vs: seq<int>)
    requires InSignedRange(vs, 2)
    ensures |DecodePcm16(EncodePcm(vs, 2))| == |vs|
    ensures forall i :: 0 <= i < |vs| ==> DecodePcm16(EncodePcm(vs, 2))[i] == (vs[i] as real) / 32768.0
  {
    var s := DecodePcm16(EncodePcm(vs, 2));
    forall i | 0 <= i < |vs|
      ensures s[i] == (vs[i] as real) / 32768.0
    {
      EncodePcmReadBack(vs, 2, i);
    }
  }

  /** 24-bit round trip: the sign extension recovers every negative sample. */
  lemma Pcm24RoundTrip(vs: seq<int>)
    requires InSignedRange(vs, 3)
    ensures |DecodePcm24(EncodePcm(vs, 3))| == |vs|
    ensures forall i :: 0 <= i < |vs| ==> DecodePcm24(EncodePcm(vs, 3))[i] == (vs[i] as real) / 8388608.0
  {
    var s := DecodePcm24(EncodePcm(vs, 3));
    forall i | 0 <= i < |vs|
      ensures s[i] == (vs[i] as real) / 8388608.0
    {
      EncodePcmReadBack(vs, 3, i);
    }
  }
}
