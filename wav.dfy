/**
 * The canonical 44-byte header of a mono, 16-bit linear-PCM WAV file
 * (Microsoft RIFF "WAVE"): a RIFF chunk, a "fmt " chunk and a "data" chunk,
 * each serialised to little-endian bytes.
 */
module Wav {
  import opened Bytes

  const RiffMark: seq<Byte> := Ascii("RIFF")
  const WaveMark: seq<Byte> := Ascii("WAVE")
  const FmtMark: seq<Byte> := Ascii("fmt ")
  const DataMark: seq<Byte> := Ascii("data")

  /** Fixed fields of the fmt chunk for one channel of 16-bit PCM. */
  const FmtSize: UInt32 := 16
  const PcmFormat: UInt16 := 1
  const NumChannels: UInt16 := 1
  const BlockAlign: UInt16 := 2
  const BitsPerSample: UInt16 := 16

  /** Length of the three chunks together; the audio samples follow it. */
  const HeaderSize: nat := 44

  /** `fileSize` counts the whole file minus the 8 bytes of "RIFF" and itself. */
  datatype RIFFHeader = RIFFHeader(fileSize: UInt32)
  {
    function Data(): (d: seq<Byte>)
      ensures |d| == 12
      ensures d[..4] == RiffMark && d[8..] == WaveMark
      ensures FromLittleEndian(d[4..8]) == fileSize
    {
      Pow256Values();
      DecodeEncodeInRange(fileSize, 4);
      var d := RiffMark + LittleEndian(fileSize, 4) + WaveMark;
      assert d[4..8] == LittleEndian(fileSize, 4);
      d
    }
  }

  /** The fmt chunk; its other fields are the fixed constants above. */
  datatype Format = Format(sampleRate: UInt32, byteRate: UInt32)
  {
    function Data(): (d: seq<Byte>)
      ensures |d| == 24
      ensures d[..4] == FmtMark
      ensures FromLittleEndian(d[4..8]) == FmtSize
      ensures FromLittleEndian(d[8..10]) == PcmFormat
      ensures FromLittleEndian(d[10..12]) == NumChannels
      ensures FromLittleEndian(d[12..16]) == sampleRate
      ensures FromLittleEndian(d[16..20]) == byteRate
      ensures FromLittleEndian(d[20..22]) == BlockAlign
      ensures FromLittleEndian(d[22..24]) == BitsPerSample
    {
      Pow256Values();
      DecodeEncodeInRange(FmtSize, 4);
      DecodeEncodeInRange(PcmFormat, 2);
      DecodeEncodeInRange(NumChannels, 2);
      DecodeEncodeInRange(sampleRate, 4);
      DecodeEncodeInRange(byteRate, 4);
      DecodeEncodeInRange(BlockAlign, 2);
      DecodeEncodeInRange(BitsPerSample, 2);
      var head := FmtMark + LittleEndian(FmtSize, 4) + LittleEndian(PcmFormat, 2) + LittleEndian(NumChannels, 2);
      var tail := LittleEndian(sampleRate, 4) + LittleEndian(byteRate, 4)
        + LittleEndian(BlockAlign, 2) + LittleEndian(BitsPerSample, 2);
      FourParts(FmtMark, LittleEndian(FmtSize, 4), LittleEndian(PcmFormat, 2), LittleEndian(NumChannels, 2));
      FourParts(LittleEndian(sampleRate, 4), LittleEndian(byteRate, 4),
        LittleEndian(BlockAlign, 2), LittleEndian(BitsPerSample, 2));
      SliceOfAppendLeft(head, tail, 0, 4);
      SliceOfAppendLeft(head, tail, 4, 8);
      SliceOfAppendLeft(head, tail, 8, 10);
      SliceOfAppendLeft(head, tail, 10, 12);
      SliceOfAppendRight(head, tail, 12, 16);
      SliceOfAppendRight(head, tail, 16, 20);
      SliceOfAppendRight(head, tail, 20, 22);
      SliceOfAppendRight(head, tail, 22, 24);
      head + tail
    }
  }

  /**
   * `Format.init(sampleRate:)`: the byte rate is sampleRate * numChannels *
   * (bitsPerSample / 8) in UInt32 arithmetic, which traps on overflow.
   */
  function NewFormat(sampleRate: UInt32): (f: Format)
    requires sampleRate * 2 < 0x1_0000_0000
    ensures f.sampleRate == sampleRate
    ensures f.byteRate == 2 * sampleRate
    ensures f.byteRate == f.sampleRate * NumChannels * BitsPerSample / 8
  {
    Format(sampleRate, sampleRate * NumChannels * (BitsPerSample / 8))
  }

  datatype DataHeader = DataHeader(dataSize: UInt32)
  {
    function Data(): (d: seq<Byte>)
      ensures |d| == 8
      ensures d[..4] == DataMark
      ensures FromLittleEndian(d[4..]) == dataSize
    {
      Pow256Values();
      DecodeEncodeInRange(dataSize, 4);
      var d := DataMark + LittleEndian(dataSize, 4);
      assert d[4..] == LittleEndian(dataSize, 4);
      d
    }
  }

  datatype Headers = Headers(riffHeader: RIFFHeader, format: Format, dataHeader: DataHeader)
  {
    /** The 44 header bytes, with every field at its absolute offset in the file. */
    function Data(): (d: seq<Byte>)
      ensures |d| == HeaderSize
      ensures d[0..4] == RiffMark && d[8..12] == WaveMark
      ensures d[12..16] == FmtMark && d[36..40] == DataMark
      ensures FromLittleEndian(d[4..8]) == riffHeader.fileSize
      ensures FromLittleEndian(d[16..20]) == FmtSize
      ensures FromLittleEndian(d[20..22]) == PcmFormat
      ensures FromLittleEndian(d[22..24]) == NumChannels
      ensures FromLittleEndian(d[24..28]) == format.sampleRate
      ensures FromLittleEndian(d[28..32]) == format.byteRate
      ensures FromLittleEndian(d[32..34]) == BlockAlign
      ensures FromLittleEndian(d[34..36]) == BitsPerSample
      ensures FromLittleEndian(d[40..44]) == dataHeader.dataSize
    {
      var r, f, h := riffHeader.Data(), format.Data(), dataHeader.Data();
      var d := r + f + h;
      ThreeParts(r, f, h);
      RIFFHeaderAt(d, riffHeader);
      FormatAt(d, format);
      DataHeaderAt(d, dataHeader);
      d
    }
  }

  lemma RIFFHeaderAt(d: seq<Byte>, h: RIFFHeader)
    requires |d| >= 12 && d[0..12] == h.Data()
    ensures d[0..4] == RiffMark && d[8..12] == WaveMark
    ensures FromLittleEndian(d[4..8]) == h.fileSize
  {
    var r := h.Data();
    SliceWithin(d, r, 0, 0, 4);
    SliceWithin(d, r, 0, 4, 8);
    SliceWithin(d, r, 0, 8, 12);
  }

  lemma FormatAt(d: seq<Byte>, f: Format)
    requires |d| >= 36 && d[12..36] == f.Data()
    ensures d[12..16] == FmtMark
    ensures FromLittleEndian(d[16..20]) == FmtSize
    ensures FromLittleEndian(d[20..22]) == PcmFormat
    ensures FromLittleEndian(d[22..24]) == NumChannels
    ensures FromLittleEndian(d[24..28]) == f.sampleRate
    ensures FromLittleEndian(d[28..32]) == f.byteRate
    ensures FromLittleEndian(d[32..34]) == BlockAlign
    ensures FromLittleEndian(d[34..36]) == BitsPerSample
  {
    var m := f.Data();
    SliceWithin(d, m, 12, 0, 4);
    SliceWithin(d, m, 12, 4, 8);
    SliceWithin(d, m, 12, 8, 10);
    SliceWithin(d, m, 12, 10, 12);
    SliceWithin(d, m, 12, 12, 16);
    SliceWithin(d, m, 12, 16, 20);
    SliceWithin(d, m, 12, 20, 22);
    SliceWithin(d, m, 12, 22, 24);
  }

  lemma DataHeaderAt(d: seq<Byte>, h: DataHeader)
    requires |d| >= 44 && d[36..44] == h.Data()
    ensures d[36..40] == DataMark
    ensures FromLittleEndian(d[40..44]) == h.dataSize
  {
    var t := h.Data();
    SliceWithin(d, t, 36, 0, 4);
    SliceWithin(d, t, 36, 4, 8);
  }

  /** A window inside a chunk placed at offset `at` reads the chunk's own window. */
  lemma SliceWithin(d: seq<Byte>, chunk: seq<Byte>, at: nat, i: nat, j: nat)
    requires at + |chunk| <= |d| && d[at..at + |chunk|] == chunk
    requires i <= j <= |chunk|
    ensures d[at + i..at + j] == chunk[i..j]
  {
    forall k | 0 <= k < j - i ensures d[at + i..at + j][k] == chunk[i..j][k] {
      assert d[at..at + |chunk|][i + k] == chunk[i + k];
    }
  }

  /** Where each of three concatenated chunks sits. */
  lemma ThreeParts(a: seq<Byte>, b: seq<Byte>, c: seq<Byte>)
    ensures var d := a + b + c;
      && d[0..|a|] == a
      && d[|a|..|a| + |b|] == b
      && d[|a| + |b|..|d|] == c
  {
    SliceOfAppendLeft(a + b, c, 0, |a|);
    SliceOfAppendLeft(a, b, 0, |a|);
    SliceOfAppendLeft(a + b, c, |a|, |a| + |b|);
    SliceOfAppendRight(a, b, |a|, |a| + |b|);
    SliceOfAppendRight(a + b, c, |a| + |b|, |a| + |b| + |c|);
  }

  /** Where each of four concatenated fields sits. */
  lemma FourParts(a: seq<Byte>, b: seq<Byte>, c: seq<Byte>, e: seq<Byte>)
    ensures var d := a + b + c + e;
      && d[0..|a|] == a
      && d[|a|..|a| + |b|] == b
      && d[|a| + |b|..|a| + |b| + |c|] == c
      && d[|a| + |b| + |c|..|d|] == e
  {
    ThreeParts(a, b, c);
    var abc := a + b + c;
    SliceOfAppendLeft(abc, e, 0, |a|);
    SliceOfAppendLeft(abc, e, |a|, |a| + |b|);
    SliceOfAppendLeft(abc, e, |a| + |b|, |a| + |b| + |c|);
    SliceOfAppendRight(abc, e, |abc|, |abc| + |e|);
  }

  lemma SliceOfAppendLeft(x: seq<Byte>, y: seq<Byte>, i: nat, j: nat)
    requires i <= j <= |x|
    ensures (x + y)[i..j] == x[i..j]
  {
  }

  lemma SliceOfAppendRight(x: seq<Byte>, y: seq<Byte>, i: nat, j: nat)
    requires |x| <= i <= j <= |x| + |y|
    ensures (x + y)[i..j] == y[i - |x|..j - |x|]
  {
  }

  /** A WAV file description: only the sample rate varies. */
  datatype WAV = WAV(sampleRate: UInt32)
  {
    /** Headers of a file that holds no audio yet: dataSize 0, fileSize 0 + 44 - 8. */
    function HeadersForEmptyWav(): (h: Headers)
      requires sampleRate * 2 < 0x1_0000_0000
      ensures h.dataHeader.dataSize == 0
      ensures h.riffHeader.fileSize == HeaderSize - 8
      ensures h.format.sampleRate == sampleRate && h.format.byteRate == 2 * sampleRate
    {
      var dataSize: UInt32 := 0;
      Headers(RIFFHeader(dataSize + 44 - 8), NewFormat(sampleRate), DataHeader(dataSize))
    }

    /** The 44 bytes a writer puts at the start of a new file. */
    function DataForEmptyWav(): (d: seq<Byte>)
      requires sampleRate * 2 < 0x1_0000_0000
      ensures |d| == HeaderSize
      ensures d[0..4] == RiffMark && d[8..12] == WaveMark
      ensures d[12..16] == FmtMark && d[36..40] == DataMark
      ensures FromLittleEndian(d[4..8]) == 36
      ensures FromLittleEndian(d[24..28]) == sampleRate
      ensures FromLittleEndian(d[28..32]) == 2 * sampleRate
      ensures FromLittleEndian(d[40..44]) == 0
    {
      HeadersForEmptyWav().Data()
    }
  }
}
