/**
 * Reading a WAV header back: `WAV.File.load`, with its three chunk parsers
 * and the typed `WAVLoadError`. The file read itself is not modelled; the
 * parser is given the file's bytes.
 */
module WavFile {
  import opened Bytes
  import opened Wav

  datatype LoadError = InvalidContentsSize | InvalidRIFF | InvalidFMT | InvalidDATA

  datatype RIFF = RIFF(fileSize: UInt32)
  /** The fmt fields that are copied without validation. */
  datatype FMT = FMT(numChannels: UInt16, sampleRate: UInt32, byteRate: UInt32,
                     blockAlign: UInt16, bitsPerSample: UInt16)
  datatype DATA = DATA(dataSize: UInt32)
  datatype File = File(riff: RIFF, fmt: FMT, data: DATA)

  datatype LoadResult = Loaded(file: File) | Failed(error: LoadError)

  /** What the RIFF chunk must hold: "RIFF" at 0..3 and "WAVE" at 8..11. */
  predicate RiffChunkValid(data: seq<Byte>)
    requires |data| >= 12
  {
    data[0..4] == RiffMark && data[8..12] == WaveMark
  }

  /** What the fmt chunk must hold: "fmt " at 12..15, size 16 and format 1 (PCM). */
  predicate FmtChunkValid(data: seq<Byte>)
    requires |data| >= 36
  {
    data[12..16] == FmtMark && FromLittleEndian(data[16..20]) == 16
    && FromLittleEndian(data[20..22]) == 1
  }

  /** What the data chunk must hold: "data" at 36..39. */
  predicate DataChunkValid(data: seq<Byte>)
    requires |data| >= 44
  {
    data[36..40] == DataMark
  }

  /** The first half of the fmt chunk: mark, size 16, format 1 and the channel count. */
  function FmtHead(fmt: FMT): (d: seq<Byte>)
    ensures |d| == 12
    ensures d[..4] == FmtMark
    ensures d[4..8] == LittleEndian(16, 4) && d[8..10] == LittleEndian(1, 2)
    ensures d[10..] == LittleEndian(fmt.numChannels, 2)
  {
    FourParts(FmtMark, LittleEndian(16, 4), LittleEndian(1, 2), LittleEndian(fmt.numChannels, 2));
    FmtMark + LittleEndian(16, 4) + LittleEndian(1, 2) + LittleEndian(fmt.numChannels, 2)
  }

  /** The second half of the fmt chunk: the two rates and the sample layout. */
  function FmtTail(fmt: FMT): (d: seq<Byte>)
    ensures |d| == 12
    ensures d[..4] == LittleEndian(fmt.sampleRate, 4) && d[4..8] == LittleEndian(fmt.byteRate, 4)
    ensures d[8..10] == LittleEndian(fmt.blockAlign, 2) && d[10..] == LittleEndian(fmt.bitsPerSample, 2)
  {
    FourParts(LittleEndian(fmt.sampleRate, 4), LittleEndian(fmt.byteRate, 4),
      LittleEndian(fmt.blockAlign, 2), LittleEndian(fmt.bitsPerSample, 2));
    LittleEndian(fmt.sampleRate, 4) + LittleEndian(fmt.byteRate, 4)
      + LittleEndian(fmt.blockAlign, 2) + LittleEndian(fmt.bitsPerSample, 2)
  }

  /** The fmt chunk that carries `fmt`, with size 16 and format 1. */
  function EncodedFMT(fmt: FMT): (d: seq<Byte>)
    ensures |d| == 24
    ensures d[..4] == FmtMark
    ensures d[4..8] == LittleEndian(16, 4) && d[8..10] == LittleEndian(1, 2)
    ensures d[10..12] == LittleEndian(fmt.numChannels, 2)
    ensures d[12..16] == LittleEndian(fmt.sampleRate, 4)
    ensures d[16..20] == LittleEndian(fmt.byteRate, 4)
    ensures d[20..22] == LittleEndian(fmt.blockAlign, 2)
    ensures d[22..24] == LittleEndian(fmt.bitsPerSample, 2)
  {
    var head, tail := FmtHead(fmt), FmtTail(fmt);
    SliceOfAppendLeft(head, tail, 0, 4);
    SliceOfAppendLeft(head, tail, 4, 8);
    SliceOfAppendLeft(head, tail, 8, 10);
    SliceOfAppendLeft(head, tail, 10, 12);
    SliceOfAppendRight(head, tail, 12, 16);
    SliceOfAppendRight(head, tail, 16, 20);
    SliceOfAppendRight(head, tail, 20, 22);
    SliceOfAppendRight(head, tail, 22, 24);
    head + tail
  }

  /**
   * The canonical 44 header bytes that describe `f`: the layout the three
   * parsers read, field by field.
   */
  function Encoded(f: File): (d: seq<Byte>)
    ensures |d| == HeaderSize
  {
    RIFFHeader(f.riff.fileSize).Data() + EncodedFMT(f.fmt) + DataHeader(f.data.dataSize).Data()
  }

  function LoadRIFF(data: seq<Byte>): (r: Option<RIFF>)
    requires |data| >= 12
    ensures r.Some? <==> RiffChunkValid(data)
    ensures r.Some? ==> LittleEndian(r.value.fileSize, 4) == data[4..8]
  {
    var mark := data[0..4];
    var fileSize := U32At(data, 4);
    var fileType := data[8..12];
    if mark == RiffMark && fileType == WaveMark then Some(RIFF(fileSize)) else None
  }

  function LoadFMT(data: seq<Byte>): (r: Option<FMT>)
    requires |data| >= 36
    ensures r.Some? <==> FmtChunkValid(data)
    ensures r.Some? ==>
      LittleEndian(r.value.numChannels, 2) == data[22..24]
      && LittleEndian(r.value.sampleRate, 4) == data[24..28]
      && LittleEndian(r.value.byteRate, 4) == data[28..32]
      && LittleEndian(r.value.blockAlign, 2) == data[32..34]
      && LittleEndian(r.value.bitsPerSample, 2) == data[34..36]
  {
    var mark := data[12..16];
    var size := U32At(data, 16);
    var format := U16At(data, 20);
    var numChannels := U16At(data, 22);
    var sampleRate := U32At(data, 24);
    var byteRate := U32At(data, 28);
    var blockAlign := U16At(data, 32);
    var bitsPerSample := U16At(data, 34);
    if mark == FmtMark && size == 16 && format == 1 then
      Some(FMT(numChannels, sampleRate, byteRate, blockAlign, bitsPerSample))
    else
      None
  }

  /** Reads bytes 36..43; a caller must supply all of them. */
  function LoadDATA(data: seq<Byte>): (r: Option<DATA>)
    requires |data| >= 44
    ensures r.Some? <==> DataChunkValid(data)
    ensures r.Some? ==> LittleEndian(r.value.dataSize, 4) == data[40..44]
  {
    var mark := data[36..40];
    var dataSize := U32At(data, 40);
    if mark == DataMark then Some(DATA(dataSize)) else None
  }

  /**
   * `WAV.File.load` with the length guard that the parsers need (at least
   * 44 bytes). The chunks are checked in order and the first failure decides
   * the error.
   */
  function Load(data: seq<Byte>): (r: LoadResult)
    ensures r == Failed(InvalidContentsSize) <==> |data| < HeaderSize
    ensures r == Failed(InvalidRIFF) <==> |data| >= HeaderSize && !RiffChunkValid(data)
    ensures r == Failed(InvalidFMT) <==>
      |data| >= HeaderSize && RiffChunkValid(data) && !FmtChunkValid(data)
    ensures r == Failed(InvalidDATA) <==>
      |data| >= HeaderSize && RiffChunkValid(data) && FmtChunkValid(data) && !DataChunkValid(data)
    ensures r.Loaded? <==>
      |data| >= HeaderSize && RiffChunkValid(data) && FmtChunkValid(data) && DataChunkValid(data)
    ensures r.Loaded? ==> Encoded(r.file) == data[..HeaderSize]
  {
    if |data| < HeaderSize then Failed(InvalidContentsSize)
    else
      match LoadRIFF(data)
      case None => Failed(InvalidRIFF)
      case Some(riff) =>
        match LoadFMT(data)
        case None => Failed(InvalidFMT)
        case Some(fmt) =>
          match LoadDATA(data)
          case None => Failed(InvalidDATA)
          case Some(dataChunk) =>
            var f := File(riff, fmt, dataChunk);
            EncodedReadsBack(data, f);
            Loaded(f)
  }

  lemma EncodedReadsBack(data: seq<Byte>, f: File)
    requires |data| >= HeaderSize
    requires RiffChunkValid(data) && FmtChunkValid(data) && DataChunkValid(data)
    requires LittleEndian(f.riff.fileSize, 4) == data[4..8]
    requires LittleEndian(f.fmt.numChannels, 2) == data[22..24]
    requires LittleEndian(f.fmt.sampleRate, 4) == data[24..28]
    requires LittleEndian(f.fmt.byteRate, 4) == data[28..32]
    requires LittleEndian(f.fmt.blockAlign, 2) == data[32..34]
    requires LittleEndian(f.fmt.bitsPerSample, 2) == data[34..36]
    requires LittleEndian(f.data.dataSize, 4) == data[40..44]
    ensures Encoded(f) == data[..HeaderSize]
  {
    // Each chunk is the concatenation of its fields' windows of `data`.
    JoinWindows(data, 0, 4, 8);
    JoinWindows(data, 0, 8, 12);
    FmtHeadReadsBack(data, f.fmt);
    FmtTailReadsBack(data, f.fmt);
    JoinWindows(data, 12, 24, 36);
    JoinWindows(data, 36, 40, 44);
    JoinWindows(data, 0, 12, 36);
    JoinWindows(data, 0, 36, 44);
  }

  lemma FmtHeadReadsBack(data: seq<Byte>, fmt: FMT)
    requires |data| >= 36 && FmtChunkValid(data)
    requires LittleEndian(fmt.numChannels, 2) == data[22..24]
    ensures FmtHead(fmt) == data[12..24]
  {
    EncodeDecode(data[16..20]);
    EncodeDecode(data[20..22]);
    JoinWindows(data, 12, 16, 20);
    JoinWindows(data, 12, 20, 22);
    JoinWindows(data, 12, 22, 24);
  }

  lemma FmtTailReadsBack(data: seq<Byte>, fmt: FMT)
    requires |data| >= 36
    requires LittleEndian(fmt.sampleRate, 4) == data[24..28]
    requires LittleEndian(fmt.byteRate, 4) == data[28..32]
    requires LittleEndian(fmt.blockAlign, 2) == data[32..34]
    requires LittleEndian(fmt.bitsPerSample, 2) == data[34..36]
    ensures FmtTail(fmt) == data[24..36]
  {
    JoinWindows(data, 24, 28, 32);
    JoinWindows(data, 24, 32, 34);
    JoinWindows(data, 24, 34, 36);
  }

  lemma JoinWindows(x: seq<Byte>, i: nat, j: nat, k: nat)
    requires i <= j <= k <= |x|
    ensures x[i..j] + x[j..k] == x[i..k]
  {
  }

  /** The bytes after the 44-byte header never influence the result. */
  lemma LoadIgnoresAudio(data: seq<Byte>, audio: seq<Byte>)
    requires |data| >= HeaderSize
    ensures Load(data + audio) == Load(data)
  {
    var d := data + audio;
    assert d[0..4] == data[0..4] && d[4..8] == data[4..8] && d[8..12] == data[8..12];
    assert d[12..16] == data[12..16] && d[16..20] == data[16..20] && d[20..22] == data[20..22];
    assert d[22..24] == data[22..24] && d[24..28] == data[24..28] && d[28..32] == data[28..32];
    assert d[32..34] == data[32..34] && d[34..36] == data[34..36];
    assert d[36..40] == data[36..40] && d[40..44] == data[40..44];
  }

  /** Any file description encodes to a header that loads back to it. */
  lemma LoadEncoded(f: File, audio: seq<Byte>)
    ensures Load(Encoded(f) + audio) == Loaded(f)
  {
    var d := Encoded(f);
    LoadIgnoresAudio(d, audio);
    var r := RIFFHeader(f.riff.fileSize).Data();
    var m := EncodedFMT(f.fmt);
    var t := DataHeader(f.data.dataSize).Data();
    ThreeParts(r, m, t);
    LoadEncodedRIFF(d, f.riff);
    LoadEncodedFMT(d, f.fmt);
    LoadEncodedDATA(d, f.data);
  }

  lemma LoadEncodedRIFF(d: seq<Byte>, riff: RIFF)
    requires |d| >= 12 && d[..12] == RIFFHeader(riff.fileSize).Data()
    ensures LoadRIFF(d) == Some(riff)
  {
    var r := RIFFHeader(riff.fileSize).Data();
    SliceWithin(d, r, 0, 0, 4);
    SliceWithin(d, r, 0, 4, 8);
    SliceWithin(d, r, 0, 8, 12);
    EncodeDecode(r[4..8]);
    LittleEndianInjective(LoadRIFF(d).value.fileSize, riff.fileSize, 4);
  }

  lemma LoadEncodedFMT(d: seq<Byte>, fmt: FMT)
    requires |d| >= 36 && d[12..36] == EncodedFMT(fmt)
    ensures LoadFMT(d) == Some(fmt)
  {
    var m := EncodedFMT(fmt);
    SliceWithin(d, m, 12, 0, 4);
    SliceWithin(d, m, 12, 4, 8);
    SliceWithin(d, m, 12, 8, 10);
    SliceWithin(d, m, 12, 10, 12);
    SliceWithin(d, m, 12, 12, 16);
    SliceWithin(d, m, 12, 16, 20);
    SliceWithin(d, m, 12, 20, 22);
    SliceWithin(d, m, 12, 22, 24);
    Pow256Values();
    DecodeEncodeInRange(16, 4);
    DecodeEncodeInRange(1, 2);
    var loaded := LoadFMT(d).value;
    LittleEndianInjective(loaded.numChannels, fmt.numChannels, 2);
    LittleEndianInjective(loaded.sampleRate, fmt.sampleRate, 4);
    LittleEndianInjective(loaded.byteRate, fmt.byteRate, 4);
    LittleEndianInjective(loaded.blockAlign, fmt.blockAlign, 2);
    LittleEndianInjective(loaded.bitsPerSample, fmt.bitsPerSample, 2);
  }

  lemma LoadEncodedDATA(d: seq<Byte>, data: DATA)
    requires |d| >= 44 && d[36..44] == DataHeader(data.dataSize).Data()
    ensures LoadDATA(d) == Some(data)
  {
    var t := DataHeader(data.dataSize).Data();
    SliceWithin(d, t, 36, 0, 4);
    SliceWithin(d, t, 36, 4, 8);
    EncodeDecode(t[4..]);
    LittleEndianInjective(LoadDATA(d).value.dataSize, data.dataSize, 4);
  }

  lemma LittleEndianInjective(x: nat, y: nat, n: nat)
    requires x < Pow256(n) && y < Pow256(n)
    requires LittleEndian(x, n) == LittleEndian(y, n)
    ensures x == y
  {
    DecodeEncodeInRange(x, n);
    DecodeEncodeInRange(y, n);
  }

  /** The header of a new, empty writer file loads with the values it was built from. */
  lemma LoadEmptyWav(sampleRate: UInt32, audio: seq<Byte>)
    requires sampleRate * 2 < 0x1_0000_0000
    ensures Load(WAV(sampleRate).DataForEmptyWav() + audio)
      == Loaded(File(RIFF(36), FMT(1, sampleRate, 2 * sampleRate, 2, 16), DATA(0)))
  {
    var h := WAV(sampleRate).HeadersForEmptyWav();
    var d := h.Data();
    LoadIgnoresAudio(d, audio);
    var r := Load(d);
    assert r.Loaded?;
    DecodeEncode(r.file.riff.fileSize, 4);
    DecodeEncode(r.file.fmt.numChannels, 2);
    DecodeEncode(r.file.fmt.sampleRate, 4);
    DecodeEncode(r.file.fmt.byteRate, 4);
    DecodeEncode(r.file.fmt.blockAlign, 2);
    DecodeEncode(r.file.fmt.bitsPerSample, 2);
    DecodeEncode(r.file.data.dataSize, 4);
    Pow256Values();
  }

  /**
   * What `WAV.File.load` does as written: its guard admits 43 bytes, and
   * `loadDATA` then indexes byte 43, which is a runtime trap.
   */
  datatype LoadOutcome = Returned(result: LoadResult) | Trapped

  function LoadAsWritten(data: seq<Byte>): (o: LoadOutcome)
    ensures |data| != 43 ==> o == Returned(Load(data))
    ensures |data| == 43 ==>
      (o == Trapped <==> RiffChunkValid(data) && FmtChunkValid(data))
    ensures |data| == 43 && !RiffChunkValid(data) ==> o == Returned(Failed(InvalidRIFF))
    ensures |data| == 43 && RiffChunkValid(data) && !FmtChunkValid(data) ==> o == Returned(Failed(InvalidFMT))
  {
    if |data| < 43 then Returned(Failed(InvalidContentsSize))
    else
      match LoadRIFF(data)
      case None => Returned(Failed(InvalidRIFF))
      case Some(riff) =>
        match LoadFMT(data)
        case None => Returned(Failed(InvalidFMT))
        case Some(fmt) =>
          if |data| < 44 then Trapped
          else
            match LoadDATA(data)
            case None => Returned(Failed(InvalidDATA))
            case Some(dataChunk) => Returned(Loaded(File(riff, fmt, dataChunk)))
  }

  /** The first 43 bytes of any writer's header pass the guard and then trap. */
  lemma TruncatedHeaderTraps(sampleRate: UInt32)
    requires sampleRate * 2 < 0x1_0000_0000
    ensures var d := WAV(sampleRate).DataForEmptyWav()[..43];
      LoadAsWritten(d) == Trapped && Load(d) == Failed(InvalidContentsSize)
  {
    var full := WAV(sampleRate).HeadersForEmptyWav().Data();
    var d := full[..43];
    WindowOfPrefix(full, 43, 0, 4);
    WindowOfPrefix(full, 43, 8, 12);
    WindowOfPrefix(full, 43, 12, 16);
    WindowOfPrefix(full, 43, 16, 20);
    WindowOfPrefix(full, 43, 20, 22);
    assert RiffChunkValid(d) && FmtChunkValid(d);
  }

  lemma WindowOfPrefix(x: seq<Byte>, n: nat, i: nat, j: nat)
    requires i <= j <= n <= |x|
    ensures x[..n][i..j] == x[i..j]
  {
  }
}
