/**
 * The streaming writer: a file that starts as the 44-byte empty-WAV header,
 * grows by appended audio, and has its two size fields patched in place by
 * `completeMetadata`. The file system is replaced by an in-memory file handle:
 * the file's bytes and a write cursor.
 */
module WavWriter {
  import opened Bytes
  import opened Wav
  import opened WavFile

  /** The file after writing `d` at `offset`: the bytes there are overwritten and the file grows if the write runs past its end. */
  function WriteAt(file: seq<Byte>, offset: nat, d: seq<Byte>): (r: seq<Byte>)
    requires offset <= |file|
    ensures |r| == if offset + |d| <= |file| then |file| else offset + |d|
    ensures forall i :: 0 <= i < |r| ==>
      r[i] == if offset <= i < offset + |d| then d[i - offset] else file[i]
  {
    file[..offset] + d + if offset + |d| < |file| then file[offset + |d|..] else []
  }

  /** An open `FileHandle`: the file's contents and the handle's offset. */
  class FileHandle {
    var contents: seq<Byte>
    var offset: nat

    predicate Valid()
      reads this
    {
      offset <= |contents|
    }

    /** `FileHandle(forWritingTo:)` on a file that holds `contents`. */
    constructor (contents: seq<Byte>)
      ensures Valid()
      ensures this.contents == contents && offset == 0
    {
      this.contents := contents;
      offset := 0;
    }

    method SeekToEnd()
      modifies this
      ensures Valid()
      ensures contents == old(contents) && offset == |contents|
    {
      offset := |contents|;
    }

    method Seek(toOffset: nat)
      requires toOffset <= |contents|
      modifies this
      ensures Valid()
      ensures contents == old(contents) && offset == toOffset
    {
      offset := toOffset;
    }

    method Write(d: seq<Byte>)
      requires Valid()
      modifies this
      ensures Valid()
      ensures contents == WriteAt(old(contents), old(offset), d)
      ensures offset == old(offset) + |d|
    {
      contents := WriteAt(contents, offset, d);
      offset := offset + |d|;
    }
  }

  /**
   * The four bytes `Data(bytes: &littleEndian, count: 4)` takes from a UInt64
   * stored little-endian: the value's low 32 bits.
   */
  function SizeField(x: nat): (r: seq<Byte>)
    ensures FromLittleEndian(r) == x % 0x1_0000_0000
    ensures r == LittleEndian(x % 0x1_0000_0000, 4)
  {
    EncodePrefix(x, 8, 4);
    Pow256Values();
    EncodeLowBytes(x, 4);
    DecodeEncode(x, 4);
    LittleEndian(x, 8)[..4]
  }

  /**
   * What `completeMetadata` leaves in a file whose cursor is at
   * `currentOffset`: `currentOffset - 8` at byte 4 and `currentOffset - 44`
   * at byte 41, each as the low 32 bits.
   */
  function CompletedFile(file: seq<Byte>, currentOffset: nat): (r: seq<Byte>)
    requires HeaderSize <= |file| && HeaderSize <= currentOffset
    ensures |r| == if |file| == HeaderSize then HeaderSize + 1 else |file|
    ensures r[..4] == file[..4] && r[8..41] == file[8..41]
    ensures |file| > 45 ==> r[45..] == file[45..]
    ensures FromLittleEndian(r[4..8]) == (currentOffset - 8) % 0x1_0000_0000
    ensures FromLittleEndian(r[41..45]) == (currentOffset - 44) % 0x1_0000_0000
  {
    var fileSize := SizeField(currentOffset - 8);
    var dataSize := SizeField(currentOffset - 44);
    var r := WriteAt(WriteAt(file, 4, fileSize), 41, dataSize);
    assert r[4..8] == fileSize;
    assert r[41..45] == dataSize;
    r
  }

  /**
   * The evident intent of `completeMetadata`: the data size goes to byte 40,
   * where the RIFF layout and `WAV.File.load` keep it.
   */
  function CompletedFileIntended(file: seq<Byte>, currentOffset: nat): (r: seq<Byte>)
    requires HeaderSize <= |file| && HeaderSize <= currentOffset
    ensures |r| == |file|
    ensures r[..4] == file[..4] && r[8..40] == file[8..40] && r[HeaderSize..] == file[HeaderSize..]
    ensures FromLittleEndian(r[4..8]) == (currentOffset - 8) % 0x1_0000_0000
    ensures FromLittleEndian(r[40..44]) == (currentOffset - 44) % 0x1_0000_0000
  {
    var fileSize := SizeField(currentOffset - 8);
    var dataSize := SizeField(currentOffset - 44);
    var r := WriteAt(WriteAt(file, 4, fileSize), 40, dataSize);
    assert r[4..8] == fileSize;
    assert r[40..44] == dataSize;
    r
  }

  /**
   * What every writer's file keeps: at least the 44 header bytes, "RIFF" at
   * the start and bytes 8..39 (the "WAVE" mark, the whole fmt chunk and the
   * "data" mark) exactly as the empty header put them.
   */
  predicate WriterFile(file: seq<Byte>, sampleRate: UInt32)
  {
    sampleRate * 2 < 0x1_0000_0000 && |file| >= HeaderSize
    && file[0..4] == RiffMark
    && file[8..40] == WAV(sampleRate).DataForEmptyWav()[8..40]
  }

  class WAVWriter {
    const wav: WAV
    const fileHandle: FileHandle

    ghost predicate Valid()
      reads this, fileHandle
    {
      fileHandle.Valid() && fileHandle.offset == |fileHandle.contents|
      && WriterFile(fileHandle.contents, wav.sampleRate)
    }

    /** Writes the empty-WAV header to a new file and seeks to its end. */
    constructor (sampleRate: UInt32)
      requires sampleRate * 2 < 0x1_0000_0000
      ensures Valid() && fresh(fileHandle)
      ensures wav.sampleRate == sampleRate
      ensures fileHandle.contents == WAV(sampleRate).DataForEmptyWav()
      ensures fileHandle.offset == HeaderSize
    {
      wav := WAV(sampleRate);
      var handle := new FileHandle(WAV(sampleRate).DataForEmptyWav());
      handle.SeekToEnd();
      fileHandle := handle;
    }

    /** Writes at the cursor, which is always the end of the file. */
    method WriteAudio(data: seq<Byte>)
      requires Valid()
      modifies fileHandle
      ensures Valid()
      ensures fileHandle.contents == old(fileHandle.contents) + data
      ensures fileHandle.contents[HeaderSize..] == old(fileHandle.contents)[HeaderSize..] + data
      ensures fileHandle.offset == old(fileHandle.offset) + |data|
    {
      fileHandle.Write(data);
      assert fileHandle.contents == old(fileHandle.contents) + data;
      assert fileHandle.contents[8..40] == old(fileHandle.contents)[8..40];
      assert fileHandle.contents[0..4] == old(fileHandle.contents)[0..4];
    }

    /** Patches the size fields from the cursor position, then seeks to the end again. */
    method CompleteMetadata()
      requires Valid()
      modifies fileHandle
      ensures Valid()
      ensures fileHandle.contents == CompletedFile(old(fileHandle.contents), old(fileHandle.offset))
      ensures fileHandle.offset == |fileHandle.contents|
    {
      var currentOffset := fileHandle.offset;
      var fileSize := SizeField(currentOffset - 8);
      fileHandle.Seek(4);
      fileHandle.Write(fileSize);
      var dataSize := SizeField(currentOffset - 44);
      fileHandle.Seek(41);
      fileHandle.Write(dataSize);
      fileHandle.SeekToEnd();
      assert fileHandle.contents[8..40] == old(fileHandle.contents)[8..40] by {
        assert fileHandle.contents[8..41] == old(fileHandle.contents)[8..41];
      }
    }
  }

  /** A window of bytes 8..39 of a writer's file reads as the empty header's window. */
  lemma WindowsOfFixedPart(file: seq<Byte>, empty: seq<Byte>, i: nat, j: nat)
    requires |file| >= HeaderSize && |empty| >= HeaderSize
    requires file[8..40] == empty[8..40]
    requires 8 <= i <= j <= 40
    ensures file[i..j] == empty[i..j]
  {
    SliceWithin(file, file[8..40], 8, i - 8, j - 8);
    SliceWithin(empty, empty[8..40], 8, i - 8, j - 8);
  }

  /**
   * A writer's file always loads: its chunks are valid, its fmt fields are
   * the writer's, and its two size fields are whatever bytes 4..7 and 40..43 hold.
   */
  lemma WriterFileLoads(file: seq<Byte>, sampleRate: UInt32)
    requires WriterFile(file, sampleRate)
    ensures Load(file) == Loaded(File(RIFF(U32At(file, 4)),
                                      FMT(1, sampleRate, 2 * sampleRate, 2, 16),
                                      DATA(U32At(file, 40))))
  {
    var empty := WAV(sampleRate).DataForEmptyWav();
    LoadEmptyWav(sampleRate, []);
    assert empty + [] == empty;
    WindowsOfFixedPart(file, empty, 8, 12);
    WindowsOfFixedPart(file, empty, 12, 16);
    WindowsOfFixedPart(file, empty, 16, 20);
    WindowsOfFixedPart(file, empty, 20, 22);
    WindowsOfFixedPart(file, empty, 22, 24);
    WindowsOfFixedPart(file, empty, 24, 28);
    WindowsOfFixedPart(file, empty, 28, 32);
    WindowsOfFixedPart(file, empty, 32, 34);
    WindowsOfFixedPart(file, empty, 34, 36);
    WindowsOfFixedPart(file, empty, 36, 40);
    assert LoadFMT(file) == LoadFMT(empty);
  }

  /**
   * As written, `completeMetadata` on a file of header plus n audio bytes
   * keeps the file length (45 bytes when there is no audio) and a correct
   * file size, but `WAV.File.load` then reads a data size of 256 * n (mod
   * 2^32): byte 40 keeps the placeholder 0 and the size lands one byte late.
   * The first audio byte is overwritten.
   */
  lemma {:induction false} CompletedFileMisplacesDataSize(sampleRate: UInt32, audio: seq<Byte>)
    requires sampleRate * 2 < 0x1_0000_0000
    ensures var file := WAV(sampleRate).DataForEmptyWav() + audio;
      var n := |audio|;
      var done := CompletedFile(file, |file|);
      && |done| == HeaderSize + (if n == 0 then 1 else n)
      && (n > 1 ==> done[45..] == file[45..])
      && Load(done) == Loaded(File(RIFF((36 + n) % 0x1_0000_0000),
                                   FMT(1, sampleRate, 2 * sampleRate, 2, 16),
                                   DATA(256 * (n % 0x100_0000))))
  {
    var empty := WAV(sampleRate).DataForEmptyWav();
    var file := empty + audio;
    var n := |audio|;
    var done := CompletedFile(file, |file|);
    SliceOfAppendLeft(empty, audio, 0, 4);
    SliceOfAppendLeft(empty, audio, 8, 41);
    SliceWithin(done, done[8..41], 8, 0, 32);
    SliceWithin(empty, empty[8..41], 8, 0, 32);
    WriterFileLoads(done, sampleRate);
    Pow256Values();
    var fileSize := U32At(done, 4);
    DecodeEncode(fileSize, 4);
    assert done[40] == 0 by {
      assert done[40] == done[8..41][32] && empty[40] == empty[8..41][32];
      LowByteOfZero(empty[40..44]);
    }
    PlaceholderByteThenShiftedSize(done, n);
    var dataSize := U32At(done, 40);
    DecodeEncode(dataSize, 4);
  }

  lemma LowByteOfZero(s: seq<Byte>)
    requires |s| > 0 && FromLittleEndian(s) == 0
    ensures s[0] == 0
  {
  }

  /**
   * Bytes 40..43 hold a 0 followed by the low three bytes of the size that
   * was written at 41: read at 40 they give 256 times its low 24 bits.
   */
  lemma PlaceholderByteThenShiftedSize(done: seq<Byte>, n: nat)
    requires |done| >= 45 && done[40] == 0
    requires FromLittleEndian(done[41..45]) == n % 0x1_0000_0000
    ensures FromLittleEndian(done[40..44]) == 256 * (n % 0x100_0000)
  {
    Pow256Values();
    var patched := done[41..45];
    EncodeDecode(patched);
    assert patched == LittleEndian(n % 0x1_0000_0000, 4);
    EncodePrefix(n % 0x1_0000_0000, 4, 3);
    assert done[41..44] == patched[..3];
    EncodeLowBytes(n % 0x1_0000_0000, 3);
    EncodeLowBytes(n, 3);
    ModOfModNested(n);
    assert done[41..44] == LittleEndian(n, 3);
    assert done[40..44] == [0] + LittleEndian(n, 3);
    assert done[40..44][1..] == LittleEndian(n, 3);
    DecodeEncode(n, 3);
  }

  lemma ModOfModNested(n: nat)
    ensures (n % 0x1_0000_0000) % 0x100_0000 == n % 0x100_0000
  {
    ModOfDecomposition(n % 0x1_0000_0000, 0x100_0000, (n % 0x1_0000_0000) / 0x100_0000, (n % 0x1_0000_0000) % 0x100_0000);
    var q := n / 0x1_0000_0000;
    var r := n % 0x1_0000_0000;
    assert n == 0x100_0000 * (256 * q + r / 0x100_0000) + r % 0x100_0000;
    ModOfDecomposition(n, 0x100_0000, 256 * q + r / 0x100_0000, r % 0x100_0000);
  }

  /**
   * With the data size at byte 40, finalising a file of header plus n audio
   * bytes and loading it gives dataSize n and fileSize 36 + n (both mod 2^32),
   * and the audio is left intact.
   */
  lemma {:induction false} CompletedFileIntendedRoundTrip(sampleRate: UInt32, audio: seq<Byte>)
    requires sampleRate * 2 < 0x1_0000_0000
    ensures var file := WAV(sampleRate).DataForEmptyWav() + audio;
      var n := |audio|;
      var done := CompletedFileIntended(file, |file|);
      && done[HeaderSize..] == audio
      && Load(done) == Loaded(File(RIFF((36 + n) % 0x1_0000_0000),
                                   FMT(1, sampleRate, 2 * sampleRate, 2, 16),
                                   DATA(n % 0x1_0000_0000)))
  {
    var empty := WAV(sampleRate).DataForEmptyWav();
    var file := empty + audio;
    var n := |audio|;
    var done := CompletedFileIntended(file, |file|);
    assert file[0..4] == empty[0..4] && file[8..40] == empty[8..40];
    assert done[0..4] == file[0..4];
    WriterFileLoads(done, sampleRate);
    Pow256Values();
    var fileSize := U32At(done, 4);
    DecodeEncode(fileSize, 4);
    var dataSize := U32At(done, 40);
    DecodeEncode(dataSize, 4);
  }

  /**
   * One hundred 16-bit samples (200 audio bytes, silent or not): the file is
   * 244 bytes and its file size reads 236, but its data size reads 51200
   * where 200 was meant; with the size at byte 40 it reads 200.
   */
  lemma HundredSamples(sampleRate: UInt32, audio: seq<Byte>)
    requires sampleRate * 2 < 0x1_0000_0000 && |audio| == 200
    ensures var file := WAV(sampleRate).DataForEmptyWav() + audio;
      var done := CompletedFile(file, |file|);
      var intended := CompletedFileIntended(file, |file|);
      && |done| == 244 && Load(done).Loaded?
      && Load(done).file.riff.fileSize == 236
      && Load(done).file.data.dataSize == 51200
      && Load(intended).Loaded? && Load(intended).file.data.dataSize == 200
  {
    var file := WAV(sampleRate).DataForEmptyWav() + audio;
    CompletedFileMisplacesDataSize(sampleRate, audio);
    CompletedFileIntendedRoundTrip(sampleRate, audio);
    var fmt := FMT(1, sampleRate, 2 * sampleRate, 2, 16);
    ModOfDecomposition(236, 0x1_0000_0000, 0, 236);
    ModOfDecomposition(200, 0x100_0000, 0, 200);
    ModOfDecomposition(200, 0x1_0000_0000, 0, 200);
    assert Load(CompletedFile(file, |file|)) == Loaded(File(RIFF(236), fmt, DATA(51200)));
    assert Load(CompletedFileIntended(file, |file|)) == Loaded(File(RIFF(236), fmt, DATA(200)));
  }
}
