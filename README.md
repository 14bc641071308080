# BroadcastWavCapture in Dafny

This project models the core of BroadcastWavCapture, a Swift package that
records a broadcast's audio to a mono, 16-bit linear-PCM WAV file:

- `Wav` (from `WAV.swift`) builds the 44-byte header. It has a RIFF chunk, a
  "fmt " chunk and a "data" chunk, each serialised little-endian. It also
  builds the header of a file that holds no audio yet.
- `WavFile` (from `WAV+File.swift`) is `WAV.File.load`. It checks the
  length, then parses the three chunks in order and reports the first
  failure as a `WAVLoadError`.
- `WavWriter` (from `WAVWriter.swift`) is the streaming writer. A
  `FileHandle` class holds the file's bytes and the write cursor. The
  `WAVWriter` class writes the empty header, appends audio at the cursor
  and patches the two size fields in `completeMetadata`.
- `WavSignalResampler` (from `WAVSignalResampler.swift`) is the integer
  skeleton of `resample`:
  - the output sample count (truncating division);
  - the pool of scratch and output buffers (`Buffers`) and when each buffer
    is reallocated;
  - the rotating in-flight slot, which advances on every call, even one
    that throws;
  - the in-place byte swap of big-endian input;
  - which error is thrown and when;
  - the Int16 bytes that are returned.

  The floating-point interpolation is a parameter of the model.
- `Bytes` is shared vocabulary: bytes, fixed-width unsigned integers, the
  little-endian layout of `.littleEndian` values and `load(as:)`, and the
  ASCII bytes of the chunk marks.

The model follows the code as written:

- The writer patches the data size at byte 41 (`WavWriter.CompletedFile`).
  The patch at byte 40 is a separate function, `WavWriter.CompletedFileIntended`.
- The loader's `>= 43` guard is kept only in `WavFile.LoadAsWritten`.
  `WavFile.Load`, which every other lemma uses, is the corrected loader: it
  requires 44 bytes (see Findings).
- A scratch buffer is reallocated whenever its length differs from the one
  needed, so it shrinks as well as grows.
- A burst that resamples to zero samples throws on a fresh pool.
- `Data(buffer:)` copies the output slot, so the bytes a caller receives do
  not change when later calls reuse the slot. Slot rotation is still
  modelled and proved.

## Model

| member | source | states |
|---|---|---|
| Bytes.LittleEndian | Sources/BroadcastWavCapture/WAV.swift:37-40 | the n low-order bytes of a value, least significant first, as `Data(bytes:count:)` takes them from a `.littleEndian` value |
| Bytes.FromLittleEndian | Sources/BroadcastWavCapture/WAV+File.swift:62 | the value of bytes stored least significant first, always below 256^n |
| Bytes.DecodeEncode | Sources/BroadcastWavCapture/WAV.swift:37-40 | reading back an n-byte little-endian encoding gives the value modulo 256^n |
| Bytes.EncodeDecode | Sources/BroadcastWavCapture/WAV+File.swift:62 | encoding a decoded field at its width gives back the same bytes |
| Bytes.EncodePrefix | Sources/BroadcastWavCapture/WAVWriter.swift:47-50 | the first k bytes of an 8-byte little-endian value are its k-byte encoding |
| Bytes.U32At | Sources/BroadcastWavCapture/WAV+File.swift:62 | a 32-bit `load(as:)` returns the value whose 4-byte little-endian encoding is the window |
| Bytes.U16At | Sources/BroadcastWavCapture/WAV+File.swift:78 | a 16-bit `load(as:)` returns the value whose 2-byte little-endian encoding is the window |
| Wav.RIFFHeader.Data | Sources/BroadcastWavCapture/WAV.swift:33-45 | 12 bytes: "RIFF", then fileSize read back little-endian, then "WAVE" |
| Wav.Format.Data | Sources/BroadcastWavCapture/WAV.swift:81-114 | 24 bytes: "fmt ", then size 16, format 1, one channel, sampleRate, byteRate, block align 2 and 16 bits per sample, each read back at its offset |
| Wav.NewFormat | Sources/BroadcastWavCapture/WAV.swift:75-78 | byteRate is sampleRate * numChannels * bitsPerSample / 8, which is 2 * sampleRate; the precondition excludes the UInt32 overflow that traps |
| Wav.DataHeader.Data | Sources/BroadcastWavCapture/WAV.swift:126-135 | 8 bytes: "data", then dataSize read back little-endian |
| Wav.Headers.Data | Sources/BroadcastWavCapture/WAV.swift:149-151 | 44 bytes, with every mark and every field at its absolute offset in the file |
| Wav.WAV.HeadersForEmptyWav | Sources/BroadcastWavCapture/WAV.swift:156-163 | dataSize 0, fileSize 44 - 8 = 36, and the format built from the sample rate |
| Wav.WAV.DataForEmptyWav | Sources/BroadcastWavCapture/WAV.swift:165-167 | 44 bytes reading fileSize 36, dataSize 0, the sample rate and twice it as byte rate, with the four marks in place |
| WavFile.Encoded | Sources/BroadcastWavCapture/WAV+File.swift:18-55 | the 44 header bytes that describe a loaded file, in the layout the parsers read |
| WavFile.LoadRIFF | Sources/BroadcastWavCapture/WAV+File.swift:60-72 | succeeds exactly when "RIFF" and "WAVE" are in place, and returns the fileSize stored at bytes 4..7 |
| WavFile.LoadFMT | Sources/BroadcastWavCapture/WAV+File.swift:73-106 | succeeds exactly when "fmt ", size 16 and format 1 are in place, and returns the five other fields stored at 22..35 |
| WavFile.LoadDATA | Sources/BroadcastWavCapture/WAV+File.swift:107-118 | succeeds exactly when "data" is at 36..39, and returns the dataSize at 40..43 |
| WavFile.Load | Sources/BroadcastWavCapture/WAV+File.swift:120-134 | each error exactly when its check is the first to fail (short input, then RIFF, fmt and data); success exactly when all chunks are valid, and the result re-encodes to the first 44 bytes |
| WavFile.EncodedFMT | Sources/BroadcastWavCapture/WAV+File.swift:27-44 | the 24-byte fmt chunk that carries an FMT value, with every field at its offset |
| WavFile.LoadIgnoresAudio | Sources/BroadcastWavCapture/WAV+File.swift:120-134 | bytes after the header never change the result of loading |
| WavFile.LoadEncoded | Sources/BroadcastWavCapture/WAV+File.swift:120-134 | round trip: every file description, encoded and followed by any audio, loads back to itself |
| WavFile.LoadEncodedRIFF | Sources/BroadcastWavCapture/WAV+File.swift:60-72 | an encoded RIFF chunk parses back to its fileSize |
| WavFile.LoadEncodedFMT | Sources/BroadcastWavCapture/WAV+File.swift:73-106 | an encoded fmt chunk parses back to its fields |
| WavFile.LoadEncodedDATA | Sources/BroadcastWavCapture/WAV+File.swift:107-118 | an encoded data chunk parses back to its dataSize |
| WavFile.LittleEndianInjective | Sources/BroadcastWavCapture/WAV+File.swift:62 | two values that fit in n bytes and have the same encoding are equal |
| WavFile.LoadEmptyWav | Sources/BroadcastWavCapture/WAV.swift:156-167 | the writer's empty header, followed by any audio, loads with fileSize 36, one channel, the sample rate, twice it as byte rate, block align 2, 16 bits and dataSize 0 |
| WavFile.LoadAsWritten | Sources/BroadcastWavCapture/WAV+File.swift:121-133 | the loader as written: the same result as the corrected loader except on 43-byte input. There it traps exactly when the RIFF and fmt chunks are valid, and otherwise throws invalidRIFF or invalidFMT |
| WavFile.TruncatedHeaderTraps | Sources/BroadcastWavCapture/WAV+File.swift:121 | the first 43 bytes of any writer header pass the guard and trap, whereas the corrected loader reports invalidContentsSize |
| WavWriter.WriteAt | Sources/BroadcastWavCapture/WAVWriter.swift:36 | writing at an offset overwrites exactly the bytes there and extends the file when the write runs past its end |
| WavWriter.FileHandle.constructor | Sources/BroadcastWavCapture/WAVWriter.swift:27 | a handle opened for writing holds the file's bytes, with the cursor at 0 |
| WavWriter.FileHandle.SeekToEnd | Sources/BroadcastWavCapture/WAVWriter.swift:28 | the cursor moves to the end and the contents are unchanged |
| WavWriter.FileHandle.Seek | Sources/BroadcastWavCapture/WAVWriter.swift:51 | the cursor moves to the offset and the contents are unchanged |
| WavWriter.FileHandle.Write | Sources/BroadcastWavCapture/WAVWriter.swift:52 | the contents become the write at the cursor, and the cursor advances by the bytes written |
| WavWriter.SizeField | Sources/BroadcastWavCapture/WAVWriter.swift:47-50 | the 4 bytes taken from a little-endian UInt64 hold the value's low 32 bits |
| WavWriter.CompletedFile | Sources/BroadcastWavCapture/WAVWriter.swift:43-64 | as written: bytes 4..7 read offset - 8 and bytes 41..44 read offset - 44 (both mod 2^32), everything else is kept, and a header-only file grows to 45 bytes |
| WavWriter.CompletedFileIntended | Sources/BroadcastWavCapture/WAVWriter.swift:43-64 | with the data size at byte 40: the length and the audio are kept, bytes 4..7 read offset - 8 and bytes 40..43 read offset - 44 |
| WavWriter.WAVWriter.constructor | Sources/BroadcastWavCapture/WAVWriter.swift:15-32 | the file holds exactly the empty-WAV header and the cursor is at 44; the writer invariant holds |
| WavWriter.WAVWriter.WriteAudio | Sources/BroadcastWavCapture/WAVWriter.swift:34-40 | the audio is appended after everything written so far, and the cursor stays at the end of the file |
| WavWriter.WAVWriter.CompleteMetadata | Sources/BroadcastWavCapture/WAVWriter.swift:43-64 | the new contents are the completed file from the cursor position, the cursor is back at the end, and the writer invariant still holds |
| WavWriter.WriterFileLoads | Sources/BroadcastWavCapture/WAV+File.swift:120-134 | any file the writer can produce loads, with the writer's fmt fields and whatever the two size fields hold |
| WavWriter.CompletedFileMisplacesDataSize | Sources/BroadcastWavCapture/WAVWriter.swift:54-59 | after completing a file of n audio bytes as written, the loader reads fileSize 36 + n but dataSize 256 * (n mod 2^24) |
| WavWriter.PlaceholderByteThenShiftedSize | Sources/BroadcastWavCapture/WAVWriter.swift:58-59 | a size written at 41 after the placeholder 0 at 40 reads at 40 as 256 times its low 24 bits |
| WavWriter.CompletedFileIntendedRoundTrip | Sources/BroadcastWavCapture/WAVWriter.swift:43-64 | with the size at 40, a completed file of n audio bytes loads with fileSize 36 + n and dataSize n, and keeps its audio |
| WavWriter.HundredSamples | Sources/BroadcastWavCapture/WAVWriter.swift:43-64 | 100 samples give a 244-byte file with fileSize 236; the data size reads 51200 as written and 200 with the size at 40 |
| WavSignalResampler.BuffersState.CurrentIndexInFlight | Sources/BroadcastWavCapture/WAVSignalResampler.swift:44-46 | the slot index is below countInFlight |
| WavSignalResampler.BuffersState.UpdatedBufferLengths | Sources/BroadcastWavCapture/WAVSignalResampler.swift:52-69 | the index and count are kept. The intermediate buffer spans the larger of the two counts. A positive output count sizes the interpolation buffer; a zero one leaves it alone. The first output slot spans the output count |
| WavSignalResampler.BuffersState.Incremented | Sources/BroadcastWavCapture/WAVSignalResampler.swift:71-73 | the index moves by one and nothing else changes |
| WavSignalResampler.InitialBuffers | Sources/BroadcastWavCapture/WAVSignalResampler.swift:33-42 | index 0, both scratch buffers without memory, and a single output slot without memory |
| WavSignalResampler.BuffersState.Advanced | Sources/BroadcastWavCapture/WAVSignalResampler.swift:91-97 | every call advances the in-flight index by one and keeps countInFlight |
| WavSignalResampler.OutputCount | Sources/BroadcastWavCapture/WAVSignalResampler.swift:96 | the output count is the floor of numSamples * sampleRate / sourceRate |
| WavSignalResampler.UnsignedSample | Sources/BroadcastWavCapture/WAVSignalResampler.swift:131-133 | the 16 stored bits of an Int16 read back as the same Int16 |
| WavSignalResampler.SignedSample | Sources/BroadcastWavCapture/WAVSignalResampler.swift:108 | 16 bits read as Int16: negative exactly when the top bit is set, and congruent to the bits modulo 2^16 |
| WavSignalResampler.SignedSampleInverse | Sources/BroadcastWavCapture/WAVSignalResampler.swift:108 | reinterpreting 16 bits as Int16 and storing them again gives the same bits |
| WavSignalResampler.ByteSwapped | Sources/BroadcastWavCapture/WAVSignalResampler.swift:103-107 | the swapped buffer has the input's length |
| WavSignalResampler.Samples | Sources/BroadcastWavCapture/WAVSignalResampler.swift:108 | the bytes read as Int16 samples: one sample per 2 bytes |
| WavSignalResampler.SampleBytes | Sources/BroadcastWavCapture/WAVSignalResampler.swift:133 | the Int16 samples copied out as bytes: 2 bytes per sample |
| WavSignalResampler.ByteSwappedAt | Sources/BroadcastWavCapture/WAVSignalResampler.swift:103-107 | byte i of the swapped buffer is the other byte of its 16-bit unit; an odd last byte stays |
| WavSignalResampler.SwapPartnerInvolution | Sources/BroadcastWavCapture/WAVSignalResampler.swift:103-107 | the swap pairs bytes: the partner's partner is the byte itself |
| WavSignalResampler.ByteSwappedInvolution | Sources/BroadcastWavCapture/WAVSignalResampler.swift:103-107 | swapping the bytes twice restores the buffer |
| WavSignalResampler.SwapBytes16 | Sources/BroadcastWavCapture/WAVSignalResampler.swift:103-107 | the in-place swap leaves the array equal to the swapped original |
| WavSignalResampler.ResampleOutcome | Sources/BroadcastWavCapture/WAVSignalResampler.swift:90-134 | a failed audio-buffer extraction is rethrown. Otherwise the call throws exactly when a buffer has no memory after the update, and the only error it throws then is "Addresses for resampling". A result holds 2 bytes per output sample |
| WavSignalResampler.Buffers.constructor | Sources/BroadcastWavCapture/WAVSignalResampler.swift:36-42 | index 0, both scratch buffers empty, and a single empty output slot |
| WavSignalResampler.Buffers.CurrentOutputBuffer | Sources/BroadcastWavCapture/WAVSignalResampler.swift:48-50 | the slot is one of the outputs; in a consistent pool it equals the first slot |
| WavSignalResampler.Buffers.UpdateBufferLengthIfNeeded | Sources/BroadcastWavCapture/WAVSignalResampler.swift:52-69 | the new pool is the pool updated for the two counts, and the pool invariant is kept |
| WavSignalResampler.Buffers.IncrementIndexInFlight | Sources/BroadcastWavCapture/WAVSignalResampler.swift:71-73 | only the index moves, by one, and the pool invariant is kept |
| WavSignalResampler.WAVSignalResampler.constructor | Sources/BroadcastWavCapture/WAVSignalResampler.swift:78-85 | the pool is the initial pool for countInFlightBuffers |
| WavSignalResampler.WAVSignalResampler.Resample | Sources/BroadcastWavCapture/WAVSignalResampler.swift:90-134 | returns or throws the specified outcome, leaves the pool updated for the burst with the index advanced (also when it throws), swaps a big-endian input in place, and keeps the invariant |
| WavSignalResampler.UpdateReallocatesOnlyWhenNeeded | Sources/BroadcastWavCapture/WAVSignalResampler.swift:52-69 | after the update every buffer has the length the burst needs. A buffer is replaced only by a fresh allocation, and only when its length differed. A zero output count leaves the interpolation buffer untouched |
| WavSignalResampler.InitialBuffersConsistent | Sources/BroadcastWavCapture/WAVSignalResampler.swift:36-42 | the initial pool (and the intended one) satisfies the pool invariant |
| WavSignalResampler.AdvancedKeepsConsistent | Sources/BroadcastWavCapture/WAVSignalResampler.swift:52-73 | a call preserves the pool invariant |
| WavSignalResampler.PositiveCountSizesBuffers | Sources/BroadcastWavCapture/WAVSignalResampler.swift:52-69 | a burst with a positive output count leaves every buffer allocated at its length, with one output slot per buffer in flight |
| WavSignalResampler.MatchingLengthsKeepBuffers | Sources/BroadcastWavCapture/WAVSignalResampler.swift:52-69 | when all lengths already fit the burst, nothing is reallocated |
| WavSignalResampler.UpdateIdempotent | Sources/BroadcastWavCapture/WAVSignalResampler.swift:52-69 | updating twice for the same burst is the same as updating once |
| WavSignalResampler.AdvancedKeepsAllocated | Sources/BroadcastWavCapture/WAVSignalResampler.swift:52-73 | once every buffer points at memory, no later call loses that |
| WavSignalResampler.PositiveCountAllocates | Sources/BroadcastWavCapture/WAVSignalResampler.swift:52-73 | a call for a burst with a positive output count leaves the pool allocated |
| WavSignalResampler.NextSlot | Sources/BroadcastWavCapture/WAVSignalResampler.swift:44-46 | the next call uses the next slot, cyclically |
| WavSignalResampler.ConsecutiveCallsUseDistinctSlots | Sources/BroadcastWavCapture/WAVSignalResampler.swift:44-50 | with two or more buffers in flight, consecutive calls use different output slots |
| WavSignalResampler.RunAdvancesIndex | Sources/BroadcastWavCapture/WAVSignalResampler.swift:91-93 | after k calls the index has advanced by exactly k |
| WavSignalResampler.SlotRepeatsAfterCountInFlightCalls | Sources/BroadcastWavCapture/WAVSignalResampler.swift:44-50 | after countInFlight calls the same output slot is used again |
| WavSignalResampler.SampleBytesOfSamples | Sources/BroadcastWavCapture/WAVSignalResampler.swift:108 | reading bytes as Int16 samples and storing them back gives the same bytes |
| WavSignalResampler.SamplesOfSampleBytes | Sources/BroadcastWavCapture/WAVSignalResampler.swift:133 | storing Int16 samples as bytes and reading them back gives the same samples |
| WavSignalResampler.EqualRatesKeepCount | Sources/BroadcastWavCapture/WAVSignalResampler.swift:96 | equal source and target rates keep the sample count |
| WavSignalResampler.AllocatedPoolResamples | Sources/BroadcastWavCapture/WAVSignalResampler.swift:112-120 | once the pool is allocated, every call with its audio buffer at hand finds a slot and succeeds |
| WavSignalResampler.PositiveCountResamples | Sources/BroadcastWavCapture/WAVSignalResampler.swift:97-120 | a burst with a positive output count finds a slot and succeeds, whatever the pool was |
| WavSignalResampler.FirstZeroCountBurstThrows | Sources/BroadcastWavCapture/WAVSignalResampler.swift:112-115 | the first burst of a fresh pool that resamples to nothing throws "Addresses for resampling" |
| WavSignalResampler.EqualRatesResampleIsIdentity | Sources/BroadcastWavCapture/WAVSignalResampler.swift:122-133 | at equal rates a non-empty burst comes back unchanged, in native byte order |
| WavSignalResampler.InterpolatesOnlyWhenCountsDiffer | Sources/BroadcastWavCapture/WAVSignalResampler.swift:125-131 | at any rates, equal counts return the native bytes unchanged, and different counts return the interpolated samples |
| WavSignalResampler.OneSampleAt44kHzKeepsItsCount | Sources/BroadcastWavCapture/WAVSignalResampler.swift:96 | one sample from 44.1 kHz to 48 kHz gives one output sample, so it is not interpolated |
| WavSignalResampler.BigEndianIsSwappedLittleEndian | Sources/BroadcastWavCapture/WAVSignalResampler.swift:101-107 | a big-endian burst gives the same outcome as its byte-swapped little-endian twin |
| WavSignalResampler.ZeroCountBurstsOverrunOutputs | Sources/BroadcastWavCapture/WAVSignalResampler.swift:42 | with two or more buffers in flight, two zero-output bursts in a row on a fresh pool leave the second without an output slot |
| WavSignalResampler.OneSampleAt48kHzResamplesToNothing | Sources/BroadcastWavCapture/WAVSignalResampler.swift:96 | one sample from 48 kHz to 44.1 kHz gives zero output samples |
| WavSignalResampler.IntendedRunKeepsSlots | Sources/BroadcastWavCapture/WAVSignalResampler.swift:52-73 | a pool with one slot per buffer in flight keeps that many slots and its invariant over any sequence of calls |
| WavSignalResampler.IntendedBuffersAlwaysHaveSlot | Sources/BroadcastWavCapture/WAVSignalResampler.swift:42-50 | starting with one empty slot per buffer in flight, every call finds its output slot after any history |

## Left out

- The file system is not modelled: directory creation, `URL`, `Data(contentsOf:)` and `write(to:)`. The loader receives the file's bytes. The writer works on an in-memory file handle.
- Failed writes, seeks and offsets are not modelled. They end in `fatalError` in the source, so the model only has the success path.
- WavWriter.WAVWriter.CompleteMetadata: the UInt64 subtraction `currentOffset - 44` would trap below 44. The writer invariant keeps the cursor at or past 44, so that case is unreachable and not modelled.
- WavWriter.WAVWriter.WriteAudio: it writes at the cursor, like `write(contentsOf:)`. The writer never moves the cursor away from the end between calls, so the model states the write as an append.
- Marks are decoded with `String(data:encoding: .utf8)` and then compared. The model compares bytes instead. This gives the same answer because UTF-8 decoding is injective, the marks are ASCII, and no other UTF-8 sequence is canonically equivalent to these ASCII marks.
- `load(as:)` and `.littleEndian` are modelled for a little-endian host. Every Apple target is little-endian, so big-endian hosts are not modelled.
- Wav.NewFormat: the UInt32 overflow trap in the byte-rate product is a precondition, not a modelled trap.
- Floating point is not modelled: `vDSP_vflt16`, `vDSP_vgen`, `vDSP_vlint` and `vDSP_vfix16`. Interpolation is an `Interpolator` parameter, which only promises the requested number of samples. The identity through Int16 → Float → Int16 at equal rates is modelled, since every Int16 is exactly a Float.
- CoreMedia is not modelled. `getAudioBuffer` becomes the `audioBufferError` parameter (the error it throws, if any). `isBigEndian` becomes a boolean parameter; its own throw (a missing stream description) is not modelled.
- The sample rate read by `Source.init` is a positive parameter. Its `fatalError` when the rate is missing is not modelled.
- The `bindMemory` `fatalError` is not modelled.
- The audio is whole 16-bit samples (an even byte count) in one channel, so `vDSP_Stride` is 1.
- Raw memory is not modelled. A buffer is modelled by whether it has a base address and by its count, and its contents are not tracked. Allocation never fails, and buffers are never freed, as in the source.
- WavSignalResampler.WAVSignalResampler.Resample: the slot-exists precondition stands for the array index that traps in the source. Finding 3 below shows when it fails.
- The lazy `buffers` property is created by the constructor. No observable behaviour depends on when it is created.
- `countInFlightBuffers > 0` is a precondition of the constructor. The source stops with `fatalError` otherwise.
- The app targets, `SampleHandler`, the app-group packages and the tests are not part of this model.

## Findings

| source | as written | input that shows it | evidently intended | confidence | as-written member | corrected member |
|---|---|---|---|---|---|---|
| Sources/BroadcastWavCapture/WAV+File.swift:121 | the guard is `data.count >= 43`, but `loadDATA` reads bytes 40...43 | the first 43 bytes of any header the writer produces pass the guard, then index byte 43 and trap | reject input shorter than 44 bytes with `invalidContentsSize` | high (proved; not executed) | WavFile.TruncatedHeaderTraps | WavFile.Load |
| Sources/BroadcastWavCapture/WAVWriter.swift:58 | `completeMetadata` writes the data size at offset 41 (the 1-based position in the field comments) | 200 audio bytes: the loader reads dataSize 51200 where 200 is meant, and the first audio byte is overwritten | write the data size at offset 40, where the header builder and the loader keep it | high (proved; not executed) | WavWriter.CompletedFileMisplacesDataSize | WavWriter.CompletedFileIntendedRoundTrip |
| Sources/BroadcastWavCapture/WAVSignalResampler.swift:42 | `outputs` starts with one empty slot whatever `countInFlight` is | with 2 buffers in flight, two one-sample bursts from 48 kHz to 44.1 kHz as the first two calls: the second reads `outputs[1]` of a one-element array and traps | start with one empty slot per buffer in flight | medium (proved on the model; not executed) | WavSignalResampler.ZeroCountBurstsOverrunOutputs | WavSignalResampler.IntendedBuffersAlwaysHaveSlot |
