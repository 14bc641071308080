/**
 * Resampling of one-channel 16-bit PCM bursts to a target sample rate.
 *
 * What is modelled is the integer skeleton of `resample`: how many samples
 * come out, which scratch buffers get (re)allocated and which one of the
 * rotating output slots a call uses, the byte swap of big-endian input, the
 * order in which the call can throw, and the Int16 layout of the bytes it
 * returns. The floating-point interpolation itself is a parameter.
 */
module WavSignalResampler {
  import opened Bytes

  type Int16 = x: int | -0x8000 <= x < 0x8000

  datatype ResamplerError =
    | FailedToExecuteFunction(functionName: string)
    | FailedToGetProperty(propertyName: string)

  datatype ResampleResult = Resampled(data: seq<Byte>) | Threw(error: ResamplerError)

  /** The error `resample` throws when a scratch or output buffer has no memory. */
  const MissingAddresses: ResamplerError := FailedToGetProperty("Addresses for resampling")

  /**
   * An unsafe mutable buffer of the source: whether it has memory, and how many
   * elements it spans. Its contents are not modelled.
   */
  datatype MemoryBuffer = MemoryBuffer(hasBaseAddress: bool, count: nat)
  {
    /** A buffer without memory is the empty `.init(start: nil, count: 0)`. */
    predicate WellFormed() {
      hasBaseAddress || count == 0
    }
  }

  const Unallocated := MemoryBuffer(false, 0)

  function Allocate(capacity: nat): MemoryBuffer {
    MemoryBuffer(true, capacity)
  }

  function Max(a: nat, b: nat): nat {
    if a < b then b else a
  }

  /** The lengths of one burst: samples in, samples out. */
  datatype Burst = Burst(numSamples: nat, resampledCount: nat)

  /** The fields of the scratch-buffer pool, as values. */
  datatype BuffersState = BuffersState(
    indexInFlight: nat,
    countInFlight: nat,
    interpolation: MemoryBuffer,
    intermediate: MemoryBuffer,
    outputs: seq<MemoryBuffer>)
  {
    /**
     * What every reachable pool satisfies: all output slots alike, either the
     * single initial empty slot or one slot per buffer in flight.
     */
    predicate Consistent() {
      && countInFlight > 0
      && interpolation.WellFormed()
      && intermediate.WellFormed()
      && |outputs| > 0
      && outputs[0].WellFormed()
      && (forall i :: 0 <= i < |outputs| ==> outputs[i] == outputs[0])
      && (|outputs| == countInFlight || outputs == [Unallocated])
    }

    /** Whether the scratch buffers and the output slots all point at memory. */
    predicate Allocated() {
      && interpolation.hasBaseAddress
      && intermediate.hasBaseAddress
      && |outputs| > 0
      && outputs[0].hasBaseAddress
    }

    /** The output slot the current call uses. */
    function CurrentIndexInFlight(): (i: nat)
      requires countInFlight > 0
      ensures i < countInFlight
    {
      indexInFlight % countInFlight
    }

    /** The pool after `updateBufferLengthIfNeeded`. */
    function UpdatedBufferLengths(countSourceSignals: nat, countOutputSignals: nat): (t: BuffersState)
      ensures t.indexInFlight == indexInFlight && t.countInFlight == countInFlight
      ensures t.intermediate.count == Max(countSourceSignals, countOutputSignals)
      ensures countOutputSignals > 0 ==> t.interpolation.count == countOutputSignals
      ensures countOutputSignals == 0 ==> t.interpolation == interpolation
      ensures |outputs| > 0 && countInFlight > 0 ==> |t.outputs| > 0 && t.outputs[0].count == countOutputSignals
    {
      var maxCountSignals := Max(countSourceSignals, countOutputSignals);
      var interpolation' :=
        if countOutputSignals != interpolation.count && countOutputSignals > 0 then Allocate(countOutputSignals)
        else interpolation;
      var intermediate' :=
        if maxCountSignals != intermediate.count then Allocate(maxCountSignals) else intermediate;
      var outputs' :=
        if |outputs| > 0 && countOutputSignals != outputs[0].count then seq(countInFlight, _ => Allocate(countOutputSignals))
        else outputs;
      this.(interpolation := interpolation', intermediate := intermediate', outputs := outputs')
    }

    /** Only the in-flight index moves, by one. */
    function Incremented(): (t: BuffersState)
      ensures t.indexInFlight == indexInFlight + 1
      ensures t.(indexInFlight := indexInFlight) == this
    {
      this.(indexInFlight := indexInFlight + 1)
    }

    /** The pool after one `resample` call, whichever way it ends: `defer` always increments. */
    function Advanced(b: Burst): (t: BuffersState)
      ensures t.indexInFlight == indexInFlight + 1 && t.countInFlight == countInFlight
    {
      UpdatedBufferLengths(b.numSamples, b.resampledCount).Incremented()
    }

    /** Whether, once the lengths are updated for the burst, the current slot exists. */
    predicate HasOutputSlotFor(b: Burst) {
      countInFlight > 0 &&
      var t := UpdatedBufferLengths(b.numSamples, b.resampledCount);
      t.CurrentIndexInFlight() < |t.outputs|
    }
  }

  /** The pool as `Buffers.init` leaves it: a single empty output slot. */
  function InitialBuffers(countInFlight: nat): (s: BuffersState)
    ensures s.indexInFlight == 0 && s.countInFlight == countInFlight
    ensures !s.interpolation.hasBaseAddress && !s.intermediate.hasBaseAddress
    ensures |s.outputs| == 1 && !s.outputs[0].hasBaseAddress
  {
    BuffersState(0, countInFlight, Unallocated, Unallocated, [Unallocated])
  }

  /** The pool with one empty output slot per buffer in flight. */
  function IntendedInitialBuffers(countInFlight: nat): BuffersState {
    BuffersState(0, countInFlight, Unallocated, Unallocated, seq(countInFlight, _ => Unallocated))
  }

  /** The pool after a sequence of `resample` calls. */
  function Run(s: BuffersState, bursts: seq<Burst>): BuffersState
    decreases |bursts|
  {
    if bursts == [] then s else Run(s.Advanced(bursts[0]), bursts[1..])
  }

  /** `numSamples * sampleRate / source.sampleRate`, truncating integer division. */
  function OutputCount(numSamples: nat, targetRate: nat, sourceRate: nat): (r: nat)
    requires sourceRate > 0
    ensures r * sourceRate <= numSamples * targetRate < (r + 1) * sourceRate
  {
    var r := numSamples * targetRate / sourceRate;
    assert numSamples * targetRate == sourceRate * r + numSamples * targetRate % sourceRate;
    r
  }

  // ---------------------------------------------------------------------------
  // Bytes and samples

  /** The byte a 16-bit swap puts at position i of an n-byte buffer comes from here. */
  function SwapPartner(i: nat, n: nat): nat {
    if i % 2 == 1 then i - 1 else if i + 1 < n then i + 1 else i
  }

  lemma SwapPartnerShift(n: nat)
    requires n >= 2
    ensures forall i :: 2 <= i < n ==> SwapPartner(i, n) == SwapPartner(i - 2, n - 2) + 2
  {
  }

  lemma SwapPartnerInvolution(i: nat, n: nat)
    requires i < n
    ensures SwapPartner(i, n) < n && SwapPartner(SwapPartner(i, n), n) == i
  {
  }

  /**
   * `vImageByteSwap_Planar16U` over `mDataByteSize / 2` pixels: the bytes of
   * every 16-bit unit trade places; an odd last byte stays.
   */
  function ByteSwapped(s: seq<Byte>): (r: seq<Byte>)
    ensures |r| == |s|
    decreases |s|
  {
    if |s| < 2 then s else [s[1], s[0]] + ByteSwapped(s[2..])
  }

  /** Byte i of the swapped buffer is the byte at its swap partner. */
  lemma {:induction false} ByteSwappedAt(s: seq<Byte>)
    ensures forall i :: 0 <= i < |s| ==>
      SwapPartner(i, |s|) < |s| && ByteSwapped(s)[i] == s[SwapPartner(i, |s|)]
    decreases |s|
  {
    if |s| >= 2 {
      ByteSwappedAt(s[2..]);
      SwapPartnerShift(|s|);
      assert forall i :: 2 <= i < |s| ==> ByteSwapped(s)[i] == ByteSwapped(s[2..])[i - 2];
    }
  }

  /** The two's-complement reading of a 16-bit unsigned value. */
  function SignedSample(u: UInt16): (x: Int16)
    ensures x < 0 <==> u >= 0x8000
    ensures x % 0x1_0000 == u
  {
    if u < 0x8000 then u else u - 0x1_0000
  }

  /** The 16 bits that store an Int16, read as unsigned. */
  function UnsignedSample(x: Int16): (u: UInt16)
    ensures SignedSample(u) == x
  {
    var v: int := x;
    if v < 0 then v + 0x1_0000 else v
  }

  lemma SignedSampleInverse(u: UInt16)
    ensures UnsignedSample(SignedSample(u)) == u
  {
  }

  /** Native little-endian bytes read as Int16 samples. */
  function Samples(bytes: seq<Byte>): (s: seq<Int16>)
    requires |bytes| % 2 == 0
    ensures |s| == |bytes| / 2
    decreases |bytes|
  {
    if bytes == [] then [] else [SignedSample(U16At(bytes, 0))] + Samples(bytes[2..])
  }

  /** The bytes of an Int16 array on a little-endian host, as `Data(buffer:)` copies them. */
  function SampleBytes(samples: seq<Int16>): (b: seq<Byte>)
    ensures |b| == 2 * |samples|
  {
    if samples == [] then [] else LittleEndian(UnsignedSample(samples[0]), 2) + SampleBytes(samples[1..])
  }

  /**
   * `vDSP_vlint` driven by the ramp in `interpolation`, followed by
   * `vDSP_vfix16`: whatever it computes, it yields as many samples as asked.
   */
  type Interpolator = f: (seq<Int16>, nat) -> seq<Int16> | forall s, n :: |f(s, n)| == n
    witness (s: seq<Int16>, n: nat) => seq(n, _ => 0)

  /**
   * The value `resample` returns or throws for `audio`, given the pool before
   * the call. The precondition on the slot is the array index that traps
   * otherwise.
   */
  function ResampleOutcome(s: BuffersState, audio: seq<Byte>, sourceRate: nat, sampleRate: nat,
                           isBigEndian: bool, audioBufferError: Option<ResamplerError>,
                           interpolate: Interpolator): (r: ResampleResult)
    requires s.Consistent() && sourceRate > 0 && |audio| % 2 == 0
    requires audioBufferError.Some? ||
      s.HasOutputSlotFor(Burst(|audio| / 2, OutputCount(|audio| / 2, sampleRate, sourceRate)))
    ensures audioBufferError.Some? ==> r == Threw(audioBufferError.value)
    ensures r.Threw? && audioBufferError.None? ==> r.error == MissingAddresses
    ensures r.Resampled? ==> |r.data| == 2 * OutputCount(|audio| / 2, sampleRate, sourceRate)
    ensures audioBufferError.None? ==>
      (r.Threw? <==> !s.UpdatedBufferLengths(|audio| / 2, OutputCount(|audio| / 2, sampleRate, sourceRate)).Allocated())
  {
    var numSamples := |audio| / 2;
    var resampledCount := OutputCount(numSamples, sampleRate, sourceRate);
    var t := s.UpdatedBufferLengths(numSamples, resampledCount);
    AdvancedKeepsConsistent(s, Burst(numSamples, resampledCount));
    match audioBufferError
    case Some(e) => Threw(e)
    case None =>
      var native := if isBigEndian then ByteSwapped(audio) else audio;
      var output := t.outputs[t.CurrentIndexInFlight()];
      if !output.hasBaseAddress then Threw(MissingAddresses)
      else if !t.intermediate.hasBaseAddress || !t.interpolation.hasBaseAddress then Threw(MissingAddresses)
      else
        var samples := Samples(native);
        var converted := if resampledCount != numSamples then interpolate(samples, resampledCount) else samples;
        assert output == t.outputs[0];
        assert |converted| == output.count;
        Resampled(SampleBytes(converted))
  }

  /** Swaps the bytes of every 16-bit unit of `a` in place. */
  method SwapBytes16(a: array<Byte>)
    modifies a
    ensures a[..] == ByteSwapped(old(a[..]))
  {
    ghost var original := a[..];
    var n := a.Length;
    var i := 0;
    while i + 1 < n
      invariant 0 <= i <= n && i % 2 == 0
      invariant forall k :: 0 <= k < i ==> SwapPartner(k, n) < n && a[k] == original[SwapPartner(k, n)]
      invariant forall k :: i <= k < n ==> a[k] == original[k]
    {
      assert SwapPartner(i, n) == i + 1 && SwapPartner(i + 1, n) == i;
      a[i], a[i + 1] := a[i + 1], a[i];
      i := i + 2;
    }
    assert i < n ==> SwapPartner(i, n) == i;
    var swapped := ByteSwapped(original);
    ByteSwappedAt(original);
    forall k | 0 <= k < n
      ensures a[k] == swapped[k]
    {
    }
  }

  // ---------------------------------------------------------------------------
  // The pool and the resampler as objects

  class Buffers {
    var indexInFlight: nat
    const countInFlight: nat
    var interpolation: MemoryBuffer
    var intermediate: MemoryBuffer
    var outputs: seq<MemoryBuffer>

    function State(): BuffersState
      reads this
    {
      BuffersState(indexInFlight, countInFlight, interpolation, intermediate, outputs)
    }

    ghost predicate Valid()
      reads this
    {
      State().Consistent()
    }

    constructor (countInFlight: nat)
      ensures State() == InitialBuffers(countInFlight)
    {
      indexInFlight := 0;
      this.countInFlight := countInFlight;
      interpolation := Unallocated;
      intermediate := Unallocated;
      outputs := [Unallocated];
    }

    /** The output slot of the current call: in a consistent pool, every slot looks like the first. */
    function CurrentOutputBuffer(): (b: MemoryBuffer)
      reads this
      requires countInFlight > 0 && State().CurrentIndexInFlight() < |outputs|
      ensures b in outputs
      ensures State().Consistent() ==> b == outputs[0]
    {
      outputs[State().CurrentIndexInFlight()]
    }

    method UpdateBufferLengthIfNeeded(countSourceSignals: nat, countOutputSignals: nat)
      modifies this
      ensures State() == old(State()).UpdatedBufferLengths(countSourceSignals, countOutputSignals)
      ensures old(Valid()) ==> Valid()
    {
      ghost var before := State();
      var maxCountSignals := Max(countSourceSignals, countOutputSignals);
      if countOutputSignals != interpolation.count && countOutputSignals > 0 {
        interpolation := Allocate(countOutputSignals);
      }
      if maxCountSignals != intermediate.count {
        intermediate := Allocate(maxCountSignals);
      }
      if |outputs| > 0 && countOutputSignals != outputs[0].count {
        outputs := seq(countInFlight, _ => Allocate(countOutputSignals));
      }
      assert State() == before.UpdatedBufferLengths(countSourceSignals, countOutputSignals);
      if before.Consistent() {
        AdvancedKeepsConsistent(before, Burst(countSourceSignals, countOutputSignals));
      }
    }

    method IncrementIndexInFlight()
      modifies this
      ensures State() == old(State()).Incremented()
      ensures old(Valid()) ==> Valid()
    {
      indexInFlight := indexInFlight + 1;
    }
  }

  class WAVSignalResampler {
    const countInFlightBuffers: nat
    const buffers: Buffers

    ghost predicate Valid()
      reads this, buffers
    {
      buffers.countInFlight == countInFlightBuffers && buffers.Valid()
    }

    constructor (countInFlightBuffers: nat)
      requires countInFlightBuffers > 0
      ensures Valid() && fresh(buffers)
      ensures this.countInFlightBuffers == countInFlightBuffers
      ensures buffers.State() == InitialBuffers(countInFlightBuffers)
    {
      this.countInFlightBuffers := countInFlightBuffers;
      buffers := new Buffers(countInFlightBuffers);
    }

    /**
     * One burst of `audio` (its 16-bit samples in the stream's byte order)
     * recorded at `sourceRate`, resampled to `sampleRate`. `audioBufferError`
     * is what extracting the audio buffer from the sample buffer threw, if
     * anything. Big-endian input is swapped in place in the caller's buffer.
     */
    method Resample(audio: array<Byte>, sourceRate: nat, isBigEndian: bool,
                    audioBufferError: Option<ResamplerError>, sampleRate: nat,
                    interpolate: Interpolator) returns (r: ResampleResult)
      requires Valid() && sourceRate > 0 && audio.Length % 2 == 0
      requires audioBufferError.Some? ||
        buffers.State().HasOutputSlotFor(Burst(audio.Length / 2, OutputCount(audio.Length / 2, sampleRate, sourceRate)))
      modifies buffers, audio
      ensures Valid()
      ensures buffers.State() ==
        old(buffers.State()).Advanced(Burst(audio.Length / 2, OutputCount(audio.Length / 2, sampleRate, sourceRate)))
      ensures r == ResampleOutcome(old(buffers.State()), old(audio[..]), sourceRate, sampleRate,
                                   isBigEndian, audioBufferError, interpolate)
      ensures audio[..] == if audioBufferError.None? && isBigEndian then ByteSwapped(old(audio[..])) else old(audio[..])
    {
      var numSamples := audio.Length / 2;
      var resampledCount := numSamples * sampleRate / sourceRate;
      ghost var input := audio[..];
      buffers.UpdateBufferLengthIfNeeded(numSamples, resampledCount);
      if audioBufferError.Some? {
        r := Threw(audioBufferError.value);
      } else {
        if isBigEndian {
          SwapBytes16(audio);
        }
        ghost var native := audio[..];
        assert native == if isBigEndian then ByteSwapped(input) else input;
        var outputBuffer := buffers.CurrentOutputBuffer();
        if !outputBuffer.hasBaseAddress {
          r := Threw(MissingAddresses);
        } else if !buffers.intermediate.hasBaseAddress || !buffers.interpolation.hasBaseAddress {
          r := Threw(MissingAddresses);
        } else {
          var samples := Samples(audio[..]);
          var needsInterpolate := resampledCount != numSamples;
          var output := if needsInterpolate then interpolate(samples, resampledCount) else samples;
          r := Resampled(SampleBytes(output));
        }
      }
      // the deferred increment runs on every exit
      buffers.IncrementIndexInFlight();
    }
  }

  // ---------------------------------------------------------------------------
  // Properties of the pool

  /**
   * Updating the lengths gives every buffer the length the burst needs, and
   * replaces a buffer only by a fresh allocation, only when its length was
   * not already right.
   */
  lemma UpdateReallocatesOnlyWhenNeeded(s: BuffersState, b: Burst)
    ensures var t := s.UpdatedBufferLengths(b.numSamples, b.resampledCount);
      && t.indexInFlight == s.indexInFlight && t.countInFlight == s.countInFlight
      && (b.resampledCount > 0 ==> t.interpolation.count == b.resampledCount)
      && (t.interpolation != s.interpolation ==>
            s.interpolation.count != b.resampledCount && t.interpolation == Allocate(b.resampledCount))
      && (b.resampledCount == 0 ==> t.interpolation == s.interpolation)
      && t.intermediate.count == Max(b.numSamples, b.resampledCount)
      && (t.intermediate != s.intermediate ==>
            s.intermediate.count != Max(b.numSamples, b.resampledCount) && t.intermediate == Allocate(t.intermediate.count))
      && (|s.outputs| > 0 && s.countInFlight > 0 ==> |t.outputs| > 0 && t.outputs[0].count == b.resampledCount)
      && (t.outputs != s.outputs ==>
            |s.outputs| > 0 && s.outputs[0].count != b.resampledCount
            && t.outputs == seq(s.countInFlight, _ => Allocate(b.resampledCount)))
  {
  }

  /** Every pool the resampler builds is consistent. */
  lemma InitialBuffersConsistent(countInFlight: nat)
    requires countInFlight > 0
    ensures InitialBuffers(countInFlight).Consistent()
    ensures IntendedInitialBuffers(countInFlight).Consistent()
  {
  }

  lemma AdvancedKeepsConsistent(s: BuffersState, b: Burst)
    requires s.Consistent()
    ensures s.UpdatedBufferLengths(b.numSamples, b.resampledCount).Consistent()
    ensures s.Advanced(b).Consistent()
  {
    var t := s.UpdatedBufferLengths(b.numSamples, b.resampledCount);
    if t.outputs != s.outputs {
      assert forall i :: 0 <= i < |t.outputs| ==> t.outputs[i] == Allocate(b.resampledCount);
    }
  }

  /**
   * A burst with a positive output count leaves every buffer allocated at the
   * length it needs, with one output slot per buffer in flight.
   */
  lemma PositiveCountSizesBuffers(s: BuffersState, b: Burst)
    requires s.Consistent() && b.resampledCount > 0
    ensures var t := s.UpdatedBufferLengths(b.numSamples, b.resampledCount);
      && t.interpolation == Allocate(b.resampledCount)
      && t.intermediate == Allocate(Max(b.numSamples, b.resampledCount))
      && t.outputs == seq(s.countInFlight, _ => Allocate(b.resampledCount))
  {
    var t := s.UpdatedBufferLengths(b.numSamples, b.resampledCount);
    if t.outputs == s.outputs {
      assert s.outputs != [Unallocated];
      assert forall i :: 0 <= i < |t.outputs| ==> t.outputs[i] == Allocate(b.resampledCount);
    }
  }

  /** When every length already fits the burst, nothing is reallocated. */
  lemma MatchingLengthsKeepBuffers(s: BuffersState, b: Burst)
    requires b.resampledCount == 0 || s.interpolation.count == b.resampledCount
    requires s.intermediate.count == Max(b.numSamples, b.resampledCount)
    requires |s.outputs| == 0 || s.outputs[0].count == b.resampledCount
    ensures s.UpdatedBufferLengths(b.numSamples, b.resampledCount) == s
  {
  }

  /** Updating twice for the same burst is updating once. */
  lemma UpdateIdempotent(s: BuffersState, b: Burst)
    ensures var t := s.UpdatedBufferLengths(b.numSamples, b.resampledCount);
      t.UpdatedBufferLengths(b.numSamples, b.resampledCount) == t
  {
    var t := s.UpdatedBufferLengths(b.numSamples, b.resampledCount);
    if |t.outputs| > 0 && t.outputs != s.outputs {
      assert t.outputs[0] == Allocate(b.resampledCount);
    }
    MatchingLengthsKeepBuffers(t, b);
  }

  /** Allocation, once reached, is never lost. */
  lemma AdvancedKeepsAllocated(s: BuffersState, b: Burst)
    requires s.Consistent() && s.Allocated()
    ensures s.Advanced(b).Allocated()
  {
    var t := s.UpdatedBufferLengths(b.numSamples, b.resampledCount);
    if t.outputs != s.outputs {
      assert t.outputs[0] == Allocate(b.resampledCount);
    }
  }

  lemma PositiveCountAllocates(s: BuffersState, b: Burst)
    requires s.Consistent() && b.resampledCount > 0
    ensures s.Advanced(b).Allocated()
  {
    PositiveCountSizesBuffers(s, b);
  }

  /** The call after the current one uses the next slot, cyclically. */
  lemma NextSlot(s: BuffersState, b: Burst)
    requires s.countInFlight > 0
    ensures s.Advanced(b).CurrentIndexInFlight() == (s.CurrentIndexInFlight() + 1) % s.countInFlight
  {
    ModSuccessor(s.indexInFlight, s.countInFlight);
  }

  lemma ModSuccessor(i: nat, k: nat)
    requires k > 0
    ensures (i + 1) % k == (i % k + 1) % k
  {
    var q, r := i / k, i % k;
    assert i == k * q + r;
    if r + 1 < k {
      ModOfDecomposition(i + 1, k, q, r + 1);
      ModOfDecomposition(r + 1, k, 0, r + 1);
    } else {
      assert i + 1 == k * (q + 1);
      ModOfDecomposition(i + 1, k, q + 1, 0);
      ModOfDecomposition(r + 1, k, 1, 0);
    }
  }

  lemma ModPeriod(i: nat, k: nat)
    requires k > 0
    ensures (i + k) % k == i % k
  {
    var q, r := i / k, i % k;
    assert i == k * q + r;
    assert i + k == k * (q + 1) + r;
    ModOfDecomposition(i + k, k, q + 1, r);
  }

  /** With two or more buffers in flight, consecutive calls never share an output slot. */
  lemma ConsecutiveCallsUseDistinctSlots(s: BuffersState, b: Burst)
    requires s.countInFlight >= 2
    ensures s.Advanced(b).CurrentIndexInFlight() != s.CurrentIndexInFlight()
  {
    NextSlot(s, b);
  }

  lemma {:induction false} RunAdvancesIndex(s: BuffersState, bursts: seq<Burst>)
    ensures Run(s, bursts).indexInFlight == s.indexInFlight + |bursts|
    ensures Run(s, bursts).countInFlight == s.countInFlight
    decreases |bursts|
  {
    if bursts != [] {
      RunAdvancesIndex(s.Advanced(bursts[0]), bursts[1..]);
    }
  }

  /** After `countInFlight` calls the rotation is back at the same output slot. */
  lemma SlotRepeatsAfterCountInFlightCalls(s: BuffersState, bursts: seq<Burst>)
    requires s.countInFlight > 0 && |bursts| == s.countInFlight
    ensures Run(s, bursts).countInFlight == s.countInFlight
    ensures Run(s, bursts).CurrentIndexInFlight() == s.CurrentIndexInFlight()
  {
    RunAdvancesIndex(s, bursts);
    ModPeriod(s.indexInFlight, s.countInFlight);
  }

  // ---------------------------------------------------------------------------
  // Properties of one call

  lemma {:induction false} SampleBytesOfSamples(bytes: seq<Byte>)
    requires |bytes| % 2 == 0
    ensures SampleBytes(Samples(bytes)) == bytes
    decreases |bytes|
  {
    if bytes != [] {
      SignedSampleInverse(U16At(bytes, 0));
      SampleBytesOfSamples(bytes[2..]);
      assert bytes == bytes[0..2] + bytes[2..];
    }
  }

  lemma {:induction false} SamplesOfSampleBytes(samples: seq<Int16>)
    ensures Samples(SampleBytes(samples)) == samples
  {
    if samples != [] {
      var x := samples[0];
      var head := LittleEndian(UnsignedSample(x), 2);
      var bytes := SampleBytes(samples);
      Pow256Values();
      DecodeEncodeInRange(UnsignedSample(x), 2);
      assert bytes[0..2] == head;
      assert U16At(bytes, 0) == UnsignedSample(x);
      assert bytes[2..] == SampleBytes(samples[1..]);
      SamplesOfSampleBytes(samples[1..]);
    }
  }

  /** Swapping the bytes twice restores the buffer. */
  lemma ByteSwappedInvolution(s: seq<Byte>)
    ensures ByteSwapped(ByteSwapped(s)) == s
  {
    var twice := ByteSwapped(ByteSwapped(s));
    ByteSwappedAt(s);
    ByteSwappedAt(ByteSwapped(s));
    forall i | 0 <= i < |s|
      ensures twice[i] == s[i]
    {
      SwapPartnerInvolution(i, |s|);
    }
  }

  /** Equal source and target rates keep the sample count. */
  lemma EqualRatesKeepCount(numSamples: nat, rate: nat)
    requires rate > 0
    ensures OutputCount(numSamples, rate, rate) == numSamples
  {
    var r := OutputCount(numSamples, rate, rate);
    if r < numSamples {
      MultiplyMonotone(rate, r + 1, numSamples);
    }
  }

  /** Once the pool is allocated, every call whose audio buffer is at hand succeeds. */
  lemma AllocatedPoolResamples(s: BuffersState, audio: seq<Byte>, sourceRate: nat, sampleRate: nat,
                               isBigEndian: bool, interpolate: Interpolator)
    requires s.Consistent() && s.Allocated() && sourceRate > 0 && |audio| % 2 == 0
    ensures s.HasOutputSlotFor(Burst(|audio| / 2, OutputCount(|audio| / 2, sampleRate, sourceRate)))
    ensures ResampleOutcome(s, audio, sourceRate, sampleRate, isBigEndian, None, interpolate).Resampled?
  {
    var b := Burst(|audio| / 2, OutputCount(|audio| / 2, sampleRate, sourceRate));
    var t := s.UpdatedBufferLengths(b.numSamples, b.resampledCount);
    AdvancedKeepsConsistent(s, b);
    assert s.outputs != [Unallocated];
    if t.outputs != s.outputs {
      assert t.outputs[0] == Allocate(b.resampledCount);
    }
  }

  /** A burst with a positive output count succeeds, whatever the pool looked like before. */
  lemma PositiveCountResamples(s: BuffersState, audio: seq<Byte>, sourceRate: nat, sampleRate: nat,
                               isBigEndian: bool, interpolate: Interpolator)
    requires s.Consistent() && sourceRate > 0 && |audio| % 2 == 0
    requires OutputCount(|audio| / 2, sampleRate, sourceRate) > 0
    ensures s.HasOutputSlotFor(Burst(|audio| / 2, OutputCount(|audio| / 2, sampleRate, sourceRate)))
    ensures ResampleOutcome(s, audio, sourceRate, sampleRate, isBigEndian, None, interpolate).Resampled?
  {
    var b := Burst(|audio| / 2, OutputCount(|audio| / 2, sampleRate, sourceRate));
    PositiveCountSizesBuffers(s, b);
  }

  /** The first burst of a new pool that resamples to nothing throws instead of returning no bytes. */
  lemma FirstZeroCountBurstThrows(countInFlight: nat, audio: seq<Byte>, sourceRate: nat, sampleRate: nat,
                                  isBigEndian: bool, interpolate: Interpolator)
    requires countInFlight > 0 && sourceRate > 0 && |audio| % 2 == 0
    requires OutputCount(|audio| / 2, sampleRate, sourceRate) == 0
    ensures InitialBuffers(countInFlight).Consistent()
    ensures InitialBuffers(countInFlight).HasOutputSlotFor(Burst(|audio| / 2, 0))
    ensures ResampleOutcome(InitialBuffers(countInFlight), audio, sourceRate, sampleRate, isBigEndian, None, interpolate)
      == Threw(MissingAddresses)
  {
  }

  /**
   * At equal rates the call hands back the samples it was given, in native
   * byte order: Int16 -> Float -> Int16 is exact.
   */
  lemma EqualRatesResampleIsIdentity(s: BuffersState, audio: seq<Byte>, rate: nat, isBigEndian: bool,
                                     interpolate: Interpolator)
    requires s.Consistent() && rate > 0 && |audio| % 2 == 0 && |audio| > 0
    ensures s.HasOutputSlotFor(Burst(|audio| / 2, OutputCount(|audio| / 2, rate, rate)))
    ensures ResampleOutcome(s, audio, rate, rate, isBigEndian, None, interpolate)
      == Resampled(if isBigEndian then ByteSwapped(audio) else audio)
  {
    EqualRatesKeepCount(|audio| / 2, rate);
    PositiveCountResamples(s, audio, rate, rate, isBigEndian, interpolate);
    SampleBytesOfSamples(if isBigEndian then ByteSwapped(audio) else audio);
  }

  /**
   * Interpolation runs exactly when the output count differs from the input
   * count: with equal counts the call hands back the native samples, at any
   * pair of rates.
   */
  lemma InterpolatesOnlyWhenCountsDiffer(s: BuffersState, audio: seq<Byte>, sourceRate: nat, sampleRate: nat,
                                         isBigEndian: bool, interpolate: Interpolator)
    requires s.Consistent() && sourceRate > 0 && |audio| % 2 == 0
    requires s.HasOutputSlotFor(Burst(|audio| / 2, OutputCount(|audio| / 2, sampleRate, sourceRate)))
    ensures var n, c := |audio| / 2, OutputCount(|audio| / 2, sampleRate, sourceRate);
      var native := if isBigEndian then ByteSwapped(audio) else audio;
      var r := ResampleOutcome(s, audio, sourceRate, sampleRate, isBigEndian, None, interpolate);
      && (r.Resampled? && c == n ==> r.data == native)
      && (r.Resampled? && c != n ==> r.data == SampleBytes(interpolate(Samples(native), c)))
  {
    SampleBytesOfSamples(if isBigEndian then ByteSwapped(audio) else audio);
  }

  /** One sample from 44.1 kHz to 48 kHz keeps its count, so it is not interpolated. */
  lemma OneSampleAt44kHzKeepsItsCount()
    ensures OutputCount(1, 48000, 44100) == 1
  {
  }

  /** A big-endian burst resamples exactly as its byte-swapped little-endian twin. */
  lemma BigEndianIsSwappedLittleEndian(s: BuffersState, audio: seq<Byte>, sourceRate: nat, sampleRate: nat,
                                       audioBufferError: Option<ResamplerError>, interpolate: Interpolator)
    requires s.Consistent() && sourceRate > 0 && |audio| % 2 == 0
    requires audioBufferError.Some? ||
      s.HasOutputSlotFor(Burst(|audio| / 2, OutputCount(|audio| / 2, sampleRate, sourceRate)))
    ensures ResampleOutcome(s, audio, sourceRate, sampleRate, true, audioBufferError, interpolate)
      == ResampleOutcome(s, ByteSwapped(audio), sourceRate, sampleRate, false, audioBufferError, interpolate)
  {
  }

  // ---------------------------------------------------------------------------
  // The single initial output slot

  /**
   * With two or more buffers in flight, two bursts in a row that resample to
   * nothing, before any that does not, find no output slot: the second
   * indexes slot 1 of a one-slot array.
   */
  lemma ZeroCountBurstsOverrunOutputs(countInFlight: nat, first: nat, second: nat)
    requires countInFlight >= 2
    ensures !InitialBuffers(countInFlight).Advanced(Burst(first, 0)).HasOutputSlotFor(Burst(second, 0))
  {
  }

  /** One sample captured at 48 kHz and written at 44.1 kHz is such a burst. */
  lemma OneSampleAt48kHzResamplesToNothing()
    ensures OutputCount(1, 44100, 48000) == 0
  {
  }

  lemma {:induction false} IntendedRunKeepsSlots(s: BuffersState, bursts: seq<Burst>)
    requires s.Consistent() && |s.outputs| == s.countInFlight
    ensures Run(s, bursts).Consistent() && |Run(s, bursts).outputs| == s.countInFlight
    decreases |bursts|
  {
    if bursts != [] {
      var b := bursts[0];
      AdvancedKeepsConsistent(s, b);
      RunAdvancesIndex(s, [b]);
      IntendedRunKeepsSlots(s.Advanced(b), bursts[1..]);
    }
  }

  /**
   * Starting from one empty slot per buffer in flight, every call finds its
   * output slot, whatever bursts came before.
   */
  lemma IntendedBuffersAlwaysHaveSlot(countInFlight: nat, history: seq<Burst>, next: Burst)
    requires countInFlight > 0
    ensures Run(IntendedInitialBuffers(countInFlight), history).Consistent()
    ensures Run(IntendedInitialBuffers(countInFlight), history).HasOutputSlotFor(next)
  {
    var s := IntendedInitialBuffers(countInFlight);
    IntendedRunKeepsSlots(s, history);
    RunAdvancesIndex(s, history);
    var r := Run(s, history);
    var t := r.UpdatedBufferLengths(next.numSamples, next.resampledCount);
    if t.outputs != r.outputs {
      assert |t.outputs| == countInFlight;
    }
  }
}
