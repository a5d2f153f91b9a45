/** The wavetable sampler: reading a 64-byte half waveform by 16-bit phase and
    crossfading the two waveforms of a wavetable slot.

    The waveform store (the firmware's waveform data in program memory) is an
    abstract byte sequence; a waveform pointer is an offset into it and NULL is None. */
module Sampler {
  import opened Ints

  /** One slot of a wavetable: left and right waveform, 8-bit crossfade factor, key-frame flag. */
  datatype Entry = Entry(ptrL: Option<nat>, ptrR: Option<nat>, factor: uint8, isKey: bool)

  /** An entry after the wipe of the loader: all bytes zero. */
  const ZeroEntry: Entry := Entry(None, None, 0, false)

  /** get_waveform_pointer: waveform `index` starts `index << 6` bytes into the store. */
  function WaveformPointer(index: uint8): (p: nat)
    ensures p % 64 == 0 && p / 64 == index
  {
    index * 64
  }

  /** The 64 bytes a pointer designates lie inside the store. */
  predicate InStore(store: seq<uint8>, ptr: nat)
  {
    ptr + 64 <= |store|
  }

  /** An entry the sampler can read: both pointers non-NULL and inside the store. */
  predicate ValidEntry(store: seq<uint8>, e: Entry)
  {
    e.ptrL.Some? && e.ptrR.Some? && InStore(store, e.ptrL.value) && InStore(store, e.ptrR.value)
  }

  /** get_waveform_sample_by_phase. The high byte of the (little-endian) phase,
      shifted right once, is a sub-phase 0..127; its bit 6 selects the half of the
      reconstructed period and its low six bits index the stored half waveform.
      The first half is the stored half mirrored and inverted. */
  function SampleByPhase(store: seq<uint8>, ptr: nat, phase: uint16): (r: uint8)
    requires InStore(store, ptr)
    ensures 0x8000 <= phase ==> r == store[ptr + phase / 512 % 64]
    ensures phase < 0x8000 ==> r == 255 - store[ptr + 63 - phase / 512 % 64]
  {
    var sub := (phase / 256) / 2;
    var halfSelect := sub >= 64;
    var idx := sub % 64;
    if halfSelect then store[ptr + idx] else 255 - store[ptr + 63 - idx]
  }

  /** Only the top seven bits of the phase (`phase >> 9`) matter. */
  lemma SampleBySubPhase(store: seq<uint8>, ptr: nat, p: uint16, q: uint16)
    requires InStore(store, ptr)
    requires p / 512 == q / 512
    ensures SampleByPhase(store, ptr, p) == SampleByPhase(store, ptr, q)
  {
    assert p / 256 / 2 == p / 512;
    assert q / 256 / 2 == q / 512;
  }

  /** Mirroring: two phases whose sub-phases are s and 127 - s give samples
      summing to 255, so the reconstructed period is antisymmetric. */
  lemma SampleMirror(store: seq<uint8>, ptr: nat, p: uint16, q: uint16)
    requires InStore(store, ptr)
    requires p / 512 + q / 512 == 127
    ensures SampleByPhase(store, ptr, p) + SampleByPhase(store, ptr, q) == 255
  {
    assert p / 256 / 2 == p / 512;
    assert q / 256 / 2 == q / 512;
  }

  /** The phase 65535 - p is the mirror image of phase p. */
  lemma MirrorPhase(store: seq<uint8>, ptr: nat, p: uint16)
    requires InStore(store, ptr)
    ensures SampleByPhase(store, ptr, p) + SampleByPhase(store, ptr, 65535 - p) == 255
  {
    assert p / 512 + (65535 - p) / 512 == 127;
    SampleMirror(store, ptr, p, 65535 - p);
  }

  function Min(a: int, b: int): int { if a <= b then a else b }
  function Max(a: int, b: int): int { if a <= b then b else a }

  /** The crossfade of get_wavetable_entry_sample, computed in uint16_t:
      `((256 - f) * sl + f * sr) >> 8`. None of its uint16 stores wraps, and the
      result lies between the two samples, equal to the left one when f = 0. */
  function Mix(factor: uint8, sl: uint8, sr: uint8): (r: uint8)
    ensures Min(sl, sr) <= r <= Max(sl, sr)
    ensures factor == 0 ==> r == sl
  {
    MixBound(factor, sl, sr);
    var mixL := ToUint16((256 - factor) * sl);
    var mixR := ToUint16(factor * sr);
    ToUint16(mixL + mixR) / 256
  }

  /** The weighted sum never exceeds 255 * 256 = 65280, and weighs the two samples
      between 256 times the smaller and 256 times the larger. */
  lemma MixBound(factor: uint8, sl: uint8, sr: uint8)
    ensures 0 <= (256 - factor) * sl && 0 <= factor * sr
    ensures 256 * Min(sl, sr) <= (256 - factor) * sl + factor * sr <= 256 * Max(sl, sr) <= 65280
  {
    var lo, hi := Min(sl, sr), Max(sl, sr);
    MulMonotone(256 - factor, lo, sl);
    MulMonotone(256 - factor, sl, hi);
    MulMonotone(factor, lo, sr);
    MulMonotone(factor, sr, hi);
    MulMonotone(256 - factor, 0, lo);
    MulMonotone(factor, 0, lo);
    assert (256 - factor) * lo + factor * lo == 256 * lo;
    assert (256 - factor) * hi + factor * hi == 256 * hi;
  }

  /** get_wavetable_entry_sample: the crossfade of the left and right waveforms at one phase. */
  function EntrySample(store: seq<uint8>, e: Entry, phase: uint16): (r: uint8)
    requires ValidEntry(store, e)
    ensures var l, rr := SampleByPhase(store, e.ptrL.value, phase), SampleByPhase(store, e.ptrR.value, phase);
      Min(l, rr) <= r <= Max(l, rr) && (e.factor == 0 ==> r == l)
  {
    Mix(e.factor, SampleByPhase(store, e.ptrL.value, phase), SampleByPhase(store, e.ptrR.value, phase))
  }
}
