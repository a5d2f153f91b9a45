/** The synthesizer of the firmware: the global wavetable, the loaders that fill
    it, and one tick of the sample interrupt. The ADC readings are parameters of
    the tick and the DAC port is its result; the waveform data in program memory
    is the abstract byte sequence `store`. */
module Synth {
  import opened Ints
  import opened Dsp
  import opened Sampler
  import opened Loader

  /** DEFAULT_WAVETABLE_SIZE: the slots of the global wavetable. */
  const TableSize: nat := 61

  /** `dds_step`: the phase increment per tick. It is never written after its
      initialisation. */
  const DdsStep: uint16 := 180

  /** The millisecond counter of the interrupt: `t_cnt` counts ticks and, when its
      increment reaches `ticksPerMs` (SAMPLERATE / 1000), returns to 0 while
      `t_ms` advances. Both wrap modulo 2^16. */
  function MsCounter(tCnt: uint16, tMs: uint16, ticksPerMs: nat): (r: (uint16, uint16))
  {
    var c := ToUint16(tCnt + 1);
    if c == ticksPerMs then (0, ToUint16(tMs + 1)) else (c, tMs)
  }

  /** With a rate that fits t_cnt, the tick count stays below it and does not
      wrap, and the millisecond count advances exactly when the ticks of one
      millisecond have passed. */
  lemma MsCounterBounded(tCnt: uint16, tMs: uint16, ticksPerMs: nat)
    requires 0 < ticksPerMs < 0x1_0000 && tCnt < ticksPerMs
    ensures var (c, ms) := MsCounter(tCnt, tMs, ticksPerMs);
      && c < ticksPerMs
      && (tCnt + 1 == ticksPerMs ==> c == 0 && ms == ToUint16(tMs + 1))
      && (tCnt + 1 < ticksPerMs ==> c == tCnt + 1 && ms == tMs)
  {
    assert ToUint16(tCnt + 1) == tCnt + 1;
  }

  /** The oscillator sample minus 127, stored into an audio_signal (int8_t):
      samples 0..254 give -127..127, and sample 255 gives 128, which wraps to -128. */
  function OscillatorInput(sample: uint8): (x: int8)
    ensures sample < 255 ==> x == sample - 127
    ensures sample == 255 ==> x == -128
  {
    ToInt8(sample - 127)
  }

  /** `PORTC = 127 + y`, stored into the 8-bit port: outputs -127..127 give
      0..254, and output -128 gives -1, which wraps to 255. */
  function DacOutput(y: int8): (portc: uint8)
    ensures -127 <= y ==> portc == 127 + y
    ensures y == -128 ==> portc == 255
  {
    ToUint8(127 + y)
  }

  /** The two wrap-arounds cancel: a signal the filters pass through unchanged
      leaves the port as the oscillator sample it came from, 255 included. */
  lemma FullScaleRoundTrip(sample: uint8)
    ensures DacOutput(OscillatorInput(sample)) == sample
  {
  }

  /** The state of the synthesizer: the global wavetable and the statics of the
      sample interrupt. */
  class Synthesizer {
    /** Waveform data in program memory. */
    const store: seq<uint8>
    /** SAMPLERATE / 1000. */
    const ticksPerMs: nat
    /** current_wavetable. */
    const table: array<Entry>
    /** The statics of the interrupt: DDS phase, time counters and the two filters. */
    var ddsPhase: uint16
    var tMs: uint16
    var tCnt: uint16
    const fa: Integrator
    const fb: Integrator

    ghost predicate Valid()
      reads this
    {
      table.Length == TableSize && fa != fb
    }

    /** Zero-initialised statics and a zeroed wavetable. */
    constructor (store: seq<uint8>, ticksPerMs: nat)
      ensures Valid() && this.store == store && this.ticksPerMs == ticksPerMs
      ensures table[..] == seq(TableSize, _ => ZeroEntry)
      ensures ddsPhase == 0 && tMs == 0 && tCnt == 0 && fa.state == 0 && fb.state == 0
      ensures fresh(table) && fresh(fa) && fresh(fb)
    {
      this.store := store;
      this.ticksPerMs := ticksPerMs;
      table := new Entry[TableSize](_ => ZeroEntry);
      ddsPhase, tMs, tCnt := 0, 0, 0;
      fa := new Integrator();
      fb := new Integrator();
    }

    /** get_current_wavetable_sample: the crossfade of a slot of the global table. */
    function CurrentSample(slot: nat, phase: uint16): (r: uint8)
      reads this, table
      requires Valid() && slot < TableSize && ValidEntry(store, table[slot])
      ensures var e := table[slot];
        var l, rr := SampleByPhase(store, e.ptrL.value, phase), SampleByPhase(store, e.ptrR.value, phase);
        Min(l, rr) <= r <= Max(l, rr) && (e.factor == 0 ==> r == l)
    {
      EntrySample(store, table[slot], phase)
    }

    /** load_wavetable_from_progmem: load_wavetable on the global table of 61 slots.
        When every waveform the blob names lies in the store, every slot can be
        sampled afterwards. */
    method LoadFromProgmem(data: seq<uint8>, start: nat) returns (next: nat)
      requires Valid() && Loadable(data, start, TableSize)
      modifies table
      ensures Valid() && table[..] == LoadedTable(data, start, TableSize)
      ensures next == TableEnd(data, start, TableSize)
      ensures WaveformsIn(PairsOf(data, start, TableSize), store) ==>
        forall i :: 0 <= i < TableSize ==> ValidEntry(store, table[i])
    {
      next := Load(table, TableSize, data, start);
      assert table[..] == table[..TableSize];
      if WaveformsIn(PairsOf(data, start, TableSize), store) {
        LoadedTableValid(data, start, TableSize, store);
      }
    }

    /** load_wavetable_n_from_progmem: the global table holds table `index` of the
        blob, and the result is the offset past it. */
    method LoadNFromProgmem(data: seq<uint8>, start: nat, index: uint8) returns (next: nat)
      requires Valid() && LoadableN(data, start, TableSize, index + 1)
      modifies table
      ensures Valid() && table[..] == TableAt(data, start, TableSize, index + 1, index)
      ensures next == Starts(data, start, TableSize, index + 1)[index + 1]
    {
      next := LoadN(table, TableSize, data, start, index);
      assert table[..] == table[..TableSize];
    }

    /** The wavetable load of synth_init: table 18 of the blob at `start`. */
    method Init(data: seq<uint8>, start: nat)
      requires Valid() && LoadableN(data, start, TableSize, 19)
      modifies table
      ensures Valid() && table[..] == TableAt(data, start, TableSize, 19, 18)
    {
      var _ := LoadNFromProgmem(data, start, 18);
    }

    /** One tick of the sample interrupt with ADC readings adc0 (wavetable slot)
        and adc1 (filter coefficient): the oscillator is sampled at the current
        phase, fed through Fa and then Fb with the same coefficient, the output
        goes to the port, and the phase and the time counters advance. */
    method Tick(adc0: uint8, adc1: uint8) returns (portc: uint8)
      requires Valid() && adc0 / 4 < TableSize && ValidEntry(store, table[adc0 / 4])
      modifies this, fa, fb
      ensures var x := OscillatorInput(CurrentSample(adc0 / 4, old(ddsPhase)));
        && fa.state == FilterNext(old(fa.state), adc1 / 2, x)
        && fb.state == FilterNext(old(fb.state), adc1 / 2, FilterOut(fa.state))
      ensures Valid() && portc == DacOutput(FilterOut(fb.state))
      ensures ddsPhase == ToUint16(old(ddsPhase) + DdsStep)
      ensures (tCnt, tMs) == MsCounter(old(tCnt), old(tMs), ticksPerMs)
    {
      // The oscillator and the filters
      var x := OscillatorInput(CurrentSample(adc0 / 4, ddsPhase));
      var k: int8 := adc1 / 2;
      var ya := fa.FilterFeed(k, x);
      var y := fb.FilterFeed(k, ya);

      // DAC output
      portc := DacOutput(y);

      // Phase stepping and time update
      ddsPhase := ToUint16(ddsPhase + DdsStep);
      tCnt := ToUint16(tCnt + 1);
      if tCnt == ticksPerMs {
        tCnt := 0;
        tMs := ToUint16(tMs + 1);
      }
    }
  }
}
