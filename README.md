# avr-ppg in Dafny

A model of the core of avr-ppg, a PPG Wave style wavetable synthesizer for AVR
microcontrollers, with proofs about that model. The core has four parts:

- **The wavetable engine.** The sampler reads a 64-byte half waveform by a
  16-bit DDS phase, mirroring it into a full period, and crossfades the two
  waveforms of a wavetable slot by an 8-bit factor. The loader parses a PPG
  Wave 2.2 style blob of `(waveform, pos)` pairs into key frames and
  interpolates crossfade factors between them. `load_wavetable_n` skips to
  the n-th table of a blob.
- **The DSP primitives.** The saturating `safe_add`, the integrator built on
  it, and the Q8 one-pole filter `filter1pole_feed`.
- **One tick of the sample interrupt.** It samples the table, runs the two
  chained filters, writes the DAC port, and advances the phase and the
  millisecond counter.
- **The MIDI decoder `midiproc`.** A running-status state machine over a
  `struct midistatus`.

The sampler, loader and filters appear twice in the repository. One copy is
`src/synth.c`, over the global table of 61 slots. The other is
`aplay/avr_ppg_aplay.c`, where `load_wavetable` takes the table size as a
parameter. The two copies are the same code up to `volatile`, the reads
through `pgm_read_byte` from program memory, the wipe (`memset_volatile`
against `memset`) and the function names (`load_wavetable_from_progmem`
against `load_wavetable`, `get_wavetable_entry_sample` against
`get_wavetable_sample`). The model follows the parameterised copy, and
`Synth` applies it at size 61.

Modules:

- `Ints` (ints.dfy): the fixed-width integer types, the C conversions that
  wrap on a store, and C's truncating division.
- `Dsp` (dsp.dfy): `SafeAdd`, the filter on values (`FilterNext`,
  `FilterOut`), and the class `Integrator`, for an `int16_t` updated through
  a pointer.
- `Sampler` (sampler.dfy): entries, waveform pointers, phase sampling and the
  crossfade.
- `Loader` (loader.dfy):
  - functions that describe the table the loader leaves (`ParsePairs`,
    `Marked`, `Interpolated`, `LoadedTable`, `Starts`, `TableAt`);
  - the in-place loops `Load` and `LoadN` over an `array<Entry>`, proved
    against those functions.
- `Synth` (synth.dfy): the class `Synthesizer`. It holds the global table,
  the statics of the interrupt and the two filters, and its `Tick` is the
  interrupt.
- `Midi` (midi.dfy):
  - `MidiState` and `Step`, the decoder on values, with lemmas about single
    bytes and byte streams;
  - the class `MidiStatus`, the struct the firmware updates in place, and
    `Process`, which is `midiproc` proved to refine `Step`.

Representation choices:

- A waveform pointer is an offset (`nat`) into an abstract byte sequence
  `store`, which stands for the waveform data in program memory. NULL is
  `None`.
- MIDI bytes are `bv8`, so the decoder's masks and shifts read as in C.
- The ADC readings are parameters of `Tick`, and the port value is its
  result.
- `SAMPLERATE / 1000` is the constructor parameter `ticksPerMs`.

## Model

| member | source | states |
|---|---|---|
| Ints.ToInt8 | src/synth.c:216 | storing into an `int8_t` wraps modulo 256 and keeps every value already in range |
| Ints.ToUint8 | src/synth.c:221 | storing into an 8-bit port wraps modulo 256 and keeps every value already in range |
| Ints.ToUint16 | src/synth.c:224 | storing into a `uint16_t` wraps modulo 65536 and keeps every value already in range |
| Ints.DivTrunc | src/synth.c:102 | C division truncates toward zero: the remainder has the dividend's sign and is smaller than the divisor |
| Dsp.SafeAdd | src/synth.c:81-88 | the result is the sum clamped to the int16 range, and it equals the exact sum exactly when that sum fits |
| Dsp.FilterOutRange | src/synth.c:102 | `*f / 256` of an int16 state lies in -128..127, so it fits an `audio_signal` |
| Dsp.FilterOut | src/synth.c:102 | the filter's output: the state divided by 256, truncated toward zero as C does, which FilterOutRange shows fits an `audio_signal` |
| Dsp.FilterDelta | src/synth.c:101 | `(x - *f/256) * k` always fits an int16 (at most 255·128 in magnitude), and it is 0 exactly when k is 0 or the input equals the output |
| Dsp.FilterNext | src/synth.c:101 | the state after one `filter1pole_feed`: the saturated sum of the state and `(x - *f/256) * k`. FilterFixedPoint, FilterMovesTowardInput and FilterProgress state what one step does |
| Dsp.FilterFixedPoint | src/synth.c:99-103 | with k = 0, or with an input equal to the current output, one filter step leaves the state unchanged |
| Dsp.FilterMovesTowardInput | src/synth.c:99-103 | with k ≥ 0, after one step the output lies between the old output and the input: it does not move away from the input and does not pass it (it may not move at all, as with k = 0; strict progress of the state is FilterProgress) |
| Dsp.FilterRises | src/synth.c:99-103 | below the input, one step does not lower the output and does not take it past the input |
| Dsp.FilterFalls | src/synth.c:99-103 | above the input, one step does not raise the output and does not take it below the input |
| Dsp.FilterProgress | src/synth.c:99-103 | with k > 0 and an output different from the input, the state strictly rises toward a higher input or falls toward a lower one |
| Dsp.FilterIterate | src/synth.c:101 | the state after n steps with the same coefficient and input |
| Dsp.FilterIterateBetween | src/synth.c:99-103 | fed a constant input, the outputs move monotonically toward it: each one lies between the previous output and the input |
| Dsp.StepsToSettle | src/synth.c:99-103 | fed a constant input with k > 0, the filter's output reaches the input after finitely many steps |
| Dsp.FilterStaysSettled | src/synth.c:99-103 | once the output equals the input, later steps leave the state unchanged |
| Dsp.Integrator.constructor | src/synth.c:215 | a filter state starts at 0 |
| Dsp.Integrator.Feed | src/synth.c:91-95 | the state becomes the saturated sum of the old state and the input, and that sum is returned |
| Dsp.Integrator.FilterFeed | src/synth.c:99-103 | the state takes one filter step for (k, x), and the result is the new state's Q8 integer part |
| Sampler.WaveformPointer | src/synth.c:21-24 | waveform `index` starts at a multiple of 64 whose quotient by 64 is the index |
| Sampler.SampleByPhase | src/synth.c:33-45 | in the upper half of the phase range the sample is the stored byte at sub-phase mod 64; in the lower half it is 255 minus the mirrored byte |
| Sampler.SampleBySubPhase | src/synth.c:36-38 | two phases with the same high 7 bits give the same sample |
| Sampler.SampleMirror | src/synth.c:40-44 | two phases whose sub-phases add up to 127 give samples that add up to 255 |
| Sampler.MirrorPhase | src/synth.c:33-45 | the samples at p and 65535 - p add up to 255: the reconstructed period is odd-symmetric |
| Sampler.Mix | src/synth.c:52-56 | the crossfade lies between the two samples, and equals the left one when the factor is 0 |
| Sampler.MixBound | src/synth.c:53-55 | the partial products and their sum stay within 0..65280, so no uint16 store of the crossfade wraps |
| Sampler.EntrySample | src/synth.c:48-57 | the sample of a slot lies between the samples of its two waveforms, and is the left waveform's when the factor is 0 |
| Loader.ParsePairs | aplay/avr_ppg_aplay.c:96-111 | the do-while reads pairs up to and including the first whose pos reaches size - 1; None exactly when the blob ends before such a pair |
| Loader.PairsOfAt | aplay/avr_ppg_aplay.c:101-111 | pair n is made of the bytes at offsets 2n+1 and 2n+2 after the start, and only the last pair read reaches the last slot |
| Loader.TableEnd | aplay/avr_ppg_aplay.c:147-148 | the returned pointer lies past the ignored byte and at least one pair, and inside the blob |
| Loader.LastNaming | aplay/avr_ppg_aplay.c:101-110 | finds the last pair that names a slot, or reports that no pair names it |
| Loader.MarkedSlot | aplay/avr_ppg_aplay.c:94-110 | after the wipe and the do-while, a slot holds the key entry of the last pair naming it, or the zero entry when no pair names it |
| Loader.MarkedKey | aplay/avr_ppg_aplay.c:109 | a slot is a key frame exactly when some pair names it |
| Loader.PrevKey | aplay/avr_ppg_aplay.c:118-120 | `el` at slot i is the last key frame at or before i |
| Loader.NextKey | aplay/avr_ppg_aplay.c:122-130 | the inner loop finds the first key frame after k |
| Loader.RightKey | aplay/avr_ppg_aplay.c:122-131 | `er` for left key k: a key frame at or after k. It is the next key frame, or k itself at the last slot, where the inner search finds nothing and `er` keeps the earlier key frame's value, which is that same slot |
| Loader.BlendFactor | aplay/avr_ppg_aplay.c:140-144 | the factor is 0 at distance 0 from the left key frame: at every key frame and at the last slot, where the total distance is 0 |
| Loader.BlendFactorBelowLinear | aplay/avr_ppg_aplay.c:142 | the integer factor never exceeds the exact linear fraction 65535·dl / (256·dt) |
| Loader.BlendFactorBound | aplay/avr_ppg_aplay.c:142 | `65535 / distance_total * distance_l` stays below 65536 |
| Loader.BlendFactorAboveLinear | aplay/avr_ppg_aplay.c:142 | the integer factor is less than two steps of 1/256 below the exact linear fraction: 65535·dl < 256·(factor + 2)·dt |
| Loader.BlendFactorMonotone | aplay/avr_ppg_aplay.c:142 | within one segment, the factor does not decrease with the distance from the left key frame |
| Loader.LoadedTable | aplay/avr_ppg_aplay.c:91-149 | the table load_wavetable leaves: the interpolated table of the marked pairs of the blob, with `size` entries |
| Loader.Load | aplay/avr_ppg_aplay.c:91-149 | the first `size` entries become the loaded table of the blob, later entries are untouched, and the result is the offset past the last pair read |
| Loader.KeyEntry | aplay/avr_ppg_aplay.c:106-109 | the entry a pair writes: the pair's waveform pointer on the left, NULL on the right, factor 0, key flag set |
| Loader.Marked | aplay/avr_ppg_aplay.c:94-110 | the table after the wipe and the do-while: zero entries, each pair in turn overwriting its slot with its key entry. It has `size` entries, and MarkedSlot and MarkedKey characterise them |
| Loader.Mark | aplay/avr_ppg_aplay.c:93-111 | the wipe and the do-while leave the marked table of the pairs, and return the offset past the last pair |
| Loader.Interpolate | aplay/avr_ppg_aplay.c:113-145 | the interpolation loop turns a key-framed table into its interpolated table |
| Loader.InterpolateSlot | aplay/avr_ppg_aplay.c:117-144 | one iteration of the interpolation loop: slot i is completed, the slots after it still hold the marked entries, and `el`, `er` are slot i's keys |
| Loader.SetSlot | aplay/avr_ppg_aplay.c:137-144 | the write of slot i in the source's order (`ptr_l`, then `ptr_r` read from `er`, then the factor): slot i gets the left pointers of key frames el and er and the factor, given that er == i only when el == i, so the later read of `er->ptr_l` sees the old value. No other entry changes |
| Loader.SlotKeys | aplay/avr_ppg_aplay.c:117-131 | at slot i, `el` and `er` are the nearest key frame at or before i and the key frame to its right |
| Loader.FindNextKey | aplay/avr_ppg_aplay.c:123-130 | the inner search stops at the first key frame after i, or at the end of the table |
| Loader.OwnWaveformKept | aplay/avr_ppg_aplay.c:137 | a key frame keeps its own left waveform |
| Loader.InterpolatedBetweenKeys | aplay/avr_ppg_aplay.c:133-144 | a slot between key frames el and er takes el's waveform on the left, er's on the right, and the blend factor of its distance from el |
| Loader.InterpolatedKeyFrame | aplay/avr_ppg_aplay.c:137-144 | a key frame keeps its waveform and gets factor 0 |
| Loader.InterpolatedEntry | aplay/avr_ppg_aplay.c:133-144 | slot i takes its left key's waveform on the left, its right key's on the right, and the blend factor of its distance from the left key in the segment |
| Loader.Interpolated | aplay/avr_ppg_aplay.c:113-145 | the table after the interpolation loop: InterpolatedEntry at every slot, with the length of the marked table |
| Loader.InterpolatedFactorLinear | aplay/avr_ppg_aplay.c:133-144 | between two key frames, a slot's factor is 65535·(i - el)/(er - el)/256 rounded down, and at most two steps lower: linear in the distance from the left key |
| Loader.InterpolatedFactorMonotone | aplay/avr_ppg_aplay.c:142 | between two key frames the crossfade factor never decreases |
| Loader.KeyFrameSample | aplay/avr_ppg_aplay.c:70-79 | at a key frame the crossfade reads only the key frame's own waveform |
| Loader.LoadedTableValid | aplay/avr_ppg_aplay.c:137-138 | when every named waveform lies in the store, no loaded slot holds NULL or points outside the store |
| Loader.Starts | aplay/avr_ppg_aplay.c:153-158 | one offset per table stored back to back, starting at the blob's start |
| Loader.TableAt | aplay/avr_ppg_aplay.c:153-158 | the table that loading table k of n consecutive tables leaves: the loaded table at table k's offset, with `size` entries |
| Loader.StartsAt | aplay/avr_ppg_aplay.c:155-156 | table k is loadable at its offset, and table k + 1 starts where loading table k ends, strictly further on |
| Loader.LoadN | aplay/avr_ppg_aplay.c:153-158 | the entries hold table `index` of the blob alone, later entries are untouched, and the result is the offset past it |
| Loader.Skip | aplay/avr_ppg_aplay.c:155-156 | the first k iterations, tables 0..k-1 loaded in turn, leave the offset of table k and the entries past `size` untouched |
| Loader.SkipNext | aplay/avr_ppg_aplay.c:156 | one of those iterations returns the offset of the next table |
| Loader.LoadNext | aplay/avr_ppg_aplay.c:156 | one iteration loads table k from its offset and returns the offset of table k + 1 |
| Loader.LoadNGuard | aplay/avr_ppg_aplay.c:155 | the loop guard as written, `i < index + 1`, with `i` a `uint8_t` and `index + 1` computed as an int |
| Loader.LoadNGuardNeverFails | aplay/avr_ppg_aplay.c:155 | the as-written guard with index 255 holds for every `uint8_t` counter, before and after `i++` |
| Loader.LoadNGuardBelow255 | aplay/avr_ppg_aplay.c:155 | for index < 255 the counter does not wrap, and the guard fails exactly once the counter reaches index + 1 |
| Synth.MsCounter | src/synth.c:225-229 | `++t_cnt` wraps modulo 2^16; when it equals the ticks per millisecond, `t_cnt` returns to 0 and `t_ms` is incremented modulo 2^16. MsCounterBounded states what it keeps |
| Synth.MsCounterBounded | src/synth.c:225-229 | with ticks per millisecond below 65536, t_cnt stays below it; t_ms advances by one exactly when the increment reaches it |
| Synth.OscillatorInput | src/synth.c:216 | samples 0..254 become -127..127, and sample 255 wraps to -128 |
| Synth.DacOutput | src/synth.c:221 | outputs -127..127 become 0..254, and -128 wraps to 255 |
| Synth.FullScaleRoundTrip | src/synth.c:216-221 | the two wraps cancel: a signal passed through unchanged reaches the port as the original sample, 255 included |
| Synth.Synthesizer.constructor | src/synth.c:204-215 | zeroed table, phase, counters and filter states, with two distinct filters |
| Synth.Synthesizer.CurrentSample | src/synth.c:60-63 | the sample of a global table slot lies between its two waveforms' samples |
| Synth.Synthesizer.LoadFromProgmem | src/synth.c:113-173 | the global table becomes the loaded table of the blob, the result is the offset past it, and with in-store waveforms every slot can be sampled; the synthesizer's invariant is kept |
| Synth.Synthesizer.LoadNFromProgmem | src/synth.c:177-182 | the global table holds table `index` of the blob, the result is the offset past it, and the synthesizer's invariant is kept |
| Synth.Synthesizer.Init | src/synth.c:242 | the global table holds table 18 of the blob, and the synthesizer's invariant is kept |
| Synth.Synthesizer.Tick | src/synth.c:201-230 | Fa takes a filter step on the oscillator sample at the old phase, Fb takes one on Fa's output (same k = adc1/2), the port gets 127 + Fb's output, the phase advances by 180 mod 2^16, and t_cnt and t_ms follow the millisecond counter; the synthesizer's invariant is kept |
| Midi.DataLength | src/midi.c:44-76 | two data bytes for note off, note on, control change and pitch bend, one for program change, none for any other class |
| Midi.PitchBend | src/midi.c:113 | a 14-bit value whose low 7 bits are the first data byte and whose high 7 bits are the second |
| Midi.ZeroConsistent | src/midi.c:29-31 | the zero-initialised struct is a state midiproc handles without writing outside its buffers |
| Midi.Dispatch | src/midi.c:86-119 | interpreting a command changes only note, velocity, gate, program, pitch bend and controllers |
| Midi.Step | src/midi.c:21-130 | midiproc keeps the decoder's field invariant, and the reset flag is set exactly when it already was or the byte is 0xFF |
| Midi.StatusStep | src/midi.c:36-77 | the status branch keeps the field invariant |
| Midi.DataStep | src/midi.c:78-124 | the data branch keeps the field invariant |
| Midi.Feed | src/midi.c:21-130 | feeding a stream byte by byte keeps the field invariant |
| Midi.StatusByte | src/midi.c:36-77 | a status byte sets the class (bits 4-6), the channel (bits 0-3), a zero count and the class's data length, and changes nothing else but the reset flag |
| Midi.OtherChannel | src/midi.c:78 | a data byte while the channel differs from the filter changes nothing |
| Midi.DataByte | src/midi.c:80-122 | a data byte on the filter channel is buffered at the count; it only advances the count while the command is incomplete, and resets the count once it is complete |
| Midi.NoteOn | src/midi.c:89-93 | the second note-on byte sets note, velocity and gate, and resets the count |
| Midi.NoteOff | src/midi.c:96-99 | the second note-off byte clears the gate exactly when the released note is the held one, and the gate is unchanged otherwise |
| Midi.ControlChange | src/midi.c:102-104 | the second control-change byte stores its value at the controller the first byte names |
| Midi.ProgramChange | src/midi.c:107-109 | the program-change byte becomes the program |
| Midi.PitchBendChange | src/midi.c:112-114 | the second pitch-bend byte sets the 14-bit pitch bend from the low 7 bits then the high 7 |
| Midi.NoDataLength | src/midi.c:81-121 | with a data length of 0 (an unknown class or the zero struct) a data byte is buffered and dispatched at once |
| Midi.ZeroStructData | src/midi.c:80-121 | on the zero struct a data byte only lands in the buffer: the note-off dispatch leaves the gate cleared |
| Midi.FeedAppend | src/midi.c:21-130 | feeding s then t is feeding s + t, because the decoder is driven one byte at a time |
| Midi.ResetSticky | src/midi.c:34 | after a stream the reset flag is set exactly when it was set before or the stream holds 0xFF |
| Midi.OtherChannelStream | src/midi.c:78 | data bytes for another channel leave the decoder unchanged, however many arrive |
| Midi.RunningNoteOn | src/midi.c:36-124 | under running status, any number of note-on pairs leave the decoder ready for the next pair, holding the last note and velocity |
| Midi.NoteOnPair | src/midi.c:80-93 | one note-on pair under running status sets note, velocity and gate, and keeps the decoder ready |
| Midi.NoteOnExample | src/midi.c:36-93 | `0x90 0x40 0x60` on channel 0 gives note 0x40, velocity 0x60, gate on |
| Midi.NoteOnOtherChannelExample | src/midi.c:78 | the same bytes with filter 1 leave note, velocity and gate as they were; only the class and data length change |
| Midi.RunningStatusExample | src/midi.c:78-93 | a second pair without a new status byte is a second note on |
| Midi.MidiStatus.constructor | src/midi.c:21-31 | a zero-initialised struct satisfies the decoder invariant |
| Midi.CommandLength | src/midi.c:44-76 | the switch gives the class's data length |
| Midi.Interpret | src/midi.c:86-119 | the dispatch switch makes the struct's fields those of the command's interpretation |
| Midi.BufferByte | src/midi.c:81 | the data byte is stored at the count, and the rest of the struct is unchanged |
| Midi.Process | src/midi.c:21-130 | for a non-NULL struct, midiproc takes the struct to the decoder step of the byte and keeps the invariant; a NULL struct is ignored |

## Left out

- `adcread`, the timer, ADC, UART and port registers: the readings are parameters of `Tick` and the port value its result.
- The millisecond time `t_ms` is modelled, but nothing in the core reads it.
- `main.c`, `com.c` and the serial receive path are outside the core; only `midiproc` is modelled.
- The `main` of the aplay program (floating-point sine modulation, `putchar` output) and the commented-out legacy filters are left out.
- `volatile` and the race between the interrupt and the main loop are left out: `Tick` runs as one atomic step.
- The waveform and wavetable data arrays and `midi.h` are not part of this model: the store and the blob are parameters.
- `memset_volatile` and `memset` are modelled by their effect, a table of zero entries (all pointers NULL, factor 0, no key frame).
- Synth.Synthesizer.Tick: requires `adc0 / 4 < 61`. For adc0 values 244..255 the firmware reads past the end of the global table, which is undefined behaviour.
- Synth.Synthesizer.Tick: requires the sampled slot to hold two in-store waveform pointers, as it does after a load of a blob whose waveforms lie in the store.
- Sampler.Mix: both products, `(256 - factor) * sample_l` and `factor * sample_r` (src/synth.c:53-54), can exceed a 16-bit `int` on AVR (129 · 255 = 32895 > 32767, for either one). The model computes them exactly, which are the values the `uint16_t` stores keep when the overflow wraps.
- Synth.MsCounterBounded: assumes 0 < SAMPLERATE / 1000 < 65536. At 65536 or more, `t_cnt` never matches, so `t_ms` never advances. At 0, the match happens only when `++t_cnt` wraps to 0, so `t_ms` advances once every 65536 ticks. MsCounter models both cases; the lemma does not state them.
- Loader.Load: requires a blob the loader handles without undefined behaviour: 2 to 255 slots, a terminating pair inside the blob, every pos a valid slot, and a pair at slot 0. Otherwise the C code writes out of bounds or reads through a NULL pointer.
- Loader.LoadN: the loop counter is an unbounded integer. With the `uint8_t` counter of the source, index 255 never terminates (see Findings).
- Synth.Synthesizer.LoadNFromProgmem: built on the corrected Loader.LoadN. For index 255 it promises a loaded table and a returned offset, where the `uint8_t` loop of src/synth.c:179 never ends. The firmware's only call passes 18.
- Loader.LoadN: loads the last of the index + 1 tables after the loop (Loader.Skip) instead of in its final iteration. The same tables load in the same order, and for the first index tables the model states only the offsets they return, since the last load wipes what they leave.
- Midi.Step: requires the decoder invariant (Midi.Consistent): a data length of at most 2; a count that is 0 or below the data length; buffered data bytes below 0x80; a channel below 16; and a data length that is 0 or matches the class. midiproc assumes this of its struct; the zero struct has it (count and data length 0), and every step keeps it. Outside it, `dbuf[dcnt++]` writes past the two-byte buffer.
- Midi.Step: on values, the reset flag is set in the status branch. 0xFF has bit 7 set, so this is the same effect as the firmware's check before the branch, which `Process` keeps.
- Two behaviours a reader of the MIDI convention might expect differ from the code; the model follows the code:
  - A status byte always changes the class, channel and data length, even when the channel then filters the data bytes out. Midi.NoteOnOtherChannelExample shows this.
  - A data length of 0 does not mean "awaiting status": a data byte is buffered and dispatched at once. Midi.NoDataLength shows this.

## Findings

| source | as written | input that shows it | evidently intended | confidence | as-written member | corrected member |
|---|---|---|---|---|---|---|
| aplay/avr_ppg_aplay.c:155 | `for (uint8_t i = 0; i < index + 1; i++)` in `load_wavetable_n` (and the same loop at src/synth.c:179) | index = 255: `index + 1` is the int 256, every `uint8_t` is below it, and `i++` wraps 255 to 0, so the loop never ends | load tables 0..index and stop, for every `uint8_t` index | high; not executed | Loader.LoadNGuardNeverFails | Loader.LoadN |
