/** The MIDI decoder: a state machine fed one byte at a time, with running
    status. Status bytes (bit 7 set) select a command class and a channel; data
    bytes on the filtered channel are buffered until the command's data length is
    reached, then the command is applied. Byte 0xFF raises a reset flag.

    MidiState and Step describe the decoder on values; the class MidiStatus is
    the struct the firmware updates in place, and Process is midiproc on it. */
module Midi {
  import opened Ints

  /** A byte of the MIDI stream, or a byte-wide field: C works on these with masks. */
  type byte = bv8

  /** The fields of `struct midistatus`. */
  datatype MidiState = MidiState(
    dlim: uint8,               // data bytes the current command takes
    dcnt: uint8,               // data bytes buffered so far
    status: byte,              // command class, bits 4-6 of the status byte
    channel: byte,             // channel of the last status byte
    reset: bool,
    dbuf: seq<byte>,           // the 2-byte data buffer
    note: byte,
    notevel: byte,
    noteon: bool,
    program: byte,
    pitchbend: bv16,
    controllers: seq<byte>)    // controllers.raw, 128 entries

  /** The zero-initialised struct (`struct midistatus midi0 = {0}`). */
  const Zero: MidiState :=
    MidiState(0, 0, 0, 0, false, [0, 0], 0, 0, false, 0, 0, seq(128, _ => 0))

  /** The data length the decoder expects for a command class: two bytes for note
      off (0x00), note on (0x10), control change (0x30) and pitch bend (0x60), one
      for program change (0x40), none for every other class. */
  function DataLength(status: byte): (n: uint8)
    ensures n <= 2
    ensures n == 2 <==> status == 0x00 || status == 0x10 || status == 0x30 || status == 0x60
    ensures n == 1 <==> status == 0x40
  {
    if status == 0x10 then 2
    else if status == 0x00 then 2
    else if status == 0x30 then 2
    else if status == 0x40 then 1
    else if status == 0x60 then 2
    else 0
  }

  /** `dbuf[0] | dbuf[1] << 7`: two 7-bit data bytes, low first, as one 14-bit
      value whose low seven bits are `lo` and whose high seven bits are `hi`. */
  function PitchBend(lo: byte, hi: byte): (r: bv16)
    requires lo < 0x80 && hi < 0x80
    ensures r < 0x4000 && r & 0x7F == lo as bv16 && r >> 7 == hi as bv16
  {
    (lo as bv16) | ((hi as bv16) << 7)
  }

  /** The states the decoder reaches from the zero struct: the buffer is only ever
      indexed below the data length, data bytes and so controller indices are
      below 128. */
  predicate Consistent(m: MidiState)
  {
    && |m.dbuf| == 2 && |m.controllers| == 128
    && m.dlim <= 2 && (m.dcnt == 0 || m.dcnt < m.dlim)
    && m.dbuf[0] < 0x80 && m.dbuf[1] < 0x80
    && m.channel < 0x10
    && (m.dlim == 0 || m.dlim == DataLength(m.status))
  }

  lemma ZeroConsistent()
    ensures Consistent(Zero)
  {
  }

  /** The buffer and the controller array have their sizes and hold data bytes. */
  predicate Buffered(m: MidiState)
  {
    |m.dbuf| == 2 && |m.controllers| == 128 && m.dbuf[0] < 0x80 && m.dbuf[1] < 0x80
  }

  /** A data byte as an array index. */
  function Index(x: byte): (i: nat)
    requires x < 0x80
    ensures i < 128
  {
    x as int
  }

  /** The command switch, once the buffer holds the command's data bytes. It leaves
      the decoder's own fields (class, length, count, channel, reset, buffer) alone. */
  function Dispatch(m: MidiState): (r: MidiState)
    requires Buffered(m)
    ensures |r.controllers| == 128
    ensures r.(note := m.note, notevel := m.notevel, noteon := m.noteon, program := m.program,
               pitchbend := m.pitchbend, controllers := m.controllers) == m
  {
    if m.status == 0x10 then m.(note := m.dbuf[0], notevel := m.dbuf[1], noteon := true)
    else if m.status == 0x00 then (if m.note == m.dbuf[0] then m.(noteon := false) else m)
    else if m.status == 0x30 then m.(controllers := m.controllers[Index(m.dbuf[0]) := m.dbuf[1]])
    else if m.status == 0x40 then m.(program := m.dbuf[0])
    else if m.status == 0x60 then m.(pitchbend := PitchBend(m.dbuf[0], m.dbuf[1]))
    else m
  }

  /** midiproc on a non-NULL struct, with `channel` the channel filter. Byte 0xFF
      is a status byte, so the reset flag is raised in the status-byte branch. */
  function Step(m: MidiState, b: byte, channel: byte): (r: MidiState)
    requires Consistent(m)
    ensures Consistent(r)
    ensures m.reset || b == 0xFF <==> r.reset
  {
    if b & 0x80 != 0 then StatusStep(m, b)
    else if m.channel == channel then DataStep(m, b)
    else m
  }

  /** A status byte: class from bits 4-6, channel from bits 0-3, the data count
      cleared and the data length of the class; 0xFF also raises the reset flag. */
  function StatusStep(m: MidiState, b: byte): (r: MidiState)
    requires Consistent(m) && b & 0x80 != 0
    ensures Consistent(r)
  {
    var status := b & 0x70;
    m.(reset := m.reset || b == 0xFF, status := status, dcnt := 0, dlim := DataLength(status),
       channel := b & 0x0F)
  }

  /** A data byte on the filter's channel: buffered at the data count; once the
      count reaches the data length the command is applied and the count cleared. */
  function DataStep(m: MidiState, b: byte): (r: MidiState)
    requires Consistent(m) && b < 0x80
    ensures Consistent(r)
  {
    var mb := m.(dbuf := m.dbuf[m.dcnt := b]);
    if m.dcnt + 1 >= m.dlim then Dispatch(mb).(dcnt := 0) else mb.(dcnt := m.dcnt + 1)
  }

  /** midiproc called once per byte of a stream. */
  function Feed(m: MidiState, bytes: seq<byte>, channel: byte): (r: MidiState)
    requires Consistent(m)
    ensures Consistent(r)
    decreases |bytes|
  {
    if bytes == [] then m else Feed(Step(m, bytes[0], channel), bytes[1..], channel)
  }

  // ---------------------------------------------------------------------------
  // One byte

  /** A status byte sets the class to bits 4-6 and the channel to bits 0-3, clears
      the data count and sets the data length of the class; only these fields and
      the reset flag change. Real-time and system bytes included. */
  lemma StatusByte(m: MidiState, b: byte, channel: byte)
    requires Consistent(m) && b & 0x80 != 0
    ensures var r := Step(m, b, channel);
      && r.status == b & 0x70 && r.channel == b & 0x0F
      && r.dcnt == 0 && r.dlim == DataLength(r.status)
      && r == m.(status := r.status, channel := r.channel, dcnt := 0, dlim := r.dlim, reset := r.reset)
  {
  }

  /** A data byte whose channel differs from the filter leaves every field as it was. */
  lemma OtherChannel(m: MidiState, b: byte, channel: byte)
    requires Consistent(m) && b & 0x80 == 0 && m.channel != channel
    ensures Step(m, b, channel) == m
  {
  }

  /** A data byte on the filter's channel is buffered at the data count; the
      command is applied once the count reaches the data length, and the count
      returns to 0 while class and length stay (running status). */
  lemma DataByte(m: MidiState, b: byte, channel: byte)
    requires Consistent(m) && b & 0x80 == 0 && m.channel == channel
    ensures var r := Step(m, b, channel);
      && r.dbuf[m.dcnt] == b && r.status == m.status && r.dlim == m.dlim
      && r.channel == m.channel && r.reset == m.reset
      && (m.dcnt + 1 < m.dlim ==> r == m.(dbuf := r.dbuf, dcnt := m.dcnt + 1))
      && (m.dcnt + 1 >= m.dlim ==> r.dcnt == 0)
  {
  }

  /** The data byte that completes a note on sets note, velocity and gate. */
  lemma NoteOn(m: MidiState, b: byte, channel: byte)
    requires Consistent(m) && b & 0x80 == 0 && m.channel == channel
    requires m.status == 0x10 && m.dlim == 2 && m.dcnt == 1
    ensures Step(m, b, channel) ==
      m.(dbuf := [m.dbuf[0], b], note := m.dbuf[0], notevel := b, noteon := true, dcnt := 0)
  {
  }

  /** The data byte that completes a note off clears the gate exactly when the
      released note is the held one, and changes nothing else. */
  lemma NoteOff(m: MidiState, b: byte, channel: byte)
    requires Consistent(m) && b & 0x80 == 0 && m.channel == channel
    requires m.status == 0x00 && m.dlim == 2 && m.dcnt == 1
    ensures var r := Step(m, b, channel);
      && r == m.(dbuf := [m.dbuf[0], b], noteon := r.noteon, dcnt := 0)
      && (r.noteon <==> m.noteon && m.note != m.dbuf[0])
  {
  }

  /** Control change writes the value to the controller its first byte names, an
      index below 128, and nothing else. */
  lemma ControlChange(m: MidiState, b: byte, channel: byte)
    requires Consistent(m) && b & 0x80 == 0 && m.channel == channel
    requires m.status == 0x30 && m.dlim == 2 && m.dcnt == 1
    ensures Step(m, b, channel) ==
      m.(dbuf := [m.dbuf[0], b], controllers := m.controllers[Index(m.dbuf[0]) := b], dcnt := 0)
  {
  }

  /** Program change takes one byte and sets only the program. */
  lemma ProgramChange(m: MidiState, b: byte, channel: byte)
    requires Consistent(m) && b & 0x80 == 0 && m.channel == channel
    requires m.status == 0x40 && m.dlim == 1
    ensures Step(m, b, channel) == m.(dbuf := [b, m.dbuf[1]], program := b)
  {
  }

  /** Pitch bend combines the low and the high byte into 14 bits and sets only that. */
  lemma PitchBendChange(m: MidiState, b: byte, channel: byte)
    requires Consistent(m) && b & 0x80 == 0 && m.channel == channel
    requires m.status == 0x60 && m.dlim == 2 && m.dcnt == 1
    ensures var r := Step(m, b, channel);
      && r == m.(dbuf := [m.dbuf[0], b], pitchbend := r.pitchbend, dcnt := 0)
      && r.pitchbend < 0x4000 && r.pitchbend & 0x7F == m.dbuf[0] as bv16 && r.pitchbend >> 7 == b as bv16
  {
  }

  /** With no data length (an unknown class, or the zero struct) a data byte on the
      filter's channel goes to dbuf[0] and the class's command, if any, is applied
      at once. */
  lemma NoDataLength(m: MidiState, b: byte, channel: byte)
    requires Consistent(m) && b & 0x80 == 0 && m.channel == channel && m.dlim == 0
    ensures Step(m, b, channel) == Dispatch(m.(dbuf := [b, m.dbuf[1]])).(dcnt := 0)
  {
    assert m.dbuf[0 := b] == [b, m.dbuf[1]];
  }

  /** For the zero struct that command is a note off of note 0 with the gate
      already clear: only the buffer changes. */
  lemma ZeroStructData(b: byte)
    requires b & 0x80 == 0
    ensures Step(Zero, b, 0) == Zero.(dbuf := [b, 0])
  {
    NoDataLength(Zero, b, 0);
  }

  // ---------------------------------------------------------------------------
  // Byte streams

  /** Feeding two streams one after the other is feeding their concatenation. */
  lemma {:induction false} FeedAppend(m: MidiState, s: seq<byte>, t: seq<byte>, channel: byte)
    requires Consistent(m)
    ensures Feed(m, s + t, channel) == Feed(Feed(m, s, channel), t, channel)
    decreases |s|
  {
    if s == [] {
      assert s + t == t;
    } else {
      assert (s + t)[1..] == s[1..] + t;
      FeedAppend(Step(m, s[0], channel), s[1..], t, channel);
    }
  }

  /** The reset flag is raised by 0xFF anywhere in the stream and never cleared. */
  lemma {:induction false} ResetSticky(m: MidiState, bytes: seq<byte>, channel: byte)
    requires Consistent(m)
    ensures Feed(m, bytes, channel).reset <==> m.reset || 0xFF in bytes
    decreases |bytes|
  {
    if bytes != [] {
      ResetSticky(Step(m, bytes[0], channel), bytes[1..], channel);
      assert 0xFF in bytes <==> bytes[0] == 0xFF || 0xFF in bytes[1..] by {
        assert bytes == [bytes[0]] + bytes[1..];
      }
    }
  }

  /** Data bytes on another channel are absorbed without any effect. */
  lemma {:induction false} OtherChannelStream(m: MidiState, bytes: seq<byte>, channel: byte)
    requires Consistent(m) && m.channel != channel
    requires forall i :: 0 <= i < |bytes| ==> bytes[i] & 0x80 == 0
    ensures Feed(m, bytes, channel) == m
    decreases |bytes|
  {
    if bytes != [] {
      OtherChannelStream(m, bytes[1..], channel);
    }
  }

  /** A note-on state ready for data: class note on, data length 2, nothing buffered. */
  predicate NoteOnReady(m: MidiState, channel: byte)
  {
    Consistent(m) && m.status == 0x10 && m.dlim == 2 && m.dcnt == 0 && m.channel == channel
  }

  /** The note-on data bytes of a list of (note, velocity) pairs. */
  function NotePairs(ps: seq<(byte, byte)>): (bytes: seq<byte>)
    ensures |bytes| == 2 * |ps|
  {
    if ps == [] then [] else [ps[0].0, ps[0].1] + NotePairs(ps[1..])
  }

  /** Running status: after a note-on status byte, every further pair of data bytes
      is a note on again. The last pair sets note, velocity and gate, and the
      decoder stays ready for the next pair. */
  lemma {:induction false} RunningNoteOn(m: MidiState, ps: seq<(byte, byte)>, channel: byte)
    requires NoteOnReady(m, channel) && |ps| > 0
    requires forall i :: 0 <= i < |ps| ==> ps[i].0 & 0x80 == 0 && ps[i].1 & 0x80 == 0
    ensures var r := Feed(m, NotePairs(ps), channel); var last := ps[|ps| - 1];
      && NoteOnReady(r, channel)
      && r == m.(dbuf := [last.0, last.1], note := last.0, notevel := last.1, noteon := true)
    decreases |ps|
  {
    var m2 := NoteOnPair(m, ps[0].0, ps[0].1, channel);
    assert NotePairs(ps) == [ps[0].0, ps[0].1] + NotePairs(ps[1..]);
    FeedAppend(m, [ps[0].0, ps[0].1], NotePairs(ps[1..]), channel);
    if |ps| > 1 {
      RunningNoteOn(m2, ps[1..], channel);
    }
  }

  /** One pair of data bytes in the note-on state is a note on. */
  lemma NoteOnPair(m: MidiState, a: byte, b: byte, channel: byte) returns (r: MidiState)
    requires NoteOnReady(m, channel) && a & 0x80 == 0 && b & 0x80 == 0
    ensures r == Feed(m, [a, b], channel) && NoteOnReady(r, channel)
    ensures r == m.(dbuf := [a, b], note := a, notevel := b, noteon := true)
  {
    var m1 := Step(m, a, channel);
    assert m1 == m.(dbuf := [a, m.dbuf[1]], dcnt := 1) by {
      assert m.dbuf[0 := a] == [a, m.dbuf[1]];
    }
    NoteOn(m1, b, channel);
    r := Step(m1, b, channel);
    assert Feed(m, [a, b], channel) == Feed(m1, [b], channel) by {
      assert [a, b][1..] == [b];
    }
    assert Feed(m1, [b], channel) == r by {
      assert [b][1..] == [];
    }
  }

  // ---------------------------------------------------------------------------
  // Byte-stream examples

  /** Note on, channel 0, note 0x40, velocity 0x60. */
  lemma NoteOnExample()
    ensures var r := Feed(Zero, [0x90, 0x40, 0x60], 0);
      r.note == 0x40 && r.notevel == 0x60 && r.noteon
  {
    var s1 := Step(Zero, 0x90, 0);
    var s2 := Step(s1, 0x40, 0);
    var s3 := Step(s2, 0x60, 0);
    assert Feed(Zero, [0x90, 0x40, 0x60], 0) == s3 by {
      assert [0x90, 0x40, 0x60][1..] == [0x40, 0x60];
      assert [0x40, 0x60][1..] == [0x60];
    }
  }

  /** The same bytes against the channel-1 filter: the status byte still selects
      note on on channel 0, but note, velocity and gate stay. */
  lemma NoteOnOtherChannelExample()
    ensures Feed(Zero, [0x90, 0x40, 0x60], 1) == Zero.(status := 0x10, dlim := 2)
  {
    var s1 := Step(Zero, 0x90, 1);
    assert s1 == Zero.(status := 0x10, dlim := 2);
    OtherChannelStream(s1, [0x40, 0x60], 1);
    FeedAppend(Zero, [0x90], [0x40, 0x60], 1);
  }

  /** Running status: a second pair without a new status byte is a second note on. */
  lemma RunningStatusExample()
    ensures var r := Feed(Zero, [0x90, 0x40, 0x60, 0x41, 0x70], 0);
      r.note == 0x41 && r.notevel == 0x70 && r.noteon
  {
    var s1 := Step(Zero, 0x90, 0);
    assert NoteOnReady(s1, 0);
    assert NotePairs([(0x40, 0x60), (0x41, 0x70)]) == [0x40, 0x60, 0x41, 0x70];
    RunningNoteOn(s1, [(0x40, 0x60), (0x41, 0x70)], 0);
    FeedAppend(Zero, [0x90], [0x40, 0x60, 0x41, 0x70], 0);
  }

  // ---------------------------------------------------------------------------
  // The struct updated in place

  /** `struct midistatus`: the decoder state midiproc updates through its pointer. */
  class MidiStatus {
    var dlim: uint8
    var dcnt: uint8
    var status: byte
    var channel: byte
    var reset: bool
    const dbuf: array<byte>
    var note: byte
    var notevel: byte
    var noteon: bool
    var program: byte
    var pitchbend: bv16
    const controllers: array<byte>

    /** The fields as a value. */
    function Model(): MidiState
      reads this, dbuf, controllers
    {
      MidiState(dlim, dcnt, status, channel, reset, dbuf[..], note, notevel, noteon,
                program, pitchbend, controllers[..])
    }

    ghost predicate Valid()
      reads this, dbuf, controllers
    {
      dbuf.Length == 2 && controllers.Length == 128 && Consistent(Model())
    }

    /** The zero-initialised struct. */
    constructor ()
      ensures Valid() && Model() == Zero
      ensures fresh(dbuf) && fresh(controllers)
    {
      dlim, dcnt, status, channel, reset := 0, 0, 0, 0, false;
      dbuf := new byte[2](_ => 0);
      note, notevel, noteon, program, pitchbend := 0, 0, false, 0, 0;
      controllers := new byte[128](_ => 0);
      new;
      assert dbuf[..] == [0, 0];
    }
  }

  /** The data-length switch of midiproc's status-byte branch. */
  method CommandLength(status: byte) returns (dlim: uint8)
    ensures dlim == DataLength(status)
  {
    if status == 0x10 {
      dlim := 2;
    } else if status == 0x00 {
      dlim := 2;
    } else if status == 0x30 {
      dlim := 2;
    } else if status == 0x40 {
      dlim := 1;
    } else if status == 0x60 {
      dlim := 2;
    } else {
      dlim := 0;
    }
  }

  /** The command switch of midiproc, applied to the struct in place. */
  method Interpret(midi: MidiStatus, status: byte)
    requires midi.dbuf.Length == 2 && midi.controllers.Length == 128
    requires Buffered(midi.Model()) && status == midi.status
    modifies midi, midi.controllers
    ensures midi.Model() == Dispatch(old(midi.Model()))
  {
    if status == 0x10 {
      midi.note := midi.dbuf[0];
      midi.notevel := midi.dbuf[1];
      midi.noteon := true;
    } else if status == 0x00 {
      if midi.note == midi.dbuf[0] {
        midi.noteon := false;
      }
    } else if status == 0x30 {
      midi.controllers[Index(midi.dbuf[0])] := midi.dbuf[1];
    } else if status == 0x40 {
      midi.program := midi.dbuf[0];
    } else if status == 0x60 {
      midi.pitchbend := PitchBend(midi.dbuf[0], midi.dbuf[1]);
    }
  }

  /** `midi->dbuf[i] = byte`. */
  method BufferByte(midi: MidiStatus, i: uint8, b: byte)
    requires midi.dbuf.Length == 2 && midi.controllers.Length == 128 && i < 2
    modifies midi.dbuf
    ensures midi.Model() == old(midi.Model()).(dbuf := old(midi.Model()).dbuf[i := b])
  {
    midi.dbuf[i] := b;
  }

  /** midiproc: a NULL struct is left alone; otherwise the struct takes the state
      Step computes. dlim, dcnt and status are worked on in locals and written
      back at the end. */
  method Process(midi: MidiStatus?, b: byte, channel: byte)
    requires midi != null ==> midi.Valid()
    modifies if midi != null then {midi, midi.dbuf, midi.controllers} else {}
    ensures midi != null ==> midi.Model() == Step(old(midi.Model()), b, channel) && midi.Valid()
  {
    if midi == null {
      return;
    }
    var dlim, dcnt, status := midi.dlim, midi.dcnt, midi.status;

    // Synthesizer reset
    if b == 0xFF {
      midi.reset := true;
    }

    if b & 0x80 != 0 {
      // Status byte
      status := b & 0x70;
      dcnt, dlim := 0, 0;
      midi.channel := b & 0x0F;
      dlim := CommandLength(status);
    } else if midi.channel == channel {
      // Data byte
      BufferByte(midi, dcnt, b);
      dcnt := dcnt + 1;
      // Interpret command
      if dcnt >= dlim {
        Interpret(midi, status);
        dcnt := 0;
      }
    }

    // Write the configuration back
    midi.dlim := dlim;
    midi.dcnt := dcnt;
    midi.status := status;
  }
}
