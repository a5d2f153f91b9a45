/** The wavetable loader of the PPG Wave 2.2 style format:
    `[ignored byte] (waveform, pos)* `, ending with the first pair whose `pos`
    reaches the last slot. Parsed pairs become key frames; every slot then gets
    the waveforms of the surrounding key frames and a crossfade factor.

    The specification functions below describe the table the loader leaves;
    Load and LoadN are the in-place loops over an array of entries. */
module Loader {
  import opened Ints
  import opened Sampler

  /** One `(waveform, pos)` pair of the blob. */
  datatype Pair = Pair(waveform: uint8, pos: uint8)

  /** The j-th pair of the blob when the pairs start at offset p. */
  function PairAt(data: seq<uint8>, p: nat, j: nat): Pair
    requires p + 2 * j + 2 <= |data|
  {
    Pair(data[p + 2 * j], data[p + 2 * j + 1])
  }

  /** The pairs read by the do-while of the loader, from offset p: everything up to
      and including the first pair whose pos is at least size - 1. None when the
      blob ends before such a pair. */
  function ParsePairs(data: seq<uint8>, p: nat, size: nat): (r: Option<seq<Pair>>)
    decreases |data| - p
    ensures r.Some? ==>
      && 1 <= |r.value| && p + 2 * |r.value| <= |data|
      && (forall j :: 0 <= j < |r.value| ==> r.value[j] == PairAt(data, p, j))
      && r.value[|r.value| - 1].pos >= size - 1
      && (forall j :: 0 <= j < |r.value| - 1 ==> r.value[j].pos < size - 1)
    ensures r.None? <==>
      forall j: nat :: p + 2 * j + 2 <= |data| ==> PairAt(data, p, j).pos < size - 1
  {
    if p + 2 > |data| then None
    else if data[p + 1] >= size - 1 then Some([PairAt(data, p, 0)])
    else
      match ParsePairs(data, p + 2, size)
      case None =>
        ShiftedNone(data, p, size);
        None
      case Some(rest) =>
        ShiftedSome(data, p, size, rest);
        Some([PairAt(data, p, 0)] + rest)
  }

  lemma ShiftedNone(data: seq<uint8>, p: nat, size: nat)
    requires p + 2 <= |data| && data[p + 1] < size - 1
    requires forall j: nat :: p + 2 + 2 * j + 2 <= |data| ==> PairAt(data, p + 2, j).pos < size - 1
    ensures forall j: nat :: p + 2 * j + 2 <= |data| ==> PairAt(data, p, j).pos < size - 1
  {
    forall j: nat | p + 2 * j + 2 <= |data|
      ensures PairAt(data, p, j).pos < size - 1
    {
      if j > 0 {
        assert PairAt(data, p, j) == PairAt(data, p + 2, j - 1);
      }
    }
  }

  lemma ShiftedSome(data: seq<uint8>, p: nat, size: nat, rest: seq<Pair>)
    requires p + 2 <= |data| && data[p + 1] < size - 1
    requires 1 <= |rest| && p + 2 + 2 * |rest| <= |data|
    requires forall j :: 0 <= j < |rest| ==> rest[j] == PairAt(data, p + 2, j)
    requires forall j :: 0 <= j < |rest| - 1 ==> rest[j].pos < size - 1
    ensures var ps := [PairAt(data, p, 0)] + rest;
      && (forall j :: 0 <= j < |ps| ==> ps[j] == PairAt(data, p, j))
      && (forall j :: 0 <= j < |ps| - 1 ==> ps[j].pos < size - 1)
  {
    var ps := [PairAt(data, p, 0)] + rest;
    forall j | 0 < j < |ps|
      ensures ps[j] == PairAt(data, p, j)
    {
      assert ps[j] == rest[j - 1];
    }
  }

  /** A blob the loader handles without undefined behaviour, for `size` slots:
      at least two slots (with one, the right key pointer stays NULL), a
      terminating pair inside the data, every pos a valid slot (so the terminator's
      pos is exactly size - 1), and a key frame at slot 0 (otherwise the left key
      pointer is NULL at slot 0). */
  predicate Loadable(data: seq<uint8>, start: nat, size: nat)
  {
    && 2 <= size <= 255
    && ParsePairs(data, start + 1, size).Some?
    && var ps := ParsePairs(data, start + 1, size).value;
    && (forall j :: 0 <= j < |ps| ==> ps[j].pos < size)
    && (exists j :: 0 <= j < |ps| && ps[j].pos == 0)
  }

  /** The pairs of a loadable blob. */
  function PairsOf(data: seq<uint8>, start: nat, size: nat): (ps: seq<Pair>)
    requires Loadable(data, start, size)
    ensures 1 <= |ps| && forall j :: 0 <= j < |ps| ==> ps[j].pos < size
  {
    ParsePairs(data, start + 1, size).value
  }

  /** The n-th pair the do-while reads; only the last one reaches the last slot. */
  lemma PairsOfAt(data: seq<uint8>, start: nat, size: nat, n: nat)
    requires Loadable(data, start, size) && n < |PairsOf(data, start, size)|
    ensures start + 1 + 2 * n + 2 <= |data|
    ensures PairsOf(data, start, size)[n] == Pair(data[start + 1 + 2 * n], data[start + 2 + 2 * n])
    ensures data[start + 2 + 2 * n] >= size - 1 <==> n == |PairsOf(data, start, size)| - 1
  {
    var ps := PairsOf(data, start, size);
    assert ps[n] == PairAt(data, start + 1, n);
  }

  /** The offset the loader returns: past the ignored byte and every pair read. */
  function TableEnd(data: seq<uint8>, start: nat, size: nat): (next: nat)
    requires Loadable(data, start, size)
    ensures start + 3 <= next <= |data|
  {
    start + 1 + 2 * |PairsOf(data, start, size)|
  }

  /** The key entry the do-while writes for a pair. */
  function KeyEntry(waveform: uint8): Entry
  {
    Entry(Some(WaveformPointer(waveform)), None, 0, true)
  }

  /** The table after the wipe and the do-while: each pair, in order, overwrites its slot. */
  function Marked(ps: seq<Pair>, size: nat): (t: seq<Entry>)
    requires forall j :: 0 <= j < |ps| ==> ps[j].pos < size
    ensures |t| == size
    decreases |ps|
  {
    if ps == [] then seq(size, _ => ZeroEntry)
    else
      var last := ps[|ps| - 1];
      Marked(ps[..|ps| - 1], size)[last.pos := KeyEntry(last.waveform)]
  }

  /** The index of the last pair naming slot s, if any. */
  function LastNaming(ps: seq<Pair>, s: nat): (r: Option<nat>)
    ensures r.Some? ==> r.value < |ps| && ps[r.value].pos == s
    ensures r.Some? ==> forall m :: r.value < m < |ps| ==> ps[m].pos != s
    ensures r.None? ==> forall j :: 0 <= j < |ps| ==> ps[j].pos != s
    decreases |ps|
  {
    if ps == [] then None
    else if ps[|ps| - 1].pos == s then Some(|ps| - 1)
    else LastNaming(ps[..|ps| - 1], s)
  }

  /** Slot s of the marked table holds the waveform of the LAST pair naming it
      (a repeated pos: the later pair wins), and stays zero when no pair names it. */
  lemma {:induction false} MarkedSlot(ps: seq<Pair>, size: nat, s: nat)
    requires forall j :: 0 <= j < |ps| ==> ps[j].pos < size
    requires s < size
    ensures Marked(ps, size)[s] ==
      match LastNaming(ps, s)
      case None => ZeroEntry
      case Some(j) => KeyEntry(ps[j].waveform)
    decreases |ps|
  {
    if ps != [] {
      var init := ps[..|ps| - 1];
      MarkedSlot(init, size, s);
    }
  }

  /** A slot is a key frame exactly when some pair names it. */
  lemma MarkedKey(ps: seq<Pair>, size: nat, s: nat)
    requires forall j :: 0 <= j < |ps| ==> ps[j].pos < size
    requires s < size
    ensures Marked(ps, size)[s].isKey <==> exists j :: 0 <= j < |ps| && ps[j].pos == s
  {
    MarkedSlot(ps, size, s);
  }

  /** Slot 0 and the last slot are key frames: the shape interpolation relies on. */
  predicate KeyFramed(kt: seq<Entry>)
  {
    2 <= |kt| && kt[0].isKey && kt[|kt| - 1].isKey
  }

  /** The nearest key frame at or before slot i. */
  function PrevKey(kt: seq<Entry>, i: nat): (k: nat)
    requires i < |kt| && kt[0].isKey
    ensures k <= i && kt[k].isKey
    ensures forall m :: k < m <= i ==> !kt[m].isKey
  {
    if kt[i].isKey then i else PrevKey(kt, i - 1)
  }

  /** The nearest key frame after slot k. */
  function NextKey(kt: seq<Entry>, k: nat): (j: nat)
    requires k < |kt| - 1 && kt[|kt| - 1].isKey
    ensures k < j < |kt| && kt[j].isKey
    ensures forall m :: k < m < j ==> !kt[m].isKey
    decreases |kt| - k
  {
    if kt[k + 1].isKey then k + 1 else NextKey(kt, k + 1)
  }

  /** The right key of the interpolation loop, given its left key: the next key
      frame, or, for the last slot (which has none), the last slot itself: the inner
      search finds nothing there and `er` keeps the value the previous key found. */
  function RightKey(kt: seq<Entry>, k: nat): (j: nat)
    requires KeyFramed(kt) && k < |kt|
    ensures k <= j < |kt| && kt[j].isKey
  {
    if k == |kt| - 1 then k else NextKey(kt, k)
  }

  /** Between its left key and its right key, slot i sits strictly before the right
      key unless both are the last slot. */
  lemma SlotInSegment(kt: seq<Entry>, i: nat)
    requires KeyFramed(kt) && i < |kt|
    ensures var el := PrevKey(kt, i); var er := RightKey(kt, el);
      el <= i <= er && (er == el || i < er) && (er == i ==> el == i)
  {
    var el := PrevKey(kt, i);
    if el < |kt| - 1 {
      var er := NextKey(kt, el);
      assert kt[er].isKey;
    }
  }

  /** The crossfade factor for a slot dl slots after its left key in a segment of
      dt slots: `(65535 / dt * dl) >> 8`, 0 when dt == 0. Given dl < dt the
      product stays below 65536, so the shift always fits the uint8 factor. */
  function BlendFactor(dt: nat, dl: nat): (f: uint8)
    requires dt == 0 || dl < dt
    ensures dl == 0 ==> f == 0
  {
    if dt != 0 then
      BlendFactorBound(dt, dl);
      (65535 / dt * dl) / 256
    else 0
  }

  /** The factor is zero at the key itself and never more than the exact linear
      fraction 65535 * dl / dt / 256 of the way to the right key. */
  lemma BlendFactorBelowLinear(dt: nat, dl: nat)
    requires dl < dt
    ensures 256 * BlendFactor(dt, dl) * dt <= 65535 * dl
  {
    BlendFactorBound(dt, dl);
  }

  lemma BlendFactorBound(dt: nat, dl: nat)
    requires dl < dt
    ensures 0 <= 65535 / dt * dl < 65536
    ensures 256 * ((65535 / dt * dl) / 256) * dt <= 65535 * dl
  {
    var q := 65535 / dt;
    assert q * dt <= 65535;
    MulMonotone(q, dl, dt - 1);
    MulMonotone(q, 0, dl);
    var f := (q * dl) / 256;
    assert 256 * f <= q * dl;
    MulMonotone(dt, 256 * f, q * dl);
    MulMonotone(dl, q * dt, 65535);
    assert dt * (q * dl) == dl * (q * dt);
  }

  /** The factor is also less than two steps of 1/256 below the exact linear
      fraction: together with BlendFactorBelowLinear it is linear in the distance
      from the left key, up to the truncations of the two divisions. */
  lemma BlendFactorAboveLinear(dt: nat, dl: nat)
    requires dl < dt <= 256
    ensures 65535 * dl < 256 * (BlendFactor(dt, dl) + 2) * dt
  {
    BlendFactorBound(dt, dl);
    var q := 65535 / dt;
    var f: int := BlendFactor(dt, dl);
    assert f == (q * dl) / 256;
    AboveLinearStep(dt, dl, q, 65535 % dt, f);
  }

  /** The arithmetic of BlendFactorAboveLinear: 65535 = q * dt + r with r < dt,
      and f = q * dl / 256 rounded down. */
  lemma AboveLinearStep(dt: int, dl: int, q: int, r: int, f: int)
    requires 0 < dt && 0 <= dl <= 255 && 0 <= r < dt && 65535 == q * dt + r
    requires 0 <= q && q * dl <= 256 * (f + 1) - 1
    ensures 65535 * dl < 256 * (f + 2) * dt
  {
    var a, b := q * dl, r * dl;
    assert 65535 * dl == (q * dt + r) * dl;
    assert 65535 * dl == dt * a + b;
    MulMonotone(dt, a, 256 * (f + 1) - 1);
    MulMonotone(r, dl, 255);
    MulMonotone(255, r, dt);
    assert dt * (256 * (f + 1) - 1) == 256 * (f + 2) * dt - 257 * dt;
  }

  /** The factor grows with the distance from the left key. */
  lemma BlendFactorMonotone(dt: nat, dl1: nat, dl2: nat)
    requires dl1 <= dl2 < dt
    ensures BlendFactor(dt, dl1) <= BlendFactor(dt, dl2)
  {
    MulMonotone(65535 / dt, dl1, dl2);
  }

  /** Slot i after the interpolation loop: the left waveform is that of its left
      key, the right waveform that of the right key, the factor its blend factor. */
  function InterpolatedEntry(kt: seq<Entry>, i: nat): Entry
    requires KeyFramed(kt) && i < |kt|
  {
    var el := PrevKey(kt, i);
    var er := RightKey(kt, el);
    SlotInSegment(kt, i);
    kt[i].(ptrL := kt[el].ptrL, ptrR := kt[er].ptrL, factor := BlendFactor(er - el, i - el))
  }

  /** The table after the interpolation loop. */
  function Interpolated(kt: seq<Entry>): (t: seq<Entry>)
    requires KeyFramed(kt)
    ensures |t| == |kt|
  {
    seq(|kt|, i requires 0 <= i < |kt| => InterpolatedEntry(kt, i))
  }

  /** The marked table of a loadable blob has key frames at slot 0 and at the last slot. */
  lemma LoadableKeyFramed(data: seq<uint8>, start: nat, size: nat)
    requires Loadable(data, start, size)
    ensures KeyFramed(Marked(PairsOf(data, start, size), size))
  {
    var ps := PairsOf(data, start, size);
    MarkedKey(ps, size, 0);
    MarkedKey(ps, size, size - 1);
    assert ps[|ps| - 1].pos == size - 1;
  }

  /** The table load_wavetable leaves in its first `size` entries. */
  function LoadedTable(data: seq<uint8>, start: nat, size: nat): (t: seq<Entry>)
    requires Loadable(data, start, size)
    ensures |t| == size
  {
    LoadableKeyFramed(data, start, size);
    Interpolated(Marked(PairsOf(data, start, size), size))
  }

  /** load_wavetable: wipes the first `size` entries, marks the key frames of the
      blob at `start`, interpolates every slot, and returns the offset past the
      last pair read. Entries past `size` are not touched. */
  method Load(entries: array<Entry>, size: nat, data: seq<uint8>, start: nat) returns (next: nat)
    requires size <= entries.Length
    requires Loadable(data, start, size)
    modifies entries
    ensures entries[..size] == LoadedTable(data, start, size)
    ensures entries[size..] == old(entries[size..])
    ensures next == TableEnd(data, start, size)
  {
    next := Mark(entries, size, data, start);
    ghost var kt := Marked(PairsOf(data, start, size), size);
    LoadableKeyFramed(data, start, size);
    Interpolate(entries, size, kt);
  }

  /** The first half of load_wavetable: the wipe and the do-while that marks the
      key frames. */
  method Mark(entries: array<Entry>, size: nat, data: seq<uint8>, start: nat) returns (next: nat)
    requires size <= entries.Length
    requires Loadable(data, start, size)
    modifies entries
    ensures entries[..size] == Marked(PairsOf(data, start, size), size)
    ensures entries[size..] == old(entries[size..])
    ensures next == TableEnd(data, start, size)
  {
    ghost var ps := PairsOf(data, start, size);
    ghost var tail := entries[size..];

    // Wipe the table
    forall m | 0 <= m < size {
      entries[m] := ZeroEntry;
    }
    assert entries[..size] == Marked(ps[..0], size);

    // The first byte is ignored; read pairs up to the last slot
    var p := start + 1;
    ghost var n := 0;
    while true
      invariant n < |ps| && p == start + 1 + 2 * n
      invariant entries[..size] == Marked(ps[..n], size)
      invariant entries[size..] == tail
      decreases |ps| - n
    {
      PairsOfAt(data, start, size, n);
      var waveform := data[p];
      var pos := data[p + 1];
      p := p + 2;
      entries[pos] := KeyEntry(waveform);
      assert ps[..n + 1][..n] == ps[..n];
      n := n + 1;
      if pos >= size - 1 {
        break;
      }
    }
    assert ps[..n] == ps;
    next := p;
  }

  /** The interpolation loop: `el` and `er` walk the key frames from left to right. */
  method Interpolate(entries: array<Entry>, size: nat, ghost kt: seq<Entry>)
    requires size <= entries.Length && size <= 255
    requires KeyFramed(kt) && |kt| == size
    requires entries[..size] == kt
    modifies entries
    ensures entries[..size] == Interpolated(kt)
    ensures entries[size..] == old(entries[size..])
  {
    var el: Option<nat> := None;
    var er: Option<nat> := None;
    var i := 0;
    while i < size
      invariant 0 <= i <= size
      invariant Progress(entries[..size], kt, i)
      invariant entries[size..] == old(entries[size..])
      invariant 0 < i ==> el == Some(PrevKey(kt, i - 1)) && er == Some(RightKey(kt, PrevKey(kt, i - 1)))
    {
      el, er := InterpolateSlot(entries, size, kt, i, el, er);
      i := i + 1;
    }
    ProgressDone(entries[..size], kt);
  }

  /** One iteration of the interpolation loop: the keys of slot i are found, and
      slot i gets its waveforms and its blend factor. */
  method InterpolateSlot(entries: array<Entry>, size: nat, ghost kt: seq<Entry>, i: nat, el: Option<nat>, er: Option<nat>)
    returns (el': Option<nat>, er': Option<nat>)
    requires size <= entries.Length && size <= 255
    requires KeyFramed(kt) && |kt| == size && i < size
    requires Progress(entries[..size], kt, i)
    requires 0 < i ==> el == Some(PrevKey(kt, i - 1)) && er == Some(RightKey(kt, PrevKey(kt, i - 1)))
    modifies entries
    ensures Progress(entries[..size], kt, i + 1)
    ensures entries[size..] == old(entries[size..])
    ensures el' == Some(PrevKey(kt, i)) && er' == Some(RightKey(kt, PrevKey(kt, i)))
  {
    ghost var s := entries[..size];
    el', er' := SlotKeys(entries, size, kt, i, el, er);
    var elv, erv := el'.value, er'.value;
    ProgressStep(s, kt, i, elv, erv);

    // Distance between the surrounding key-waves and from the left one
    var dt: uint8 := erv - elv;
    var dl: uint8 := i - elv;
    SetSlot(entries, size, i, elv, erv, BlendFactor(dt, dl));
  }

  /** The write of slot i in the interpolation loop, in the source's order: the
      left pointer of key frame el, then the left pointer of key frame er as right
      pointer, then the factor. The right pointer is read after the left one is
      written, so it is er's old left pointer only when er == i implies el == i,
      which SlotInSegment gives at the one call. */
  method SetSlot(entries: array<Entry>, size: nat, i: nat, el: nat, er: nat, factor: uint8)
    requires size <= entries.Length && i < size && el < size && er < size
    requires er == i ==> el == i
    modifies entries
    ensures var s := old(entries[..size]);
      entries[..size] == s[i := s[i].(ptrL := s[el].ptrL, ptrR := s[er].ptrL, factor := factor)]
    ensures entries[size..] == old(entries[size..])
  {
    entries[i] := entries[i].(ptrL := entries[el].ptrL);
    entries[i] := entries[i].(ptrR := entries[er].ptrL);
    entries[i] := entries[i].(factor := factor);
  }

  /** The key-frame step of the interpolation loop: at a key frame, `el` moves to it
      and `er` to the next key frame found by the inner search (kept when there is
      none); elsewhere both stay. Afterwards they are the keys of slot i. */
  method SlotKeys(entries: array<Entry>, size: nat, ghost kt: seq<Entry>, i: nat, el: Option<nat>, er: Option<nat>)
    returns (el': Option<nat>, er': Option<nat>)
    requires size <= entries.Length && KeyFramed(kt) && |kt| == size && i < size
    requires Progress(entries[..size], kt, i)
    requires 0 < i ==> el == Some(PrevKey(kt, i - 1)) && er == Some(RightKey(kt, PrevKey(kt, i - 1)))
    ensures el' == Some(PrevKey(kt, i)) && er' == Some(RightKey(kt, PrevKey(kt, i)))
  {
    ghost var s := entries[..size];
    el', er' := el, er;
    // If the current entry contains a key-wave, look for the next one
    if entries[i].isKey {
      el' := Some(i);
      var j := FindNextKey(entries, size, i);
      if j < size {
        er' := Some(j);
      }
      KeyStep(s, kt, i, j, er');
    } else {
      NonKeyStep(s, kt, i);
    }
  }

  /** The table during the interpolation loop: slots before i are done, the others
      still hold the marked entries. */
  ghost predicate Progress(s: seq<Entry>, kt: seq<Entry>, i: nat)
    requires KeyFramed(kt)
  {
    && |s| == |kt| && i <= |kt|
    && (forall m {:trigger s[m]} :: 0 <= m < i ==> s[m] == InterpolatedEntry(kt, m))
    && (forall m {:trigger s[m]} :: i <= m < |kt| ==> s[m] == kt[m])
  }

  lemma ProgressDone(s: seq<Entry>, kt: seq<Entry>)
    requires KeyFramed(kt) && Progress(s, kt, |kt|)
    ensures s == Interpolated(kt)
  {
  }

  /** A slot that is not a key frame has the same left key as the slot before it. */
  lemma NonKeyStep(s: seq<Entry>, kt: seq<Entry>, i: nat)
    requires KeyFramed(kt) && Progress(s, kt, i) && i < |kt| && !s[i].isKey
    ensures 0 < i && PrevKey(kt, i) == PrevKey(kt, i - 1)
  {
  }

  /** After the inner search at key frame i, `el` and `er` are the left and right
      keys of slot i. */
  lemma KeyStep(s: seq<Entry>, kt: seq<Entry>, i: nat, j: nat, er: Option<nat>)
    requires KeyFramed(kt) && Progress(s, kt, i) && i < |kt| && s[i].isKey
    requires i < j <= |kt|
    requires forall m :: i < m < j ==> !s[m].isKey
    requires j < |kt| ==> s[j].isKey && er == Some(j)
    requires j == |kt| && 0 < i ==> er == Some(RightKey(kt, PrevKey(kt, i - 1)))
    ensures PrevKey(kt, i) == i && er == Some(RightKey(kt, i))
  {
    forall m | i < m < j
      ensures !kt[m].isKey
    {
      assert s[m] == kt[m];
    }
    if j == |kt| {
      LastKeyReached(kt, i);
    } else {
      NextKeyUnique(kt, i, j);
    }
  }

  /** The body of the interpolation loop, with the left and right keys of slot i,
      reads marked or own waveforms and completes slot i. */
  lemma ProgressStep(s: seq<Entry>, kt: seq<Entry>, i: nat, el: nat, er: nat)
    requires KeyFramed(kt) && |kt| <= 256 && Progress(s, kt, i) && i < |kt|
    requires el == PrevKey(kt, i) && er == RightKey(kt, el)
    ensures el <= i <= er < |s| && (er == el || i - el < er - el)
    ensures er - el < 256 && i - el < 256
    ensures Progress(s[i := s[i].(ptrL := s[el].ptrL, ptrR := s[er].ptrL, factor := BlendFactor(er - el, i - el))], kt, i + 1)
  {
    SlotInSegment(kt, i);
    assert s[el].ptrL == kt[el].ptrL by {
      if el < i {
        OwnWaveformKept(kt, el);
      }
    }
    assert s[er].ptrL == kt[er].ptrL;
    assert s[i] == kt[i];
    var e := s[i].(ptrL := s[el].ptrL, ptrR := s[er].ptrL, factor := BlendFactor(er - el, i - el));
    assert e == kt[i].(ptrL := kt[el].ptrL, ptrR := kt[er].ptrL, factor := BlendFactor(er - el, i - el));
    StepEntry(kt, i, el, er);
    var s' := s[i := e];
    assert forall m :: 0 <= m < i ==> s'[m] == s[m];
  }

  /** The inner search of the interpolation loop: the first key frame after slot i,
      or `size` when there is none (the loop runs out without a `break`). */
  method FindNextKey(entries: array<Entry>, size: nat, i: nat) returns (j: nat)
    requires size <= entries.Length && i < size
    ensures i < j <= size
    ensures forall m :: i < m < j ==> !entries[m].isKey
    ensures j < size ==> entries[j].isKey
  {
    j := i + 1;
    while j < size
      invariant i + 1 <= j <= size
      invariant forall m :: i < m < j ==> !entries[m].isKey
    {
      if entries[j].isKey {
        return;
      }
      j := j + 1;
    }
  }

  /** The entry the loop body writes at slot i, given the left and right keys. */
  lemma StepEntry(kt: seq<Entry>, i: nat, el: nat, er: nat)
    requires KeyFramed(kt) && i < |kt|
    requires el == PrevKey(kt, i) && er == RightKey(kt, el)
    ensures el <= i <= er && (er == el || i - el < er - el)
    ensures kt[i].(ptrL := kt[el].ptrL, ptrR := kt[er].ptrL, factor := BlendFactor(er - el, i - el))
      == InterpolatedEntry(kt, i)
  {
    SlotInSegment(kt, i);
  }

  /** A key frame keeps its own waveform as left waveform. */
  lemma OwnWaveformKept(kt: seq<Entry>, k: nat)
    requires KeyFramed(kt) && k < |kt| && kt[k].isKey
    ensures InterpolatedEntry(kt, k).ptrL == kt[k].ptrL
  {
  }

  /** The first key frame after k is the one the inner search finds. */
  lemma NextKeyUnique(kt: seq<Entry>, k: nat, j: nat)
    requires k < j < |kt| && kt[j].isKey && kt[|kt| - 1].isKey
    requires forall m :: k < m < j ==> !kt[m].isKey
    ensures NextKey(kt, k) == j
  {
    var n := NextKey(kt, k);
    assert !(n < j);
    assert !(j < n);
  }

  /** When the inner search finds no key after key frame i, i is the last slot and
      the right key kept from the previous key frame is the last slot too. */
  lemma LastKeyReached(kt: seq<Entry>, i: nat)
    requires KeyFramed(kt) && i < |kt| && kt[i].isKey
    requires forall m :: i < m < |kt| ==> !kt[m].isKey
    ensures i == |kt| - 1
    ensures 0 < i ==> RightKey(kt, PrevKey(kt, i - 1)) == i
  {
    if 0 < i {
      var k := PrevKey(kt, i - 1);
      NextKeyUnique(kt, k, i);
    }
  }

  // ---------------------------------------------------------------------------
  // The table the loader leaves, characterised without PrevKey and NextKey

  /** The nearest key frame at or before slot i is the only key frame there with
      no key frame after it up to i. */
  lemma PrevKeyUnique(kt: seq<Entry>, i: nat, k: nat)
    requires i < |kt| && kt[0].isKey
    requires k <= i && kt[k].isKey && forall m :: k < m <= i ==> !kt[m].isKey
    ensures PrevKey(kt, i) == k
  {
    var p := PrevKey(kt, i);
    assert !(p < k);
    assert !(k < p);
  }

  /** Slot i between key frame el (the last one at or before i) and key frame er
      (the first one after el, or el itself when el is the last slot) takes its
      left waveform from el, its right waveform from er, and the blend factor of
      its distance from el in the segment el..er. */
  lemma InterpolatedBetweenKeys(kt: seq<Entry>, i: nat, el: nat, er: nat)
    requires KeyFramed(kt) && el <= i < |kt| && kt[el].isKey
    requires forall m :: el < m <= i ==> !kt[m].isKey
    requires el <= er < |kt| && kt[er].isKey
    requires forall m :: el < m < er ==> !kt[m].isKey
    requires el == er ==> el == |kt| - 1
    ensures i <= er && (el == er || i - el < er - el)
    ensures Interpolated(kt)[i] ==
      kt[i].(ptrL := kt[el].ptrL, ptrR := kt[er].ptrL, factor := BlendFactor(er - el, i - el))
  {
    PrevKeyUnique(kt, i, el);
    if el < |kt| - 1 {
      NextKeyUnique(kt, el, er);
    }
    SlotInSegment(kt, i);
  }

  /** Between two key frames, the factor of a slot is its distance from the left
      key as a fraction of the segment, 65535 * (i - el) / (er - el) / 256, rounded
      down and at most two steps lower. */
  lemma InterpolatedFactorLinear(kt: seq<Entry>, i: nat, el: nat, er: nat)
    requires KeyFramed(kt) && |kt| <= 256 && el <= i < |kt| && kt[el].isKey
    requires forall m :: el < m <= i ==> !kt[m].isKey
    requires el < er < |kt| && kt[er].isKey
    requires forall m :: el < m < er ==> !kt[m].isKey
    ensures var f := Interpolated(kt)[i].factor;
      && 256 * f * (er - el) <= 65535 * (i - el)
      && 65535 * (i - el) < 256 * (f + 2) * (er - el)
  {
    InterpolatedBetweenKeys(kt, i, el, er);
    BlendFactorBelowLinear(er - el, i - el);
    BlendFactorAboveLinear(er - el, i - el);
  }

  /** A key frame keeps its own left waveform and gets factor 0. The last slot is a
      key frame, so it gets factor 0 too. */
  lemma InterpolatedKeyFrame(kt: seq<Entry>, i: nat)
    requires KeyFramed(kt) && i < |kt| && kt[i].isKey
    ensures Interpolated(kt)[i].ptrL == kt[i].ptrL
    ensures Interpolated(kt)[i].factor == 0 && Interpolated(kt)[i].isKey
  {
    PrevKeyUnique(kt, i, i);
  }

  /** Within a segment the crossfade factor never decreases. */
  lemma InterpolatedFactorMonotone(kt: seq<Entry>, i1: nat, i2: nat)
    requires KeyFramed(kt) && i1 <= i2 < |kt|
    requires forall m :: i1 < m <= i2 ==> !kt[m].isKey
    ensures Interpolated(kt)[i1].factor <= Interpolated(kt)[i2].factor
  {
    var el := PrevKey(kt, i1);
    PrevKeyUnique(kt, i2, el);
    var er := RightKey(kt, el);
    SlotInSegment(kt, i1);
    SlotInSegment(kt, i2);
    if er != el {
      BlendFactorMonotone(er - el, i1 - el, i2 - el);
    }
  }

  /** At a key frame the crossfade reads the key frame's own waveform only. */
  lemma KeyFrameSample(store: seq<uint8>, kt: seq<Entry>, i: nat, phase: uint16)
    requires KeyFramed(kt) && i < |kt| && kt[i].isKey
    requires ValidEntry(store, Interpolated(kt)[i])
    ensures kt[i].ptrL.Some? && InStore(store, kt[i].ptrL.value)
    ensures EntrySample(store, Interpolated(kt)[i], phase) == SampleByPhase(store, kt[i].ptrL.value, phase)
  {
    InterpolatedKeyFrame(kt, i);
  }

  /** Every waveform index of the pairs designates 64 bytes inside the store. */
  predicate WaveformsIn(ps: seq<Pair>, store: seq<uint8>)
  {
    forall j :: 0 <= j < |ps| ==> InStore(store, WaveformPointer(ps[j].waveform))
  }

  /** A key frame of the marked table points at the waveform of a pair. */
  lemma MarkedKeyInStore(ps: seq<Pair>, size: nat, store: seq<uint8>, s: nat)
    requires forall j :: 0 <= j < |ps| ==> ps[j].pos < size
    requires s < size && WaveformsIn(ps, store) && Marked(ps, size)[s].isKey
    ensures Marked(ps, size)[s].ptrL.Some? && InStore(store, Marked(ps, size)[s].ptrL.value)
  {
    MarkedSlot(ps, size, s);
  }

  /** When every waveform a blob names lies in the store, no slot of the loaded
      table holds a NULL pointer or reads outside the store. */
  lemma LoadedTableValid(data: seq<uint8>, start: nat, size: nat, store: seq<uint8>)
    requires Loadable(data, start, size)
    requires WaveformsIn(PairsOf(data, start, size), store)
    ensures forall i :: 0 <= i < size ==> ValidEntry(store, LoadedTable(data, start, size)[i])
  {
    var ps := PairsOf(data, start, size);
    var kt := Marked(ps, size);
    LoadableKeyFramed(data, start, size);
    forall i | 0 <= i < size
      ensures ValidEntry(store, LoadedTable(data, start, size)[i])
    {
      var el := PrevKey(kt, i);
      var er := RightKey(kt, el);
      MarkedKeyInStore(ps, size, store, el);
      MarkedKeyInStore(ps, size, store, er);
      assert LoadedTable(data, start, size)[i] == InterpolatedEntry(kt, i);
    }
  }

  // ---------------------------------------------------------------------------
  // load_wavetable_n: tables stored back to back

  /** n tables stored back to back from `start` are each loadable. */
  predicate LoadableN(data: seq<uint8>, start: nat, size: nat, n: nat)
    decreases n
  {
    n == 0 || (Loadable(data, start, size) && LoadableN(data, TableEnd(data, start, size), size, n - 1))
  }

  /** The offsets of n tables stored back to back from `start`: o[k] is where table
      k starts and o[k + 1], past its last pair, where table k + 1 starts. */
  function Starts(data: seq<uint8>, start: nat, size: nat, n: nat): (o: seq<nat>)
    requires LoadableN(data, start, size, n)
    ensures |o| == n + 1 && o[0] == start
    decreases n
  {
    if n == 0 then [start] else [start] + Starts(data, TableEnd(data, start, size), size, n - 1)
  }

  /** Table k of the n starts at o[k], is loadable there, and ends where table k + 1
      starts, further into the blob. */
  lemma {:induction false} StartsAt(data: seq<uint8>, start: nat, size: nat, n: nat, k: nat)
    requires LoadableN(data, start, size, n) && k < n
    ensures var o := Starts(data, start, size, n);
      Loadable(data, o[k], size) && o[k + 1] == TableEnd(data, o[k], size) && o[k] < o[k + 1]
    decreases k
  {
    var rest := Starts(data, TableEnd(data, start, size), size, n - 1);
    assert Starts(data, start, size, n) == [start] + rest;
    if k > 0 {
      StartsAt(data, TableEnd(data, start, size), size, n - 1, k - 1);
      assert ([start] + rest)[k] == rest[k - 1];
      assert ([start] + rest)[k + 1] == rest[k];
    }
  }

  /** The table that loading table k of the n leaves. */
  function TableAt(data: seq<uint8>, start: nat, size: nat, n: nat, k: nat): (t: seq<Entry>)
    requires LoadableN(data, start, size, n) && k < n
    ensures |t| == size
  {
    StartsAt(data, start, size, n, k);
    LoadedTable(data, Starts(data, start, size, n)[k], size)
  }

  /** load_wavetable_n, with the loop counter an unbounded integer: loads the
      tables 0..index one after the other into the same entries. Each load starts
      with a full wipe, so the entries hold table `index` alone, and the result is
      the offset past it. The last of the index + 1 iterations is written after
      the loop of the first index ones, so that its table is the one the contract
      names. */
  method LoadN(entries: array<Entry>, size: nat, data: seq<uint8>, start: nat, index: uint8) returns (next: nat)
    requires size <= entries.Length
    requires LoadableN(data, start, size, index + 1)
    modifies entries
    ensures entries[..size] == TableAt(data, start, size, index + 1, index)
    ensures next == Starts(data, start, size, index + 1)[index + 1]
    ensures entries[size..] == old(entries[size..])
  {
    next := Skip(entries, size, data, start, index + 1, index);
    next := LoadNext(entries, size, data, start, index + 1, index, next);
  }

  /** The first k iterations of load_wavetable_n: tables 0..k-1 of the n are
      loaded one after the other, which leaves the offset of table k. What they
      leave in the entries does not matter, since loading table k wipes them. */
  method Skip(entries: array<Entry>, size: nat, data: seq<uint8>, start: nat, n: nat, k: nat)
    returns (next: nat)
    requires size <= entries.Length && LoadableN(data, start, size, n) && k < n
    modifies entries
    ensures next == Starts(data, start, size, n)[k]
    ensures entries[size..] == old(entries[size..])
  {
    next := start;
    var i: nat := 0;
    while i < k
      invariant i <= k && next == Starts(data, start, size, n)[i]
      invariant entries[size..] == old(entries[size..])
    {
      next := SkipNext(entries, size, data, start, n, i, next);
      i := i + 1;
    }
  }

  /** An iteration of Skip: LoadNext, of which only the offset it returns is used. */
  method SkipNext(entries: array<Entry>, size: nat, data: seq<uint8>, start: nat, n: nat, k: nat, cur: nat)
    returns (next: nat)
    requires size <= entries.Length && LoadableN(data, start, size, n) && k < n
    requires cur == Starts(data, start, size, n)[k]
    modifies entries
    ensures next == Starts(data, start, size, n)[k + 1]
    ensures entries[size..] == old(entries[size..])
  {
    next := LoadNext(entries, size, data, start, n, k, cur);
  }

  /** One iteration of load_wavetable_n: table k of the n, loaded from its start. */
  method LoadNext(entries: array<Entry>, size: nat, data: seq<uint8>, start: nat, n: nat, k: nat, cur: nat)
    returns (next: nat)
    requires size <= entries.Length && LoadableN(data, start, size, n) && k < n
    requires cur == Starts(data, start, size, n)[k]
    modifies entries
    ensures entries[..size] == TableAt(data, start, size, n, k)
    ensures next == Starts(data, start, size, n)[k + 1]
    ensures entries[size..] == old(entries[size..])
  {
    StartsAt(data, start, size, n, k);
    next := Load(entries, size, data, cur);
  }

  /** The loop guard `i < index + 1` of load_wavetable_n as written, with `i` a
      uint8_t that `i++` wraps modulo 256. */
  predicate LoadNGuard(i: uint8, index: uint8)
  {
    i < index + 1
  }

  /** For index 255 the guard holds for every counter value, before and after `i++`:
      the as-written loop never ends. */
  lemma LoadNGuardNeverFails(i: uint8)
    ensures LoadNGuard(i, 255) && LoadNGuard(ToUint8(i + 1), 255)
  {
  }

  /** For every smaller index the as-written guard is the one of LoadN: it fails
      exactly once the counter reaches index + 1, which a uint8_t can hold. */
  lemma LoadNGuardBelow255(i: uint8, index: uint8)
    requires index < 255 && i <= index
    ensures LoadNGuard(i, index)
    ensures ToUint8(i + 1) == i + 1
    ensures LoadNGuard(ToUint8(i + 1), index) <==> i + 1 < index + 1
  {
  }
}
