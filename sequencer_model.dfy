/**
 * The note timeline: an ordered list of tracks, each holding notes timed in
 * ticks at 480 pulses per quarter note, with insertion that keeps a track
 * sorted by start tick, index-based removal, selection flags, bulk deletion
 * and round-to-nearest grid quantization.
 */
module Sequencing {
  import opened Numeric

  /** Ticks per quarter note. */
  const PPQ: nat := 480

  datatype Note = Note(
    pitch: byte := 0,
    velocity: byte := 100,
    startBeat: nat := 0,
    durationBeats: nat := PPQ,
    selected: bool := false)

  datatype Track = Track(
    name: string,
    notes: seq<Note> := [],
    volume: byte := 100,
    muted: bool := false,
    soloed: bool := false,
    color: nat := 0xFF5588FF)

  datatype Quantize = Off | Beat | Half | Quarter | Eighth | Triplet

  /** The tick spacing of a quantize setting other than `Off`. */
  function GridSize(q: Quantize): (g: nat)
    requires q != Off
    ensures g > 0 && g % 2 == 0
  {
    match q
    case Beat => PPQ
    case Half => PPQ / 2
    case Quarter => PPQ / 4
    case Eighth => PPQ / 8
    case Triplet => PPQ / 3
  }

  /** The source adds half a grid to a `uint32_t` tick; this says the sum does not wrap. */
  predicate QuantizeFits(q: Quantize, beat: nat)
  {
    q != Off ==> beat + GridSize(q) / 2 < U32_LIMIT
  }

  /** Rounds `beat` to the nearest multiple of `g`, halfway rounding up, in integer division. */
  function RoundToGrid(beat: nat, g: nat): nat
    requires g > 0
  {
    ((beat + g / 2) / g) * g
  }

  /** Snaps a tick to the nearest grid line of the setting; `Off` leaves it alone. */
  function QuantizeNote(q: Quantize, beat: nat): (r: nat)
    requires QuantizeFits(q, beat)
    ensures q == Off ==> r == beat
    ensures r < U32_LIMIT || r == beat
  {
    if q == Off then beat else RoundToGrid(beat, GridSize(q))
  }

  /** Division by a positive divisor is determined by the quotient/remainder split. */
  lemma DivUnique(x: int, g: int, k: int, r: int)
    requires g > 0 && 0 <= r < g && x == k * g + r
    ensures x / g == k && x % g == r
  {
    var k', r' := x / g, x % g;
    assert x == k' * g + r';
    assert (k - k') * g == r' - r;
    if k' < k {
      MulMonotone(1, k - k', g);
      assert false;
    }
    if k' > k {
      MulMonotone(1, k' - k, g);
      assert false;
    }
  }

  lemma MulMonotone(a: int, b: int, g: nat)
    requires a <= b
    ensures a * g <= b * g
  {
  }

  lemma DivMonotone(x: nat, y: nat, g: nat)
    requires x <= y && g > 0
    ensures x / g <= y / g
  {
    var qx, qy := x / g, y / g;
    assert x == qx * g + x % g && y == qy * g + y % g;
    if qx > qy {
      MulMonotone(qy + 1, qx, g);
      assert false;
    }
  }

  /** A rounded tick lies on the grid and at most half a grid away from the input. */
  lemma RoundToGridIsNearest(beat: nat, g: nat)
    requires g > 0
    ensures RoundToGrid(beat, g) % g == 0
    ensures beat - g / 2 <= RoundToGrid(beat, g) <= beat + g / 2
  {
    var x := beat + g / 2;
    var k, r := x / g, x % g;
    assert x == k * g + r;
    DivUnique(k * g, g, k, 0);
  }

  lemma RoundToGridIdempotent(beat: nat, g: nat)
    requires g > 0
    ensures RoundToGrid(RoundToGrid(beat, g), g) == RoundToGrid(beat, g)
  {
    var k := (beat + g / 2) / g;
    assert RoundToGrid(beat, g) == k * g;
    DivUnique(k * g + g / 2, g, k, g / 2);
  }

  lemma RoundToGridMonotone(a: nat, b: nat, g: nat)
    requires a <= b && g > 0
    ensures RoundToGrid(a, g) <= RoundToGrid(b, g)
  {
    DivMonotone(a + g / 2, b + g / 2, g);
    MulMonotone((a + g / 2) / g, (b + g / 2) / g, g);
  }

  /** A quantized tick lies on the grid and at most half a grid away from the input. */
  lemma QuantizeIsNearestGridLine(q: Quantize, beat: nat)
    requires q != Off && QuantizeFits(q, beat)
    ensures QuantizeNote(q, beat) % GridSize(q) == 0
    ensures beat - GridSize(q) / 2 <= QuantizeNote(q, beat) <= beat + GridSize(q) / 2
  {
    RoundToGridIsNearest(beat, GridSize(q));
  }

  /**
   * A full grid of room below `2^32`: enough for the half-grid add on the tick
   * and again on its quantized value.
   */
  predicate QuantizeHeadroom(q: Quantize, beat: nat)
  {
    q != Off ==> beat + GridSize(q) < U32_LIMIT
  }

  /** Quantizing twice is quantizing once. */
  lemma QuantizeIdempotent(q: Quantize, beat: nat)
    requires QuantizeHeadroom(q, beat)
    ensures QuantizeFits(q, beat) && QuantizeFits(q, QuantizeNote(q, beat))
    ensures QuantizeNote(q, QuantizeNote(q, beat)) == QuantizeNote(q, beat)
  {
    if q != Off {
      RoundToGridIsNearest(beat, GridSize(q));
      RoundToGridIdempotent(beat, GridSize(q));
    }
  }

  /** Quantizing never reverses the order of two ticks. */
  lemma QuantizeMonotone(q: Quantize, a: nat, b: nat)
    requires a <= b && QuantizeFits(q, a) && QuantizeFits(q, b)
    ensures QuantizeNote(q, a) <= QuantizeNote(q, b)
  {
    if q != Off {
      RoundToGridMonotone(a, b, GridSize(q));
    }
  }

  /** With the Beat grid, ticks just below a half-beat boundary snap down: 239 to 0, 719 to 480. */
  lemma QuantizeBeatRoundsDown()
    ensures QuantizeNote(Beat, 239) == 0 && QuantizeNote(Beat, 719) == 480
  {
    DivUnique(479, 480, 0, 479);
    DivUnique(959, 480, 1, 479);
  }

  /** With the Beat grid, ticks on a half-beat boundary snap up: 240 to 480, 720 to 960. */
  lemma QuantizeBeatRoundsUp()
    ensures QuantizeNote(Beat, 240) == 480 && QuantizeNote(Beat, 720) == 960
  {
    DivUnique(480, 480, 1, 0);
    DivUnique(960, 480, 2, 0);
  }

  ghost predicate SortedByStart(s: seq<Note>)
  {
    forall i, j :: 0 <= i < j < |s| ==> s[i].startBeat <= s[j].startBeat
  }

  /** Inserts `n` into a list already sorted by start tick. */
  function InsertByStart(s: seq<Note>, n: Note): (r: seq<Note>)
    requires SortedByStart(s)
    ensures SortedByStart(r)
    ensures multiset(r) == multiset(s) + multiset{n}
    ensures |r| == |s| + 1
  {
    if s == [] then [n]
    else if n.startBeat <= s[0].startBeat then [n] + s
    else
      var tail := InsertByStart(s[1..], n);
      assert s == [s[0]] + s[1..];
      BoundedAfterInsert(s[1..], n, tail, s[0].startBeat);
      SortedCons(s[0], tail);
      [s[0]] + tail
  }

  /** A sequence holding the notes of `rest` and `n`, all starting at or after `lo`, starts at or after `lo` throughout. */
  lemma BoundedAfterInsert(rest: seq<Note>, n: Note, tail: seq<Note>, lo: nat)
    requires multiset(tail) == multiset(rest) + multiset{n}
    requires lo <= n.startBeat && forall k :: 0 <= k < |rest| ==> lo <= rest[k].startBeat
    ensures forall k :: 0 <= k < |tail| ==> lo <= tail[k].startBeat
  {
    forall k | 0 <= k < |tail|
      ensures lo <= tail[k].startBeat
    {
      assert tail[k] in multiset(tail);
      assert tail[k] in multiset(rest) || tail[k] == n;
    }
  }

  lemma SortedCons(x: Note, t: seq<Note>)
    requires SortedByStart(t) && forall k :: 0 <= k < |t| ==> x.startBeat <= t[k].startBeat
    ensures SortedByStart([x] + t)
  {
    var r := [x] + t;
    forall i, j | 0 <= i < j < |r|
      ensures r[i].startBeat <= r[j].startBeat
    {
      assert r[j] == t[j - 1];
      if i > 0 {
        assert r[i] == t[i - 1];
      }
    }
  }

  /**
   * Sorts notes by start tick. `std::sort` is not stable, so all a caller may
   * rely on is that the result is sorted and is a permutation of the input.
   */
  method SortByStart(s: seq<Note>) returns (r: seq<Note>)
    ensures SortedByStart(r)
    ensures multiset(r) == multiset(s)
  {
    r := [];
    var i := 0;
    while i < |s|
      invariant 0 <= i <= |s|
      invariant SortedByStart(r)
      invariant multiset(r) == multiset(s[..i])
    {
      r := InsertByStart(r, s[i]);
      assert s[..i + 1] == s[..i] + [s[i]];
      i := i + 1;
    }
    assert s[..|s|] == s;
  }

  /** A track's notes with every selection flag set to `flag`. */
  function WithSelection(notes: seq<Note>, flag: bool): (r: seq<Note>)
    ensures |r| == |notes|
    ensures forall k :: 0 <= k < |r| ==> r[k] == notes[k].(selected := flag)
  {
    seq(|notes|, k requires 0 <= k < |notes| => notes[k].(selected := flag))
  }

  /** The notes that survive a bulk delete: the unselected ones, in their original order. */
  function WithoutSelected(notes: seq<Note>): (r: seq<Note>)
    ensures |r| <= |notes|
    ensures notes != [] && !notes[0].selected ==> r != [] && r[0] == notes[0]
  {
    if notes == [] then []
    else if notes[0].selected then WithoutSelected(notes[1..])
    else [notes[0]] + WithoutSelected(notes[1..])
  }

  /** Bulk delete removes every selected note and keeps every unselected one, with multiplicity. */
  lemma {:induction false} WithoutSelectedContents(notes: seq<Note>)
    ensures forall k :: 0 <= k < |WithoutSelected(notes)| ==> !WithoutSelected(notes)[k].selected
    ensures forall n: Note :: !n.selected ==> multiset(WithoutSelected(notes))[n] == multiset(notes)[n]
  {
    if notes != [] {
      WithoutSelectedContents(notes[1..]);
      assert notes == [notes[0]] + notes[1..];
    }
  }

  /** Bulk delete keeps a sorted track sorted. */
  lemma {:induction false} WithoutSelectedKeepsSorted(notes: seq<Note>)
    requires SortedByStart(notes)
    ensures SortedByStart(WithoutSelected(notes))
    ensures forall k :: 0 <= k < |WithoutSelected(notes)| ==> WithoutSelected(notes)[k] in notes
  {
    if notes != [] {
      WithoutSelectedKeepsSorted(notes[1..]);
    }
  }

  /** Every note that a quantize pass may touch has room below `2^32` for the half-grid add. */
  ghost predicate QuantizableNotes(q: Quantize, notes: seq<Note>)
  {
    forall k :: 0 <= k < |notes| ==> QuantizeFits(q, notes[k].startBeat)
  }

  /** A track's notes after a quantize pass: only the start tick of selected notes changes. */
  function QuantizedSelection(q: Quantize, notes: seq<Note>): (r: seq<Note>)
    requires QuantizableNotes(q, notes)
    ensures |r| == |notes|
    ensures forall k :: 0 <= k < |r| ==> r[k] == (if notes[k].selected then notes[k].(startBeat := QuantizeNote(q, notes[k].startBeat)) else notes[k])
  {
    seq(|notes|, k requires 0 <= k < |notes| =>
      if notes[k].selected then notes[k].(startBeat := QuantizeNote(q, notes[k].startBeat)) else notes[k])
  }

  /** A second quantize pass changes nothing. */
  lemma QuantizedSelectionIdempotent(q: Quantize, notes: seq<Note>)
    requires QuantizableNotes(q, notes)
    requires forall k :: 0 <= k < |notes| ==> QuantizeHeadroom(q, notes[k].startBeat)
    ensures QuantizableNotes(q, QuantizedSelection(q, notes))
    ensures QuantizedSelection(q, QuantizedSelection(q, notes)) == QuantizedSelection(q, notes)
  {
    var once := QuantizedSelection(q, notes);
    forall k | 0 <= k < |notes|
      ensures QuantizeFits(q, once[k].startBeat)
      ensures once[k].selected ==> QuantizeNote(q, once[k].startBeat) == once[k].startBeat
    {
      QuantizeIdempotent(q, notes[k].startBeat);
    }
  }

  /** When every note of a sorted track is selected, quantizing keeps it sorted. */
  lemma QuantizeAllKeepsSorted(q: Quantize, notes: seq<Note>)
    requires QuantizableNotes(q, notes) && SortedByStart(notes)
    requires forall k :: 0 <= k < |notes| ==> notes[k].selected
    ensures SortedByStart(QuantizedSelection(q, notes))
  {
    var r := QuantizedSelection(q, notes);
    forall i, j | 0 <= i < j < |r|
      ensures r[i].startBeat <= r[j].startBeat
    {
      QuantizeMonotone(q, notes[i].startBeat, notes[j].startBeat);
    }
  }

  /**
   * A quantize pass does not re-sort: with only the first note selected, the
   * sorted pair [300, 400] becomes [480, 400] on the Beat grid.
   */
  lemma PartialQuantizeCanUnsort()
    ensures var notes := [Note(startBeat := 300, selected := true), Note(startBeat := 400)];
            SortedByStart(notes) && QuantizableNotes(Beat, notes) &&
            !SortedByStart(QuantizedSelection(Beat, notes))
  {
    var notes := [Note(startBeat := 300, selected := true), Note(startBeat := 400)];
    var r := QuantizedSelection(Beat, notes);
    assert r[0].startBeat == 480 && r[1].startBeat == 400;
  }

  /** Adding notes with start ticks 500, 100, 300 to an empty track reads back 100, 300, 500. */
  method AddThreeNotesExample() returns (starts: seq<nat>)
    ensures starts == [100, 300, 500]
  {
    var m := new SequencerModel();
    m.AddTrack("t");
    m.AddNote(0, Note(startBeat := 500));
    m.AddNote(0, Note(startBeat := 100));
    m.AddNote(0, Note(startBeat := 300));
    var notes := m.tracks[0].notes;
    assert multiset(notes) == multiset{Note(startBeat := 500), Note(startBeat := 100), Note(startBeat := 300)};
    assert |notes| == 3;
    assert notes[0] in multiset(notes) && notes[1] in multiset(notes) && notes[2] in multiset(notes);
    assert Note(startBeat := 100) in multiset(notes);
    assert Note(startBeat := 300) in multiset(notes);
    assert Note(startBeat := 500) in multiset(notes);
    starts := [notes[0].startBeat, notes[1].startBeat, notes[2].startBeat];
  }

  class SequencerModel {
    var tracks: seq<Track>
    var playheadBeat: nat
    var loopStartBeat: nat
    var loopEndBeat: nat
    var loopEnabled: bool
    var tempoAPM: real
    var timeSignature: int
    var quantize: Quantize

    /** A fresh timeline: no tracks, playhead 0, loop [0, 1920) disabled, 120 tempo, 4 beats, no quantize. */
    constructor ()
      ensures tracks == [] && playheadBeat == 0
      ensures loopStartBeat == 0 && loopEndBeat == 1920 && !loopEnabled
      ensures tempoAPM == 120.0 && timeSignature == 4 && quantize == Off
    {
      tracks := [];
      playheadBeat := 0;
      loopStartBeat, loopEndBeat := 0, 1920;
      loopEnabled := false;
      tempoAPM := 120.0;
      timeSignature := 4;
      quantize := Off;
    }

    /** Appends a track with the given name, default mix settings and no notes. */
    method AddTrack(name: string)
      modifies this`tracks
      ensures tracks == old(tracks) + [Track(name)]
    {
      tracks := tracks + [Track(name)];
    }

    /** Erases the track at `index`; an out-of-range index changes nothing. */
    method RemoveTrack(index: nat)
      modifies this`tracks
      ensures old(index < |tracks|) ==> tracks == old(tracks[..index] + tracks[index + 1..])
      ensures old(index >= |tracks|) ==> tracks == old(tracks)
    {
      if index < |tracks| {
        tracks := tracks[..index] + tracks[index + 1..];
      }
    }

    method ClearTracks()
      modifies this`tracks
      ensures tracks == []
    {
      tracks := [];
    }

    /** The track at `index`, or nothing when the index is out of range. */
    function GetTrackMutable(index: nat): (r: Option<Track>)
      reads this
      ensures r.Some? <==> index < |tracks|
      ensures r.Some? ==> r.value == tracks[index]
    {
      if index < |tracks| then Some(tracks[index]) else None
    }

    /**
     * Appends `note` to track `trackIdx` and re-sorts it by start tick; an
     * out-of-range track index changes nothing.
     */
    method AddNote(trackIdx: nat, note: Note)
      modifies this`tracks
      ensures |tracks| == old(|tracks|)
      ensures forall t :: 0 <= t < |tracks| && t != trackIdx ==> tracks[t] == old(tracks[t])
      ensures trackIdx < |tracks| ==>
        tracks[trackIdx] == old(tracks[trackIdx]).(notes := tracks[trackIdx].notes) &&
        SortedByStart(tracks[trackIdx].notes) &&
        multiset(tracks[trackIdx].notes) == multiset(old(tracks[trackIdx].notes)) + multiset{note}
    {
      if trackIdx < |tracks| {
        var sorted := SortByStart(tracks[trackIdx].notes + [note]);
        tracks := tracks[trackIdx := tracks[trackIdx].(notes := sorted)];
      }
    }

    /** Erases note `noteIdx` of track `trackIdx`, keeping the others in order; out of range does nothing. */
    method RemoveNote(trackIdx: nat, noteIdx: nat)
      modifies this`tracks
      ensures old(trackIdx < |tracks| && noteIdx < |tracks[trackIdx].notes|) ==>
        var ns := old(tracks[trackIdx].notes);
        tracks == old(tracks[trackIdx := tracks[trackIdx].(notes := ns[..noteIdx] + ns[noteIdx + 1..])])
      ensures old(!(trackIdx < |tracks| && noteIdx < |tracks[trackIdx].notes|)) ==> tracks == old(tracks)
    {
      if trackIdx < |tracks| && noteIdx < |tracks[trackIdx].notes| {
        var ns := tracks[trackIdx].notes;
        tracks := tracks[trackIdx := tracks[trackIdx].(notes := ns[..noteIdx] + ns[noteIdx + 1..])];
      }
    }

    /** Empties track `trackIdx`; out of range does nothing. */
    method ClearNotes(trackIdx: nat)
      modifies this`tracks
      ensures old(trackIdx < |tracks|) ==> tracks == old(tracks[trackIdx := tracks[trackIdx].(notes := [])])
      ensures old(trackIdx >= |tracks|) ==> tracks == old(tracks)
    {
      if trackIdx < |tracks| {
        tracks := tracks[trackIdx := tracks[trackIdx].(notes := [])];
      }
    }

    method SetTempoAPM(tempo: real)
      modifies this`tempoAPM
      ensures tempoAPM == tempo
    {
      tempoAPM := tempo;
    }

    method SetTimeSignature(sig: int)
      modifies this`timeSignature
      ensures timeSignature == sig
    {
      timeSignature := sig;
    }

    method SetPlayheadBeat(beat: nat)
      modifies this`playheadBeat
      ensures playheadBeat == beat
    {
      playheadBeat := beat;
    }

    method SetLoopEnabled(enabled: bool)
      modifies this`loopEnabled
      ensures loopEnabled == enabled
    {
      loopEnabled := enabled;
    }

    method SetQuantize(q: Quantize)
      modifies this`quantize
      ensures quantize == q
    {
      quantize := q;
    }

    /** Adopts `[start, end)` only when `start < end`; otherwise both ends stay. */
    method SetLoopRange(start: nat, end: nat)
      modifies this`loopStartBeat, this`loopEndBeat
      ensures start < end ==> loopStartBeat == start && loopEndBeat == end
      ensures start >= end ==> loopStartBeat == old(loopStartBeat) && loopEndBeat == old(loopEndBeat)
    {
      if start < end {
        loopStartBeat := start;
        loopEndBeat := end;
      }
    }

    /** Quantizes one tick with the model's current setting. */
    function QuantizeTick(beat: nat): (r: nat)
      reads this
      requires QuantizeFits(quantize, beat)
      ensures quantize == Off ==> r == beat
      ensures quantize != Off ==>
        r % GridSize(quantize) == 0 && beat - GridSize(quantize) / 2 <= r <= beat + GridSize(quantize) / 2
    {
      if quantize == Off then beat
      else
        QuantizeIsNearestGridLine(quantize, beat);
        QuantizeNote(quantize, beat)
    }

    /** Selects every note of track `trackIdx` and touches no other track; out of range does nothing. */
    method SelectAll(trackIdx: nat)
      modifies this`tracks
      ensures old(trackIdx < |tracks|) ==>
        tracks == old(tracks[trackIdx := tracks[trackIdx].(notes := WithSelection(tracks[trackIdx].notes, true))])
      ensures old(trackIdx >= |tracks|) ==> tracks == old(tracks)
    {
      if trackIdx < |tracks| {
        var notes := tracks[trackIdx].notes;
        ghost var before := notes;
        for k := 0 to |notes|
          invariant |notes| == |before|
          invariant forall j :: 0 <= j < k ==> notes[j] == before[j].(selected := true)
          invariant forall j :: k <= j < |notes| ==> notes[j] == before[j]
        {
          notes := notes[k := notes[k].(selected := true)];
        }
        assert notes == WithSelection(before, true);
        tracks := tracks[trackIdx := tracks[trackIdx].(notes := notes)];
      }
    }

    /** Clears every selection flag in every track. */
    method DeselectAll()
      modifies this`tracks
      ensures |tracks| == old(|tracks|)
      ensures forall t :: 0 <= t < |tracks| ==>
        tracks[t] == old(tracks[t]).(notes := WithSelection(old(tracks[t].notes), false))
    {
      for t := 0 to |tracks|
        invariant |tracks| == old(|tracks|)
        invariant forall u :: 0 <= u < t ==> tracks[u] == old(tracks[u]).(notes := WithSelection(old(tracks[u].notes), false))
        invariant forall u :: t <= u < |tracks| ==> tracks[u] == old(tracks[u])
      {
        var notes := tracks[t].notes;
        ghost var before := notes;
        for k := 0 to |notes|
          invariant |notes| == |before|
          invariant forall j :: 0 <= j < k ==> notes[j] == before[j].(selected := false)
          invariant forall j :: k <= j < |notes| ==> notes[j] == before[j]
        {
          notes := notes[k := notes[k].(selected := false)];
        }
        assert notes == WithSelection(before, false);
        tracks := tracks[t := tracks[t].(notes := notes)];
      }
    }

    /** Removes every selected note of every track, keeping the rest in their relative order. */
    method DeleteSelected()
      modifies this`tracks
      ensures |tracks| == old(|tracks|)
      ensures forall t :: 0 <= t < |tracks| ==>
        tracks[t] == old(tracks[t]).(notes := WithoutSelected(old(tracks[t].notes)))
    {
      for t := 0 to |tracks|
        invariant |tracks| == old(|tracks|)
        invariant forall u :: 0 <= u < t ==> tracks[u] == old(tracks[u]).(notes := WithoutSelected(old(tracks[u].notes)))
        invariant forall u :: t <= u < |tracks| ==> tracks[u] == old(tracks[u])
      {
        var notes := tracks[t].notes;
        ghost var before := notes;
        var k := 0;
        while k < |notes|
          invariant 0 <= k <= |notes|
          invariant notes[..k] + WithoutSelected(notes[k..]) == WithoutSelected(before)
          decreases |notes| - k
        {
          ghost var cur := notes;
          assert cur[k..] == [cur[k]] + cur[k + 1..];
          if notes[k].selected {
            notes := notes[..k] + notes[k + 1..];
            assert notes[..k] == cur[..k] && notes[k..] == cur[k + 1..];
          } else {
            assert notes[..k + 1] == notes[..k] + [notes[k]];
            k := k + 1;
          }
        }
        assert notes[k..] == [];
        assert notes[..k] == notes;
        tracks := tracks[t := tracks[t].(notes := notes)];
      }
    }

    /** Rewrites the start tick of every selected note with `QuantizeNote`; nothing is re-sorted. */
    method QuantizeSelected()
      requires forall t :: 0 <= t < |tracks| ==> QuantizableNotes(quantize, tracks[t].notes)
      modifies this`tracks
      ensures |tracks| == old(|tracks|)
      ensures forall t :: 0 <= t < |tracks| ==>
        tracks[t] == old(tracks[t]).(notes := QuantizedSelection(quantize, old(tracks[t].notes)))
    {
      for t := 0 to |tracks|
        invariant |tracks| == old(|tracks|)
        invariant forall u :: 0 <= u < t ==> tracks[u] == old(tracks[u]).(notes := QuantizedSelection(quantize, old(tracks[u].notes)))
        invariant forall u :: t <= u < |tracks| ==> tracks[u] == old(tracks[u])
      {
        var notes := tracks[t].notes;
        ghost var before := notes;
        for k := 0 to |notes|
          invariant |notes| == |before|
          invariant forall j :: 0 <= j < k ==> notes[j] == QuantizedSelection(quantize, before)[j]
          invariant forall j :: k <= j < |notes| ==> notes[j] == before[j]
        {
          if notes[k].selected {
            notes := notes[k := notes[k].(startBeat := QuantizeNote(quantize, notes[k].startBeat))];
          }
        }
        assert notes == QuantizedSelection(quantize, before);
        tracks := tracks[t := tracks[t].(notes := notes)];
      }
    }
  }
}
