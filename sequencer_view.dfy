/**
 * The piano-roll editor's rules: hit testing of notes, select-on-press,
 * dragging the selected notes of one track, horizontal zoom by the wheel,
 * and the keyboard shortcuts that forward to the note model.
 *
 * Screen geometry is abstracted. `noteRect` gives the on-screen rectangle of
 * a note in integer pixels. A drag's horizontal offset arrives already
 * converted to ticks (`deltaTicks`). Its vertical offset stays in pixels,
 * because only its sign matters.
 */
module PianoRoll {
  import opened Numeric
  import opened Sequencing

  /** A rectangle in integer pixels: left, top, width, height. */
  datatype Rect = Rect(x: int, y: int, w: int, h: int)

  datatype DragMode = NoDrag | Move | ResizeStart | ResizeEnd

  /** Virtual-key codes of the shortcuts. */
  const KeySelectAll: int := 0x41
  const KeyDelete: int := 0x2E
  const KeyQuantize: int := 0x51

  /** Horizontal zoom limits, in pixels per beat. */
  const MinZoomH: real := 8.0
  const MaxZoomH: real := 256.0

  /** Half-open containment: the left and top edges belong to the rectangle, the right and bottom edges do not. */
  predicate IsPointInRect(x: int, y: int, rx: int, ry: int, rw: int, rh: int)
    ensures IsPointInRect(x, y, rx, ry, rw, rh) ==> rw > 0 && rh > 0
  {
    x >= rx && x < rx + rw && y >= ry && y < ry + rh
  }

  /**
   * Rectangles that share an edge never both contain a point, so adjacent
   * notes never compete for the pixel on their common edge. A non-empty
   * rectangle contains its top-left corner but not its bottom-right one.
   */
  lemma HalfOpenRects(x: int, y: int, rx: int, ry: int, rw: int, rh: int)
    ensures !(IsPointInRect(x, y, rx, ry, rw, rh) && IsPointInRect(x, y, rx + rw, ry, rw, rh))
    ensures !(IsPointInRect(x, y, rx, ry, rw, rh) && IsPointInRect(x, y, rx, ry + rh, rw, rh))
    ensures rw > 0 && rh > 0 ==> IsPointInRect(rx, ry, rx, ry, rw, rh)
    ensures !IsPointInRect(rx + rw, ry + rh, rx, ry, rw, rh)
    ensures rw <= 0 || rh <= 0 ==> !IsPointInRect(x, y, rx, ry, rw, rh)
  {
  }

  /** Whether the note's on-screen rectangle contains the mouse. */
  predicate Hits(mx: int, my: int, noteRect: Note -> Rect, n: Note)
  {
    var r := noteRect(n);
    IsPointInRect(mx, my, r.x, r.y, r.w, r.h)
  }

  /** No note of `notes` is hit. */
  predicate NoneHit(mx: int, my: int, noteRect: Note -> Rect, notes: seq<Note>)
  {
    forall k :: 0 <= k < |notes| ==> !Hits(mx, my, noteRect, notes[k])
  }

  /** The pitch step of a vertical drag: down lowers by one, up raises by one. */
  function PitchStep(dy: int): (step: int)
  {
    if dy > 0 then -1 else if dy < 0 then 1 else 0
  }

  /** A note moved by the drag: the start moves unless it would go negative; the pitch steps unless it would leave [0, 127]. */
  function Shifted(n: Note, deltaTicks: int, step: int): Note
  {
    var start := if n.startBeat + deltaTicks >= 0 then n.startBeat + deltaTicks else n.startBeat;
    var pitch := if 0 <= n.pitch + step <= 127 then (n.pitch + step) as byte else n.pitch;
    n.(startBeat := start, pitch := pitch)
  }

  /** Every selected note shifted, the others as they were, in the same order (nothing is re-sorted). */
  function ShiftSelected(notes: seq<Note>, deltaTicks: int, step: int): (r: seq<Note>)
    ensures |r| == |notes|
  {
    seq(|notes|, k requires 0 <= k < |notes| => if notes[k].selected then Shifted(notes[k], deltaTicks, step) else notes[k])
  }

  /**
   * A drag touches only the selected notes and only their start and pitch.
   * The start moves by exactly the tick offset unless that would make it
   * negative, in which case it stays.
   */
  lemma DragMovesOnlySelected(notes: seq<Note>, deltaTicks: int, dy: int)
    ensures var r := ShiftSelected(notes, deltaTicks, PitchStep(dy));
      forall k :: 0 <= k < |r| ==>
        && (!notes[k].selected ==> r[k] == notes[k])
        && r[k].selected == notes[k].selected && r[k].velocity == notes[k].velocity
        && r[k].durationBeats == notes[k].durationBeats
        && (notes[k].selected ==> r[k].startBeat == if notes[k].startBeat + deltaTicks >= 0 then notes[k].startBeat + deltaTicks else notes[k].startBeat)
  {
    var r := ShiftSelected(notes, deltaTicks, PitchStep(dy));
    forall k | 0 <= k < |r|
      ensures r[k] == if notes[k].selected then Shifted(notes[k], deltaTicks, PitchStep(dy)) else notes[k]
    {
    }
  }

  /**
   * The pitch moves by at most one step, against the sign of the vertical
   * offset (down lowers, up raises), and a pitch in [0, 127] stays there.
   */
  lemma DragPitchStep(notes: seq<Note>, deltaTicks: int, dy: int)
    ensures var r := ShiftSelected(notes, deltaTicks, PitchStep(dy));
      forall k :: 0 <= k < |r| ==>
        && notes[k].pitch - 1 <= r[k].pitch <= notes[k].pitch + 1
        && (dy > 0 ==> r[k].pitch <= notes[k].pitch)
        && (dy < 0 ==> r[k].pitch >= notes[k].pitch)
        && (dy == 0 ==> r[k].pitch == notes[k].pitch)
        && (notes[k].pitch <= 127 ==> r[k].pitch <= 127)
  {
  }

  /**
   * Forward drags add up: shifting by `d1` and then by `d2` is shifting by
   * `d1 + d2`. The press point is never updated, so every move event
   * reapplies the whole offset from the press.
   */
  lemma {:induction false} DragsAccumulate(notes: seq<Note>, d1: nat, d2: nat)
    ensures ShiftSelected(ShiftSelected(notes, d1, 0), d2, 0) == ShiftSelected(notes, d1 + d2, 0)
  {
    var once := ShiftSelected(notes, d1, 0);
    var twice := ShiftSelected(once, d2, 0);
    var direct := ShiftSelected(notes, d1 + d2, 0);
    forall k | 0 <= k < |notes|
      ensures twice[k] == direct[k]
    {
      if notes[k].selected {
        assert once[k] == notes[k].(startBeat := notes[k].startBeat + d1);
      }
    }
  }

  /** Dragging does not re-sort: moving the first of two sorted notes past the second leaves the track unsorted. */
  lemma DragCanUnsort()
    ensures var notes := [Note(startBeat := 0, selected := true), Note(startBeat := 480)];
      SortedByStart(notes) && !SortedByStart(ShiftSelected(notes, 960, 0))
  {
    var notes := [Note(startBeat := 0, selected := true), Note(startBeat := 480)];
    var r := ShiftSelected(notes, 960, 0);
    assert r[0].startBeat == 960 && r[1].startBeat == 480;
  }

  /** The index of the first hit note of `notes`, or -1 when none is hit. */
  method HitInTrack(notes: seq<Note>, mx: int, my: int, noteRect: Note -> Rect) returns (idx: int)
    ensures -1 <= idx < |notes|
    ensures idx == -1 <==> NoneHit(mx, my, noteRect, notes)
    ensures idx >= 0 ==> Hits(mx, my, noteRect, notes[idx]) && NoneHit(mx, my, noteRect, notes[..idx])
  {
    for noteIdx := 0 to |notes|
      invariant NoneHit(mx, my, noteRect, notes[..noteIdx])
    {
      if Hits(mx, my, noteRect, notes[noteIdx]) {
        return noteIdx;
      }
      assert notes[..noteIdx + 1] == notes[..noteIdx] + [notes[noteIdx]];
    }
    assert notes[..|notes|] == notes;
    return -1;
  }

  class SequencerView {
    const model: SequencerModel
    var pixelsPerBeat: real
    var pixelsPerNote: real
    var scrollX: real
    var scrollY: real
    var dragStartX: int
    var dragStartY: int
    var dragging: bool
    var draggedNoteTrack: int
    var draggedNoteIndex: int
    var dragMode: DragMode

    /** The wheel only ever adopts a zoom inside the limits. */
    ghost predicate Valid()
      reads this
    {
      MinZoomH <= pixelsPerBeat <= MaxZoomH
    }

    /** 64 pixels per beat, 12 per note, no scroll, not dragging, no dragged note. */
    constructor (m: SequencerModel)
      ensures Valid()
      ensures model == m && pixelsPerBeat == 64.0 && pixelsPerNote == 12.0 && scrollX == 0.0 && scrollY == 0.0
      ensures dragStartX == 0 && dragStartY == 0 && !dragging
      ensures draggedNoteTrack == -1 && draggedNoteIndex == -1 && dragMode == NoDrag
    {
      model := m;
      pixelsPerBeat := 64.0;
      pixelsPerNote := 12.0;
      scrollX := 0.0;
      scrollY := 0.0;
      dragStartX := 0;
      dragStartY := 0;
      dragging := false;
      draggedNoteTrack := -1;
      draggedNoteIndex := -1;
      dragMode := NoDrag;
    }

    /**
     * The first note under the mouse in track-major, note-minor order, as a
     * (track, note) pair; (-1, -1) and false when no note is under it.
     */
    method HitTestNote(mx: int, my: int, noteRect: Note -> Rect) returns (found: bool, outTrack: int, outNote: int)
      ensures !found <==> forall t :: 0 <= t < |model.tracks| ==> NoneHit(mx, my, noteRect, model.tracks[t].notes)
      ensures !found ==> outTrack == -1 && outNote == -1
      ensures found ==>
                && 0 <= outTrack < |model.tracks| && 0 <= outNote < |model.tracks[outTrack].notes|
                && Hits(mx, my, noteRect, model.tracks[outTrack].notes[outNote])
                && (forall t :: 0 <= t < outTrack ==> NoneHit(mx, my, noteRect, model.tracks[t].notes))
                && NoneHit(mx, my, noteRect, model.tracks[outTrack].notes[..outNote])
    {
      var tracks := model.tracks;
      for trackIdx := 0 to |tracks|
        invariant forall t :: 0 <= t < trackIdx ==> NoneHit(mx, my, noteRect, tracks[t].notes)
      {
        var noteIdx := HitInTrack(tracks[trackIdx].notes, mx, my, noteRect);
        if noteIdx >= 0 {
          return true, trackIdx, noteIdx;
        }
      }
      return false, -1, -1;
    }

    /**
     * Starts a drag at the mouse. A miss forgets the dragged note and clears
     * every selection. A hit remembers the note and enters Move mode. If the
     * note was not selected, it becomes the only selected note; if it was,
     * the selection stays as it is.
     */
    method OnMouseDown(mx: int, my: int, noteRect: Note -> Rect)
      modifies this`dragStartX, this`dragStartY, this`dragging, this`draggedNoteTrack, this`draggedNoteIndex, this`dragMode
      modifies model`tracks
      ensures dragging && dragStartX == mx && dragStartY == my
      ensures |model.tracks| == old(|model.tracks|)
      ensures draggedNoteTrack == -1 <==> forall t :: 0 <= t < |model.tracks| ==> NoneHit(mx, my, noteRect, old(model.tracks[t].notes))
      ensures draggedNoteTrack == -1 ==>
                && draggedNoteIndex == -1 && dragMode == old(dragMode)
                && forall t :: 0 <= t < |model.tracks| ==>
                     model.tracks[t] == old(model.tracks[t]).(notes := WithSelection(old(model.tracks[t].notes), false))
      ensures draggedNoteTrack != -1 ==>
                var t, n := draggedNoteTrack, draggedNoteIndex;
                && 0 <= t < |model.tracks| && 0 <= n < |old(model.tracks[t].notes)|
                && Hits(mx, my, noteRect, old(model.tracks[t].notes[n]))
                && dragMode == Move
                && (old(model.tracks[t].notes[n].selected) ==> model.tracks == old(model.tracks))
                && (!old(model.tracks[t].notes[n].selected) ==> model.tracks == OnlySelected(old(model.tracks), t, n))
    {
      dragStartX := mx;
      dragStartY := my;
      dragging := true;
      var found, t, n := HitTestNote(mx, my, noteRect);
      draggedNoteTrack, draggedNoteIndex := t, n;
      if !found {
        draggedNoteTrack := -1;
        draggedNoteIndex := -1;
        model.DeselectAll();
      } else if draggedNoteTrack >= 0 {
        var track := model.GetTrackMutable(draggedNoteTrack);
        if track.Some? && draggedNoteIndex < |track.value.notes| {
          if !model.tracks[t].notes[n].selected {
            ghost var before := model.tracks;
            model.DeselectAll();
            var notes := model.tracks[t].notes;
            model.tracks := model.tracks[t := model.tracks[t].(notes := notes[n := notes[n].(selected := true)])];
            OnlySelectedAfterDeselect(before, model.tracks, t, n);
          }
          dragMode := Move;
        }
      }
    }

    /** Ends the drag: not dragging, no mode, no dragged note. */
    method OnMouseUp()
      modifies this`dragging, this`dragMode, this`draggedNoteTrack, this`draggedNoteIndex
      ensures !dragging && dragMode == NoDrag && draggedNoteTrack == -1 && draggedNoteIndex == -1
    {
      dragging := false;
      dragMode := NoDrag;
      draggedNoteTrack := -1;
      draggedNoteIndex := -1;
    }

    /**
     * While dragging in Move mode with a dragged note that still exists,
     * shifts the selected notes of the dragged note's track by the tick
     * offset and by one pitch step against the vertical offset from the
     * press point. Otherwise nothing changes.
     */
    method OnMouseMove(my: int, deltaTicks: int)
      modifies model`tracks
      ensures var t, n := draggedNoteTrack, draggedNoteIndex;
        if dragging && dragMode == Move && 0 <= t < |old(model.tracks)| && 0 <= n < |old(model.tracks)[t].notes| then
          var before := old(model.tracks);
          model.tracks == before[t := before[t].(notes := ShiftSelected(before[t].notes, deltaTicks, PitchStep(my - dragStartY)))]
        else model.tracks == old(model.tracks)
    {
      if !dragging || dragMode == NoDrag {
        return;
      }
      var dy := my - dragStartY;
      if dragMode == Move && draggedNoteTrack >= 0 && draggedNoteIndex >= 0 {
        var track := model.GetTrackMutable(draggedNoteTrack);
        if track.Some? && draggedNoteIndex < |track.value.notes| {
          var deltaPitch := if dy > 0 then -1 else if dy < 0 then 1 else 0;
          var notes := ShiftNotes(track.value.notes, deltaTicks, deltaPitch);
          model.tracks := model.tracks[draggedNoteTrack := model.tracks[draggedNoteTrack].(notes := notes)];
        }
      }
    }

    /** Adopts `pixelsPerBeat * (1 + delta / 10)` only when it lies in [8, 256]. */
    method OnMouseWheel(delta: real)
      modifies this`pixelsPerBeat
      ensures old(Valid()) ==> Valid()
      ensures var z := old(pixelsPerBeat) * (1.0 + delta * 0.1);
        pixelsPerBeat == if MinZoomH <= z <= MaxZoomH then z else old(pixelsPerBeat)
    {
      var newZoom := pixelsPerBeat * (1.0 + delta * 0.1);
      if newZoom >= MinZoomH && newZoom <= MaxZoomH {
        pixelsPerBeat := newZoom;
      }
    }

    /**
     * 'A' selects every note of the first track, if there is one; Delete
     * removes the selected notes of every track; 'Q' quantizes them with the
     * model's setting. Any other key does nothing.
     */
    method OnKeyDown(keyCode: int)
      requires keyCode == KeyQuantize ==>
                 forall t :: 0 <= t < |model.tracks| ==> QuantizableNotes(model.quantize, model.tracks[t].notes)
      modifies model`tracks
      ensures keyCode == KeySelectAll && old(|model.tracks|) > 0 ==>
                model.tracks == old(model.tracks[0 := model.tracks[0].(notes := WithSelection(model.tracks[0].notes, true))])
      ensures keyCode == KeyDelete ==>
                |model.tracks| == old(|model.tracks|)
                && forall t :: 0 <= t < |model.tracks| ==>
                     model.tracks[t] == old(model.tracks[t]).(notes := WithoutSelected(old(model.tracks[t].notes)))
      ensures keyCode == KeyQuantize ==>
                |model.tracks| == old(|model.tracks|)
                && forall t :: 0 <= t < |model.tracks| ==>
                     model.tracks[t] == old(model.tracks[t]).(notes := QuantizedSelection(model.quantize, old(model.tracks[t].notes)))
      ensures keyCode !in {KeyDelete, KeyQuantize} && !(keyCode == KeySelectAll && old(|model.tracks|) > 0) ==>
                model.tracks == old(model.tracks)
    {
      if keyCode == KeySelectAll {
        var track := model.GetTrackMutable(0);
        if track.Some? {
          model.SelectAll(0);
        }
      } else if keyCode == KeyDelete {
        model.DeleteSelected();
      } else if keyCode == KeyQuantize {
        model.QuantizeSelected();
      }
    }
  }

  /** The loop of OnMouseMove over one track's notes, in place. */
  method ShiftNotes(notes: seq<Note>, deltaTicks: int, deltaPitch: int) returns (r: seq<Note>)
    ensures r == ShiftSelected(notes, deltaTicks, deltaPitch)
  {
    r := notes;
    for k := 0 to |r|
      invariant |r| == |notes|
      invariant forall j :: 0 <= j < k ==> r[j] == ShiftSelected(notes, deltaTicks, deltaPitch)[j]
      invariant forall j :: k <= j < |r| ==> r[j] == notes[j]
    {
      var n := r[k];
      if n.selected {
        if n.startBeat + deltaTicks >= 0 {
          n := n.(startBeat := n.startBeat + deltaTicks);
        }
        if n.pitch + deltaPitch >= 0 && n.pitch + deltaPitch <= 127 {
          n := n.(pitch := (n.pitch + deltaPitch) as byte);
        }
        r := r[k := n];
      }
    }
  }

  /** The tracks with every selection cleared except note `n` of track `t`, which is selected. */
  ghost function OnlySelected(tracks: seq<Track>, t: nat, n: nat): (r: seq<Track>)
    requires t < |tracks| && n < |tracks[t].notes|
    ensures |r| == |tracks|
    ensures forall u, k :: 0 <= u < |r| && 0 <= k < |r[u].notes| ==> (r[u].notes[k].selected <==> u == t && k == n)
  {
    var cleared := seq(|tracks|, u requires 0 <= u < |tracks| => tracks[u].(notes := WithSelection(tracks[u].notes, false)));
    cleared[t := cleared[t].(notes := cleared[t].notes[n := cleared[t].notes[n].(selected := true)])]
  }

  lemma OnlySelectedAfterDeselect(before: seq<Track>, after: seq<Track>, t: nat, n: nat)
    requires t < |before| && n < |before[t].notes|
    requires |after| == |before|
    requires forall u :: 0 <= u < |before| && u != t ==> after[u] == before[u].(notes := WithSelection(before[u].notes, false))
    requires after[t] == before[t].(notes := WithSelection(before[t].notes, false)[n := before[t].notes[n].(selected := true)])
    ensures after == OnlySelected(before, t, n)
  {
  }
}
