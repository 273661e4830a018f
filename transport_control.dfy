/**
 * The transport: a four-state playback state machine with a playhead in
 * samples, validated tempo, time-signature, loop-range and sample-rate
 * setters, and a single-slot callback that is told the new state.
 *
 * The callback is a function pointer in the source; here it is a flag saying
 * whether one is installed, and `notified` is the sequence of states it has
 * been called with, in order.
 */
module Transport {

  datatype TransportState = Stopped | Playing | Paused | Recording

  /** What the callback receives for a transition to `s`: one call if installed, none otherwise. */
  function Notification(installed: bool, s: TransportState): seq<TransportState>
  {
    if installed then [s] else []
  }

  /** The state Pause leaves: Paused from Playing, otherwise unchanged. */
  function PausedFrom(s: TransportState): (r: TransportState)
    ensures r == Paused <==> s == Playing || s == Paused
    ensures s != Playing ==> r == s
  {
    if s == Playing then Paused else s
  }

  /** The state Resume leaves: Playing from Paused, otherwise unchanged. */
  function ResumedFrom(s: TransportState): (r: TransportState)
    ensures r == Playing <==> s == Paused || s == Playing
    ensures s != Paused ==> r == s
  {
    if s == Paused then Playing else s
  }

  /** Pausing and then resuming returns a playing transport to Playing. */
  lemma PauseThenResume(s: TransportState)
    ensures s == Playing ==> ResumedFrom(PausedFrom(s)) == Playing
    ensures s != Playing && s != Paused ==> ResumedFrom(PausedFrom(s)) == s
  {
  }

  class TransportControl {
    var state: TransportState
    var playhead: nat
    var tempo: real
    var numerator: nat
    var denominator: nat
    var loopEnabled: bool
    var loopStart: nat
    var loopEnd: nat
    var sampleRate: nat
    var callbackInstalled: bool
    var notified: seq<TransportState>

    /** What the validated setters keep true from construction on. */
    ghost predicate Valid()
      reads this
    {
      tempo > 0.0 && numerator > 0 && denominator > 0 && loopStart <= loopEnd && sampleRate > 0
    }

    /** STOPPED at 0, 120 BPM, 4/4, loop off over [0, 0], 44100 Hz, no callback. */
    constructor ()
      ensures Valid()
      ensures state == Stopped && playhead == 0 && tempo == 120.0
      ensures numerator == 4 && denominator == 4
      ensures !loopEnabled && loopStart == 0 && loopEnd == 0
      ensures sampleRate == 44100 && !callbackInstalled && notified == []
    {
      state := Stopped;
      playhead := 0;
      tempo := 120.0;
      numerator, denominator := 4, 4;
      loopEnabled := false;
      loopStart, loopEnd := 0, 0;
      sampleRate := 44100;
      callbackInstalled := false;
      notified := [];
    }

    /** While playing, Pause takes effect and Resume changes nothing. */
    predicate IsPlaying()
      reads this
      ensures IsPlaying() ==> PausedFrom(state) == Paused && ResumedFrom(state) == Playing
    {
      state == Playing
    }

    /** While paused, Resume takes effect and Pause changes nothing. */
    predicate IsPaused()
      reads this
      ensures IsPaused() ==> ResumedFrom(state) == Playing && PausedFrom(state) == Paused
    {
      state == Paused
    }

    /** While recording, neither Pause nor Resume moves the transport. */
    predicate IsRecording()
      reads this
      ensures IsRecording() ==> PausedFrom(state) == Recording && ResumedFrom(state) == Recording
    {
      state == Recording
    }

    /** While stopped, neither Pause nor Resume moves the transport. */
    predicate IsStopped()
      reads this
      ensures IsStopped() ==> PausedFrom(state) == Stopped && ResumedFrom(state) == Stopped
    {
      state == Stopped
    }

    /** Exactly one of the four state queries holds at any time. */
    lemma ExactlyOneStateQuery()
      ensures IsPlaying() || IsPaused() || IsRecording() || IsStopped()
      ensures !(IsPlaying() && IsPaused()) && !(IsPlaying() && IsRecording()) && !(IsPlaying() && IsStopped())
      ensures !(IsPaused() && IsRecording()) && !(IsPaused() && IsStopped()) && !(IsRecording() && IsStopped())
    {
    }

    /** Any state becomes PLAYING; the playhead stays; the callback hears PLAYING even if already playing. */
    method Play()
      modifies this`state, this`notified
      ensures state == Playing
      ensures notified == old(notified) + Notification(callbackInstalled, Playing)
    {
      state := Playing;
      if callbackInstalled {
        notified := notified + [Playing];
      }
    }

    /** Any state becomes STOPPED with the playhead back at 0; the callback hears STOPPED. */
    method Stop()
      modifies this`state, this`playhead, this`notified
      ensures state == Stopped && playhead == 0
      ensures notified == old(notified) + Notification(callbackInstalled, Stopped)
    {
      state := Stopped;
      playhead := 0;
      if callbackInstalled {
        notified := notified + [Stopped];
      }
    }

    /** PLAYING becomes PAUSED (and the callback hears it); any other state is left alone, silently. */
    method Pause()
      modifies this`state, this`notified
      ensures state == PausedFrom(old(state))
      ensures notified == old(notified) + (if old(state) == Playing then Notification(callbackInstalled, Paused) else [])
    {
      if state == Playing {
        state := Paused;
        if callbackInstalled {
          notified := notified + [Paused];
        }
      }
    }

    /** PAUSED becomes PLAYING (and the callback hears it); any other state is left alone, silently. */
    method Resume()
      modifies this`state, this`notified
      ensures state == ResumedFrom(old(state))
      ensures notified == old(notified) + (if old(state) == Paused then Notification(callbackInstalled, Playing) else [])
    {
      if state == Paused {
        state := Playing;
        if callbackInstalled {
          notified := notified + [Playing];
        }
      }
    }

    /** Any state becomes RECORDING; the callback hears RECORDING. */
    method Record()
      modifies this`state, this`notified
      ensures state == Recording
      ensures notified == old(notified) + Notification(callbackInstalled, Recording)
    {
      state := Recording;
      if callbackInstalled {
        notified := notified + [Recording];
      }
    }

    /** Stores the playhead unchecked. */
    method SetPlayheadPosition(sampleIndex: nat)
      modifies this`playhead
      ensures playhead == sampleIndex
    {
      playhead := sampleIndex;
    }

    /** Adopts a positive tempo; zero or negative is ignored. */
    method SetTempo(bpm: real)
      requires Valid()
      modifies this`tempo
      ensures Valid()
      ensures tempo == if bpm > 0.0 then bpm else old(tempo)
    {
      if bpm > 0.0 {
        tempo := bpm;
      }
    }

    /** Adopts numerator and denominator together, only when both are non-zero. */
    method SetTimeSignature(num: nat, den: nat)
      requires Valid()
      modifies this`numerator, this`denominator
      ensures Valid()
      ensures num > 0 && den > 0 ==> numerator == num && denominator == den
      ensures !(num > 0 && den > 0) ==> numerator == old(numerator) && denominator == old(denominator)
    {
      if num > 0 && den > 0 {
        numerator := num;
        denominator := den;
      }
    }

    method SetLoopEnabled(enabled: bool)
      modifies this`loopEnabled
      ensures loopEnabled == enabled
    {
      loopEnabled := enabled;
    }

    /** Adopts `[start, end)` only when `start < end`; otherwise both ends stay. */
    method SetLoopRange(start: nat, end: nat)
      requires Valid()
      modifies this`loopStart, this`loopEnd
      ensures Valid()
      ensures start < end ==> loopStart == start && loopEnd == end
      ensures start >= end ==> loopStart == old(loopStart) && loopEnd == old(loopEnd)
    {
      if start < end {
        loopStart := start;
        loopEnd := end;
      }
    }

    /** Adopts a non-zero sample rate; zero is ignored. */
    method SetSampleRate(rate: nat)
      requires Valid()
      modifies this`sampleRate
      ensures Valid()
      ensures sampleRate == if rate > 0 then rate else old(sampleRate)
    {
      if rate > 0 {
        sampleRate := rate;
      }
    }

    /** Installs (or, with `false`, removes) the single callback slot. */
    method SetPlaybackCallback(installed: bool)
      modifies this`callbackInstalled
      ensures callbackInstalled == installed
    {
      callbackInstalled := installed;
    }
  }

  /** Play, Pause, Resume ends PLAYING with the playhead where Pause left it. */
  method PlayPauseResume(t: TransportControl)
    modifies t
    ensures t.state == Playing && t.playhead == old(t.playhead)
    ensures t.notified == old(t.notified) + (if t.callbackInstalled then [Playing, Paused, Playing] else [])
  {
    t.Play();
    t.Pause();
    var atPause := t.playhead;
    t.Resume();
    assert t.playhead == atPause;
  }
}
