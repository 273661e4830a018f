/**
 * The audio player: a four-state playback state machine over a buffer of
 * interleaved samples, with a position in frames that never passes the
 * duration, a clamped volume, and a loader that synthesizes a fixed
 * 10-second stereo tone.
 *
 * The tone's sample values come from a sine in single precision; the model
 * takes them as the parameter `wave` (frame index to sample value) and keeps
 * everything else the loader does: the metadata, the length, and the
 * left/right duplication.
 */
module Playback {
  import opened Numeric

  datatype PlaybackState = Stopped | Playing | Paused | Recording

  /** Frames the loader synthesizes: 10 seconds at 44100 Hz. */
  const LoadedFrames: nat := 441000

  /** The position Play leaves: back to 0 when at or past the end, otherwise unchanged. */
  function PlayPosition(position: nat, duration: nat): (p: nat)
    ensures p <= position
    ensures position < duration ==> p == position
    ensures p < duration || p == 0
    ensures position >= duration ==> p == 0
  {
    if position >= duration then 0 else position
  }

  /** A second Play changes nothing more. */
  lemma PlayPositionIdempotent(position: nat, duration: nat)
    ensures PlayPosition(PlayPosition(position, duration), duration) == PlayPosition(position, duration)
  {
  }

  class AudioPlayer {
    var samples: seq<real>
    var sampleRate: nat
    var channels: nat
    var bitDepth: nat
    var filePath: string
    var state: PlaybackState
    var position: nat
    var volume: real

    /** Frames in the buffer (`samples.size() / channels`). */
    function Duration(): (frames: nat)
      reads this
      requires channels > 0
      ensures frames * channels <= |samples| < frames * channels + channels
    {
      |samples| / channels
    }

    /** Stereo throughout; the position never passes the end; only an empty or a loaded buffer. */
    ghost predicate Valid()
      reads this
    {
      channels == 2 && position <= Duration() && Duration() <= LoadedFrames && 0.0 <= volume <= 1.0
    }

    /** STOPPED at position 0, full volume, empty 44100 Hz stereo 16-bit buffer. */
    constructor ()
      ensures Valid()
      ensures state == Stopped && position == 0 && volume == 1.0
      ensures samples == [] && sampleRate == 44100 && channels == 2 && bitDepth == 16 && filePath == ""
    {
      samples := [];
      sampleRate := 44100;
      channels := 2;
      bitDepth := 16;
      filePath := "";
      state := Stopped;
      position := 0;
      volume := 1.0;
    }

    /** Any state becomes PLAYING; the position restarts at 0 only when at or past the end. */
    method Play()
      requires Valid()
      modifies this`state, this`position
      ensures Valid()
      ensures state == Playing
      ensures position == PlayPosition(old(position), Duration())
    {
      state := Playing;
      if position >= Duration() {
        position := 0;
      }
    }

    /** Any state becomes STOPPED at position 0. */
    method Stop()
      requires Valid()
      modifies this`state, this`position
      ensures Valid()
      ensures state == Stopped && position == 0
    {
      state := Stopped;
      position := 0;
    }

    /** PLAYING becomes PAUSED; any other state is left alone. */
    method Pause()
      modifies this`state
      ensures state == if old(state) == Playing then Paused else old(state)
    {
      if state == Playing {
        state := Paused;
      }
    }

    /** PAUSED becomes PLAYING; any other state is left alone. */
    method Resume()
      modifies this`state
      ensures state == if old(state) == Paused then Playing else old(state)
    {
      if state == Paused {
        state := Playing;
      }
    }

    /** Moves to `frame` when it is at most the duration (the end itself is allowed); otherwise ignored. */
    method SetPosition(frame: nat)
      requires Valid()
      modifies this`position
      ensures Valid()
      ensures position == if frame <= Duration() then frame else old(position)
    {
      if frame <= Duration() {
        position := frame;
      }
    }

    /** Clamps the volume to `[0, 1]`. */
    method SetVolume(v: real)
      requires Valid()
      modifies this`volume
      ensures Valid()
      ensures volume == Clamp(v, 0.0, 1.0)
    {
      volume := Clamp(v, 0.0, 1.0);
    }

    /**
     * Always succeeds: records the path, sets 44100 Hz stereo 16-bit and fills
     * 441000 frames with the tone, the same value on the left and the right.
     */
    method LoadAudioFile(path: string, wave: nat -> real) returns (ok: bool)
      requires Valid()
      modifies this`samples, this`sampleRate, this`channels, this`bitDepth, this`filePath
      ensures Valid()
      ensures ok
      ensures filePath == path && sampleRate == 44100 && channels == 2 && bitDepth == 16
      ensures |samples| == 2 * LoadedFrames && Duration() == LoadedFrames
      ensures forall k :: 0 <= k < |samples| ==> samples[k] == wave(k / 2)
    {
      filePath := path;
      sampleRate := 44100;
      channels := 2;
      bitDepth := 16;
      var durationFrames := sampleRate * 10;
      var buffer: seq<real> := [];
      for i := 0 to durationFrames
        invariant |buffer| == 2 * i
        invariant forall k :: 0 <= k < |buffer| ==> buffer[k] == wave(k / 2)
      {
        var s := wave(i);
        buffer := buffer + [s, s];
      }
      samples := buffer;
      ok := true;
    }
  }

  /** After loading, the left and right sample of every frame are equal. */
  lemma LoadedChannelsAgree(samples: seq<real>, wave: nat -> real, frame: nat)
    requires |samples| == 2 * LoadedFrames && frame < LoadedFrames
    requires forall k :: 0 <= k < |samples| ==> samples[k] == wave(k / 2)
    ensures samples[2 * frame] == samples[2 * frame + 1]
  {
    assert (2 * frame) / 2 == frame && (2 * frame + 1) / 2 == frame;
  }
}
