/**
 * A sequencer channel: a named, typed slot with a fixed id, clamped volume
 * and pan, mute and solo flags, and at most one attached audio player. The
 * source shares players between channels through shared pointers; here the
 * attachment is an object reference, so two channels may hold the same player.
 */
module Channels {
  import opened Numeric
  import opened Playback

  datatype ChannelType = Audio | Midi | Bus

  class SequencerChannel {
    const id: nat
    const kind: ChannelType
    var name: string
    var player: AudioPlayer?
    var volume: real
    var pan: real
    var muted: bool
    var solo: bool

    /** Stores the id, name and type; volume 1, pan 0, neither muted nor solo, no player. */
    constructor (channelId: nat, channelName: string, channelType: ChannelType := Audio)
      ensures id == channelId && name == channelName && kind == channelType
      ensures volume == 1.0 && pan == 0.0 && !muted && !solo && player == null
    {
      id := channelId;
      kind := channelType;
      name := channelName;
      player := null;
      volume := 1.0;
      pan := 0.0;
      muted := false;
      solo := false;
    }

    /** Renames the channel; the id and the type are constants and cannot change. */
    method SetChannelName(newName: string)
      modifies this`name
      ensures name == newName
    {
      name := newName;
    }

    /** Attaches `p` and reports true; a null player is refused and the current one kept. */
    method AssignAudioPlayer(p: AudioPlayer?) returns (ok: bool)
      modifies this`player
      ensures ok <==> p != null
      ensures player == if p != null then p else old(player)
      ensures HasAudioPlayer() <==> p != null || old(player) != null
    {
      if p != null {
        player := p;
        return true;
      }
      return false;
    }

    predicate HasAudioPlayer()
      reads this
    {
      player != null
    }

    /** Detaches the player, so that HasAudioPlayer no longer holds. */
    method RemoveAudioPlayer()
      modifies this`player
      ensures player == null && !HasAudioPlayer()
    {
      player := null;
    }

    /** Clamps the volume to `[0, 1]`. */
    method SetVolume(v: real)
      modifies this`volume
      ensures 0.0 <= volume <= 1.0
      ensures volume == Clamp(v, 0.0, 1.0)
    {
      volume := Clamp(v, 0.0, 1.0);
    }

    /** Clamps the pan to `[-1, 1]`. */
    method SetPan(p: real)
      modifies this`pan
      ensures -1.0 <= pan <= 1.0
      ensures pan == Clamp(p, -1.0, 1.0)
    {
      pan := Clamp(p, -1.0, 1.0);
    }

    method SetMuted(m: bool)
      modifies this`muted
      ensures muted == m
    {
      muted := m;
    }

    method SetSolo(s: bool)
      modifies this`solo
      ensures solo == s
    {
      solo := s;
    }
  }
}
