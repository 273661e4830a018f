/**
 * The application object: owns one channel registry, one transport and one
 * waveform visualizer for its whole life, and offers whole-session commands.
 * Play, stop and pause go first to the transport and then to the player of
 * every channel that has one.
 *
 * Channels may share a player, so a whole-session command can reach the same
 * player more than once. The contracts are stated per player, and they hold
 * because each player command gives the same result when repeated.
 */
module Application {
  import opened Numeric
  import T = Transport
  import P = Playback
  import opened Channels
  import opened Engine
  import opened Waveform

  /** The players attached to the channels of `chs`. */
  ghost function Players(chs: seq<SequencerChannel>): set<P.AudioPlayer>
    reads chs
  {
    set i | 0 <= i < |chs| && chs[i].player != null :: chs[i].player
  }

  /** A channel without a player adds no player. */
  lemma PlayersAppendUnattached(chs: seq<SequencerChannel>, c: SequencerChannel)
    requires c.player == null
    ensures Players(chs + [c]) == Players(chs)
  {
    var chs' := chs + [c];
    forall p | p in Players(chs')
      ensures p in Players(chs)
    {
      var i :| 0 <= i < |chs'| && chs'[i].player == p;
      assert chs'[i] == chs[i];
    }
    forall p | p in Players(chs)
      ensures p in Players(chs')
    {
      var i :| 0 <= i < |chs| && chs[i].player == p;
      assert chs'[i] == chs[i];
    }
  }

  /** The loop of PlayAll: Play on the player of each channel, in order. */
  method PlayEach(chs: seq<SequencerChannel>)
    requires forall p :: p in Players(chs) ==> p.Valid()
    modifies Players(chs)`state, Players(chs)`position
    ensures forall p :: p in Players(chs) ==>
              && p.Valid()
              && p.state == P.Playing && p.position == P.PlayPosition(old(p.position), p.Duration())
  {
    ghost var players := Players(chs);
    ghost var done: set<P.AudioPlayer> := {};
    for i := 0 to |chs|
      invariant done <= players
      invariant forall j :: 0 <= j < i && chs[j].player != null ==> chs[j].player in done
      invariant forall p :: p in players ==> p.Valid()
      invariant forall p :: p in done ==>
                  p.state == P.Playing && p.position == P.PlayPosition(old(p.position), p.Duration())
      invariant forall p :: p in players && p !in done ==> p.position == old(p.position)
    {
      var player := chs[i].player;
      if player != null {
        assert player in players;
        P.PlayPositionIdempotent(old(player.position), player.Duration());
        player.Play();
        done := done + {player};
      }
    }
  }

  /** The loop of StopAll: Stop on the player of each channel, in order. */
  method StopEach(chs: seq<SequencerChannel>)
    requires forall p :: p in Players(chs) ==> p.Valid()
    modifies Players(chs)`state, Players(chs)`position
    ensures forall p :: p in Players(chs) ==> p.Valid() && p.state == P.Stopped && p.position == 0
  {
    ghost var players := Players(chs);
    ghost var done: set<P.AudioPlayer> := {};
    for i := 0 to |chs|
      invariant done <= players
      invariant forall j :: 0 <= j < i && chs[j].player != null ==> chs[j].player in done
      invariant forall p :: p in players ==> p.Valid()
      invariant forall p :: p in done ==> p.state == P.Stopped && p.position == 0
    {
      var player := chs[i].player;
      if player != null {
        assert player in players;
        player.Stop();
        done := done + {player};
      }
    }
  }

  /** The loop of PauseAll: Pause on the player of each channel, in order. */
  method PauseEach(chs: seq<SequencerChannel>)
    requires forall p :: p in Players(chs) ==> p.Valid()
    modifies Players(chs)`state
    ensures forall p :: p in Players(chs) ==>
              && p.Valid()
              && p.state == if old(p.state) == P.Playing then P.Paused else old(p.state)
  {
    ghost var players := Players(chs);
    ghost var done: set<P.AudioPlayer> := {};
    for i := 0 to |chs|
      invariant done <= players
      invariant forall j :: 0 <= j < i && chs[j].player != null ==> chs[j].player in done
      invariant forall p :: p in players ==> p.Valid()
      invariant forall p :: p in done ==>
                  p.state == if old(p.state) == P.Playing then P.Paused else old(p.state)
      invariant forall p :: p in players && p !in done ==> p.state == old(p.state)
    {
      var player := chs[i].player;
      if player != null {
        assert player in players;
        player.Pause();
        done := done + {player};
      }
    }
  }

  class DAWApplication {
    const sequencer: SequencerEngine
    const transport: T.TransportControl
    const visualizer: WaveformVisualizer

    /** Each component keeps its own invariant, and every attached player is consistent. */
    ghost predicate Valid()
      reads this, sequencer, transport, visualizer, sequencer.channels, Players(sequencer.channels)
    {
      && sequencer.Valid() && transport.Valid() && visualizer.Valid()
      && forall p :: p in Players(sequencer.channels) ==> p.Valid()
    }

    /** Three new components: no channels, a stopped transport with its defaults, an empty visualizer. */
    constructor ()
      ensures Valid()
      ensures fresh(sequencer) && fresh(transport) && fresh(visualizer)
      ensures sequencer.channels == [] && sequencer.nextChannelId == 1
      ensures transport.state == T.Stopped && transport.notified == []
      ensures visualizer.samples == [] && visualizer.cache == []
    {
      sequencer := new SequencerEngine();
      transport := new T.TransportControl();
      visualizer := new WaveformVisualizer();
    }

    /** 44100 Hz, 120 BPM, 4/4, looping off; always reports true. */
    method Initialize() returns (ok: bool)
      requires Valid()
      modifies transport`sampleRate, transport`tempo, transport`numerator, transport`denominator, transport`loopEnabled
      ensures Valid()
      ensures ok
      ensures transport.sampleRate == 44100 && transport.tempo == 120.0
      ensures transport.numerator == 4 && transport.denominator == 4 && !transport.loopEnabled
    {
      transport.SetSampleRate(44100);
      transport.SetTempo(120.0);
      transport.SetTimeSignature(4, 4);
      transport.SetLoopEnabled(false);
      return true;
    }

    /** A new audio channel named `trackName`, carrying the next id. */
    method AddTrack(trackName: string) returns (c: SequencerChannel)
      requires Valid()
      modifies sequencer
      ensures Valid()
      ensures fresh(c) && c.name == trackName && c.kind == Audio && c.player == null
      ensures c.id == old(sequencer.nextChannelId)
      ensures sequencer.channels == old(sequencer.channels) + [c]
    {
      ghost var chs := sequencer.channels;
      c := sequencer.CreateChannel(trackName, Audio);
      PlayersAppendUnattached(chs, c);
    }

    /** Loads a player into the channel with id `channelId`; succeeds exactly when that channel exists. */
    method LoadAudioFile(channelId: nat, filePath: string, wave: nat -> real) returns (ok: bool)
      requires Valid()
      modifies (if channelId in sequencer.channelMap then {sequencer.channelMap[channelId]} else {})`player
      ensures Valid()
      ensures ok <==> channelId in Ids(sequencer.channels)
      ensures ok ==> sequencer.channelMap[channelId].player != null
      ensures ok ==> sequencer.channelMap[channelId].player.filePath == filePath
    {
      ghost var chs := sequencer.channels;
      ghost var target := sequencer.GetChannel(channelId);
      ok := sequencer.LoadAudioToChannel(channelId, filePath, wave);
      assert sequencer.Valid() && transport.Valid() && visualizer.Valid();
      assert sequencer.channels == chs;
      forall p | p in Players(chs)
        ensures p.Valid()
      {
        var i :| 0 <= i < |chs| && chs[i].player == p;
        if chs[i] != target {
          assert chs[i].player == old(chs[i].player);
          assert p in old(Players(chs));
        }
      }
    }

    /** Transport to PLAYING, then every attached player to PLAYING, rewound only if it stood at its end. */
    method PlayAll()
      requires Valid()
      modifies transport`state, transport`notified
      modifies Players(sequencer.channels)`state, Players(sequencer.channels)`position
      ensures Valid()
      ensures transport.state == T.Playing
      ensures transport.notified == old(transport.notified) + T.Notification(transport.callbackInstalled, T.Playing)
      ensures forall p :: p in Players(sequencer.channels) ==>
                p.state == P.Playing && p.position == P.PlayPosition(old(p.position), p.Duration())
    {
      ghost var chs := sequencer.channels;
      ghost var players := Players(chs);
      transport.Play();
      assert sequencer.channels == chs && Players(chs) == players;
      PlayEach(sequencer.channels);
      assert sequencer.channels == chs && Players(chs) == players;
      assert sequencer.Valid() && transport.Valid() && visualizer.Valid();
    }

    /** Transport to STOPPED, then every attached player to STOPPED at position 0. */
    method StopAll()
      requires Valid()
      modifies transport`state, transport`playhead, transport`notified
      modifies Players(sequencer.channels)`state, Players(sequencer.channels)`position
      ensures Valid()
      ensures transport.state == T.Stopped && transport.playhead == 0
      ensures transport.notified == old(transport.notified) + T.Notification(transport.callbackInstalled, T.Stopped)
      ensures forall p :: p in Players(sequencer.channels) ==> p.state == P.Stopped && p.position == 0
    {
      ghost var chs := sequencer.channels;
      ghost var players := Players(chs);
      transport.Stop();
      assert sequencer.channels == chs && Players(chs) == players;
      StopEach(sequencer.channels);
      assert sequencer.channels == chs && Players(chs) == players;
      assert sequencer.Valid() && transport.Valid() && visualizer.Valid();
    }

    /** Transport paused if it was playing, then every attached player that was PLAYING becomes PAUSED. */
    method PauseAll()
      requires Valid()
      modifies transport`state, transport`notified
      modifies Players(sequencer.channels)`state
      ensures Valid()
      ensures transport.state == T.PausedFrom(old(transport.state))
      ensures transport.notified == old(transport.notified) +
                (if old(transport.state) == T.Playing then T.Notification(transport.callbackInstalled, T.Paused) else [])
      ensures forall p :: p in Players(sequencer.channels) ==>
                p.state == if old(p.state) == P.Playing then P.Paused else old(p.state)
    {
      ghost var chs := sequencer.channels;
      ghost var players := Players(chs);
      transport.Pause();
      assert sequencer.channels == chs && Players(chs) == players;
      PauseEach(sequencer.channels);
      assert sequencer.channels == chs && Players(chs) == players;
      assert sequencer.Valid() && transport.Valid() && visualizer.Valid();
    }

    /** The number of channels in the registry. */
    function GetTrackCount(): (n: nat)
      reads this, sequencer
      requires sequencer.Valid()
      ensures n == |sequencer.channels| && n == |sequencer.channelMap|
    {
      sequencer.GetChannelCount()
    }
  }
}
