/**
 * The channel registry: channels kept in creation order in a vector and, at
 * the same time, in a map from id to channel. Ids come from a counter that
 * starts at 1, grows by one per created channel and is never wound back, so
 * an id is never issued twice.
 */
module Engine {
  import opened Numeric
  import opened Playback
  import opened Channels

  /** The ids of `chs`. */
  ghost function Ids(chs: seq<SequencerChannel>): set<nat>
  {
    set i | 0 <= i < |chs| :: chs[i].id
  }

  /** Ids grow strictly along the vector (creation order). */
  ghost predicate IdsIncreasing(chs: seq<SequencerChannel>)
  {
    forall i, j :: 0 <= i < j < |chs| ==> chs[i].id < chs[j].id
  }

  /** Strictly increasing ids are pairwise distinct, so there are as many ids as channels. */
  lemma {:induction false} IdsCount(chs: seq<SequencerChannel>)
    requires IdsIncreasing(chs)
    ensures |Ids(chs)| == |chs|
  {
    if chs != [] {
      var init := chs[..|chs| - 1];
      IdsCount(init);
      assert Ids(chs) == Ids(init) + {chs[|chs| - 1].id};
      assert chs[|chs| - 1].id !in Ids(init);
    }
  }

  lemma IdsAppend(chs: seq<SequencerChannel>, c: SequencerChannel)
    ensures Ids(chs + [c]) == Ids(chs) + {c.id}
  {
    var chs' := chs + [c];
    assert chs'[|chs|] == c;
    forall x | x in Ids(chs)
      ensures x in Ids(chs')
    {
      var i :| 0 <= i < |chs| && chs[i].id == x;
      assert chs'[i] == chs[i];
    }
  }

  /** Erasing position `k` removes exactly that channel's id and keeps the ids increasing. */
  lemma IdsRemove(chs: seq<SequencerChannel>, k: nat)
    requires IdsIncreasing(chs) && k < |chs|
    ensures IdsIncreasing(chs[..k] + chs[k + 1..])
    ensures Ids(chs[..k] + chs[k + 1..]) == Ids(chs) - {chs[k].id}
  {
    var rest := chs[..k] + chs[k + 1..];
    assert forall i :: 0 <= i < |rest| ==> rest[i] == if i < k then chs[i] else chs[i + 1];
    forall x | x in Ids(chs) - {chs[k].id}
      ensures x in Ids(rest)
    {
      var i :| 0 <= i < |chs| && chs[i].id == x;
      if i < k {
        assert rest[i].id == x;
      } else {
        assert rest[i - 1].id == x;
      }
    }
  }

  /**
   * Ids are increasing and below the counter, and the map holds exactly the
   * vector's channels keyed by their ids.
   */
  ghost predicate Registry(chs: seq<SequencerChannel>, m: map<nat, SequencerChannel>, next: nat)
  {
    && next >= 1
    && IdsIncreasing(chs)
    && (forall i :: 0 <= i < |chs| ==> 1 <= chs[i].id < next)
    && m.Keys == Ids(chs)
    && (forall i :: 0 <= i < |chs| ==> chs[i].id in m && m[chs[i].id] == chs[i])
  }

  /** Appending a channel that carries the counter's id, and advancing the counter, keeps the registry consistent. */
  lemma RegistryAppend(chs: seq<SequencerChannel>, m: map<nat, SequencerChannel>, next: nat, c: SequencerChannel)
    requires Registry(chs, m, next) && c.id == next
    ensures Registry(chs + [c], m[next := c], next + 1)
  {
    IdsAppend(chs, c);
    var chs' := chs + [c];
    assert forall i :: 0 <= i < |chs| ==> chs'[i] == chs[i];
    assert chs'[|chs|] == c;
  }

  /** Erasing the channel at `k` from both views keeps the registry consistent. */
  lemma RegistryRemove(chs: seq<SequencerChannel>, m: map<nat, SequencerChannel>, next: nat, k: nat)
    requires Registry(chs, m, next) && k < |chs|
    ensures Registry(chs[..k] + chs[k + 1..], m - {chs[k].id}, next)
    ensures Ids(chs[..k] + chs[k + 1..]) == Ids(chs) - {chs[k].id}
  {
    IdsRemove(chs, k);
    var rest := chs[..k] + chs[k + 1..];
    var m' := m - {chs[k].id};
    forall i | 0 <= i < |rest|
      ensures 1 <= rest[i].id < next && rest[i].id in m' && m'[rest[i].id] == rest[i]
    {
      var j := if i < k then i else i + 1;
      assert rest[i] == chs[j];
      assert chs[j].id != chs[k].id;
    }
    assert m'.Keys == Ids(rest);
  }

  class SequencerEngine {
    var channels: seq<SequencerChannel>
    var channelMap: map<nat, SequencerChannel>
    var nextChannelId: nat

    ghost predicate Valid()
      reads this
    {
      Registry(channels, channelMap, nextChannelId)
    }

    /** No channels; the first id handed out will be 1. */
    constructor ()
      ensures Valid()
      ensures channels == [] && channelMap == map[] && nextChannelId == 1
    {
      channels := [];
      channelMap := map[];
      nextChannelId := 1;
    }

    /** The registry's two views always hold the same number of channels. */
    lemma MapAndVectorAgreeInSize()
      requires Valid()
      ensures |channelMap| == |channels|
    {
      IdsCount(channels);
      assert channelMap.Keys == Ids(channels);
    }

    /**
     * A new channel carrying the counter's value as its id, appended to the
     * vector and entered in the map; the counter then moves on by one.
     */
    method CreateChannel(name: string, kind: ChannelType) returns (c: SequencerChannel)
      requires Valid()
      modifies this
      ensures Valid()
      ensures fresh(c)
      ensures c.id == old(nextChannelId) && c.name == name && c.kind == kind
      ensures c.volume == 1.0 && c.pan == 0.0 && !c.muted && !c.solo && c.player == null
      ensures nextChannelId == old(nextChannelId) + 1
      ensures channels == old(channels) + [c]
      ensures channelMap == old(channelMap)[c.id := c]
    {
      c := new SequencerChannel(nextChannelId, name, kind);
      RegistryAppend(channels, channelMap, nextChannelId, c);
      channels := channels + [c];
      channelMap := channelMap[nextChannelId := c];
      nextChannelId := nextChannelId + 1;
    }

    /** The channel with id `id`, or null when no channel has it. */
    function GetChannel(id: nat): (r: SequencerChannel?)
      reads this
      requires Valid()
      ensures r != null <==> id in Ids(channels)
      ensures r != null ==> r.id == id && r in channels
    {
      if id in channelMap then
        var c := channelMap[id];
        assert exists i :: 0 <= i < |channels| && channels[i].id == id;
        c
      else null
    }

    /** The earliest-created channel called `name`, or null when none is. */
    method GetChannelByName(name: string) returns (r: SequencerChannel?)
      ensures r == null ==> forall i :: 0 <= i < |channels| ==> channels[i].name != name
      ensures r != null ==>
                exists i :: 0 <= i < |channels| && channels[i] == r && r.name == name
                            && forall j :: 0 <= j < i ==> channels[j].name != name
    {
      for i := 0 to |channels|
        invariant forall j :: 0 <= j < i ==> channels[j].name != name
      {
        if channels[i].name == name {
          return channels[i];
        }
      }
      return null;
    }

    function GetChannelCount(): (n: nat)
      reads this
      requires Valid()
      ensures n == |channels| && n == |channelMap|
    {
      MapAndVectorAgreeInSize();
      |channels|
    }

    function GetChannelIdCounter(): (n: nat)
      reads this
      requires Valid()
      ensures n >= 1 && forall i :: 0 <= i < |channels| ==> channels[i].id < n
    {
      nextChannelId
    }

    /** Renames the channel with id `id` and reports true; an unknown id changes nothing. */
    method UpdateChannel(id: nat, newName: string) returns (ok: bool)
      requires Valid()
      modifies (if id in channelMap then {channelMap[id]} else {})`name
      ensures Valid()
      ensures ok <==> id in Ids(channels)
      ensures ok ==> channelMap[id].name == newName
    {
      var c := GetChannel(id);
      if c != null {
        c.SetChannelName(newName);
        return true;
      }
      return false;
    }

    /**
     * Removes the channel with id `id` from the vector (keeping the others'
     * order) and from the map, and reports true; an unknown id changes
     * nothing. The counter is never touched.
     */
    method DeleteChannel(id: nat) returns (ok: bool)
      requires Valid()
      modifies this`channels, this`channelMap
      ensures Valid()
      ensures ok <==> id in old(Ids(channels))
      ensures ok ==>
                exists k :: 0 <= k < |old(channels)| && old(channels)[k].id == id
                            && channels == old(channels)[..k] + old(channels)[k + 1..]
      ensures !ok ==> channels == old(channels)
      ensures channelMap == old(channelMap) - {id}
      ensures id !in Ids(channels)
    {
      var k := 0;
      while k < |channels| && channels[k].id != id
        invariant 0 <= k <= |channels|
        invariant forall j :: 0 <= j < k ==> channels[j].id != id
      {
        k := k + 1;
      }
      if k < |channels| {
        RegistryRemove(channels, channelMap, nextChannelId, k);
        channels := channels[..k] + channels[k + 1..];
        channelMap := channelMap - {id};
        ok := true;
      } else {
        assert id !in Ids(channels);
        ok := false;
      }
    }

    /** Empties both views; the counter keeps its value, so no id is reissued. */
    method DeleteAllChannels()
      requires Valid()
      modifies this`channels, this`channelMap
      ensures Valid()
      ensures channels == [] && channelMap == map[]
    {
      channels := [];
      channelMap := map[];
    }

    /**
     * Attaches a freshly loaded player to the channel with id `id`. Loading
     * always succeeds, so this succeeds exactly when the channel exists.
     */
    method LoadAudioToChannel(id: nat, path: string, wave: nat -> real) returns (ok: bool)
      requires Valid()
      modifies (if id in channelMap then {channelMap[id]} else {})`player
      ensures Valid()
      ensures ok <==> id in Ids(channels)
      ensures ok ==> var p := channelMap[id].player;
        p != null && fresh(p) && p.Valid() && p.filePath == path && p.Duration() == LoadedFrames
    {
      var c := GetChannel(id);
      if c != null {
        var p := new AudioPlayer();
        var loaded := p.LoadAudioFile(path, wave);
        if loaded {
          var _ := c.AssignAudioPlayer(p);
          return true;
        }
      }
      return false;
    }

    /** Attaches `p` to the channel with id `id`; a missing channel or a null player changes nothing. */
    method AssignPlayerToChannel(id: nat, p: AudioPlayer?) returns (ok: bool)
      requires Valid()
      modifies (if id in channelMap then {channelMap[id]} else {})`player
      ensures Valid()
      ensures ok <==> id in Ids(channels) && p != null
      ensures ok ==> channelMap[id].player == p
    {
      var c := GetChannel(id);
      if c != null && p != null {
        ok := c.AssignAudioPlayer(p);
        return;
      }
      return false;
    }
  }

  /** Two channels created in a row get consecutive ids, and both can be found by id. */
  method CreateTwoChannels(e: SequencerEngine) returns (a: SequencerChannel, b: SequencerChannel)
    requires e.Valid()
    modifies e
    ensures e.Valid()
    ensures b.id == a.id + 1 && a.id == old(e.nextChannelId)
    ensures e.GetChannel(a.id) == a && e.GetChannel(b.id) == b
  {
    a := e.CreateChannel("A", Audio);
    b := e.CreateChannel("B", Midi);
  }

  /** Deleting a channel and then creating one never brings the deleted id back. */
  method DeleteThenCreate(e: SequencerEngine, id: nat) returns (c: SequencerChannel)
    requires e.Valid()
    modifies e
    ensures e.Valid()
    ensures c.id !in old(Ids(e.channels))
    ensures id in old(Ids(e.channels)) ==> c.id != id
    ensures c.id == old(e.nextChannelId)
  {
    var _ := e.DeleteChannel(id);
    c := e.CreateChannel("new", Audio);
  }
}
