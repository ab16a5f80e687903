/**
 * The live-streams hook (`useStreams`): the streams joined with the
 * broadcaster their stream key belongs to, through two lookup tables built
 * from the stream-key and broadcaster lists. The three lists are inputs
 * (the polling fetches that deliver them are not part of this model); a
 * list that has not arrived is `None`.
 */
module UseStreams {
  import opened Wrappers
  import opened ApiTypes

  /** `p` is the last pair with key `k`. */
  predicate IsLastFor<V>(pairs: seq<(string, V)>, i: int, k: string)
    requires 0 <= i < |pairs|
  {
    pairs[i].0 == k && forall j :: i < j < |pairs| ==> pairs[j].0 != k
  }

  /** `new Map(pairs)`: the pairs entered in order, so a later pair overwrites an earlier one. */
  function MapFromPairs<V>(pairs: seq<(string, V)>): map<string, V> {
    if pairs == [] then map[]
    else MapFromPairs(pairs[..|pairs| - 1])[pairs[|pairs| - 1].0 := pairs[|pairs| - 1].1]
  }

  /** The map has exactly the keys that occur in the pairs. */
  lemma {:induction false} MapFromPairsKeys<V>(pairs: seq<(string, V)>, k: string)
    ensures k in MapFromPairs(pairs) <==> exists i :: 0 <= i < |pairs| && pairs[i].0 == k
  {
    if pairs != [] {
      var n := |pairs| - 1;
      var prefix := pairs[..n];
      MapFromPairsKeys(prefix, k);
      if exists i :: 0 <= i < |pairs| && pairs[i].0 == k {
        var i :| 0 <= i < |pairs| && pairs[i].0 == k;
        if i < n { assert prefix[i] == pairs[i]; }
      }
      if k in MapFromPairs(prefix) {
        var i :| 0 <= i < |prefix| && prefix[i].0 == k;
        assert pairs[i] == prefix[i];
      }
    }
  }

  /** The value under a key is that of the last pair with the key. */
  lemma {:induction false} MapFromPairsLastWins<V>(pairs: seq<(string, V)>, i: int)
    requires 0 <= i < |pairs| && IsLastFor(pairs, i, pairs[i].0)
    ensures pairs[i].0 in MapFromPairs(pairs) && MapFromPairs(pairs)[pairs[i].0] == pairs[i].1
  {
    var n := |pairs| - 1;
    if i < n {
      var prefix := pairs[..n];
      assert prefix[i] == pairs[i];
      assert IsLastFor(prefix, i, prefix[i].0);
      MapFromPairsLastWins(prefix, i);
    }
  }

  /** Every key of the map came with its value in some pair. */
  lemma {:induction false} MapFromPairsValues<V>(pairs: seq<(string, V)>, k: string)
    requires k in MapFromPairs(pairs)
    ensures exists i :: 0 <= i < |pairs| && pairs[i] == (k, MapFromPairs(pairs)[k])
  {
    MapFromPairsKeys(pairs, k);
    var i :| 0 <= i < |pairs| && pairs[i].0 == k;
    var last := LastIndex(pairs, i, k);
    MapFromPairsLastWins(pairs, last);
    assert pairs[last] == (k, MapFromPairs(pairs)[k]);
  }

  /** The index of the last pair with key `k`, at or after `i`. */
  lemma {:induction false} LastIndex<V>(pairs: seq<(string, V)>, i: int, k: string) returns (last: int)
    requires 0 <= i < |pairs| && pairs[i].0 == k
    ensures i <= last < |pairs| && IsLastFor(pairs, last, k)
    decreases |pairs| - i
  {
    if IsLastFor(pairs, i, k) {
      last := i;
    } else {
      var j :| i < j < |pairs| && pairs[j].0 == k;
      last := LastIndex(pairs, j, k);
    }
  }

  /** `streamKeyToBroadcasterId`: stream-key id to the id of its broadcaster. */
  function KeyToBroadcasterId(keys: seq<StreamKey>): map<string, string> {
    MapFromPairs(KeyPairs(keys))
  }

  /** `[sk.id, sk.broadcaster_id]` for each stream key. */
  function KeyPairs(keys: seq<StreamKey>): (pairs: seq<(string, string)>)
    ensures |pairs| == |keys|
    ensures forall i :: 0 <= i < |keys| ==> pairs[i] == (keys[i].id, keys[i].broadcaster_id)
  {
    seq(|keys|, i requires 0 <= i < |keys| => (keys[i].id, keys[i].broadcaster_id))
  }

  /** A stream key is found under its id with its broadcaster id, unless a later key reuses the id. */
  lemma KeyMapHoldsLastKey(keys: seq<StreamKey>, i: int)
    requires 0 <= i < |keys|
    requires forall j :: i < j < |keys| ==> keys[j].id != keys[i].id
    ensures keys[i].id in KeyToBroadcasterId(keys)
    ensures KeyToBroadcasterId(keys)[keys[i].id] == keys[i].broadcaster_id
  {
    var pairs := KeyPairs(keys);
    assert IsLastFor(pairs, i, pairs[i].0);
    MapFromPairsLastWins(pairs, i);
  }

  /** `broadcasterById`: broadcaster id to broadcaster. */
  function BroadcasterById(broadcasters: seq<Broadcaster>): map<string, Broadcaster> {
    MapFromPairs(seq(|broadcasters|, i requires 0 <= i < |broadcasters| => (broadcasters[i].id, broadcasters[i])))
  }

  /** Each broadcaster is filed under its own id, and only listed broadcasters are. */
  lemma BroadcasterByIdIsFiledById(broadcasters: seq<Broadcaster>, id: string)
    requires id in BroadcasterById(broadcasters)
    ensures BroadcasterById(broadcasters)[id].id == id
    ensures BroadcasterById(broadcasters)[id] in broadcasters
  {
    var pairs := seq(|broadcasters|, i requires 0 <= i < |broadcasters| => (broadcasters[i].id, broadcasters[i]));
    MapFromPairsValues(pairs, id);
    var i :| 0 <= i < |pairs| && pairs[i] == (id, BroadcasterById(broadcasters)[id]);
    assert pairs[i].1 == broadcasters[i];
  }

  /**
   * The broadcaster of one stream: through the key's broadcaster id, when
   * the key is known and the id non-empty, to the broadcaster with that id.
   */
  function BroadcasterOf(s: Stream, keyToBroadcaster: map<string, string>, byId: map<string, Broadcaster>): (r: Option<Broadcaster>)
    ensures r.None? <==> s.stream_key_id !in keyToBroadcaster
                         || keyToBroadcaster[s.stream_key_id] == ""
                         || keyToBroadcaster[s.stream_key_id] !in byId
    ensures r.Some? ==> r.value == byId[keyToBroadcaster[s.stream_key_id]]
  {
    if s.stream_key_id in keyToBroadcaster && keyToBroadcaster[s.stream_key_id] != ""
       && keyToBroadcaster[s.stream_key_id] in byId
    then Some(byId[keyToBroadcaster[s.stream_key_id]])
    else None
  }

  /**
   * `streams`: every stream, in order, with its broadcaster; nothing
   * before the stream list has arrived.
   */
  function JoinStreams(streams: Option<StreamsResponse>, keys: Option<StreamKeysResponse>,
                       broadcasters: Option<BroadcastersResponse>): (r: seq<StreamWithBroadcaster>)
    ensures streams.None? ==> r == []
    ensures streams.Some? ==> |r| == |streams.value.streams|
    ensures streams.Some? ==> forall i :: 0 <= i < |r| ==> r[i].stream == streams.value.streams[i]
    ensures streams.Some? ==> forall i :: 0 <= i < |r| ==>
      r[i].broadcaster == BroadcasterOf(streams.value.streams[i],
                                        KeyToBroadcasterId(if keys.Some? then keys.value.stream_keys else []),
                                        BroadcasterById(if broadcasters.Some? then broadcasters.value.broadcasters else []))
  {
    var list := if streams.Some? then streams.value.streams else [];
    var keyMap := KeyToBroadcasterId(if keys.Some? then keys.value.stream_keys else []);
    var byId := BroadcasterById(if broadcasters.Some? then broadcasters.value.broadcasters else []);
    seq(|list|, i requires 0 <= i < |list| => StreamWithBroadcaster(list[i], BroadcasterOf(list[i], keyMap, byId)))
  }

  /**
   * A stream's broadcaster, when there is one, is a listed broadcaster
   * whose id is the broadcaster id recorded for the stream's key.
   */
  lemma JoinedBroadcasterMatchesKey(streams: StreamsResponse, keys: StreamKeysResponse,
                                    broadcasters: BroadcastersResponse, i: int)
    requires 0 <= i < |streams.streams|
    requires JoinStreams(Some(streams), Some(keys), Some(broadcasters))[i].broadcaster.Some?
    ensures var b := JoinStreams(Some(streams), Some(keys), Some(broadcasters))[i].broadcaster.value;
      var keyMap := KeyToBroadcasterId(keys.stream_keys);
      streams.streams[i].stream_key_id in keyMap
      && b.id == keyMap[streams.streams[i].stream_key_id]
      && b in broadcasters.broadcasters
  {
    var keyMap := KeyToBroadcasterId(keys.stream_keys);
    var byId := BroadcasterById(broadcasters.broadcasters);
    var s := streams.streams[i];
    assert JoinStreams(Some(streams), Some(keys), Some(broadcasters))[i].broadcaster == BroadcasterOf(s, keyMap, byId);
    BroadcasterByIdIsFiledById(broadcasters.broadcasters, keyMap[s.stream_key_id]);
  }

  /**
   * A stream whose key is listed (last) with a non-empty broadcaster id,
   * and whose broadcaster is listed (last) under that id, is joined with
   * that broadcaster.
   */
  lemma ListedKeyGetsItsBroadcaster(streams: StreamsResponse, keys: StreamKeysResponse,
                                    broadcasters: BroadcastersResponse, i: int, j: int, k: int)
    requires 0 <= i < |streams.streams|
    requires 0 <= j < |keys.stream_keys| && keys.stream_keys[j].id == streams.streams[i].stream_key_id
    requires forall j' :: j < j' < |keys.stream_keys| ==> keys.stream_keys[j'].id != keys.stream_keys[j].id
    requires keys.stream_keys[j].broadcaster_id != ""
    requires 0 <= k < |broadcasters.broadcasters| && broadcasters.broadcasters[k].id == keys.stream_keys[j].broadcaster_id
    requires forall k' :: k < k' < |broadcasters.broadcasters| ==> broadcasters.broadcasters[k'].id != broadcasters.broadcasters[k].id
    ensures JoinStreams(Some(streams), Some(keys), Some(broadcasters))[i].broadcaster == Some(broadcasters.broadcasters[k])
  {
    var bs := broadcasters.broadcasters;
    KeyMapHoldsLastKey(keys.stream_keys, j);
    var pairs := seq(|bs|, n requires 0 <= n < |bs| => (bs[n].id, bs[n]));
    assert IsLastFor(pairs, k, pairs[k].0);
    MapFromPairsLastWins(pairs, k);
  }

  /** Without the stream-key list no stream has a broadcaster. */
  lemma NoKeysNoBroadcasters(streams: StreamsResponse, broadcasters: Option<BroadcastersResponse>, i: int)
    requires 0 <= i < |streams.streams|
    ensures JoinStreams(Some(streams), None, broadcasters)[i].broadcaster.None?
  {
    assert KeyPairs([]) == [];
    var byId := BroadcasterById(if broadcasters.Some? then broadcasters.value.broadcasters else []);
    assert JoinStreams(Some(streams), None, broadcasters)[i].broadcaster
      == BroadcasterOf(streams.streams[i], map[], byId);
  }

  /** `count`: the response's count, or 0 before it has arrived. */
  function Count(streams: Option<StreamsResponse>): (r: int)
    ensures streams.Some? ==> r == streams.value.count
    ensures streams.None? ==> r == 0
  {
    if streams.Some? then streams.value.count else 0
  }
}
