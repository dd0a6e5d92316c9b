/** The channel adapter in the form of the source: maps updated in place, by loops that visit
    them in key order. Every method refines one step of the state machine. */
module SoftbusChannelAdapters {
  import opened Errno
  import opened Strings
  import opened SessionKeys
  import opened ChannelAdapter

  lemma FilterFront(ks: seq<string>, p: string -> bool)
    requires ks != []
    ensures Filter(ks, p) == (if p(ks[0]) then [ks[0]] else []) + Filter(ks[1..], p)
  {
    FilterConcat([ks[0]], ks[1..], p);
    assert ks == [ks[0]] + ks[1..];
    assert [ks[0]][..0] == [];
  }

  /** One more key visited by a loop that starts threads. */
  lemma SpawnStep(before: seq<Thread>, keys: seq<string>, i: nat, p: string -> bool, event: Event)
    requires i < |keys|
    ensures before + Spawn(Filter(keys[..i + 1], p), event)
         == before + Spawn(Filter(keys[..i], p), event) + (if p(keys[i]) then [Thread(keys[i], event)] else [])
  {
    assert keys[..i + 1][..i] == keys[..i];
  }

  lemma SpawnClosedStep(before: seq<Thread>, keys: seq<string>, i: nat, p: string -> bool, peer: string)
    requires i < |keys|
    ensures before + SpawnClosed(Filter(keys[..i + 1], p), peer)
         == before + SpawnClosed(Filter(keys[..i], p), peer)
            + (if p(keys[i]) then [Thread(keys[i], Event(ChannelClosed, OwnerOf(keys[i]), peer))] else [])
  {
    assert keys[..i + 1][..i] == keys[..i];
  }

  /** One more key pointed at the new id. */
  lemma RemapStep(ids: map<string, int>, keys: seq<string>, i: nat, p: string -> bool, id: int)
    requires i < |keys|
    ensures Remapped(ids, Filter(keys[..i + 1], p), id)
         == if p(keys[i]) then InsertNew(Remapped(ids, Filter(keys[..i], p), id) - {keys[i]}, keys[i], id)
            else Remapped(ids, Filter(keys[..i], p), id)
  {
    assert keys[..i + 1][..i] == keys[..i];
  }

  /** The part of the table that remains when the first `i` keys were visited. */
  ghost function Remaining(ids: map<string, int>, keys: seq<string>, i: nat, id: int): map<string, int>
    requires i <= |keys|
  {
    map k | k in ids && !(k in keys[..i] && ids[k] == id) :: ids[k]
  }

  lemma RemainingStep(ids: map<string, int>, keys: seq<string>, i: nat, id: int)
    requires i < |keys| && Distinct(keys) && keys[i] in ids
    ensures keys[i] in Remaining(ids, keys, i, id) && Remaining(ids, keys, i, id)[keys[i]] == ids[keys[i]]
    ensures Remaining(ids, keys, i + 1, id)
         == if ids[keys[i]] == id then Remaining(ids, keys, i, id) - {keys[i]} else Remaining(ids, keys, i, id)
  {
    assert keys[..i + 1] == keys[..i] + [keys[i]];
  }

  lemma RemainingAll(ids: map<string, int>, id: int)
    ensures var keys := InOrder(ids.Keys);
      Remaining(ids, keys, |keys|, id) == map k | k in ids && ids[k] != id :: ids[k]
  {
    var keys := InOrder(ids.Keys);
    assert keys[..|keys|] == keys;
  }

  /** One more key visited by the loop that hands on a stream. */
  lemma StreamStep(sv: Served, keys: seq<string>, i: nat, p: string -> bool, data: nat)
    requires i < |keys|
    ensures !p(keys[i]) ==> Filter(keys[i..], p) == Filter(keys[i + 1..], p)
    ensures p(keys[i]) ==>
      StreamTo(Inserting, sv, Filter(keys[i..], p), data) ==
        var listener := ListenerOf(sv.listeners, keys[i]);
        var touched := Touch(Inserting, sv.listeners, keys[i]);
        if listener == Null then Served(touched, sv.calls)
        else StreamTo(Inserting, Served(touched, sv.calls + [OnStreamReceived(listener.id, data)]),
                      Filter(keys[i + 1..], p), data)
  {
    FilterFront(keys[i..], p);
    assert keys[i..][1..] == keys[i + 1..];
    if p(keys[i]) {
      assert Filter(keys[i..], p)[1..] == Filter(keys[i + 1..], p);
    } else {
      assert [] + Filter(keys[i + 1..], p) == Filter(keys[i + 1..], p);
    }
  }

  /** Visits the map in key order and erases the first key in which `pattern` occurs. */
  method EraseFirstMatch(m: map<string, int>, pattern: string) returns (m': map<string, int>)
    ensures m' == EraseFirst(m, InOrder(m.Keys), pattern)
  {
    var keys := InOrder(m.Keys);
    m' := m;
    var i := 0;
    while i < |keys|
      invariant 0 <= i <= |keys| && m' == m
      invariant EraseFirst(m, keys[i..], pattern) == EraseFirst(m, keys, pattern)
    {
      assert keys[i..][0] == keys[i] && keys[i..][1..] == keys[i + 1..];
      if Contains(keys[i], pattern) {
        m' := m' - {keys[i]};
        return;
      }
      i := i + 1;
    }
  }

  class SoftbusChannelAdapter {
    const sessionTable: map<string, string>
    var serverMap: map<string, int>
    var devId2SessIdMap: map<string, int>
    var listenerMap: map<string, Listener>
    var timeSyncSessNames: set<string>
    ghost var threads: seq<Thread>
    ghost var calls: seq<Call>

    ghost function Value(): State
      reads this
    {
      State(sessionTable, serverMap, devId2SessIdMap, listenerMap, timeSyncSessNames, threads, calls)
    }

    constructor (table: map<string, string>)
      ensures Value() == Initial(table)
    {
      sessionTable := table;
      serverMap, devId2SessIdMap, listenerMap, timeSyncSessNames := map[], map[], map[], {};
      threads, calls := [], [];
    }

    method CreateChannelServer(pkgName: string, sessName: string, socketId: int, listen: int) returns (ret: int)
      modifies this
      ensures Done(Value(), ret) == CreateServer(old(Value()), pkgName, sessName, socketId, listen)
    {
      if pkgName == "" || sessName == "" {
        return ERR_DH_AVT_INVALID_PARAM;
      }
      if Key(pkgName, sessName) in serverMap {
        return DH_AVT_SUCCESS;
      }
      if socketId < 0 {
        return ERR_DH_AVT_SESSION_ERROR;
      }
      if listen != 0 {
        return ERR_DH_AVT_SESSION_ERROR;
      }
      serverMap := InsertNew(serverMap, Key(pkgName, sessName), socketId);
      return DH_AVT_SUCCESS;
    }

    method RemoveChannelServer(pkgName: string, sessName: string) returns (ret: int)
      modifies this
      ensures Done(Value(), ret) == RemoveServer(old(Value()), pkgName, sessName)
    {
      if pkgName == "" || sessName == "" {
        return ERR_DH_AVT_INVALID_PARAM;
      }
      serverMap := EraseFirstMatch(serverMap, Key(pkgName, sessName));
      devId2SessIdMap := EraseFirstMatch(devId2SessIdMap, sessName);
      return DH_AVT_SUCCESS;
    }

    /** Starts a thread for every live listener key of the session. */
    method SendEventChannelOpened(sessName: string, peerDevId: string)
      modifies this`threads
      ensures threads == old(threads)
        + Spawn(LiveKeys(listenerMap, sessName), Event(ChannelOpened, sessName, peerDevId))
    {
      var keys := InOrder(listenerMap.Keys);
      ghost var p := IsLive(listenerMap, sessName);
      for i := 0 to |keys|
        invariant threads == old(threads) + Spawn(Filter(keys[..i], p), Event(ChannelOpened, sessName, peerDevId))
      {
        SpawnStep(old(threads), keys, i, p, Event(ChannelOpened, sessName, peerDevId));
        if Contains(keys[i], sessName) && listenerMap[keys[i]] != Null {
          threads := threads + [Thread(keys[i], Event(ChannelOpened, sessName, peerDevId))];
        }
      }
      assert keys[..|keys|] == keys;
    }

    method OpenSoftbusChannel(mySessName: string, peerSessName: string, peerDevId: string, socketId: int, bind: int)
      returns (ret: int)
      modifies this`devId2SessIdMap, this`threads
      ensures Done(Value(), ret) == OpenChannel(old(Value()), mySessName, peerSessName, peerDevId, socketId, bind)
    {
      if mySessName == "" || peerSessName == "" || peerDevId == "" {
        return ERR_DH_AVT_INVALID_PARAM;
      }
      var existSessId := SessIdOf(devId2SessIdMap, mySessName, peerDevId);
      if existSessId > 0 {
        return ERR_DH_AVT_SESSION_HAS_OPENED;
      }
      if socketId < 0 {
        return ERR_DH_AVT_SESSION_ERROR;
      }
      if bind != DH_AVT_SUCCESS {
        return ERR_DH_AVT_SESSION_ERROR;
      }
      devId2SessIdMap := InsertNew(devId2SessIdMap, Key(mySessName, peerDevId), socketId);
      SendEventChannelOpened(mySessName, peerDevId);
      assert listenerMap == old(listenerMap);
      return DH_AVT_SUCCESS;
    }

    method CloseSoftbusChannel(sessName: string, peerDevId: string) returns (ret: int)
      modifies this
      ensures Done(Value(), ret) == CloseChannel(old(Value()), sessName, peerDevId)
    {
      if sessName == "" || peerDevId == "" {
        return ERR_DH_AVT_INVALID_PARAM;
      }
      devId2SessIdMap := devId2SessIdMap - {Key(sessName, peerDevId)};
      return DH_AVT_SUCCESS;
    }

    method RegisterChannelListener(sessName: string, peerDevId: string, listener: Listener) returns (ret: int)
      modifies this
      ensures Done(Value(), ret) == Register(old(Value()), sessName, peerDevId, listener)
    {
      if sessName == "" || peerDevId == "" || listener == Null {
        return ERR_DH_AVT_INVALID_PARAM;
      }
      listenerMap := listenerMap[Key(sessName, peerDevId) := listener];
      return DH_AVT_SUCCESS;
    }

    method UnRegisterChannelListener(sessName: string, peerDevId: string) returns (ret: int)
      modifies this
      ensures Done(Value(), ret) == Unregister(old(Value()), sessName, peerDevId)
    {
      if sessName == "" || peerDevId == "" {
        return ERR_DH_AVT_INVALID_PARAM;
      }
      listenerMap := listenerMap - {Key(sessName, peerDevId)};
      return DH_AVT_SUCCESS;
    }

    method StartDeviceTimeSync(sessName: string, peerDevId: string, started: int) returns (ret: int)
      modifies this
      ensures Done(Value(), ret) == StartTimeSync(old(Value()), sessName, peerDevId, started)
    {
      if peerDevId == "" {
        return ERR_DH_AVT_INVALID_PARAM;
      }
      if started != 0 {
        return ERR_DH_AVT_TIME_SYNC_FAILED;
      }
      timeSyncSessNames := timeSyncSessNames + {Key(sessName, peerDevId)};
      return DH_AVT_SUCCESS;
    }

    method StopDeviceTimeSync(sessName: string, peerDevId: string, stopped: int) returns (ret: int)
      modifies this
      ensures Done(Value(), ret) == StopTimeSync(old(Value()), sessName, peerDevId, stopped)
    {
      if peerDevId == "" {
        return ERR_DH_AVT_INVALID_PARAM;
      }
      if stopped != 0 {
        return ERR_DH_AVT_TIME_SYNC_FAILED;
      }
      timeSyncSessNames := timeSyncSessNames - {Key(sessName, peerDevId)};
      return DH_AVT_SUCCESS;
    }

    /** The device of the first key with that id, skipping keys that name none and those of
        the special device. */
    method GetPeerDevIdBySessId(sessionId: int) returns (dev: string)
      ensures dev == PeerOf(devId2SessIdMap, sessionId)
    {
      var keys := InOrder(devId2SessIdMap.Keys);
      ghost var p := HasId(devId2SessIdMap, sessionId);
      for i := 0 to |keys|
        invariant FirstDevice(Filter(keys[i..], p)) == PeerOf(devId2SessIdMap, sessionId)
      {
        FilterFront(keys[i..], p);
        assert keys[i..][1..] == keys[i + 1..];
        if devId2SessIdMap[keys[i]] != sessionId {
          assert [] + Filter(keys[i + 1..], p) == Filter(keys[i + 1..], p);
          continue;
        }
        assert Filter(keys[i..], p)[1..] == Filter(keys[i + 1..], p);
        var position := LastBar(keys[i]);
        if position < 0 {
          continue;
        }
        dev := keys[i][position + 1..];
        if dev != AV_TRANS_SPECIAL_DEVICE_ID {
          return;
        }
      }
      return "";
    }

    /** Starts a thread for every live listener key of the session, and points the key at
        the new id: erased first, because inserting does not overwrite. */
    method RemapListeners(mySessionName: string, sessionId: int, peerDevId: string)
      modifies this`threads, this`devId2SessIdMap
      ensures threads == old(threads)
        + Spawn(LiveKeys(listenerMap, mySessionName), Event(ChannelOpened, mySessionName, peerDevId))
      ensures devId2SessIdMap == Remapped(old(devId2SessIdMap), LiveKeys(listenerMap, mySessionName), sessionId)
    {
      var keys := InOrder(listenerMap.Keys);
      ghost var p := IsLive(listenerMap, mySessionName);
      ghost var event := Event(ChannelOpened, mySessionName, peerDevId);
      assert keys[..0] == [];
      for i := 0 to |keys|
        invariant threads == old(threads) + Spawn(Filter(keys[..i], p), event)
        invariant devId2SessIdMap == Remapped(old(devId2SessIdMap), Filter(keys[..i], p), sessionId)
      {
        SpawnStep(old(threads), keys, i, p, event);
        RemapStep(old(devId2SessIdMap), keys, i, p, sessionId);
        if Contains(keys[i], mySessionName) && listenerMap[keys[i]] != Null {
          threads := threads + [Thread(keys[i], event)];
          devId2SessIdMap := devId2SessIdMap - {keys[i]};
          devId2SessIdMap := InsertNew(devId2SessIdMap, keys[i], sessionId);
        }
      }
      assert keys[..|keys|] == keys;
    }

    method OnSoftbusChannelOpened(peerSessionName: string, sessionId: int, peerDevId: string) returns (ret: int)
      modifies this
      ensures Done(Value(), ret) == ChannelOpenedBy(old(Value()), peerSessionName, sessionId, peerDevId)
    {
      if peerSessionName == "" || peerDevId == "" {
        return ERR_DH_AVT_INVALID_PARAM;
      }
      var mySessionName := if peerSessionName in sessionTable then sessionTable[peerSessionName] else "";
      if mySessionName == "" {
        return ERR_DH_AVT_INVALID_PARAM;
      }
      RemapListeners(mySessionName, sessionId, peerDevId);
      if Key(mySessionName, peerDevId) !in devId2SessIdMap {
        devId2SessIdMap := InsertNew(devId2SessIdMap, Key(mySessionName, peerDevId), sessionId);
      }
      return DH_AVT_SUCCESS;
    }

    /** Erases the keys with that id while visiting the table, starting a thread for each. */
    method EraseSession(sessionId: int, peerDevId: string)
      modifies this`threads, this`devId2SessIdMap
      ensures threads == old(threads) + SpawnClosed(KeysOf(old(devId2SessIdMap), sessionId), peerDevId)
      ensures devId2SessIdMap
        == map k | k in old(devId2SessIdMap) && old(devId2SessIdMap)[k] != sessionId :: old(devId2SessIdMap)[k]
    {
      var keys := InOrder(devId2SessIdMap.Keys);
      ghost var ids := devId2SessIdMap;
      ghost var p := HasId(ids, sessionId);
      assert keys[..0] == [];
      for i := 0 to |keys|
        invariant threads == old(threads) + SpawnClosed(Filter(keys[..i], p), peerDevId)
        invariant devId2SessIdMap == Remaining(ids, keys, i, sessionId)
      {
        SpawnClosedStep(old(threads), keys, i, p, peerDevId);
        RemainingStep(ids, keys, i, sessionId);
        if devId2SessIdMap[keys[i]] == sessionId {
          threads := threads + [Thread(keys[i], Event(ChannelClosed, OwnerOf(keys[i]), peerDevId))];
          devId2SessIdMap := devId2SessIdMap - {keys[i]};
        }
      }
      assert keys[..|keys|] == keys;
      RemainingAll(ids, sessionId);
    }

    method OnSoftbusChannelClosed(sessionId: int)
      modifies this
      ensures Value() == ChannelClosedBy(old(Value()), sessionId)
    {
      var peerDevId := GetPeerDevIdBySessId(sessionId);
      EraseSession(sessionId, peerDevId);
    }

    /** Starts a thread for every key with that id. */
    method SendEventToSession(sessionId: int, event: Event)
      modifies this`threads
      ensures threads == old(threads) + Spawn(KeysOf(devId2SessIdMap, sessionId), event)
    {
      var keys := InOrder(devId2SessIdMap.Keys);
      ghost var p := HasId(devId2SessIdMap, sessionId);
      for i := 0 to |keys|
        invariant threads == old(threads) + Spawn(Filter(keys[..i], p), event)
      {
        SpawnStep(old(threads), keys, i, p, event);
        if devId2SessIdMap[keys[i]] == sessionId {
          threads := threads + [Thread(keys[i], event)];
        }
      }
      assert keys[..|keys|] == keys;
    }

    method OnSoftbusBytesReceived(sessionId: int, data: string)
      modifies this
      ensures Value() == BytesReceived(old(Value()), sessionId, data)
    {
      if |data| == 0 || |data| > MAX_RECV_DATA_LEN {
        return;
      }
      var peerDevId := GetPeerDevIdBySessId(sessionId);
      SendEventToSession(sessionId, Event(DataReceived, data, peerDevId));
    }

    /** A lookup by `operator[]`. */
    method Lookup(key: string) returns (listener: Listener)
      modifies this`listenerMap
      ensures listener == ListenerOf(old(listenerMap), key)
      ensures listenerMap == Touch(Inserting, old(listenerMap), key)
    {
      if key !in listenerMap {
        listenerMap := listenerMap[key := Null];
      }
      listener := listenerMap[key];
    }

    /** Hands the stream to the listener of one key, if there is one. */
    method HandTo(key: string, data: nat) returns (found: bool)
      modifies this`listenerMap, this`calls
      ensures var listener := ListenerOf(old(listenerMap), key);
        && listenerMap == Touch(Inserting, old(listenerMap), key) && found == (listener != Null)
        && calls == if found then old(calls) + [OnStreamReceived(listener.id, data)] else old(calls)
    {
      var listener := Lookup(key);
      if listener == Null {
        return false;
      }
      calls := calls + [OnStreamReceived(listener.id, data)];
      return true;
    }

    /** Hands the stream to the listeners of the keys with that id. */
    method HandOnStream(sessionId: int, data: nat)
      modifies this`listenerMap, this`calls
      ensures Served(listenerMap, calls)
           == StreamTo(Inserting, Served(old(listenerMap), old(calls)), KeysOf(devId2SessIdMap, sessionId), data)
    {
      var keys := InOrder(devId2SessIdMap.Keys);
      ghost var p := HasId(devId2SessIdMap, sessionId);
      ghost var goal := StreamTo(Inserting, Served(listenerMap, calls), Filter(keys, p), data);
      for i := 0 to |keys|
        invariant StreamTo(Inserting, Served(listenerMap, calls), Filter(keys[i..], p), data) == goal
      {
        StreamStep(Served(listenerMap, calls), keys, i, p, data);
        if devId2SessIdMap[keys[i]] == sessionId {
          var found := HandTo(keys[i], data);
          if !found {
            return;
          }
        }
      }
    }

    method OnSoftbusStreamReceived(sessionId: int, data: nat)
      modifies this
      ensures Value() == StreamReceived(Inserting, old(Value()), sessionId, data)
    {
      HandOnStream(sessionId, data);
    }

    /** Calls the listeners of the given keys, where there are any. */
    method DeliverToAll(keys: seq<string>, event: Event)
      modifies this`listenerMap, this`calls
      ensures Served(listenerMap, calls) == DeliverAll(Inserting, Served(old(listenerMap), old(calls)), keys, event)
    {
      for i := 0 to |keys|
        invariant Served(listenerMap, calls)
               == DeliverAll(Inserting, Served(old(listenerMap), old(calls)), keys[..i], event)
      {
        assert keys[..i + 1][..i] == keys[..i];
        var listener := Lookup(keys[i]);
        if listener != Null {
          calls := calls + [OnChannelEvent(listener.id, event)];
        }
      }
      assert keys[..|keys|] == keys;
    }

    method OnSoftbusTimeSyncResult(result: int, millisecond: string, targetDevId: string)
      modifies this
      ensures Value() == TimeSynced(Inserting, old(Value()), result, millisecond, targetDevId)
    {
      if result == 0 {
        return;
      }
      DeliverToAll(InOrder(timeSyncSessNames), Event(TimeSyncResult, millisecond, targetDevId));
    }

    /** The body of the `i`-th detached thread, which is then gone. */
    method SendChannelEvent(ghost i: nat, sessName: string, event: Event)
      requires i < |threads| && threads[i] == Thread(sessName, event)
      modifies this
      ensures Value() == RunThread(Inserting, old(Value()), i)
    {
      threads := threads[..i] + threads[i + 1..];
      var listener := Lookup(sessName);
      if listener == Null {
        return;
      }
      calls := calls + [OnChannelEvent(listener.id, event)];
    }
  }
}
