/** The control centre in the form of the source. */
module AVTransControlCenters {
  import opened Errno
  import opened SyncManager
  import opened AVSyncManagers
  import opened SoftbusChannelAdapters
  import opened Collections
  import opened ControlCenter
  import Adapter = ChannelAdapter

  /** Whether some engine of the map is bound to the device. */
  method IsDevIdUsed(engines: map<int, string>, peerDevId: string) returns (used: bool)
    ensures used <==> BoundTo(engines, peerDevId)
  {
    var left := engines.Keys;
    while left != {}
      invariant left <= engines.Keys
      invariant forall e :: e in engines && e !in left ==> engines[e] != peerDevId
      decreases |left|
    {
      ghost var some := SomeElement(left);
      var e :| e in left;
      if engines[e] == peerDevId {
        return true;
      }
      left := left - {e};
    }
    return false;
  }

  class AVTransControlCenter {
    const syncManager: AVSyncManager
    const adapter: SoftbusChannelAdapter
    var rootEngineId: int
    var initialized: bool
    var sessionName: string
    var connectedDevIds: seq<string>
    var engine2DevIdMap: map<int, string>
    var callbackMap: map<int, nat>
    ghost var issued: seq<int>
    ghost var opens: seq<Adapter.Event>
    ghost var closes: seq<string>

    ghost function Value(): Center
      reads this, syncManager, adapter
    {
      Center(rootEngineId, initialized, sessionName, connectedDevIds, engine2DevIdMap, callbackMap,
             syncManager.Value(), adapter.Value(), issued, opens, closes)
    }

    constructor (table: map<string, string>)
      ensures Value() == Initial(table) && fresh(syncManager) && fresh(adapter)
    {
      syncManager := new AVSyncManager();
      adapter := new SoftbusChannelAdapter(table);
      rootEngineId, initialized, sessionName := BASE_ENGINE_ID, false, "";
      connectedDevIds, engine2DevIdMap, callbackMap := [], map[], map[];
      issued, opens, closes := [], [], [];
    }

    method InitializeAVCenter(transRole: TransRole, answers: Answers) returns (ret: int, engineId: int)
      modifies this, adapter
      ensures (Done(Value(), ret), engineId) == Initialize(old(Value()), transRole, answers)
    {
      engineId := INVALID_ENGINE_ID;
      if transRole != AVSender && transRole != AVReceiver {
        return ERR_DH_AVT_INVALID_PARAM_VALUE, engineId;
      }
      if !initialized {
        ret := adapter.CreateChannelServer(PKG_NAME_DH_FWK, RECEIVER, answers.socket, answers.listen);
        if ret != DH_AVT_SUCCESS {
          return;
        }
        // cannot fail: names and listener are there
        ret := adapter.RegisterChannelListener(RECEIVER, ANY_DEVICE, SELF);
        initialized := true;
      }
      engineId := rootEngineId;
      issued := issued + [rootEngineId];
      rootEngineId := Increment(rootEngineId);
      return DH_AVT_SUCCESS, engineId;
    }

    /** Erases the first occurrence of the device, if there is one. */
    method EraseConnected(peerDevId: string) returns (found: bool)
      modifies this`connectedDevIds
      ensures found <==> peerDevId in old(connectedDevIds)
      ensures connectedDevIds == if found then RemoveFirst(old(connectedDevIds), peerDevId) else old(connectedDevIds)
    {
      var i := 0;
      while i < |connectedDevIds|
        invariant 0 <= i <= |connectedDevIds| && connectedDevIds == old(connectedDevIds)
        invariant peerDevId !in connectedDevIds[..i]
      {
        if connectedDevIds[i] == peerDevId {
          RemoveFirstAt(connectedDevIds, peerDevId, i);
          connectedDevIds := connectedDevIds[..i] + connectedDevIds[i + 1..];
          return true;
        }
        i := i + 1;
      }
      return false;
    }

    /** Stops the time synchronisation with the peer, closes its channel and ends both of the
        centre's registrations. */
    method CloseControlChannel(peerDevId: string, answers: Answers)
      modifies adapter
      ensures adapter.Value() == Hangup(old(adapter.Value()), sessionName, peerDevId, answers)
    {
      var ret := adapter.StopDeviceTimeSync(sessionName, peerDevId, answers.timeSync);
      ret := adapter.CloseSoftbusChannel(sessionName, peerDevId);
      ret := adapter.UnRegisterChannelListener(SENDER, ANY_DEVICE);
      ret := adapter.UnRegisterChannelListener(RECEIVER, ANY_DEVICE);
    }

    method ReleaseAVCenter(engineId: int, answers: Answers) returns (ret: int)
      modifies this, adapter
      ensures Done(Value(), ret) == Release(old(Value()), engineId, answers)
    {
      if engineId < BASE_ENGINE_ID || engineId > rootEngineId {
        return ERR_DH_AVT_INVALID_PARAM_VALUE;
      }
      callbackMap := callbackMap - {engineId};
      if engineId !in engine2DevIdMap {
        return DH_AVT_SUCCESS;
      }
      var peerDevId := engine2DevIdMap[engineId];
      engine2DevIdMap := engine2DevIdMap - {engineId};
      var isDevIdUsedByOthers := IsDevIdUsed(engine2DevIdMap, peerDevId);
      if isDevIdUsedByOthers {
        return DH_AVT_SUCCESS;
      }
      var found := EraseConnected(peerDevId);
      if !found {
        return DH_AVT_SUCCESS;
      }
      closes := closes + [peerDevId];
      CloseControlChannel(peerDevId, answers);
      return DH_AVT_SUCCESS;
    }

    method CreateChannel(engineId: int, peerDevId: string, answers: Answers) returns (ret: int)
      modifies this, adapter
      ensures Done(Value(), ret) == CreateControlChannel(old(Value()), engineId, peerDevId, answers)
    {
      if engineId < BASE_ENGINE_ID || engineId > rootEngineId {
        return ERR_DH_AVT_INVALID_PARAM_VALUE;
      }
      if !initialized {
        return ERR_DH_AVT_CREATE_CHANNEL_FAILED;
      }
      if peerDevId in connectedDevIds {
        engine2DevIdMap := Bind(engine2DevIdMap, engineId, peerDevId);
        return ERR_DH_AVT_CHANNEL_ALREADY_CREATED;
      }
      // cannot fail: names and listener are there
      ret := adapter.RegisterChannelListener(SENDER, ANY_DEVICE, SELF);
      ret := adapter.OpenSoftbusChannel(SENDER, RECEIVER, peerDevId, answers.socket, answers.bind);
      if ret != DH_AVT_SUCCESS && ret != ERR_DH_AVT_SESSION_HAS_OPENED {
        return;
      }
      engine2DevIdMap := Bind(engine2DevIdMap, engineId, peerDevId);
      return DH_AVT_SUCCESS;
    }

    method NotifyAVCenter(engineId: int, event: Event) returns (ret: int)
      modifies this, syncManager
      ensures Done(Value(), ret) == Notify(old(Value()), engineId, event)
    {
      if engineId < BASE_ENGINE_ID || engineId > rootEngineId {
        return ERR_DH_AVT_INVALID_PARAM_VALUE;
      }
      match event.kind {
        case AddStream => syncManager.AddStreamInfo(StreamInfo(event.content, event.peerDevId));
        case RemoveStream => syncManager.RemoveStreamInfo(StreamInfo(event.content, event.peerDevId));
        case _ =>
      }
      return DH_AVT_SUCCESS;
    }

    method RegisterCtlCenterCallback(engineId: int, callback: Callback) returns (ret: int)
      modifies this
      ensures Done(Value(), ret) == RegisterCallback(old(Value()), engineId, callback)
    {
      if engineId < BASE_ENGINE_ID || engineId > rootEngineId {
        return ERR_DH_AVT_INVALID_PARAM_VALUE;
      }
      if callback == NullCallback {
        return ERR_DH_AVT_INVALID_PARAM_VALUE;
      }
      if engineId !in callbackMap {
        callbackMap := callbackMap[engineId := callback.id];
      }
      return DH_AVT_SUCCESS;
    }

    method HandleChannelEvent(event: Adapter.Event, answers: Answers)
      modifies this, adapter
      ensures Value() == ChannelEvent(old(Value()), event, answers)
    {
      if event.kind != Adapter.ChannelOpened {
        return;
      }
      sessionName := event.content;
      if sessionName == RECEIVER {
        var ret := adapter.StartDeviceTimeSync(sessionName, event.peerDevId, answers.timeSync);
      }
      connectedDevIds := connectedDevIds + [event.peerDevId];
      opens := opens + [event];
    }
  }

  lemma {:induction false} RemoveFirstAt(s: seq<string>, x: string, i: nat)
    requires i < |s| && s[i] == x && x !in s[..i]
    ensures RemoveFirst(s, x) == s[..i] + s[i + 1..]
  {
    if i > 0 {
      assert s[0] in s[..i];
      assert s[1..][..i - 1] == s[1..i];
      assert forall y :: y in s[1..i] ==> y in s[..i];
      RemoveFirstAt(s[1..], x, i - 1);
    }
  }
}
