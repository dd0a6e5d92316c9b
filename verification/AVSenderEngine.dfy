/** The sender engine in the form of the source: fields updated by each call and event, on a
    shared control centre object. */
module AVSenderEngines {
  import opened Errno
  import opened SessionKeys
  import opened SyncManager
  import opened AVTransControlCenters
  import opened SenderEngine
  import opened Transport
  import CC = ControlCenter

  class AVSenderEngine {
    const center: AVTransControlCenter
    const ownerName: string
    var peerDevId: string
    var engineId: int
    var currentState: StateId
    var isInitialized: bool
    var dhFwkKit: bool
    var pipeline: bool
    var avInput: bool
    var avOutput: bool
    var senderCallback: bool
    ghost var pushes: nat
    ghost var requests: seq<Request>
    ghost var told: seq<ChannelEvent>

    ghost function Value(): Engine
      reads this
    {
      Engine(ownerName, peerDevId, engineId, currentState, isInitialized, dhFwkKit, pipeline, avInput, avOutput,
             senderCallback, pushes, requests, told)
    }

    constructor (owner: string, peer: string, center: AVTransControlCenter)
      ensures Value() == NewEngine(owner, peer) && this.center == center
    {
      this.center, ownerName, peerDevId, engineId := center, owner, peer, 0;
      currentState, isInitialized, dhFwkKit, pipeline := Idle, false, false, false;
      avInput, avOutput, senderCallback, pushes := false, false, false, 0;
      requests, told := [], [];
    }

    method InitPipeline(step: Step) returns (ok: bool)
      requires step.Initialize?
      modifies this`avInput, this`avOutput, this`pipeline
      ensures (Value(), ok) == SenderEngine.InitPipeline(old(Value()), step)
    {
      avInput := step.inputOk;
      if !avInput {
        return false;
      }
      avOutput := step.outputOk;
      if !avOutput || !step.encodersOk {
        return false;
      }
      pipeline := true;
      return IsSupported(ownerName) && step.linkOk;
    }

    /** Asks the control centre for an id and registers for its callbacks. */
    method InitControlCenter(allocOk: bool, net: Net) returns (ret: int, callbackRet: int)
      requires net.online
      modifies this`dhFwkKit, this`engineId, center, center.adapter
      ensures dhFwkKit
      ensures var (done, id) := CC.Initialize(old(center.Value()), CC.AVSender, net.answers);
        && ret == done.ret && engineId == id
        && if ret != DH_AVT_SUCCESS || !allocOk then center.Value() == done.c
           else CC.Done(center.Value(), callbackRet) == CC.RegisterCallback(done.c, id, CC.Callback(0))
    {
      dhFwkKit := true;
      callbackRet := DH_AVT_SUCCESS;
      ret, engineId := center.InitializeAVCenter(CC.AVSender, net.answers);
      if ret != DH_AVT_SUCCESS || !allocOk {
        return;
      }
      callbackRet := center.RegisterCtlCenterCallback(engineId, CC.Callback(0));
    }

    method Initialize(step: Step, net: Net) returns (ret: int)
      requires step.Initialize?
      modifies this, center, center.syncManager, center.adapter
      ensures Acted(Value(), center.Value(), ret) == ActInitialize(old(Value()), old(center.Value()), step, net)
    {
      if isInitialized {
        return DH_AVT_SUCCESS;
      }
      var ok := InitPipeline(step);
      if !ok {
        return ERR_DH_AVT_INIT_FAILED;
      }
      ret := FinishInitialize(step, net);
    }

    /** Everything after the pipeline. */
    method FinishInitialize(step: Step, net: Net) returns (ret: int)
      requires step.Initialize?
      modifies this, center, center.syncManager, center.adapter
      ensures Acted(Value(), center.Value(), ret) == ActAttach(old(Value()), old(center.Value()), step, net)
    {
      if !net.online {
        dhFwkKit := true;
        return ERR_DH_AVT_INIT_FAILED;
      }
      var callbackRet;
      ret, callbackRet := InitControlCenter(step.allocOk, net);
      if ret != DH_AVT_SUCCESS || !step.allocOk || callbackRet != DH_AVT_SUCCESS {
        return ERR_DH_AVT_INIT_FAILED;
      }
      ret := RegisterSelf();
    }

    /** Registers with the channel adapter, the last part of an initialisation. */
    method RegisterSelf() returns (ret: int)
      modifies this`requests, this`isInitialized, this`currentState
      ensures requests == old(requests) + [RegisterListener(peerDevId)]
      ensures ret == (if peerDevId == "" then ERR_DH_AVT_INIT_FAILED else DH_AVT_SUCCESS)
      ensures isInitialized == (if peerDevId == "" then old(isInitialized) else true)
      ensures currentState == (if peerDevId == "" then old(currentState) else Initialized)
    {
      requests := requests + [RegisterListener(peerDevId)];
      if peerDevId == "" {
        return ERR_DH_AVT_INIT_FAILED;
      }
      isInitialized := true;
      currentState := Initialized;
      return DH_AVT_SUCCESS;
    }

    method CreateControlChannel(dstDevIds: seq<string>, openRet: int) returns (ret: int)
      modifies this`peerDevId, this`requests
      ensures Done(Value(), ret) == DoCreateChannel(old(Value()), dstDevIds, openRet)
    {
      if |dstDevIds| == 0 {
        return ERR_DH_AVT_NULL_POINTER;
      }
      peerDevId := dstDevIds[0];
      requests := requests + ChannelRequests(peerDevId);
      if peerDevId != "" && openRet == ERR_DH_AVT_SESSION_HAS_OPENED {
        return ERR_DH_AVT_CHANNEL_ALREADY_CREATED;
      }
      return if peerDevId != "" && openRet == DH_AVT_SUCCESS then DH_AVT_SUCCESS else ERR_DH_AVT_CREATE_CHANNEL_FAILED;
    }

    method PreparePipeline(paramsOk: bool, prepareOk: bool) returns (ret: int)
      requires pipeline
      modifies this`currentState
      ensures var prepared := (old(currentState) == Initialized || old(currentState) == ChCreated)
          && avInput && avOutput && paramsOk && prepareOk;
        && currentState == (if prepared then ChCreated else old(currentState))
        && (ret == DH_AVT_SUCCESS <==> prepared)
    {
      if (currentState != Initialized && currentState != ChCreated) || !avInput || !avOutput {
        return ERR_DH_AVT_PREPARE_FAILED;
      }
      if !paramsOk || !prepareOk {
        return if paramsOk then ERR_DH_AVT_PREPARE_FAILED else ERR_DH_AVT_SET_PARAM_FAILED;
      }
      currentState := ChCreated;
      return DH_AVT_SUCCESS;
    }

    /** SetParameter with the ready tag. */
    method SetEngineReady(paramsOk: bool, prepareOk: bool) returns (ret: int)
      modifies this`currentState
      ensures Done(Value(), ret) == DoSetReady(old(Value()), paramsOk, prepareOk)
    {
      if !avInput || !avOutput || !pipeline {
        return ERR_DH_AVT_SETUP_FAILED;
      }
      var prepared := PreparePipeline(paramsOk, prepareOk);
      return DH_AVT_SUCCESS;
    }

    /** The kit sends the request one-way; `channelRet` is what it returns. */
    method Start(pipelineOk: bool, channelRet: int, net: Net) returns (ret: int)
      modifies this, center, center.syncManager, center.adapter
      ensures Acted(Value(), center.Value(), ret)
           == ActStart(old(Value()), old(center.Value()), pipelineOk, channelRet, net)
    {
      if currentState != ChCreated || !pipeline || !pipelineOk {
        return ERR_DH_AVT_START_FAILED;
      }
      if dhFwkKit {
        if !net.online {
          return ERR_DH_AVT_CREATE_CHANNEL_FAILED;
        }
        var centers := center.CreateChannel(engineId, peerDevId, net.answers);
        if channelRet != DH_AVT_SUCCESS {
          return ERR_DH_AVT_CREATE_CHANNEL_FAILED;
        }
      }
      currentState := Started;
      return DH_AVT_SUCCESS;
    }

    method NotifyStreamChange(kind: CC.EventType, jpeg: bool, net: Net)
      modifies center, center.syncManager, center.adapter
      ensures center.Value() == Announce(Value(), old(center.Value()), StreamNotice(Value(), kind, jpeg), net)
    {
      var sceneType := "";
      if ownerName == OWNER_NAME_D_MIC {
        sceneType := SCENE_TYPE_D_MIC;
      } else if ownerName == OWNER_NAME_D_SPEAKER {
        sceneType := SCENE_TYPE_D_SPEAKER;
      } else if ownerName == OWNER_NAME_D_SCREEN {
        sceneType := SCENE_TYPE_D_SCREEN;
      } else if ownerName == OWNER_NAME_D_CAMERA {
        if !avInput {
          return;
        }
        sceneType := if jpeg then SCENE_TYPE_D_CAMERA_PIC else SCENE_TYPE_D_CAMERA_STR;
      } else {
        return;
      }
      if !dhFwkKit || !net.online {
        return;
      }
      var ret := center.NotifyAVCenter(engineId, CC.Event(kind, sceneType, peerDevId));
    }

    method PushData(bufferOk: bool, filterOk: bool, jpeg: bool, net: Net) returns (ret: int)
      modifies this`currentState, this`pushes, center, center.syncManager, center.adapter
      ensures Acted(Value(), center.Value(), ret)
           == Act(old(Value()), old(center.Value()), Step.PushData(bufferOk, filterOk, jpeg), net)
    {
      if currentState != Started && currentState != Playing {
        return ERR_DH_AVT_PUSH_DATA_FAILED;
      }
      if currentState == Started {
        NotifyStreamChange(CC.AddStream, jpeg, net);
        pushes := pushes + 1;
      }
      if !avInput || !bufferOk || !filterOk {
        return ERR_DH_AVT_PUSH_DATA_FAILED;
      }
      currentState := Playing;
      return DH_AVT_SUCCESS;
    }

    method Stop(pipelineOk: bool, jpeg: bool, net: Net) returns (ret: int)
      modifies this`currentState, this`pushes, center, center.syncManager, center.adapter
      ensures Acted(Value(), center.Value(), ret)
           == Act(old(Value()), old(center.Value()), Step.Stop(pipelineOk, jpeg), net)
    {
      if !pipeline || !pipelineOk {
        return ERR_DH_AVT_STOP_FAILED;
      }
      currentState := Stopped;
      pushes := 0;
      assert StreamNotice(Value(), CC.RemoveStream, jpeg) == StreamNotice(old(Value()), CC.RemoveStream, jpeg);
      NotifyStreamChange(CC.RemoveStream, jpeg, net);
      return DH_AVT_SUCCESS;
    }

    /** Drops everything the engine holds. */
    method Clear()
      modifies this
      ensures Value() == DoRelease(old(Value())).e
    {
      requests := requests + [CloseChannel(peerDevId)] + [UnregisterListener(peerDevId)];
      isInitialized, pipeline, dhFwkKit := false, false, false;
      avInput, avOutput, senderCallback := false, false, false;
      currentState := Idle;
    }

    method Release(net: Net) returns (ret: int)
      modifies this, center, center.syncManager, center.adapter
      ensures Acted(Value(), center.Value(), ret) == Act(old(Value()), old(center.Value()), Step.Release, net)
    {
      if dhFwkKit && net.online {
        ret := center.ReleaseAVCenter(engineId, net.answers);
      }
      Clear();
      return DH_AVT_SUCCESS;
    }

    method RegisterSenderCallback(isNull: bool) returns (ret: int)
      modifies this`senderCallback
      ensures Done(Value(), ret) == DoRegisterCallback(old(Value()), isNull)
    {
      senderCallback := senderCallback || !isNull;
      return if isNull then ERR_DH_AVT_INVALID_PARAM else DH_AVT_SUCCESS;
    }

    method OnChannelEvent(event: ChannelEvent)
      modifies this`currentState, this`told
      ensures Value() == DoChannelEvent(old(Value()), event)
    {
      if !senderCallback || event == Other || (event == Closed && currentState in {Idle, Initialized}) {
        return;
      }
      currentState := if event == Opened then ChCreated else Initialized;
      told := told + [event];
    }
  }
}
