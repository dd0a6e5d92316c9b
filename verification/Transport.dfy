/** Sender engines, the control centre and the sync manager composed. */
module Transport {
  import opened Errno
  import opened SessionKeys
  import opened SyncManager
  import opened SenderEngine
  import CC = ControlCenter
  import ControlChannels

  /** How the outside answers during a call: whether the control centre can be reached, and
      what the softbus says to the centre. */
  datatype Net = Net(online: bool, answers: CC.Answers)

  datatype Acted = Acted(e: Engine, c: CC.Center, ret: int)

  /** An initialisation that gets as far as asking the control centre. */
  predicate Asks(e: Engine, step: Step)
    requires step.Initialize?
  {
    !e.initialized && InitPipeline(e, step).1
  }

  function Combine(done: Done, c: CC.Center): Acted {
    Acted(done.e, c, done.ret)
  }

  /** The part of an initialisation that needs the control centre. */
  function ActAttach(e: Engine, c: CC.Center, step: Step, net: Net): Acted
    requires step.Initialize?
  {
    if !net.online then Combine(Attach(e, step.(answer := Offline)), c)
    else
      var (done, id) := CC.Initialize(c, CC.AVSender, net.answers);
      if done.ret != DH_AVT_SUCCESS || !step.allocOk then
        Combine(Attach(e, step.(answer := Answered(done.ret, id))), done.c)
      else
        var registered := CC.RegisterCallback(done.c, id, CC.Callback(0));
        Combine(Attach(e, step.(answer := Answered(done.ret, id), callbackRet := registered.ret)), registered.c)
  }

  function ActInitialize(e: Engine, c: CC.Center, step: Step, net: Net): Acted
    requires step.Initialize?
  {
    if !Asks(e, step) then Combine(DoInitialize(e, step), c) else ActAttach(InitPipeline(e, step).0, c, step, net)
  }

  /** The call to the centre is one-way: what the kit returns is not the centre's result. */
  function ActStart(e: Engine, c: CC.Center, pipelineOk: bool, channelRet: int, net: Net): Acted {
    if e.state == ChCreated && e.pipeline && pipelineOk && e.kit then
      if !net.online then Combine(DoStart(e, pipelineOk, ERR_DH_FWK_POINTER_IS_NULL), c)
      else Combine(DoStart(e, pipelineOk, channelRet), CC.CreateControlChannel(c, e.id, e.peer, net.answers).c)
    else Combine(DoStart(e, pipelineOk, DH_AVT_SUCCESS), c)
  }

  function Announce(e: Engine, c: CC.Center, notice: Notice, net: Net): CC.Center {
    if notice.Notice? && net.online then CC.Notify(c, e.id, notice.event).c else c
  }

  /** One call of an engine, with what it does to the control centre. */
  function Act(e: Engine, c: CC.Center, step: Step, net: Net): Acted {
    match step
    case Initialize(_, _, _, _, _, _, _) => ActInitialize(e, c, step, net)
    case Start(pipelineOk, channelRet) => ActStart(e, c, pipelineOk, channelRet, net)
    case Release => Combine(DoRelease(e), if e.kit && net.online then CC.Release(c, e.id, net.answers).c else c)
    case _ => Combine(Next(e, step), Announce(e, c, NoticeOf(e, step), net))
  }

  // ----- many engines on one control centre

  datatype System = System(center: CC.Center, engines: map<nat, Engine>)

  datatype SystemStep =
    | EngineCall(i: nat, step: Step, net: Net)
    | CenterCall(call: CC.Step)       // from the softbus or from other clients

  function SystemNext(sys: System, step: SystemStep): System {
    match step
    case EngineCall(i, s, net) =>
      if i !in sys.engines then sys
      else
        var acted := Act(sys.engines[i], sys.center, s, net);
        System(acted.c, sys.engines[i := acted.e])
    case CenterCall(s) => sys.(center := CC.Next(sys.center, s))
  }

  function SystemRun(sys: System, steps: seq<SystemStep>): System
    decreases |steps|
  {
    if steps == [] then sys else SystemRun(SystemNext(sys, steps[0]), steps[1..])
  }

  // ----- an engine's call is a run of the centre

  /** The calls the centre sees while an engine carries out one call. */
  function CallsOf(e: Engine, c: CC.Center, step: Step, net: Net): seq<CC.Step> {
    if !net.online then []
    else
      match step
      case Initialize(_, _, _, _, _, _, _) =>
        if !Asks(e, step) then []
        else
          var (done, id) := CC.Initialize(c, CC.AVSender, net.answers);
          [CC.DoInitialize(CC.AVSender, net.answers)]
          + (if done.ret != DH_AVT_SUCCESS || !step.allocOk then [] else [CC.DoRegisterCallback(id, CC.Callback(0))])
      case Start(pipelineOk, _) =>
        if e.state == ChCreated && e.pipeline && pipelineOk && e.kit then [CC.DoCreate(e.id, e.peer, net.answers)]
        else []
      case Release => if e.kit then [CC.DoRelease(e.id, net.answers)] else []
      case _ => if NoticeOf(e, step).Notice? then [CC.DoNotify(e.id, NoticeOf(e, step).event)] else []
  }

  lemma InitializeIsCalls(e: Engine, c: CC.Center, step: Step, net: Net)
    requires step.Initialize?
    ensures ActInitialize(e, c, step, net).c == CC.Run(c, CallsOf(e, c, step, net))
  {
    if Asks(e, step) && net.online {
      var first := CC.DoInitialize(CC.AVSender, net.answers);
      var (done, id) := CC.Initialize(c, CC.AVSender, net.answers);
      if done.ret != DH_AVT_SUCCESS || !step.allocOk {
        assert [first] + [] == [first];
        CC.RunOne(c, first);
      } else {
        CC.RunOne(c, first);
        CC.RunOneMore(c, [first], CC.DoRegisterCallback(id, CC.Callback(0)));
      }
    }
  }

  lemma ActIsCalls(e: Engine, c: CC.Center, step: Step, net: Net)
    ensures Act(e, c, step, net).c == CC.Run(c, CallsOf(e, c, step, net))
  {
    if step.Initialize? {
      InitializeIsCalls(e, c, step, net);
    } else if step.Start? {
      CC.RunOne(c, CC.DoCreate(e.id, e.peer, net.answers));
    } else if step.Release? {
      CC.RunOne(c, CC.DoRelease(e.id, net.answers));
    } else if NoticeOf(e, step).Notice? {
      CC.RunOne(c, CC.DoNotify(e.id, NoticeOf(e, step).event));
    }
  }

  lemma StepIsCenterRun(sys: System, step: SystemStep) returns (calls: seq<CC.Step>)
    ensures SystemNext(sys, step).center == CC.Run(sys.center, calls)
  {
    match step
    case EngineCall(i, s, net) =>
      if i in sys.engines {
        ActIsCalls(sys.engines[i], sys.center, s, net);
        calls := CallsOf(sys.engines[i], sys.center, s, net);
      } else {
        calls := [];
      }
    case CenterCall(call) =>
      CC.RunOne(sys.center, call);
      calls := [call];
  }

  /** Whatever the engines do, the centre goes through one of its own runs: all that holds in
      every run of the centre holds in every run of the system. */
  lemma {:induction false} SystemIsCenterRun(sys: System, steps: seq<SystemStep>) returns (calls: seq<CC.Step>)
    ensures SystemRun(sys, steps).center == CC.Run(sys.center, calls)
    decreases |steps|
  {
    if steps == [] {
      calls := [];
    } else {
      var first := StepIsCenterRun(sys, steps[0]);
      var rest := SystemIsCenterRun(SystemNext(sys, steps[0]), steps[1..]);
      CC.RunConcat(sys.center, first, rest);
      calls := first + rest;
    }
  }

  lemma SystemKeepsIds(sys: System, steps: seq<SystemStep>)
    requires CC.IdInvariant(sys.center) && CC.IdsInRange(SystemRun(sys, steps).center)
    ensures CC.IdInvariant(SystemRun(sys, steps).center)
  {
    var calls := SystemIsCenterRun(sys, steps);
    CC.RunKeepsIds(sys.center, calls);
  }

  /** For instance: whatever the engines do, the centre hears of channels that peers open exactly
      from its initialisation until a release closes a channel. */
  lemma HeardInSystem(table: map<string, string>, engines: map<nat, Engine>, steps: seq<SystemStep>)
    ensures var c := SystemRun(System(CC.Initial(table), engines), steps).center;
      ControlChannels.Hears(c.softbus, ControlChannels.ReceiverKey()) <==> c.initialized && c.closes == []
  {
    var calls := SystemIsCenterRun(System(CC.Initial(table), engines), steps);
    ControlChannels.HeardUntilFirstClose(table, calls);
  }

  /** A Start that gets as far as the centre binds the engine to its peer there, whatever the kit
      returns, if the centre grants the channel. */
  lemma StartedIsBound(e: Engine, c: CC.Center, channelRet: int, net: Net)
    requires e.state == ChCreated && e.pipeline && e.kit && net.online && e.id !in c.engine2DevId
    ensures var c' := Act(e, c, Start(true, channelRet), net).c;
      && (e.id in c'.engine2DevId <==> CC.Grants(c, e.id, e.peer, net.answers))
      && (e.id in c'.engine2DevId ==> c'.engine2DevId[e.id] == e.peer)
  {
    CC.CreateBinds(c, e.id, e.peer, net.answers);
  }

  /** A release that reaches the centre makes it forget the engine, and closes the channel of its
      peer exactly if no other engine is bound to it. */
  lemma ReleasedIsForgotten(e: Engine, c: CC.Center, net: Net)
    requires e.kit && net.online && !CC.IsInvalidEngineId(c, e.id)
    ensures var c' := Act(e, c, Release, net).c;
      && e.id !in c'.engine2DevId && e.id !in c'.callbacks
      && (c'.closes != c.closes <==> CC.HangsUp(c, e.id))
  {
    CC.ReleaseClosesUnshared(c, e.id, net.answers);
  }

  // ----- the entries of one engine's stream

  predicate HasFixedScene(e: Engine) {
    e.owner == OWNER_NAME_D_MIC || e.owner == OWNER_NAME_D_SPEAKER || e.owner == OWNER_NAME_D_SCREEN
  }

  function SceneOf(e: Engine): string
    requires HasFixedScene(e)
  {
    if e.owner == OWNER_NAME_D_MIC then SCENE_TYPE_D_MIC
    else if e.owner == OWNER_NAME_D_SPEAKER then SCENE_TYPE_D_SPEAKER
    else SCENE_TYPE_D_SCREEN
  }

  function StreamOf(e: Engine): StreamInfo
    requires HasFixedScene(e)
  {
    StreamInfo(SceneOf(e), e.peer)
  }

  function EntryCount(c: CC.Center, stream: StreamInfo): nat {
    multiset(c.sync.streams)[stream]
  }

  /** The call announces `stream`, or its end. */
  predicate Concerns(call: CC.Step, stream: StreamInfo) {
    && call.DoNotify? && call.event.kind != CC.Other
    && StreamInfo(call.event.content, call.event.peerDevId) == stream
  }

  lemma AddCounts(c: CC.Center, id: int, event: CC.Event, stream: StreamInfo)
    requires event.kind == CC.AddStream && !CC.IsInvalidEngineId(c, id)
    ensures EntryCount(CC.Notify(c, id, event).c, stream) ==
      EntryCount(c, stream) + if StreamInfo(event.content, event.peerDevId) == stream then 1 else 0
  {
    ListAfter(c.sync, StreamInfo(event.content, event.peerDevId));
  }

  lemma RemoveCounts(c: CC.Center, id: int, event: CC.Event, stream: StreamInfo)
    requires event.kind == CC.RemoveStream && !CC.IsInvalidEngineId(c, id)
    ensures EntryCount(CC.Notify(c, id, event).c, stream) ==
      if StreamInfo(event.content, event.peerDevId) == stream then 0 else EntryCount(c, stream)
  {
    ListAfter(c.sync, StreamInfo(event.content, event.peerDevId));
    WithoutCounts(c.sync.streams, StreamInfo(event.content, event.peerDevId), stream);
  }

  /** Calls to the centre other than stream notices keep its stream list. */
  lemma OtherCallsKeepStreams(c: CC.Center, call: CC.Step)
    requires !call.DoNotify?
    ensures CC.Next(c, call).sync == c.sync
  {
  }

  lemma CallKeepsCount(c: CC.Center, call: CC.Step, stream: StreamInfo)
    requires !Concerns(call, stream)
    ensures EntryCount(CC.Next(c, call), stream) == EntryCount(c, stream)
  {
    if !call.DoNotify? {
      OtherCallsKeepStreams(c, call);
    } else if !CC.IsInvalidEngineId(c, call.id) {
      match call.event.kind
      case AddStream => AddCounts(c, call.id, call.event, stream);
      case RemoveStream => RemoveCounts(c, call.id, call.event, stream);
      case Other =>
    }
  }

  lemma {:induction false} CallsKeepCount(c: CC.Center, calls: seq<CC.Step>, stream: StreamInfo)
    requires forall i :: 0 <= i < |calls| ==> !Concerns(calls[i], stream)
    ensures EntryCount(CC.Run(c, calls), stream) == EntryCount(c, stream)
    decreases |calls|
  {
    if calls != [] {
      CallKeepsCount(c, calls[0], stream);
      CallsKeepCount(CC.Next(c, calls[0]), calls[1..], stream);
    }
  }

  /** A stream of a mic, speaker or screen is announced only by an engine that has it. */
  lemma OthersDoNotConcern(e: Engine, c: CC.Center, step: Step, net: Net, stream: StreamInfo)
    requires (step.PushData? || step.Stop?) && HasFixedScene(e) ==> StreamOf(e) != stream
    requires stream.sceneType != SCENE_TYPE_D_CAMERA_STR && stream.sceneType != SCENE_TYPE_D_CAMERA_PIC
    ensures forall i :: 0 <= i < |CallsOf(e, c, step, net)| ==> !Concerns(CallsOf(e, c, step, net)[i], stream)
  {
  }

  /** No call of an engine changes the number of entries of a stream it does not announce. */
  lemma OtherEngineKeepsCount(e: Engine, c: CC.Center, step: Step, net: Net, stream: StreamInfo)
    requires (step.PushData? || step.Stop?) && HasFixedScene(e) ==> StreamOf(e) != stream
    requires stream.sceneType != SCENE_TYPE_D_CAMERA_STR && stream.sceneType != SCENE_TYPE_D_CAMERA_PIC
    ensures EntryCount(Act(e, c, step, net).c, stream) == EntryCount(c, stream)
  {
    ActIsCalls(e, c, step, net);
    OthersDoNotConcern(e, c, step, net, stream);
    CallsKeepCount(c, CallsOf(e, c, step, net), stream);
  }

  // ----- tracking one engine

  /** The engine is initialised with an id the centre issued, and the sync manager holds, besides
      `left` others, one entry for each of its pushes entered in Started since its last
      successful Stop. */
  ghost predicate InTrack(e: Engine, c: CC.Center, left: int) {
    && HasFixedScene(e)
    && e.initialized && e.kit && e.pipeline && e.input
    && CC.IdInvariant(c) && e.id in c.issued
    && EntryCount(c, StreamOf(e)) == e.pushes + left
    && (e.state == Playing ==> e.pushes >= 1)
  }

  ghost predicate Tracked(sys: System, i: nat, left: int) {
    i in sys.engines && InTrack(sys.engines[i], sys.center, left)
  }

  /** No other engine announces the stream of engine `i`. */
  ghost predicate IsSole(sys: System, i: nat) {
    i in sys.engines && HasFixedScene(sys.engines[i]) &&
    forall j :: j in sys.engines && j != i && HasFixedScene(sys.engines[j]) ==>
      StreamOf(sys.engines[j]) != StreamOf(sys.engines[i])
  }

  /** The step neither releases engine `i` nor changes its peer, the notices of its PushData and
      Stop reach the control centre, and other clients leave its stream alone. */
  ghost predicate Leaves(sys: System, step: SystemStep, i: nat)
    requires i in sys.engines && HasFixedScene(sys.engines[i])
  {
    match step
    case EngineCall(j, s, net) =>
      j == i ==>
        && !s.Release?
        && (s.CreateChannel? ==> s.devs == [] || s.devs[0] == sys.engines[i].peer)
        && (s.PushData? || s.Stop? ==> net.online)
    case CenterCall(call) => !Concerns(call, StreamOf(sys.engines[i]))
  }

  /** Every step of the run leaves engine `i` to itself, and it stays the only engine of its
      stream, within the range of engine ids. */
  ghost predicate LeavesAll(sys: System, steps: seq<SystemStep>, i: nat)
    decreases |steps|
  {
    && IsSole(sys, i)
    && CC.IdsInRange(sys.center)
    && (steps == [] || (Leaves(sys, steps[0], i) && LeavesAll(SystemNext(sys, steps[0]), steps[1..], i)))
  }

  /** A successful Stop of engine `i`. */
  predicate IsStop(sys: System, step: SystemStep, i: nat) {
    && step.EngineCall? && step.i == i && i in sys.engines
    && step.step.Stop? && step.step.pipelineOk && sys.engines[i].pipeline
  }

  /** What remains of entries that were there before: a successful Stop clears them all. */
  function LeftOver(sys: System, steps: seq<SystemStep>, i: nat, left: int): int
    decreases |steps|
  {
    if steps == [] then left
    else LeftOver(SystemNext(sys, steps[0]), steps[1..], i, if IsStop(sys, steps[0], i) then 0 else left)
  }

  lemma AcceptedIds(c: CC.Center, id: int)
    requires CC.IdInvariant(c) && id in c.issued
    ensures !CC.IsInvalidEngineId(c, id)
  {
  }

  lemma ActKeepsIds(e: Engine, c: CC.Center, step: Step, net: Net)
    requires CC.IdInvariant(c) && CC.IdsInRange(Act(e, c, step, net).c)
    ensures CC.IdInvariant(Act(e, c, step, net).c) && c.issued <= Act(e, c, step, net).c.issued
  {
    ActIsCalls(e, c, step, net);
    CC.RunKeepsIds(c, CallsOf(e, c, step, net));
    CC.RunGrowsIssued(c, CallsOf(e, c, step, net));
  }

  lemma NotifyKeepsIds(c: CC.Center, id: int, event: CC.Event)
    ensures CC.Notify(c, id, event).c == c.(sync := CC.Notify(c, id, event).c.sync)
  {
  }

  lemma OwnPushKeepsTrack(e: Engine, c: CC.Center, step: Step, net: Net, left: int)
    requires InTrack(e, c, left) && net.online && step.PushData?
    ensures InTrack(Act(e, c, step, net).e, Act(e, c, step, net).c, left)
  {
    if e.state == Started {
      var event := NoticeOf(e, step).event;
      AcceptedIds(c, e.id);
      AddCounts(c, e.id, event, StreamOf(e));
      NotifyKeepsIds(c, e.id, event);
    }
  }

  lemma OwnStopKeepsTrack(e: Engine, c: CC.Center, step: Step, net: Net, left: int)
    requires InTrack(e, c, left) && net.online && step.Stop?
    ensures InTrack(Act(e, c, step, net).e, Act(e, c, step, net).c, if step.pipelineOk then 0 else left)
  {
    if step.pipelineOk {
      var event := NoticeOf(e, step).event;
      AcceptedIds(c, e.id);
      RemoveCounts(c, e.id, event, StreamOf(e));
      NotifyKeepsIds(c, e.id, event);
    }
  }

  /** What tracking looks at is the same, and the engine is not newly playing. */
  predicate SameForTrack(e: Engine, e': Engine) {
    && e'.owner == e.owner && e'.peer == e.peer && e'.id == e.id && e'.pushes == e.pushes
    && e'.initialized == e.initialized && e'.kit == e.kit && e'.pipeline == e.pipeline && e'.input == e.input
    && (e'.state == Playing ==> e.state == Playing)
  }

  lemma InitializeAgain(e: Engine, c: CC.Center, step: Step, net: Net)
    requires e.initialized && step.Initialize?
    ensures ActInitialize(e, c, step, net).e == e
  {
  }

  lemma StartIsQuiet(e: Engine, c: CC.Center, pipelineOk: bool, channelRet: int, net: Net)
    ensures SameForTrack(e, ActStart(e, c, pipelineOk, channelRet, net).e)
  {
  }

  lemma CreateIsQuiet(e: Engine, devs: seq<string>, openRet: int)
    requires devs == [] || devs[0] == e.peer
    ensures SameForTrack(e, DoCreateChannel(e, devs, openRet).e)
  {
  }

  lemma EventIsQuiet(e: Engine, event: ChannelEvent, paramsOk: bool, prepareOk: bool, isNull: bool)
    ensures SameForTrack(e, DoChannelEvent(e, event))
    ensures SameForTrack(e, DoSetReady(e, paramsOk, prepareOk).e)
    ensures SameForTrack(e, DoRegisterCallback(e, isNull).e)
  {
  }

  /** The engine's other calls keep what tracking looks at. */
  lemma QuietCallKeepsEngine(e: Engine, c: CC.Center, step: Step, net: Net)
    requires e.initialized && !step.PushData? && !step.Stop? && !step.Release?
    requires step.CreateChannel? ==> step.devs == [] || step.devs[0] == e.peer
    ensures SameForTrack(e, Act(e, c, step, net).e)
  {
    match step
    case Initialize(_, _, _, _, _, _, _) => InitializeAgain(e, c, step, net);
    case Start(pipelineOk, channelRet) => StartIsQuiet(e, c, pipelineOk, channelRet, net);
    case CreateChannel(devs, openRet) => CreateIsQuiet(e, devs, openRet);
    case SetReady(paramsOk, prepareOk) => EventIsQuiet(e, Opened, paramsOk, prepareOk, false);
    case RegisterCallback(isNull) => EventIsQuiet(e, Opened, false, false, isNull);
    case OnChannelEvent(event) => EventIsQuiet(e, event, false, false, false);
  }

  /** One call of the tracked engine itself. */
  lemma OwnCallKeepsTrack(e: Engine, c: CC.Center, step: Step, net: Net, left: int)
    requires InTrack(e, c, left) && CC.IdsInRange(Act(e, c, step, net).c)
    requires !step.Release? && (step.CreateChannel? ==> step.devs == [] || step.devs[0] == e.peer)
    requires step.PushData? || step.Stop? ==> net.online
    ensures InTrack(Act(e, c, step, net).e, Act(e, c, step, net).c, if step.Stop? && step.pipelineOk then 0 else left)
  {
    if step.PushData? {
      OwnPushKeepsTrack(e, c, step, net, left);
    } else if step.Stop? {
      OwnStopKeepsTrack(e, c, step, net, left);
    } else {
      QuietCallKeepsEngine(e, c, step, net);
      OtherEngineKeepsCount(e, c, step, net, StreamOf(e));
      ActKeepsIds(e, c, step, net);
    }
  }

  lemma ForeignCallKeepsTrack(e: Engine, c: CC.Center, c': CC.Center, left: int)
    requires InTrack(e, c, left) && CC.IdInvariant(c') && c.issued <= c'.issued
    requires EntryCount(c', StreamOf(e)) == EntryCount(c, StreamOf(e))
    ensures InTrack(e, c', left)
  {
  }

  lemma StepKeepsTrack(sys: System, step: SystemStep, i: nat, left: int)
    requires Tracked(sys, i, left) && IsSole(sys, i) && Leaves(sys, step, i)
    requires CC.IdsInRange(SystemNext(sys, step).center)
    ensures Tracked(SystemNext(sys, step), i, if IsStop(sys, step, i) then 0 else left)
  {
    var e, c := sys.engines[i], sys.center;
    match step
    case EngineCall(j, s, net) =>
      if j == i {
        OwnCallKeepsTrack(e, c, s, net, left);
      } else if j in sys.engines {
        OtherEngineKeepsCount(sys.engines[j], c, s, net, StreamOf(e));
        ActKeepsIds(sys.engines[j], c, s, net);
        ForeignCallKeepsTrack(e, c, Act(sys.engines[j], c, s, net).c, left);
      }
    case CenterCall(call) =>
      CC.StepIssues(c, call);
      CC.StepKeepsIds(c, call);
      CallKeepsCount(c, call, StreamOf(e));
      ForeignCallKeepsTrack(e, c, CC.Next(c, call), left);
  }

  /** Over every run that leaves an initialised mic, speaker or screen sender to itself, the
      sync manager holds exactly as many entries for its stream as PushData calls it entered
      in Started since its last successful Stop, whichever of those failed, and those left over
      from before. */
  lemma {:induction false} EntriesMatchPushes(sys: System, steps: seq<SystemStep>, i: nat, left: int)
    requires Tracked(sys, i, left) && LeavesAll(sys, steps, i)
    ensures Tracked(SystemRun(sys, steps), i, LeftOver(sys, steps, i, left))
    decreases |steps|
  {
    if steps != [] {
      StepKeepsTrack(sys, steps[0], i, left);
      EntriesMatchPushes(SystemNext(sys, steps[0]), steps[1..], i, if IsStop(sys, steps[0], i) then 0 else left);
    }
  }

  /** The step with the centre's answers filled in. */
  function AnsweredStep(c: CC.Center, step: Step, net: Net): Step
    requires step.Initialize?
  {
    var (done, id) := CC.Initialize(c, CC.AVSender, net.answers);
    step.(answer := Answered(done.ret, id), callbackRet := CC.RegisterCallback(done.c, id, CC.Callback(0)).ret)
  }

  lemma InitialisedEngine(e: Engine, c: CC.Center, step: Step, net: Net)
    requires !e.initialized && step.Initialize? && ActInitialize(e, c, step, net).ret == DH_AVT_SUCCESS
    ensures Asks(e, step) && net.online && step.allocOk
    ensures ActInitialize(e, c, step, net).e == DoInitialize(e, AnsweredStep(c, step, net)).e
    ensures DoInitialize(e, AnsweredStep(c, step, net)).ret == DH_AVT_SUCCESS
  {
  }

  /** The id that an engine got is among those the centre has issued. */
  lemma InitialisedId(e: Engine, c: CC.Center, step: Step, net: Net)
    requires !e.initialized && step.Initialize? && ActInitialize(e, c, step, net).ret == DH_AVT_SUCCESS
    ensures ActInitialize(e, c, step, net).e.id in ActInitialize(e, c, step, net).c.issued
  {
    InitialisedEngine(e, c, step, net);
    InitialisedFields(e, AnsweredStep(c, step, net));
    CC.InitializeIssues(c, CC.AVSender, net.answers);
    InitializeIsCalls(e, c, step, net);
    var calls := CallsOf(e, c, step, net);
    CC.RunGrowsIssued(CC.Next(c, calls[0]), calls[1..]);
  }

  /** A successful initialisation, of a new engine or of one used before, starts the tracking. */
  lemma InitialisedIsTracked(e: Engine, c: CC.Center, step: Step, net: Net)
    requires !e.initialized && HasFixedScene(e) && CC.IdInvariant(c) && CC.IdsInRange(Act(e, c, step, net).c)
    requires step.Initialize? && Act(e, c, step, net).ret == DH_AVT_SUCCESS
    ensures InTrack(Act(e, c, step, net).e, Act(e, c, step, net).c, EntryCount(c, StreamOf(e)) - e.pushes)
  {
    InitialisedEngine(e, c, step, net);
    InitialisedFields(e, AnsweredStep(c, step, net));
    InitialisedId(e, c, step, net);
    ActKeepsIds(e, c, step, net);
    OtherEngineKeepsCount(e, c, step, net, StreamOf(e));
  }

  /** Engine `i`, not initialised so far, is successfully initialised. */
  ghost predicate Initialises(sys: System, i: nat, init: Step, net: Net) {
    && i in sys.engines && !sys.engines[i].initialized && HasFixedScene(sys.engines[i])
    && init.Initialize? && Act(sys.engines[i], sys.center, init, net).ret == DH_AVT_SUCCESS
  }

  /** Entries of the engine's stream that are not its own: none for a new engine whose stream
      nobody announced before. */
  function ForeignEntries(sys: System, i: nat): int
    requires i in sys.engines && HasFixedScene(sys.engines[i])
  {
    EntryCount(sys.center, StreamOf(sys.engines[i])) - sys.engines[i].pushes
  }

  lemma TrackingStarts(sys: System, i: nat, init: Step, net: Net)
    requires Initialises(sys, i, init, net) && CC.IdInvariant(sys.center)
    requires CC.IdsInRange(SystemNext(sys, EngineCall(i, init, net)).center)
    ensures Tracked(SystemNext(sys, EngineCall(i, init, net)), i, ForeignEntries(sys, i))
  {
    InitialisedIsTracked(sys.engines[i], sys.center, init, net);
  }

  lemma RangeWasKept(sys: System, steps: seq<SystemStep>)
    requires CC.IdsInRange(SystemRun(sys, steps).center)
    ensures CC.IdsInRange(sys.center)
  {
    var calls := SystemIsCenterRun(sys, steps);
    CC.RunGrowsIssued(sys.center, calls);
  }

  /** From the start of the system: after any run, the successful initialisation of an engine,
      and any run that leaves that engine to itself, its entries are its pushes and what is left
      of the foreign ones there were when it was initialised. */
  lemma EntriesOverWholeRun(table: map<string, string>, engines: map<nat, Engine>, before: seq<SystemStep>, i: nat,
                            init: Step, net: Net, after: seq<SystemStep>)
    requires var sys := SystemRun(System(CC.Initial(table), engines), before);
      Initialises(sys, i, init, net) && LeavesAll(SystemNext(sys, EngineCall(i, init, net)), after, i)
    ensures var sys := SystemRun(System(CC.Initial(table), engines), before);
      var started := SystemNext(sys, EngineCall(i, init, net));
      Tracked(SystemRun(started, after), i, LeftOver(started, after, i, ForeignEntries(sys, i)))
  {
    var start := System(CC.Initial(table), engines);
    var sys := SystemRun(start, before);
    var started := SystemNext(sys, EngineCall(i, init, net));
    assert SystemRun(sys, [EngineCall(i, init, net)]) == started by {
      assert [EngineCall(i, init, net)][1..] == [];
    }
    RangeWasKept(sys, [EngineCall(i, init, net)]);
    SystemKeepsIds(start, before);
    TrackingStarts(sys, i, init, net);
    EntriesMatchPushes(started, after, i, ForeignEntries(sys, i));
  }

  /** Right after a successful Stop there is no entry, whatever was there before. */
  lemma NoEntryAfterStop(sys: System, steps: seq<SystemStep>, i: nat, stop: Step, net: Net, left: int)
    requires Tracked(sys, i, left) && LeavesAll(sys, steps + [EngineCall(i, stop, net)], i)
    requires stop.Stop? && stop.pipelineOk
    ensures var stopped := SystemNext(SystemRun(sys, steps), EngineCall(i, stop, net));
      i in stopped.engines && HasFixedScene(stopped.engines[i]) &&
      stopped.engines[i].state == Stopped && EntryCount(stopped.center, StreamOf(stopped.engines[i])) == 0
  {
    RunSplits(sys, steps, EngineCall(i, stop, net), i);
    EntriesMatchPushes(sys, steps, i, left);
    StepKeepsTrack(SystemRun(sys, steps), EngineCall(i, stop, net), i, LeftOver(sys, steps, i, left));
  }

  lemma {:induction false} RunSplits(sys: System, steps: seq<SystemStep>, last: SystemStep, i: nat)
    requires LeavesAll(sys, steps + [last], i)
    ensures LeavesAll(sys, steps, i)
    ensures IsSole(SystemRun(sys, steps), i) && Leaves(SystemRun(sys, steps), last, i)
    ensures CC.IdsInRange(SystemNext(SystemRun(sys, steps), last).center)
    decreases |steps|
  {
    if steps == [] {
      assert ([last])[1..] == [] && steps + [last] == [last];
    } else {
      assert (steps + [last])[1..] == steps[1..] + [last];
      RunSplits(SystemNext(sys, steps[0]), steps[1..], last, i);
    }
  }

  /** A camera announces the scene of its current format, and takes that one away when it stops. */
  lemma CameraAnnounces(e: Engine, c: CC.Center, step: Step, net: Net)
    requires e.owner == OWNER_NAME_D_CAMERA && e.kit && e.input && e.pipeline && net.online
    requires CC.IdInvariant(c) && e.id in c.issued
    requires (step.PushData? && e.state == Started) || (step.Stop? && step.pipelineOk)
    ensures var stream := StreamInfo(if step.jpeg then SCENE_TYPE_D_CAMERA_PIC else SCENE_TYPE_D_CAMERA_STR, e.peer);
      EntryCount(Act(e, c, step, net).c, stream) == if step.PushData? then EntryCount(c, stream) + 1 else 0
  {
    var stream := StreamInfo(if step.jpeg then SCENE_TYPE_D_CAMERA_PIC else SCENE_TYPE_D_CAMERA_STR, e.peer);
    AcceptedIds(c, e.id);
    if step.PushData? {
      AddCounts(c, e.id, NoticeOf(e, step).event, stream);
    } else {
      RemoveCounts(c, e.id, NoticeOf(e, step).event, stream);
    }
  }

  // ----- a release does not take the stream away

  lemma {:induction false} LeftOverStays(sys: System, steps: seq<SystemStep>, i: nat, left: int)
    requires left >= 0
    ensures LeftOver(sys, steps, i, left) >= 0
    decreases |steps|
  {
    if steps != [] {
      LeftOverStays(SystemNext(sys, steps[0]), steps[1..], i, if IsStop(sys, steps[0], i) then 0 else left);
    }
  }

  /** A release after any such run leaves behind exactly the entries there were. Where no notice
      had been lost before the tracking, that is none if and only if there was no PushData
      entered in Started since the last successful Stop, and nothing was left over. */
  lemma ReleaseLeavesEntries(sys: System, steps: seq<SystemStep>, i: nat, net: Net, left: int)
    requires Tracked(sys, i, left) && LeavesAll(sys, steps, i)
    ensures var before := SystemRun(sys, steps);
      var released := SystemNext(before, EngineCall(i, Release, net));
      && i in before.engines && HasFixedScene(before.engines[i]) && !released.engines[i].initialized
      && var pushes, over := before.engines[i].pushes, LeftOver(sys, steps, i, left);
         var count := EntryCount(released.center, StreamOf(before.engines[i]));
         count == pushes + over && (left >= 0 ==> (count == 0 <==> pushes == 0 && over == 0))
  {
    EntriesMatchPushes(sys, steps, i, left);
    var before := SystemRun(sys, steps);
    var e := before.engines[i];
    OtherEngineKeepsCount(e, before.center, Release, net, StreamOf(e));
    if left >= 0 {
      LeftOverStays(sys, steps, i, left);
    }
  }

  /** For an engine without pushes at its initialisation, in particular a new one, nothing was
      lost: over every run from the start of the system it has at least one entry for each push,
      so at least one while it is playing. */
  lemma PlayingHasEntry(table: map<string, string>, engines: map<nat, Engine>, before: seq<SystemStep>, i: nat,
                        init: Step, net: Net, after: seq<SystemStep>)
    requires var sys := SystemRun(System(CC.Initial(table), engines), before);
      && Initialises(sys, i, init, net) && sys.engines[i].pushes == 0
      && LeavesAll(SystemNext(sys, EngineCall(i, init, net)), after, i)
    ensures var sys := SystemRun(System(CC.Initial(table), engines), before);
      var end := SystemRun(SystemNext(sys, EngineCall(i, init, net)), after);
      && i in end.engines && HasFixedScene(end.engines[i])
      && EntryCount(end.center, StreamOf(end.engines[i])) >= end.engines[i].pushes
      && (end.engines[i].state == Playing ==> EntryCount(end.center, StreamOf(end.engines[i])) >= 1)
  {
    EntriesOverWholeRun(table, engines, before, i, init, net, after);
    var sys := SystemRun(System(CC.Initial(table), engines), before);
    LeftOverStays(SystemNext(sys, EngineCall(i, init, net)), after, i, ForeignEntries(sys, i));
  }

  // ----- runs of one microphone sender

  lemma {:induction false} SystemRunOneMore(sys: System, steps: seq<SystemStep>, last: SystemStep)
    ensures SystemRun(sys, steps + [last]) == SystemNext(SystemRun(sys, steps), last)
    decreases |steps|
  {
    if steps == [] {
      assert steps + [last] == [last] && [last][1..] == [];
    } else {
      assert (steps + [last])[1..] == steps[1..] + [last];
      SystemRunOneMore(SystemNext(sys, steps[0]), steps[1..], last);
    }
  }

  const UP := Net(true, CC.Answers(5, 0, 0, 0))
  const DOWN := UP.(online := false)
  const INIT := Initialize(true, true, true, true, Offline, true, 0)
  const PUSH := PushData(true, true, false)

  /** A system with one new microphone sender. */
  function MicSystem(table: map<string, string>): System {
    System(CC.Initial(table), map[0 := NewEngine(OWNER_NAME_D_MIC, "A")])
  }

  /** The system can be reached, and its only engine is the microphone sender for A. */
  ghost predicate MicReached(table: map<string, string>, sys: System) {
    && (exists steps :: sys == SystemRun(MicSystem(table), steps))
    && sys.engines.Keys == {0} && sys.engines[0].owner == OWNER_NAME_D_MIC && sys.engines[0].peer == "A"
    && CC.IdInvariant(sys.center) && |sys.center.issued| <= 2
  }

  ghost predicate MicAt(table: map<string, string>, sys: System, state: StateId, pushes: nat) {
    && MicReached(table, sys) && Tracked(sys, 0, 0) && |sys.center.issued| == 1 && sys.center.initialized
    && var e := sys.engines[0]; e.output && e.state == state && e.pushes == pushes
  }

  lemma MicReaches(table: map<string, string>, sys: System, step: SystemStep)
    requires exists steps :: sys == SystemRun(MicSystem(table), steps)
    ensures exists steps :: SystemNext(sys, step) == SystemRun(MicSystem(table), steps)
  {
    var steps :| sys == SystemRun(MicSystem(table), steps);
    SystemRunOneMore(MicSystem(table), steps, step);
  }

  /** The microphone sender is initialised, for the first time or again. */
  lemma MicInitialises(table: map<string, string>, before: System) returns (sys: System)
    requires MicReached(table, before) && !before.engines[0].initialized && |before.center.issued| <= 1
    requires before.center.initialized || before.center.softbus.servers == map[]
    ensures MicReached(table, sys) && Tracked(sys, 0, ForeignEntries(before, 0))
    ensures |sys.center.issued| == |before.center.issued| + 1 && sys.center.initialized
    ensures sys.engines[0].output && sys.engines[0].state == Initialized
    ensures sys.engines[0].pushes == before.engines[0].pushes
  {
    var e, c := before.engines[0], before.center;
    MicReaches(table, before, EngineCall(0, INIT, UP));
    sys := SystemNext(before, EngineCall(0, INIT, UP));
    MicAsks(e, c);
    TrackingStarts(before, 0, INIT, UP);
    InitialisedEngine(e, c, INIT, UP);
    InitialisedFields(e, AnsweredStep(c, INIT, UP));
  }

  lemma MicAsks(e: Engine, c: CC.Center)
    requires e.owner == OWNER_NAME_D_MIC && e.peer == "A" && !e.initialized
    requires CC.IdInvariant(c) && |c.issued| <= 1 && (c.initialized || c.softbus.servers == map[])
    ensures var acted := ActInitialize(e, c, INIT, UP);
      acted.ret == DH_AVT_SUCCESS && |acted.c.issued| == |c.issued| + 1 && acted.c.initialized
  {
  }

  /** A new microphone sender, initialised, made ready and started. */
  lemma MicStarted(table: map<string, string>) returns (sys: System)
    ensures MicAt(table, sys, Started, 0)
  {
    var start := MicSystem(table);
    assert start == SystemRun(start, []);
    sys := MicInitialises(table, start);
    sys := MicNext(table, sys, SetReady(true, true), ChCreated, 0);
    sys := MicNext(table, sys, Start(true, DH_AVT_SUCCESS), Started, 0);
  }

  lemma MicNext(table: map<string, string>, before: System, step: Step, state: StateId, pushes: nat)
    returns (sys: System)
    requires 0 in before.engines && MicAt(table, before, before.engines[0].state, before.engines[0].pushes)
    requires step == SetReady(true, true) || step == Start(true, DH_AVT_SUCCESS) || step == PUSH
    requires var e := Next(before.engines[0], step).e; e.state == state && e.pushes == pushes
    ensures MicAt(table, sys, state, pushes)
  {
    var e, c := before.engines[0], before.center;
    MicReaches(table, before, EngineCall(0, step, UP));
    sys := SystemNext(before, EngineCall(0, step, UP));
    MicEngine(e, c, step);
    StepKeepsTrack(before, EngineCall(0, step, UP), 0, 0);
  }

  lemma MicEngine(e: Engine, c: CC.Center, step: Step)
    requires step == SetReady(true, true) || step == Start(true, DH_AVT_SUCCESS) || step == PUSH
    ensures Act(e, c, step, UP).c.issued == c.issued && Act(e, c, step, UP).c.initialized == c.initialized
    ensures Act(e, c, step, UP).e == Next(e, step).e
    ensures var e' := Next(e, step).e; e'.owner == e.owner && e'.peer == e.peer && e'.output == e.output
  {
    if step.Start? {
      CC.CreateOnlyBinds(c, e.id, e.peer, UP.answers);
    }
  }

  /** There is a run of a single microphone sender that starts, pushes once and is released, and
      leaves its entry in the list of a stream that no engine has any more. */
  lemma EntryLeftBehind(table: map<string, string>)
    ensures exists steps :: var sys := SystemRun(MicSystem(table), steps);
      && sys.engines.Keys == {0} && !sys.engines[0].initialized
      && EntryCount(sys.center, StreamInfo(SCENE_TYPE_D_MIC, "A")) == 1
  {
    var sys := MicStarted(table);
    sys := MicNext(table, sys, PUSH, Playing, 1);
    ReleaseLeavesEntries(sys, [], 0, UP, 0);
    MicReaches(table, sys, EngineCall(0, Release, UP));
  }

  /** A call while the centre cannot be reached changes the engine alone. */
  lemma OfflineNext(table: map<string, string>, before: System, step: Step) returns (sys: System)
    requires MicReached(table, before) && (step == PUSH || step == Release)
    ensures MicReached(table, sys) && sys.center == before.center && sys.engines[0] == Next(before.engines[0], step).e
  {
    MicReaches(table, before, EngineCall(0, step, DOWN));
    sys := SystemNext(before, EngineCall(0, step, DOWN));
  }

  /** There is a run in which left-overs are negative: the notice of a push was lost, the engine
      was released and initialised again. A release then leaves nothing behind, although the push
      is still counted. */
  lemma EntryLost(table: map<string, string>)
    ensures exists steps :: var sys := SystemRun(MicSystem(table), steps);
      && Tracked(sys, 0, -1) && sys.engines[0].pushes == 1
      && EntryCount(SystemNext(sys, EngineCall(0, Release, UP)).center, StreamOf(sys.engines[0])) == 0
  {
    var sys := MicStarted(table);
    sys := OfflineNext(table, sys, PUSH);
    sys := OfflineNext(table, sys, Release);
    sys := MicInitialises(table, sys);
    ReleaseLeavesEntries(sys, [], 0, UP, -1);
  }
}
