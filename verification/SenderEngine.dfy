/** The sender engine as a state machine. What foreign code answers is part of the step:
    filters, pipeline, softbus and the control centre behind the kit. */
module SenderEngine {
  import opened Errno
  import opened SessionKeys
  import opened SyncManager
  import ControlCenter

  datatype StateId = Idle | Initialized | ChCreated | Started | Playing | Stopped

  /** Calls to the channel adapter of the engine's process, under the engine's session. */
  datatype Request = RegisterListener(dev: string) | OpenChannel(dev: string) | CloseChannel(dev: string)
                   | UnregisterListener(dev: string)

  /** The booleans say which of the engine's references are set. The last three fields are
      history: the PushData calls entered in Started since the last successful Stop, the calls
      to the adapter, and the events the sender callback was told. */
  datatype Engine = Engine(
    owner: string,
    peer: string,
    id: int,
    state: StateId,
    initialized: bool,
    kit: bool,
    pipeline: bool,
    input: bool,
    output: bool,
    callback: bool,
    pushes: nat,
    requests: seq<Request>,
    told: seq<ChannelEvent>)

  function NewEngine(owner: string, peer: string): Engine {
    Engine(owner, peer, 0, Idle, false, false, false, false, false, false, 0, [], [])
  }

  /** The control centre's answer to an initialisation, if it could be asked. */
  datatype Answer = Offline | Answered(ret: int, id: int)

  datatype ChannelEvent = Opened | OpenFail | Closed | Other

  datatype Step =
    | Initialize(inputOk: bool, outputOk: bool, encodersOk: bool, linkOk: bool,
                 answer: Answer, allocOk: bool, callbackRet: int)
    | CreateChannel(devs: seq<string>, openRet: int)
    | SetReady(paramsOk: bool, prepareOk: bool)
    | Start(pipelineOk: bool, channelRet: int)
    | PushData(bufferOk: bool, filterOk: bool, jpeg: bool)
    | Stop(pipelineOk: bool, jpeg: bool)
    | Release
    | RegisterCallback(isNull: bool)
    | OnChannelEvent(event: ChannelEvent)

  datatype Done = Done(e: Engine, ret: int)

  predicate IsSupported(owner: string) {
    IsOwner(owner)
  }

  /** The pipeline part of an initialisation, and whether it succeeded. */
  function InitPipeline(e: Engine, step: Step): (Engine, bool)
    requires step.Initialize?
  {
    if !step.inputOk then (e.(input := false), false)
    else if !step.outputOk then (e.(input := true, output := false), false)
    else if !step.encodersOk then (e.(input := true, output := true), false)
    else (e.(input := true, output := true, pipeline := true), IsSupported(e.owner) && step.linkOk)
  }

  /** The part of an initialisation that follows the pipeline. */
  function Attach(e: Engine, step: Step): Done
    requires step.Initialize?
  {
    var e1 := e.(kit := true, id := if step.answer.Answered? then step.answer.id else e.id);
    if step.answer == Offline || step.answer.ret != DH_AVT_SUCCESS then Done(e1, ERR_DH_AVT_INIT_FAILED)
    else if !step.allocOk || step.callbackRet != DH_AVT_SUCCESS then Done(e1, ERR_DH_AVT_INIT_FAILED)
    else
      var requests := e.requests + [RegisterListener(e.peer)];
      if e.peer == "" then Done(e1.(requests := requests), ERR_DH_AVT_INIT_FAILED)
      else Done(e1.(requests := requests, initialized := true, state := Initialized), DH_AVT_SUCCESS)
  }

  function DoInitialize(e: Engine, step: Step): Done
    requires step.Initialize?
  {
    if e.initialized then Done(e, DH_AVT_SUCCESS)
    else
      var (e1, ok) := InitPipeline(e, step);
      if !ok then Done(e1, ERR_DH_AVT_INIT_FAILED) else Attach(e1, step)
  }

  /** The engine after a successful initialisation. */
  lemma InitialisedFields(e: Engine, step: Step)
    requires step.Initialize? && !e.initialized && DoInitialize(e, step).ret == DH_AVT_SUCCESS
    ensures step.answer.Answered? && step.answer.ret == DH_AVT_SUCCESS && InitPipeline(e, step).1
    ensures DoInitialize(e, step).e == e.(input := true, output := true, pipeline := true, kit := true,
      initialized := true, state := Initialized, id := step.answer.id,
      requests := e.requests + [RegisterListener(e.peer)])
  {
  }

  /** Exactly when an initialisation succeeds. */
  lemma InitializeSucceeds(e: Engine, step: Step)
    requires step.Initialize?
    ensures DoInitialize(e, step).ret == DH_AVT_SUCCESS <==>
      || e.initialized
      || (step.inputOk && step.outputOk && step.encodersOk && step.linkOk && IsSupported(e.owner) && e.peer != "" &&
          step.answer.Answered? && step.answer.ret == DH_AVT_SUCCESS && step.allocOk &&
          step.callbackRet == DH_AVT_SUCCESS)
    ensures DoInitialize(e, step).ret == DH_AVT_SUCCESS <==> DoInitialize(e, step).e.initialized
  {
  }

  /** Registering under an empty device id is refused, and then nothing is opened. */
  function ChannelRequests(dev: string): seq<Request> {
    [RegisterListener(dev)] + if dev == "" then [] else [OpenChannel(dev)]
  }

  function DoCreateChannel(e: Engine, devs: seq<string>, openRet: int): Done {
    if devs == [] then Done(e, ERR_DH_AVT_NULL_POINTER)
    else
      Done(e.(peer := devs[0], requests := e.requests + ChannelRequests(devs[0])),
           if devs[0] == "" then ERR_DH_AVT_CREATE_CHANNEL_FAILED
           else if openRet == ERR_DH_AVT_SESSION_HAS_OPENED then ERR_DH_AVT_CHANNEL_ALREADY_CREATED
           else if openRet != DH_AVT_SUCCESS then ERR_DH_AVT_CREATE_CHANNEL_FAILED
           else DH_AVT_SUCCESS)
  }

  /** SetParameter with the ready tag; it reports success even if preparing failed. */
  function DoSetReady(e: Engine, paramsOk: bool, prepareOk: bool): Done {
    if !e.input || !e.output || !e.pipeline then Done(e, ERR_DH_AVT_SETUP_FAILED)
    else if (e.state == Initialized || e.state == ChCreated) && paramsOk && prepareOk then
      Done(e.(state := ChCreated), DH_AVT_SUCCESS)
    else Done(e, DH_AVT_SUCCESS)
  }

  function DoStart(e: Engine, pipelineOk: bool, channelRet: int): Done {
    if e.state != ChCreated || !e.pipeline || !pipelineOk then Done(e, ERR_DH_AVT_START_FAILED)
    else if e.kit && channelRet != DH_AVT_SUCCESS then Done(e, ERR_DH_AVT_CREATE_CHANNEL_FAILED)
    else Done(e.(state := Started), DH_AVT_SUCCESS)
  }

  function DoPushData(e: Engine, bufferOk: bool, filterOk: bool): Done {
    if e.state != Started && e.state != Playing then Done(e, ERR_DH_AVT_PUSH_DATA_FAILED)
    else
      var ok := e.input && bufferOk && filterOk;
      Done(e.(pushes := if e.state == Started then e.pushes + 1 else e.pushes,
              state := if ok then Playing else e.state),
           if ok then DH_AVT_SUCCESS else ERR_DH_AVT_PUSH_DATA_FAILED)
  }

  function DoStop(e: Engine, pipelineOk: bool): Done {
    if !e.pipeline || !pipelineOk then Done(e, ERR_DH_AVT_STOP_FAILED)
    else Done(e.(state := Stopped, pushes := 0), DH_AVT_SUCCESS)
  }

  function DoRelease(e: Engine): Done {
    Done(e.(state := Idle, initialized := false, kit := false, pipeline := false, input := false, output := false,
            callback := false, requests := e.requests + [CloseChannel(e.peer)] + [UnregisterListener(e.peer)]),
         DH_AVT_SUCCESS)
  }

  function DoRegisterCallback(e: Engine, isNull: bool): Done {
    if isNull then Done(e, ERR_DH_AVT_INVALID_PARAM) else Done(e.(callback := true), DH_AVT_SUCCESS)
  }

  function DoChannelEvent(e: Engine, event: ChannelEvent): Engine {
    if !e.callback then e
    else
      match event
      case Opened => e.(state := ChCreated, told := e.told + [event])
      case OpenFail => e.(state := Initialized, told := e.told + [event])
      case Closed =>
        if e.state != Idle && e.state != Initialized then e.(state := Initialized, told := e.told + [event]) else e
      case Other => e
  }

  function Next(e: Engine, step: Step): Done {
    match step
    case Initialize(_, _, _, _, _, _, _) => DoInitialize(e, step)
    case CreateChannel(devs, openRet) => DoCreateChannel(e, devs, openRet)
    case SetReady(paramsOk, prepareOk) => DoSetReady(e, paramsOk, prepareOk)
    case Start(pipelineOk, channelRet) => DoStart(e, pipelineOk, channelRet)
    case PushData(bufferOk, filterOk, _) => DoPushData(e, bufferOk, filterOk)
    case Stop(pipelineOk, _) => DoStop(e, pipelineOk)
    case Release => DoRelease(e)
    case RegisterCallback(isNull) => DoRegisterCallback(e, isNull)
    case OnChannelEvent(event) => Done(DoChannelEvent(e, event), DH_AVT_SUCCESS)
  }

  // ----- notices to the control centre

  datatype Notice = Silent | Notice(event: ControlCenter.Event)

  /** The stream change the engine announces, if its owner has a scene and it has a kit. */
  function StreamNotice(e: Engine, kind: ControlCenter.EventType, jpeg: bool): Notice {
    if !e.kit then Silent
    else if e.owner == OWNER_NAME_D_MIC then Notice(ControlCenter.Event(kind, SCENE_TYPE_D_MIC, e.peer))
    else if e.owner == OWNER_NAME_D_SPEAKER then Notice(ControlCenter.Event(kind, SCENE_TYPE_D_SPEAKER, e.peer))
    else if e.owner == OWNER_NAME_D_SCREEN then Notice(ControlCenter.Event(kind, SCENE_TYPE_D_SCREEN, e.peer))
    else if e.owner == OWNER_NAME_D_CAMERA && e.input then
      Notice(ControlCenter.Event(kind, if jpeg then SCENE_TYPE_D_CAMERA_PIC else SCENE_TYPE_D_CAMERA_STR, e.peer))
    else Silent
  }

  function NoticeOf(e: Engine, step: Step): Notice {
    match step
    case PushData(_, _, jpeg) => if e.state == Started then StreamNotice(e, ControlCenter.AddStream, jpeg) else Silent
    case Stop(pipelineOk, jpeg) =>
      if e.pipeline && pipelineOk then StreamNotice(e, ControlCenter.RemoveStream, jpeg) else Silent
    case _ => Silent
  }

  // ----- the start window

  /** The engine after all of `steps`. */
  function After(e: Engine, steps: seq<Step>): Engine {
    if steps == [] then e else Next(After(e, steps[..|steps| - 1]), steps[|steps| - 1]).e
  }

  /** A step that ends the window in which data may be pushed. The last case is an engine that was
      started without ever having been successfully initialised. */
  predicate EndsWindow(e: Engine, step: Step) {
    || (step.Stop? && Next(e, step).ret == DH_AVT_SUCCESS)
    || step.Release?
    || (step.OnChannelEvent? && step.event != Other && e.callback)
    || (step.Initialize? && !e.initialized && Next(e, step).ret == DH_AVT_SUCCESS)
  }

  /** Step `i` is a successful Start made in ChCreated, and no later step ends the window. */
  ghost predicate WindowOpenSince(e: Engine, steps: seq<Step>, i: nat) {
    && i < |steps|
    && steps[i].Start?
    && After(e, steps[..i]).state == ChCreated
    && Next(After(e, steps[..i]), steps[i]).ret == DH_AVT_SUCCESS
    && (forall j :: i < j < |steps| ==> !EndsWindow(After(e, steps[..j]), steps[j]))
  }

  predicate IsRunning(e: Engine) {
    e.state == Started || e.state == Playing
  }

  /** Exactly the steps that enter or keep a running state. */
  lemma RunningStep(e: Engine, step: Step)
    ensures IsRunning(Next(e, step).e) <==>
      if IsRunning(e) then !EndsWindow(e, step)
      else step.Start? && e.state == ChCreated && Next(e, step).ret == DH_AVT_SUCCESS
  {
  }

  lemma WindowExtends(e: Engine, steps: seq<Step>, i: nat)
    requires steps != [] && WindowOpenSince(e, steps[..|steps| - 1], i)
    requires !EndsWindow(After(e, steps[..|steps| - 1]), steps[|steps| - 1])
    ensures WindowOpenSince(e, steps, i)
  {
    var n := |steps| - 1;
    assert steps[..n][..i] == steps[..i];
    forall j | i < j < |steps| ensures !EndsWindow(After(e, steps[..j]), steps[j]) {
      if j < n {
        assert steps[..n][..j] == steps[..j] && steps[..n][j] == steps[j];
      }
    }
  }

  lemma {:induction false} RunningMeansStarted(e: Engine, steps: seq<Step>)
    requires !IsRunning(e) && IsRunning(After(e, steps))
    ensures exists i: nat :: WindowOpenSince(e, steps, i)
  {
    if steps != [] {
      var n := |steps| - 1;
      RunningStep(After(e, steps[..n]), steps[n]);
      if IsRunning(After(e, steps[..n])) {
        RunningMeansStarted(e, steps[..n]);
        var i: nat :| WindowOpenSince(e, steps[..n], i);
        WindowExtends(e, steps, i);
      } else {
        assert WindowOpenSince(e, steps, n);
      }
    }
  }

  lemma {:induction false} WindowMeansRunning(e: Engine, steps: seq<Step>, i: nat)
    requires WindowOpenSince(e, steps, i)
    ensures IsRunning(After(e, steps))
    decreases |steps|
  {
    var n := |steps| - 1;
    if i < n {
      WindowShrinks(e, steps, i);
      WindowMeansRunning(e, steps[..n], i);
    }
    LastOfWindow(After(e, steps[..n]), steps[n]);
  }

  lemma LastOfWindow(e: Engine, last: Step)
    requires if IsRunning(e) then !EndsWindow(e, last)
      else last.Start? && e.state == ChCreated && Next(e, last).ret == DH_AVT_SUCCESS
    ensures IsRunning(Next(e, last).e)
  {
    RunningStep(e, last);
  }

  lemma WindowShrinks(e: Engine, steps: seq<Step>, i: nat)
    requires WindowOpenSince(e, steps, i) && i < |steps| - 1
    ensures WindowOpenSince(e, steps[..|steps| - 1], i)
    ensures !EndsWindow(After(e, steps[..|steps| - 1]), steps[|steps| - 1])
  {
    var n := |steps| - 1;
    assert steps[..n][..i] == steps[..i];
    forall j | i < j < n ensures !EndsWindow(After(e, steps[..n][..j]), steps[..n][j]) {
      assert steps[..n][..j] == steps[..j];
    }
  }

  /** Over every run of a new engine a PushData succeeds exactly if such a window is open, the
      input filter is there, and buffer and filter are good. */
  lemma PushSucceedsInWindow(owner: string, peer: string, steps: seq<Step>, push: Step)
    requires push.PushData?
    ensures var e := After(NewEngine(owner, peer), steps);
      Next(e, push).ret == DH_AVT_SUCCESS <==>
        && (exists i: nat :: WindowOpenSince(NewEngine(owner, peer), steps, i))
        && e.input && push.bufferOk && push.filterOk
  {
    var start := NewEngine(owner, peer);
    if IsRunning(After(start, steps)) {
      RunningMeansStarted(start, steps);
    } else if i: nat :| WindowOpenSince(start, steps, i) {
      WindowMeansRunning(start, steps, i);
    }
  }

  /** Over every run of a new engine a PushData succeeds only if a successful Start was made
      in ChCreated with no successful Stop, no Release and no handled channel event since. */
  lemma PushNeedsOpenWindow(owner: string, peer: string, steps: seq<Step>, push: Step)
    requires push.PushData? && Next(After(NewEngine(owner, peer), steps), push).ret == DH_AVT_SUCCESS
    ensures exists i: nat :: WindowOpenSince(NewEngine(owner, peer), steps, i)
  {
    RunningMeansStarted(NewEngine(owner, peer), steps);
  }

  const LINK_FAILS := Initialize(true, true, true, false, Offline, true, 0)
  const ALL_GOOD := Initialize(true, true, true, true, Answered(DH_AVT_SUCCESS, 1000), true, 0)

  lemma OneStep(e: Engine, step: Step)
    ensures After(e, [step]) == Next(e, step).e
  {
    assert [step][..0] == [];
  }

  lemma OneStepMore(e: Engine, steps: seq<Step>, step: Step)
    ensures After(e, steps + [step]) == Next(After(e, steps), step).e
  {
    assert (steps + [step])[..|steps|] == steps;
  }

  /** A run in which the last case of `EndsWindow` matters: the first initialisation fails after it
      built the pipeline, an opened event makes the engine startable, and the initialisation that
      succeeds takes it out of the running state. */
  lemma StartedUninitialised(peer: string) returns (steps: seq<Step>)
    requires peer != ""
    ensures var e := After(NewEngine(OWNER_NAME_D_MIC, peer), steps);
      && !e.initialized && Next(e, PushData(true, true, false)).ret == DH_AVT_SUCCESS
      && Next(e, ALL_GOOD).ret == DH_AVT_SUCCESS
      && Next(Next(e, ALL_GOOD).e, PushData(true, true, false)).ret != DH_AVT_SUCCESS
  {
    var e := NewEngine(OWNER_NAME_D_MIC, peer);
    steps := [LINK_FAILS];
    OneStep(e, LINK_FAILS);
    OneStepMore(e, steps, RegisterCallback(false));
    steps := steps + [RegisterCallback(false)];
    OneStepMore(e, steps, OnChannelEvent(Opened));
    steps := steps + [OnChannelEvent(Opened)];
    OneStepMore(e, steps, Start(true, DH_AVT_SUCCESS));
    steps := steps + [Start(true, DH_AVT_SUCCESS)];
  }

  // ----- what makes an engine startable

  /** Right after a channel event that is handled, a Start succeeds exactly if the channel was
      opened. */
  lemma StartAfterEvent(e: Engine, event: ChannelEvent)
    requires e.callback && e.pipeline && event != Other
    ensures Next(DoChannelEvent(e, event), Start(true, DH_AVT_SUCCESS)).ret == DH_AVT_SUCCESS <==> event == Opened
  {
  }

  /** Right after the engine was made ready, a Start succeeds exactly if it could be started
      before, or was initialised and the preparation went well. */
  lemma StartAfterReady(e: Engine, paramsOk: bool, prepareOk: bool)
    requires e.pipeline && e.input && e.output
    ensures Next(DoSetReady(e, paramsOk, prepareOk).e, Start(true, DH_AVT_SUCCESS)).ret == DH_AVT_SUCCESS <==>
      e.state == ChCreated || (e.state == Initialized && paramsOk && prepareOk)
  {
  }

  /** Without pipeline and input filter, and in no running state. */
  predicate IsInert(e: Engine) {
    !e.initialized && !e.pipeline && !e.input && !IsRunning(e)
  }

  lemma InertStep(e: Engine, step: Step)
    requires IsInert(e) && !step.Initialize?
    ensures IsInert(Next(e, step).e)
    ensures step.SetReady? || step.Start? || step.PushData? || step.Stop? ==> Next(e, step).ret != DH_AVT_SUCCESS
  {
  }

  lemma {:induction false} InertRun(e: Engine, steps: seq<Step>)
    requires IsInert(e) && forall i :: 0 <= i < |steps| ==> !steps[i].Initialize?
    ensures IsInert(After(e, steps))
  {
    if steps != [] {
      InertRun(e, steps[..|steps| - 1]);
      InertStep(After(e, steps[..|steps| - 1]), steps[|steps| - 1]);
    }
  }

  /** From its release to its next initialisation an engine can neither be made ready, started,
      fed nor stopped, whatever events reach it. */
  lemma ReleasedIsInert(e: Engine, steps: seq<Step>, call: Step)
    requires forall i :: 0 <= i < |steps| ==> !steps[i].Initialize?
    requires call.SetReady? || call.Start? || call.PushData? || call.Stop?
    ensures Next(After(DoRelease(e).e, steps), call).ret != DH_AVT_SUCCESS
  {
    InertRun(DoRelease(e).e, steps);
    InertStep(After(DoRelease(e).e, steps), call);
  }

  // ----- what the sender callback is told

  /** The event reaches the callback: there is one, and a channel that was not up is not reported
      as closed. */
  predicate IsHandled(e: Engine, event: ChannelEvent) {
    e.callback && event != Other && (event == Closed ==> e.state != Idle && e.state != Initialized)
  }

  /** Whether the calls leave the engine with a sender callback: one was registered, and the engine
      was not released since. */
  function LeavesCallback(steps: seq<Step>): bool {
    if steps == [] then false
    else
      match steps[|steps| - 1]
      case RegisterCallback(isNull) => !isNull || LeavesCallback(steps[..|steps| - 1])
      case Release => false
      case _ => LeavesCallback(steps[..|steps| - 1])
  }

  lemma {:induction false} CallbackOfRun(owner: string, peer: string, steps: seq<Step>)
    ensures After(NewEngine(owner, peer), steps).callback == LeavesCallback(steps)
  {
    if steps != [] {
      CallbackOfRun(owner, peer, steps[..|steps| - 1]);
      CallbackAfter(After(NewEngine(owner, peer), steps[..|steps| - 1]), steps[|steps| - 1]);
    }
  }

  lemma CallbackAfter(e: Engine, step: Step)
    ensures Next(e, step).e.callback == ((e.callback && !step.Release?) || step == RegisterCallback(false))
  {
    if step.Initialize? {
      InitializeKeepsCallback(e, step);
    }
  }

  lemma InitializeKeepsCallback(e: Engine, step: Step)
    requires step.Initialize?
    ensures DoInitialize(e, step).e.callback == e.callback
  {
    if !e.initialized && InitPipeline(e, step).1 {
      assert Attach(InitPipeline(e, step).0, step).e.callback == InitPipeline(e, step).0.callback;
    }
  }

  /** The handled events of a run, in order. */
  function HandledEvents(e: Engine, steps: seq<Step>): seq<ChannelEvent> {
    if steps == [] then []
    else
      var n := |steps| - 1;
      HandledEvents(e, steps[..n]) +
      if steps[n].OnChannelEvent? && IsHandled(After(e, steps[..n]), steps[n].event) then [steps[n].event] else []
  }

  lemma InitializeTellsNothing(e: Engine, step: Step)
    requires step.Initialize?
    ensures InitPipeline(e, step).0.told == e.told && Attach(e, step).e.told == e.told
    ensures DoInitialize(e, step).e.told == e.told
  {
    if !e.initialized && InitPipeline(e, step).1 {
      var e1 := InitPipeline(e, step).0;
      assert Attach(e1, step).e.told == e1.told;
    }
  }

  lemma OthersTellNothing(e: Engine, step: Step)
    requires !step.OnChannelEvent?
    ensures Next(e, step).e.told == e.told
  {
    if step.Initialize? {
      InitializeTellsNothing(e, step);
    }
  }

  lemma TellStep(e: Engine, event: ChannelEvent)
    ensures DoChannelEvent(e, event).told == if IsHandled(e, event) then e.told + [event] else e.told
  {
  }

  /** In every run the callback is told exactly the handled events, in order. */
  lemma {:induction false} ToldIsHandled(e: Engine, steps: seq<Step>)
    ensures After(e, steps).told == e.told + HandledEvents(e, steps)
  {
    if steps != [] {
      var before, last := After(e, steps[..|steps| - 1]), steps[|steps| - 1];
      ToldIsHandled(e, steps[..|steps| - 1]);
      if last.OnChannelEvent? {
        TellStep(before, last.event);
      } else {
        OthersTellNothing(before, last);
      }
    }
  }

  // ----- registrations with the channel adapter

  function AfterRequest(registered: set<string>, r: Request): set<string> {
    match r
    case RegisterListener(dev) => if dev == "" then registered else registered + {dev}
    case UnregisterListener(dev) => registered - {dev}
    case _ => registered
  }

  /** The devices under which the engine is registered after its calls to the adapter. */
  function Registered(requests: seq<Request>): set<string> {
    if requests == [] then {}
    else AfterRequest(Registered(requests[..|requests| - 1]), requests[|requests| - 1])
  }

  lemma OneMoreRequest(requests: seq<Request>, r: Request)
    ensures Registered(requests + [r]) == AfterRequest(Registered(requests), r)
  {
    assert (requests + [r])[..|requests|] == requests;
  }

  /** The step registers the engine under `dev`: CreateControlChannel does so whatever happens
      next, and an initialisation that the control centre has accepted. */
  predicate RegistersUnder(e: Engine, step: Step, dev: string) {
    || (step.CreateChannel? && step.devs != [] && step.devs[0] == dev)
    || (step.Initialize? && Next(e, step).e.initialized && !e.initialized && e.peer == dev)
  }

  lemma CreateRegisters(e: Engine, devs: seq<string>, openRet: int)
    requires devs != []
    ensures Registered(DoCreateChannel(e, devs, openRet).e.requests)
         == AfterRequest(Registered(e.requests), RegisterListener(devs[0]))
  {
    var first := e.requests + [RegisterListener(devs[0])];
    OneMoreRequest(e.requests, RegisterListener(devs[0]));
    OneMoreRequest(first, OpenChannel(devs[0]));
    assert e.requests + ChannelRequests(devs[0]) == if devs[0] == "" then first else first + [OpenChannel(devs[0])];
  }

  lemma InitializeRegisters(e: Engine, step: Step)
    requires step.Initialize?
    ensures var e' := DoInitialize(e, step).e;
      Registered(e'.requests) == Registered(e.requests) + (if e'.initialized && !e.initialized then {e.peer} else {})
  {
    OneMoreRequest(e.requests, RegisterListener(e.peer));
  }

  lemma OthersRegisterNothing(e: Engine, step: Step)
    requires !step.Initialize? && !step.CreateChannel? && !step.Release?
    ensures Next(e, step).e.requests == e.requests
  {
  }

  lemma StepRegisters(e: Engine, step: Step, dev: string)
    requires !step.Release?
    ensures dev in Registered(Next(e, step).e.requests) <==>
      dev in Registered(e.requests) || (dev != "" && RegistersUnder(e, step, dev))
  {
    if step.CreateChannel? && step.devs != [] {
      CreateRegisters(e, step.devs, step.openRet);
    } else if step.Initialize? {
      InitializeRegisters(e, step);
    } else if !step.CreateChannel? {
      OthersRegisterNothing(e, step);
    }
  }

  /** The `i`-th step of a run registers the engine under `dev`. */
  ghost predicate RegistersAt(e: Engine, steps: seq<Step>, i: nat, dev: string) {
    i < |steps| && RegistersUnder(After(e, steps[..i]), steps[i], dev)
  }

  lemma FrontRegistersAt(e: Engine, steps: seq<Step>, i: nat, dev: string)
    requires i < |steps| - 1
    ensures RegistersAt(e, steps[..|steps| - 1], i, dev) <==> RegistersAt(e, steps, i, dev)
  {
    assert steps[..|steps| - 1][..i] == steps[..i];
  }

  /** In a run without a release the engine is registered under exactly the devices it was ever
      given, the earlier ones included. */
  lemma {:induction false} RegisteredUnderAll(e: Engine, steps: seq<Step>, dev: string)
    requires e.requests == [] && forall i :: 0 <= i < |steps| ==> !steps[i].Release?
    ensures dev in Registered(After(e, steps).requests) <==> dev != "" && exists i: nat :: RegistersAt(e, steps, i, dev)
  {
    if steps != [] {
      var n := |steps| - 1;
      RegisteredUnderAll(e, steps[..n], dev);
      StepRegisters(After(e, steps[..n]), steps[n], dev);
      forall i: nat | i < n ensures RegistersAt(e, steps[..n], i, dev) <==> RegistersAt(e, steps, i, dev) {
        FrontRegistersAt(e, steps, i, dev);
      }
      assert RegistersAt(e, steps, n, dev) <==> RegistersUnder(After(e, steps[..n]), steps[n], dev);
    }
  }

  /** So a release, which unregisters the current peer only, leaves the engine registered
      exactly under the other devices it was given before. */
  lemma ReleaseLeavesRegistered(owner: string, peer: string, steps: seq<Step>, dev: string)
    requires forall i :: 0 <= i < |steps| ==> !steps[i].Release?
    ensures var e := After(NewEngine(owner, peer), steps);
      dev in Registered(DoRelease(e).e.requests) <==>
        dev != "" && dev != e.peer && exists i: nat :: RegistersAt(NewEngine(owner, peer), steps, i, dev)
  {
    var e := After(NewEngine(owner, peer), steps);
    RegisteredUnderAll(NewEngine(owner, peer), steps, dev);
    ReleaseUnregistersPeer(e);
  }

  lemma ReleaseUnregistersPeer(e: Engine)
    ensures Registered(DoRelease(e).e.requests) == Registered(e.requests) - {e.peer}
  {
    OneMoreRequest(e.requests, CloseChannel(e.peer));
    OneMoreRequest(e.requests + [CloseChannel(e.peer)], UnregisterListener(e.peer));
    assert DoRelease(e).e.requests == e.requests + [CloseChannel(e.peer)] + [UnregisterListener(e.peer)];
  }

  /** A run that shows it: an engine given A and then B is still registered under A when it is
      released. */
  lemma RegisteredAfterRelease(owner: string)
    ensures var given := [CreateChannel(["A"], DH_AVT_SUCCESS), CreateChannel(["B"], DH_AVT_SUCCESS)];
      Registered(DoRelease(After(NewEngine(owner, "A"), given)).e.requests) == {"A"}
  {
    var a, b := CreateChannel(["A"], DH_AVT_SUCCESS), CreateChannel(["B"], DH_AVT_SUCCESS);
    var e := NewEngine(owner, "A");
    var e1 := Next(e, a).e;
    var e2 := Next(e1, b).e;
    assert After(e, [a]) == e1 by { assert [a][..0] == []; }
    assert After(e, [a, b]) == e2 by { assert [a, b][..1] == [a]; }
    CreateRegisters(e, ["A"], DH_AVT_SUCCESS);
    CreateRegisters(e1, ["B"], DH_AVT_SUCCESS);
    ReleaseUnregistersPeer(e2);
  }
}
