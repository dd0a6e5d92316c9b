/** The A/V transport control centre: engine ids, and control channels shared by engines, on
    the channel adapter of its process. */
module ControlCenter {
  import opened Collections
  import opened Errno
  import opened SessionKeys
  import opened SyncManager
  import Adapter = ChannelAdapter

  const BASE_ENGINE_ID := 1000
  const INVALID_ENGINE_ID := -1
  const INT32_MAX := 0x7fff_ffff
  const INT32_MIN := -0x8000_0000

  const PKG_NAME_DH_FWK := "ohos.dhardware"
  const SENDER := AV_SYNC_SENDER_CONTROL_SESSION_NAME
  const RECEIVER := AV_SYNC_RECEIVER_CONTROL_SESSION_NAME
  const ANY_DEVICE := AV_TRANS_SPECIAL_DEVICE_ID

  /** The centre as a listener of the adapter. */
  const SELF := Adapter.Client(0)

  datatype TransRole = AVSender | AVReceiver | Unknown

  datatype EventType = AddStream | RemoveStream | Other

  datatype Event = Event(kind: EventType, content: string, peerDevId: string)

  /** What the softbus answers to the calls the adapter makes. */
  datatype Answers = Answers(socket: int, listen: int, bind: int, timeSync: int)

  /** The last three fields are history: the ids handed out, the opened events that were
      handled, and the peers whose channel a release closed. */
  datatype Center = Center(
    rootEngineId: int,
    initialized: bool,
    sessionName: string,
    connected: seq<string>,
    engine2DevId: map<int, string>,
    callbacks: map<int, nat>,
    sync: SyncState,
    softbus: Adapter.State,
    issued: seq<int>,
    opens: seq<Adapter.Event>,
    closes: seq<string>)

  /** The centre and its adapter at the start, for any table of peer session names. */
  function Initial(table: map<string, string>): Center {
    Center(BASE_ENGINE_ID, false, "", [], map[], map[], INITIAL, Adapter.Initial(table), [], [], [])
  }

  datatype Done = Done(c: Center, ret: int)

  predicate IsInvalidEngineId(c: Center, id: int) {
    id < BASE_ENGINE_ID || id > c.rootEngineId
  }

  /** The atomic 32-bit counter wraps. */
  function Increment(x: int): int {
    if x == INT32_MAX then INT32_MIN else x + 1
  }

  function Issue(c: Center): Center {
    c.(rootEngineId := Increment(c.rootEngineId), issued := c.issued + [c.rootEngineId])
  }

  /** The centre listens to a control session, whatever the device. */
  function Listen(bus: Adapter.State, sess: string): Adapter.State {
    Adapter.Register(bus, sess, ANY_DEVICE, SELF).st
  }

  /** The id is the second result: the one issued, or the invalid one. */
  function Initialize(c: Center, role: TransRole, answers: Answers): (Done, int) {
    if role == Unknown then (Done(c, ERR_DH_AVT_INVALID_PARAM_VALUE), INVALID_ENGINE_ID)
    else if c.initialized then (Done(Issue(c), DH_AVT_SUCCESS), c.rootEngineId)
    else
      var served := Adapter.CreateServer(c.softbus, PKG_NAME_DH_FWK, RECEIVER, answers.socket, answers.listen);
      if served.ret != DH_AVT_SUCCESS then (Done(c.(softbus := served.st), served.ret), INVALID_ENGINE_ID)
      else
        var heard := c.(initialized := true, softbus := Listen(served.st, RECEIVER));
        (Done(Issue(heard), DH_AVT_SUCCESS), c.rootEngineId)
  }

  /** The list without the first occurrence of `x`. */
  function RemoveFirst(s: seq<string>, x: string): seq<string> {
    if s == [] then [] else if s[0] == x then s[1..] else [s[0]] + RemoveFirst(s[1..], x)
  }

  predicate BoundTo(m: map<int, string>, dev: string) {
    exists e :: e in m && m[e] == dev
  }

  /** The four calls that close the channel of a peer: they name the session of the last opened
      event, and they end both of the centre's registrations, which all peers share. */
  function Hangup(bus: Adapter.State, sess: string, dev: string, answers: Answers): Adapter.State {
    var stopped := Adapter.StopTimeSync(bus, sess, dev, answers.timeSync).st;
    var closed := Adapter.CloseChannel(stopped, sess, dev).st;
    Adapter.Unregister(Adapter.Unregister(closed, SENDER, ANY_DEVICE).st, RECEIVER, ANY_DEVICE).st
  }

  function Release(c: Center, id: int, answers: Answers): Done {
    if IsInvalidEngineId(c, id) then Done(c, ERR_DH_AVT_INVALID_PARAM_VALUE)
    else
      var c1 := c.(callbacks := c.callbacks - {id});
      if id !in c.engine2DevId then Done(c1, DH_AVT_SUCCESS)
      else
        var dev := c.engine2DevId[id];
        var c2 := c1.(engine2DevId := c.engine2DevId - {id});
        if BoundTo(c2.engine2DevId, dev) || dev !in c.connected then Done(c2, DH_AVT_SUCCESS)
        else
          Done(c2.(connected := RemoveFirst(c.connected, dev),
                   softbus := Hangup(c.softbus, c.sessionName, dev, answers),
                   closes := c.closes + [dev]),
               DH_AVT_SUCCESS)
  }

  function Bind(m: map<int, string>, id: int, dev: string): map<int, string> {
    if id in m then m else m[id := dev]
  }

  function CreateControlChannel(c: Center, id: int, dev: string, answers: Answers): Done {
    if IsInvalidEngineId(c, id) then Done(c, ERR_DH_AVT_INVALID_PARAM_VALUE)
    else if !c.initialized then Done(c, ERR_DH_AVT_CREATE_CHANNEL_FAILED)
    else if dev in c.connected then
      Done(c.(engine2DevId := Bind(c.engine2DevId, id, dev)), ERR_DH_AVT_CHANNEL_ALREADY_CREATED)
    else
      var bus := Listen(c.softbus, SENDER);
      var dialled := Adapter.OpenChannel(bus, SENDER, RECEIVER, dev, answers.socket, answers.bind);
      var c1 := c.(softbus := dialled.st);
      if dialled.ret != DH_AVT_SUCCESS && dialled.ret != ERR_DH_AVT_SESSION_HAS_OPENED then Done(c1, dialled.ret)
      else Done(c1.(engine2DevId := Bind(c.engine2DevId, id, dev)), DH_AVT_SUCCESS)
  }

  function Notify(c: Center, id: int, event: Event): Done {
    if IsInvalidEngineId(c, id) then Done(c, ERR_DH_AVT_INVALID_PARAM_VALUE)
    else
      var stream := StreamInfo(event.content, event.peerDevId);
      match event.kind
      case AddStream => Done(c.(sync := Added(c.sync, stream)), DH_AVT_SUCCESS)
      case RemoveStream => Done(c.(sync := Removed(c.sync, stream)), DH_AVT_SUCCESS)
      case Other => Done(c, DH_AVT_SUCCESS)
  }

  datatype Callback = NullCallback | Callback(id: nat)

  function RegisterCallback(c: Center, id: int, callback: Callback): Done {
    if IsInvalidEngineId(c, id) || callback == NullCallback then Done(c, ERR_DH_AVT_INVALID_PARAM_VALUE)
    else if id in c.callbacks then Done(c, DH_AVT_SUCCESS)
    else Done(c.(callbacks := c.callbacks[id := callback.id]), DH_AVT_SUCCESS)
  }

  /** An event that the adapter delivers to the centre. */
  function ChannelEvent(c: Center, event: Adapter.Event, answers: Answers): Center {
    if event.kind != Adapter.ChannelOpened then c
    else
      c.(sessionName := event.content,
         softbus := if event.content != RECEIVER then c.softbus
                    else Adapter.StartTimeSync(c.softbus, event.content, event.peerDevId, answers.timeSync).st,
         connected := c.connected + [event.peerDevId],
         opens := c.opens + [event])
  }

  /** Callbacks of the softbus, and detached threads of the adapter. The centre is the only
      client of the adapter in its process, so all other steps of the adapter are its own. */
  predicate FromSoftbus(step: Adapter.Step) {
    step.OnOpened? || step.OnClosed? || step.OnBytes? || step.OnStream? || step.OnTimeSync? || step.ThreadRuns?
  }

  /** The thread about to run finds the centre registered under its key. */
  predicate CallsCentre(bus: Adapter.State, step: Adapter.Step) {
    step.ThreadRuns? && step.i < |bus.threads| && Adapter.ListenerOf(bus.listeners, bus.threads[step.i].key) == SELF
  }

  function SoftbusStep(c: Center, step: Adapter.Step, answers: Answers): Center {
    if !FromSoftbus(step) then c
    else
      var c1 := c.(softbus := Adapter.Next(Adapter.Inserting, c.softbus, step));
      if CallsCentre(c.softbus, step) then ChannelEvent(c1, c.softbus.threads[step.i].event, answers) else c1
  }

  // ----- runs

  datatype Step =
    | DoInitialize(role: TransRole, answers: Answers)
    | DoRelease(id: int, answers: Answers)
    | DoCreate(id: int, dev: string, answers: Answers)
    | DoNotify(id: int, event: Event)
    | DoRegisterCallback(id: int, callback: Callback)
    | Softbus(step: Adapter.Step, answers: Answers)

  function Next(c: Center, step: Step): Center {
    match step
    case DoInitialize(role, answers) => Initialize(c, role, answers).0.c
    case DoRelease(id, answers) => Release(c, id, answers).c
    case DoCreate(id, dev, answers) => CreateControlChannel(c, id, dev, answers).c
    case DoNotify(id, event) => Notify(c, id, event).c
    case DoRegisterCallback(id, callback) => RegisterCallback(c, id, callback).c
    case Softbus(s, answers) => SoftbusStep(c, s, answers)
  }

  function Run(c: Center, steps: seq<Step>): Center
    decreases |steps|
  {
    if steps == [] then c else Run(Next(c, steps[0]), steps[1..])
  }

  lemma {:induction false} RunConcat(c: Center, a: seq<Step>, b: seq<Step>)
    ensures Run(c, a + b) == Run(Run(c, a), b)
    decreases |a|
  {
    if a == [] {
      assert a + b == b;
    } else {
      assert (a + b)[1..] == a[1..] + b;
      RunConcat(Next(c, a[0]), a[1..], b);
    }
  }

  lemma RunOne(c: Center, step: Step)
    ensures Run(c, [step]) == Next(c, step)
  {
    assert [step][1..] == [];
  }

  lemma RunOneMore(c: Center, steps: seq<Step>, last: Step)
    ensures Run(c, steps + [last]) == Next(Run(c, steps), last)
  {
    RunConcat(c, steps, [last]);
    RunOne(Run(c, steps), last);
  }

  lemma RunPrefix(c: Center, steps: seq<Step>, k: nat)
    requires k < |steps|
    ensures Run(c, steps[..k + 1]) == Next(Run(c, steps[..k]), steps[k])
  {
    assert steps[..k + 1] == steps[..k] + [steps[k]];
    RunOneMore(c, steps[..k], steps[k]);
  }

  // ----- engine ids

  /** The counter has not yet reached the end of the 32-bit range. */
  ghost predicate IdsInRange(c: Center) {
    BASE_ENGINE_ID + |c.issued| <= INT32_MAX
  }

  ghost predicate IdInvariant(c: Center) {
    && c.rootEngineId == BASE_ENGINE_ID + |c.issued|
    && (forall i :: 0 <= i < |c.issued| ==> c.issued[i] == BASE_ENGINE_ID + i)
  }

  /** Only an initialisation touches the ids. */
  lemma StepIssues(c: Center, step: Step)
    ensures var c' := Next(c, step);
      if c'.issued == c.issued then c'.rootEngineId == c.rootEngineId
      else c'.issued == c.issued + [c.rootEngineId] && c'.rootEngineId == Increment(c.rootEngineId)
  {
  }

  lemma {:induction false} RunGrowsIssued(c: Center, steps: seq<Step>)
    ensures c.issued <= Run(c, steps).issued
    decreases |steps|
  {
    if steps != [] {
      StepIssues(c, steps[0]);
      RunGrowsIssued(Next(c, steps[0]), steps[1..]);
    }
  }

  lemma StepKeepsIds(c: Center, step: Step)
    requires IdInvariant(c) && IdsInRange(Next(c, step))
    ensures IdInvariant(Next(c, step))
  {
    StepIssues(c, step);
  }

  lemma {:induction false} RunKeepsIds(c: Center, steps: seq<Step>)
    requires IdInvariant(c) && IdsInRange(Run(c, steps))
    ensures IdInvariant(Run(c, steps))
    decreases |steps|
  {
    if steps != [] {
      RunGrowsIssued(Next(c, steps[0]), steps[1..]);
      StepKeepsIds(c, steps[0]);
      RunKeepsIds(Next(c, steps[0]), steps[1..]);
    }
  }

  /** Within the 32-bit range no id is handed out twice, and the accepted ids are exactly
      those handed out and the next one; what was handed out earlier stays so. */
  lemma EngineIdsAreUnique(table: map<string, string>, before: seq<Step>, after: seq<Step>)
    requires IdsInRange(Run(Run(Initial(table), before), after))
    ensures var early := Run(Initial(table), before);
      var late := Run(early, after);
      && (forall i, j :: 0 <= i < j < |late.issued| ==> late.issued[i] != late.issued[j])
      && (forall id :: !IsInvalidEngineId(late, id) <==> id in late.issued || id == late.rootEngineId)
      && (forall id :: id in early.issued ==> !IsInvalidEngineId(late, id))
  {
    var early := Run(Initial(table), before);
    var late := Run(early, after);
    RunGrowsIssued(early, after);
    RunKeepsIds(Initial(table), before);
    RunKeepsIds(early, after);
    forall id | BASE_ENGINE_ID <= id < late.rootEngineId ensures id in late.issued {
      assert late.issued[id - BASE_ENGINE_ID] == id;
    }
  }

  /** An initialisation hands out the current id and records it, or consumes none. */
  lemma InitializeIssues(c: Center, role: TransRole, answers: Answers)
    ensures var (done, id) := Initialize(c, role, answers);
      if done.ret == DH_AVT_SUCCESS then done.c.issued == c.issued + [id] && id == c.rootEngineId && done.c.initialized
      else done.c == c && id == INVALID_ENGINE_ID
  {
  }

  // ----- shared control channels

  function Count(s: seq<string>, x: string): nat {
    multiset(s)[x]
  }

  lemma {:induction false} RemoveFirstCounts(s: seq<string>, x: string)
    requires x in s
    ensures multiset(RemoveFirst(s, x)) + multiset{x} == multiset(s)
  {
    assert s == [s[0]] + s[1..];
    if s[0] != x {
      RemoveFirstCounts(s[1..], x);
    }
  }

  /** The release of engine `id` closes the channel of its peer: no other engine is bound to it. */
  predicate HangsUp(c: Center, id: int) {
    && !IsInvalidEngineId(c, id) && id in c.engine2DevId && c.engine2DevId[id] in c.connected
    && (forall e :: e in c.engine2DevId && e != id ==> c.engine2DevId[e] != c.engine2DevId[id])
  }

  /** A release forgets the engine, and closes the channel of its peer exactly if that peer is
      connected and no remaining engine is bound to it. */
  lemma ReleaseClosesUnshared(c: Center, id: int, answers: Answers)
    requires !IsInvalidEngineId(c, id)
    ensures var c' := Release(c, id, answers).c;
      && c'.engine2DevId == c.engine2DevId - {id} && c'.callbacks == c.callbacks - {id}
      && if HangsUp(c, id) then
           var dev := c.engine2DevId[id];
           && c'.closes == c.closes + [dev] && c'.connected == RemoveFirst(c.connected, dev)
           && c'.softbus == Hangup(c.softbus, c.sessionName, dev, answers)
         else c'.closes == c.closes && c'.connected == c.connected && c'.softbus == c.softbus
  {
    if id in c.engine2DevId {
      var left := c.engine2DevId - {id};
      assert forall e :: e in c.engine2DevId && e != id ==> e in left && left[e] == c.engine2DevId[e];
    }
  }

  /** Any other step keeps all bindings and closes nothing; it connects at most one peer, that
      of the opened event it handled. */
  lemma OnlyReleaseCloses(c: Center, step: Step)
    requires !step.DoRelease?
    ensures var c' := Next(c, step);
      && c'.closes == c.closes
      && (forall e :: e in c.engine2DevId ==> e in c'.engine2DevId && c'.engine2DevId[e] == c.engine2DevId[e])
      && ((c'.opens == c.opens && c'.connected == c.connected) ||
          (|c'.opens| > |c.opens| && var event := c'.opens[|c.opens|];
           c'.opens == c.opens + [event] && c'.connected == c.connected + [event.peerDevId]))
  {
    match step
    case DoInitialize(role, answers) => InitializeIssues(c, role, answers);
    case DoCreate(id, dev, answers) => CreateOnlyBinds(c, id, dev, answers);
    case Softbus(s, answers) => SoftbusOnlyConnects(c, s, answers);
    case _ =>
  }

  lemma CreateOnlyBinds(c: Center, id: int, dev: string, answers: Answers)
    ensures var c' := CreateControlChannel(c, id, dev, answers).c;
      c' == c.(softbus := c'.softbus, engine2DevId := c'.engine2DevId) &&
      (c'.engine2DevId == c.engine2DevId || c'.engine2DevId == Bind(c.engine2DevId, id, dev))
  {
  }

  lemma SoftbusOnlyConnects(c: Center, step: Adapter.Step, answers: Answers)
    ensures var c' := SoftbusStep(c, step, answers);
      && c' == c.(softbus := c'.softbus, sessionName := c'.sessionName, connected := c'.connected, opens := c'.opens)
      && ((c'.opens == c.opens && c'.connected == c.connected) ||
          (|c'.opens| > |c.opens| && var event := c'.opens[|c.opens|];
           c'.opens == c.opens + [event] && c'.connected == c.connected + [event.peerDevId]))
  {
  }

  predicate Releases(step: Step, id: int) {
    step.DoRelease? && step.id == id
  }

  /** One step, seen by an engine that it does not release. */
  lemma StepKeepsChannel(c: Center, step: Step, id: int)
    requires id in c.engine2DevId && !Releases(step, id)
    ensures var dev, c' := c.engine2DevId[id], Next(c, step);
      && id in c'.engine2DevId && c'.engine2DevId[id] == dev
      && Count(c'.closes, dev) == Count(c.closes, dev)
      && Count(c'.connected, dev) >= Count(c.connected, dev)
  {
    var dev, c' := c.engine2DevId[id], Next(c, step);
    if step.DoRelease? {
      if !IsInvalidEngineId(c, step.id) {
        ReleaseClosesUnshared(c, step.id, step.answers);
        if HangsUp(c, step.id) {
          RemoveFirstCounts(c.connected, c.engine2DevId[step.id]);
        }
      }
    } else {
      OnlyReleaseCloses(c, step);
    }
  }

  /** In every run, from its binding to its release an engine keeps its peer, no release of
      another engine closes the channel to that peer, and the peer stays connected. */
  lemma {:induction false} SharedChannelIsKept(c: Center, steps: seq<Step>, id: int)
    requires id in c.engine2DevId
    requires forall i :: 0 <= i < |steps| ==> !Releases(steps[i], id)
    ensures var dev, c' := c.engine2DevId[id], Run(c, steps);
      && id in c'.engine2DevId && c'.engine2DevId[id] == dev
      && Count(c'.closes, dev) == Count(c.closes, dev)
      && Count(c'.connected, dev) >= Count(c.connected, dev)
    decreases |steps|
  {
    if steps != [] {
      StepKeepsChannel(c, steps[0], id);
      SharedChannelIsKept(Next(c, steps[0]), steps[1..], id);
    }
  }

  // ----- bindings

  /** A request for a channel that is granted: the peer is connected, or its channel is there or
      can be opened. */
  predicate Grants(c: Center, id: int, dev: string, answers: Answers) {
    && !IsInvalidEngineId(c, id) && c.initialized
    && (dev in c.connected ||
        (dev != "" && (Adapter.SessIdOf(c.softbus.ids, SENDER, dev) > 0 || (answers.socket >= 0 && answers.bind == 0))))
  }

  /** A granted request binds an engine that is not bound yet, whether the channel is new or not,
      and a refused one binds nothing; the result tells which it was. */
  lemma CreateBinds(c: Center, id: int, dev: string, answers: Answers)
    ensures var done := CreateControlChannel(c, id, dev, answers);
      && (Grants(c, id, dev, answers) <==>
            done.ret == DH_AVT_SUCCESS || done.ret == ERR_DH_AVT_CHANNEL_ALREADY_CREATED)
      && done.c.engine2DevId ==
           (if Grants(c, id, dev, answers) && id !in c.engine2DevId then c.engine2DevId[id := dev] else c.engine2DevId)
  {
  }

  /** From the request on: once an engine that was not bound was granted a channel, also one that
      other engines use, no release of those closes it in any run, until the engine itself is
      released. */
  lemma CreatedChannelIsKept(c: Center, id: int, dev: string, answers: Answers, steps: seq<Step>)
    requires id !in c.engine2DevId && Grants(c, id, dev, answers)
    requires forall i :: 0 <= i < |steps| ==> !Releases(steps[i], id)
    ensures var created := CreateControlChannel(c, id, dev, answers).c;
      var end := Run(created, steps);
      && id in end.engine2DevId && end.engine2DevId[id] == dev
      && Count(end.closes, dev) == Count(c.closes, dev)
      && Count(end.connected, dev) >= Count(c.connected, dev)
  {
    CreateBinds(c, id, dev, answers);
    CreateOnlyBinds(c, id, dev, answers);
    SharedChannelIsKept(CreateControlChannel(c, id, dev, answers).c, steps, id);
  }

  predicate Binds(c: Center, step: Step, id: int) {
    step.DoCreate? && step.id == id && Grants(c, id, step.dev, step.answers)
  }

  predicate Unbinds(c: Center, step: Step, id: int) {
    Releases(step, id) && !IsInvalidEngineId(c, id)
  }

  predicate Hooks(c: Center, step: Step, id: int) {
    step.DoRegisterCallback? && step.id == id && step.callback != NullCallback && !IsInvalidEngineId(c, id)
  }

  lemma BindingStep(c: Center, step: Step, id: int)
    ensures id in Next(c, step).engine2DevId <==> Binds(c, step, id) || (id in c.engine2DevId && !Unbinds(c, step, id))
  {
    match step
    case DoInitialize(role, answers) => InitializeIssues(c, role, answers);
    case DoCreate(e, dev, answers) => CreateBinds(c, e, dev, answers);
    case DoRelease(e, answers) => ReleaseForgets(c, e, answers);
    case Softbus(s, answers) => SoftbusOnlyConnects(c, s, answers);
    case _ =>
  }

  lemma ReleaseForgets(c: Center, id: int, answers: Answers)
    ensures var c' := Release(c, id, answers).c;
      if IsInvalidEngineId(c, id) then c' == c
      else c'.engine2DevId == c.engine2DevId - {id} && c'.callbacks == c.callbacks - {id}
  {
    if !IsInvalidEngineId(c, id) {
      ReleaseClosesUnshared(c, id, answers);
    }
  }

  /** The callbacks: the first one registered stays until the engine is released. */
  lemma CallbackStep(c: Center, step: Step, id: int)
    ensures var c' := Next(c, step);
      && (id in c'.callbacks <==> Hooks(c, step, id) || (id in c.callbacks && !Unbinds(c, step, id)))
      && (id in c'.callbacks ==>
            c'.callbacks[id] == if id in c.callbacks then c.callbacks[id] else step.callback.id)
  {
    match step
    case DoInitialize(role, answers) => InitializeIssues(c, role, answers);
    case DoCreate(e, dev, answers) => CreateOnlyBinds(c, e, dev, answers);
    case DoRelease(e, answers) => ReleaseForgets(c, e, answers);
    case Softbus(s, answers) => SoftbusOnlyConnects(c, s, answers);
    case _ =>
  }

  ghost function BindTrace(c: Center, steps: seq<Step>, id: int): (trace: seq<bool>)
    ensures |trace| == |steps|
  {
    seq(|steps|, i requires 0 <= i < |steps| => Binds(Run(c, steps[..i]), steps[i], id))
  }

  ghost function HookTrace(c: Center, steps: seq<Step>, id: int): (trace: seq<bool>)
    ensures |trace| == |steps|
  {
    seq(|steps|, i requires 0 <= i < |steps| => Hooks(Run(c, steps[..i]), steps[i], id))
  }

  ghost function ReleaseTrace(c: Center, steps: seq<Step>, id: int): (trace: seq<bool>)
    ensures |trace| == |steps|
  {
    seq(|steps|, i requires 0 <= i < |steps| => Unbinds(Run(c, steps[..i]), steps[i], id))
  }

  /** At every point of every run an engine is bound exactly if it was granted a channel and not
      released since. */
  lemma BindingHistory(c: Center, steps: seq<Step>, id: int, n: nat)
    requires id !in c.engine2DevId && n <= |steps|
    ensures id in Run(c, steps[..n]).engine2DevId <==>
      HasLastEntry(BindTrace(c, steps, id), ReleaseTrace(c, steps, id), n)
  {
    var inside := seq(|steps| + 1, i requires 0 <= i <= |steps| => id in Run(c, steps[..i]).engine2DevId);
    var enters, leaves := BindTrace(c, steps, id), ReleaseTrace(c, steps, id);
    assert steps[..0] == [];
    forall k | 0 <= k < |steps| ensures inside[k + 1] == (enters[k] || (inside[k] && !leaves[k])) {
      RunPrefix(c, steps, k);
      BindingStep(Run(c, steps[..k]), steps[k], id);
    }
    HistoryDecides(inside, enters, leaves, n);
  }

  /** And it has a callback exactly if it registered one and was not released since. */
  lemma CallbackHistory(c: Center, steps: seq<Step>, id: int, n: nat)
    requires id !in c.callbacks && n <= |steps|
    ensures id in Run(c, steps[..n]).callbacks <==>
      HasLastEntry(HookTrace(c, steps, id), ReleaseTrace(c, steps, id), n)
  {
    var inside := seq(|steps| + 1, i requires 0 <= i <= |steps| => id in Run(c, steps[..i]).callbacks);
    var enters, leaves := HookTrace(c, steps, id), ReleaseTrace(c, steps, id);
    assert steps[..0] == [];
    forall k | 0 <= k < |steps| ensures inside[k + 1] == (enters[k] || (inside[k] && !leaves[k])) {
      RunPrefix(c, steps, k);
      CallbackStep(Run(c, steps[..k]), steps[k], id);
    }
    HistoryDecides(inside, enters, leaves, n);
  }

  // ----- conservation of connections

  /** The peers of the opened events, in order. */
  function Peers(opens: seq<Adapter.Event>): seq<string> {
    seq(|opens|, i requires 0 <= i < |opens| => opens[i].peerDevId)
  }

  ghost predicate Conserved(c: Center) {
    multiset(Peers(c.opens)) == multiset(c.connected) + multiset(c.closes)
  }

  lemma PeersGrow(opens: seq<Adapter.Event>, event: Adapter.Event)
    ensures Peers(opens + [event]) == Peers(opens) + [event.peerDevId]
  {
  }

  lemma ReleaseConserves(c: Center, id: int, answers: Answers)
    requires Conserved(c)
    ensures Conserved(Release(c, id, answers).c)
  {
    if !IsInvalidEngineId(c, id) {
      ReleaseClosesUnshared(c, id, answers);
      if HangsUp(c, id) {
        RemoveFirstCounts(c.connected, c.engine2DevId[id]);
      }
    }
  }

  lemma StepConserves(c: Center, step: Step)
    requires Conserved(c)
    ensures Conserved(Next(c, step))
  {
    if step.DoRelease? {
      ReleaseConserves(c, step.id, step.answers);
    } else {
      OnlyReleaseCloses(c, step);
      var c' := Next(c, step);
      if c'.opens != c.opens {
        PeersGrow(c.opens, c'.opens[|c.opens|]);
      }
    }
  }

  lemma {:induction false} RunConserves(c: Center, steps: seq<Step>)
    requires Conserved(c)
    ensures Conserved(Run(c, steps))
    decreases |steps|
  {
    if steps != [] {
      StepConserves(c, steps[0]);
      RunConserves(Next(c, steps[0]), steps[1..]);
    }
  }

  /** For each device, its occurrences in the connected list are the handled opened events
      minus the closes issued by releases; closes never outnumber opens. */
  lemma ConnectionsAreConserved(table: map<string, string>, steps: seq<Step>, dev: string)
    ensures var c := Run(Initial(table), steps);
      && Count(c.closes, dev) <= Count(Peers(c.opens), dev)
      && Count(c.connected, dev) == Count(Peers(c.opens), dev) - Count(c.closes, dev)
  {
    assert Peers([]) == [];
    RunConserves(Initial(table), steps);
  }
}
