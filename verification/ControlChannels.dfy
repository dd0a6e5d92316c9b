/** The control centre with its channel adapter: which events still reach the centre, and which
    channels a release closes, over every run of both. */
module ControlChannels {
  import opened Collections
  import opened Errno
  import opened SessionKeys
  import opened Strings
  import opened ControlCenter
  import opened ChannelAdapterProofs
  import Adapter = ChannelAdapter

  // ----- the two keys under which the centre listens

  function SenderKey(): string { Key(SENDER, ANY_DEVICE) }
  function ReceiverKey(): string { Key(RECEIVER, ANY_DEVICE) }

  lemma KeysDiffer(d: string, e: string)
    ensures Key(RECEIVER, d) != Key(SENDER, e)
    ensures Key(RECEIVER, d) == Key(RECEIVER, e) <==> d == e
  {
    assert Key(RECEIVER, d)[23] == 'r' && Key(SENDER, e)[23] == 's';
    assert Key(RECEIVER, d)[|RECEIVER| + 1..] == d && Key(RECEIVER, e)[|RECEIVER| + 1..] == e;
  }

  /** The key of one control session contains its own name and not the other. */
  lemma ControlKeysRoute()
    ensures Contains(SenderKey(), SENDER) && !Contains(SenderKey(), RECEIVER)
    ensures Contains(ReceiverKey(), RECEIVER) && !Contains(ReceiverKey(), SENDER)
  {
    ControlKeyRoutes(SENDER, SENDER);
    ControlKeyRoutes(SENDER, RECEIVER);
    ControlKeyRoutes(RECEIVER, SENDER);
    ControlKeyRoutes(RECEIVER, RECEIVER);
  }

  lemma ControlKeyRoutes(a: string, b: string)
    requires IsControlName(a) && IsControlName(b)
    ensures Contains(Key(a, ANY_DEVICE), b) <==> a == b
  {
    ControlNameHasNoBar(b);
    PlainSearch(a, ANY_DEVICE, b);
    ShorterContainsNot(ANY_DEVICE, b);
    ControlNamesDiffer(a, b);
  }

  predicate Hears(bus: Adapter.State, key: string) {
    Adapter.ListenerOf(bus.listeners, key) != Adapter.Null
  }

  // ----- opened events on their way

  /** An opened event names a session that occurs in the key it goes to, and a peer; under the
      receiver session that is one of `peers`. */
  ghost predicate Routed(t: Adapter.Thread, peers: set<string>) {
    t.event.kind == Adapter.ChannelOpened ==>
      && Contains(t.key, t.event.content) && t.event.content != "" && t.event.peerDevId != ""
      && (t.event.content == RECEIVER ==> t.event.peerDevId in peers)
  }

  ghost predicate AllRouted(threads: seq<Adapter.Thread>, peers: set<string>) {
    forall i :: 0 <= i < |threads| ==> Routed(threads[i], peers)
  }

  function OpenedThreads(bus: Adapter.State, sess: string, dev: string): seq<Adapter.Thread> {
    Adapter.Spawn(Adapter.LiveKeys(bus.listeners, sess), Adapter.Event(Adapter.ChannelOpened, sess, dev))
  }

  lemma SpawnRoutes(bus: Adapter.State, sess: string, dev: string, peers: set<string>)
    requires AllRouted(bus.threads, peers) && sess != "" && dev != "" && (sess == RECEIVER ==> dev in peers)
    ensures AllRouted(bus.threads + OpenedThreads(bus, sess, dev), peers)
  {
    var keys := Adapter.LiveKeys(bus.listeners, sess);
    LiveKeysAreListed(bus.listeners, sess);
    forall i | 0 <= i < |keys| ensures Contains(keys[i], sess) {
      assert keys[i] in keys && Adapter.IsLive(bus.listeners, sess)(keys[i]);
    }
  }

  predicate Names(step: Adapter.Step, peers: set<string>) {
    step.OnOpened? ==> step.dev in peers
  }

  lemma SoftbusRoutes(bus: Adapter.State, step: Adapter.Step, peers: set<string>)
    requires FromSoftbus(step) && Names(step, peers) && AllRouted(bus.threads, peers)
    ensures AllRouted(Adapter.Next(Adapter.Inserting, bus, step).threads, peers)
  {
    if step.OnOpened? {
      var sess := Adapter.OwnSession(bus, step.peerSess);
      if sess != "" && step.dev != "" {
        SpawnRoutes(bus, sess, step.dev, peers);
      }
    }
  }

  // ----- the receiver session is heard until the first close

  /** The adapter of the centre: only the centre is registered, under its two keys; time is
      synchronised only with peers that opened a channel to the receiver session. */
  ghost predicate BusInvariant(bus: Adapter.State, peers: set<string>) {
    && AllRouted(bus.threads, peers)
    && (forall k :: k in bus.listeners && k != SenderKey() && k != ReceiverKey() ==> bus.listeners[k] == Adapter.Null)
    && (forall k :: k in bus.timeSync ==> exists d :: d in peers && k == Key(RECEIVER, d))
  }

  ghost predicate HearingInvariant(c: Center, peers: set<string>) {
    && BusInvariant(c.softbus, peers)
    && (!c.initialized ==> c.engine2DevId == map[] && c.closes == [])
    && (c.connected != [] ==> c.sessionName != "") && "" !in c.connected
    && (Hears(c.softbus, ReceiverKey()) <==> c.initialized && c.closes == [])
  }

  lemma ListenKeeps(bus: Adapter.State, sess: string, peers: set<string>)
    requires BusInvariant(bus, peers) && (sess == SENDER || sess == RECEIVER)
    ensures BusInvariant(Listen(bus, sess), peers)
    ensures Hears(Listen(bus, sess), ReceiverKey()) <==> Hears(bus, ReceiverKey()) || sess == RECEIVER
  {
    KeysDiffer(ANY_DEVICE, ANY_DEVICE);
  }

  lemma DialKeeps(bus: Adapter.State, dev: string, answers: Answers, peers: set<string>)
    requires BusInvariant(bus, peers)
    ensures var bus' := Adapter.OpenChannel(bus, SENDER, RECEIVER, dev, answers.socket, answers.bind).st;
      BusInvariant(bus', peers) && bus'.listeners == bus.listeners
  {
    if dev != "" {
      SpawnRoutes(bus, SENDER, dev, peers);
    }
  }

  lemma HangupKeeps(bus: Adapter.State, sess: string, dev: string, answers: Answers, peers: set<string>)
    requires BusInvariant(bus, peers)
    ensures BusInvariant(Hangup(bus, sess, dev, answers), peers)
    ensures !Hears(Hangup(bus, sess, dev, answers), ReceiverKey())
  {
  }

  lemma InitializeKeepsHearing(c: Center, role: TransRole, answers: Answers, peers: set<string>)
    requires HearingInvariant(c, peers)
    ensures HearingInvariant(Initialize(c, role, answers).0.c, peers)
  {
    var served := Adapter.CreateServer(c.softbus, PKG_NAME_DH_FWK, RECEIVER, answers.socket, answers.listen).st;
    assert BusInvariant(served, peers);
    ListenKeeps(served, RECEIVER, peers);
  }

  lemma {:induction false} RemoveFirstShrinks(s: seq<string>, x: string)
    ensures forall y :: y in RemoveFirst(s, x) ==> y in s
  {
    if s != [] && s[0] != x {
      RemoveFirstShrinks(s[1..], x);
    }
  }

  lemma ReleaseKeepsHearing(c: Center, id: int, answers: Answers, peers: set<string>)
    requires HearingInvariant(c, peers)
    ensures HearingInvariant(Release(c, id, answers).c, peers)
  {
    if id in c.engine2DevId {
      HangupKeeps(c.softbus, c.sessionName, c.engine2DevId[id], answers, peers);
      RemoveFirstShrinks(c.connected, c.engine2DevId[id]);
    }
  }

  lemma CreateKeepsHearing(c: Center, id: int, dev: string, answers: Answers, peers: set<string>)
    requires HearingInvariant(c, peers)
    ensures HearingInvariant(CreateControlChannel(c, id, dev, answers).c, peers)
  {
    CreateOnlyBinds(c, id, dev, answers);
    ListenKeeps(c.softbus, SENDER, peers);
    DialKeeps(Listen(c.softbus, SENDER), dev, answers, peers);
  }

  lemma SoftbusKeepsBus(bus: Adapter.State, step: Adapter.Step, peers: set<string>)
    requires FromSoftbus(step) && Names(step, peers) && BusInvariant(bus, peers)
    ensures var bus' := Adapter.Next(Adapter.Inserting, bus, step);
      BusInvariant(bus', peers) && (Hears(bus', ReceiverKey()) <==> Hears(bus, ReceiverKey()))
  {
    SoftbusRoutes(bus, step, peers);
    CallbacksKeepListeners(bus, step);
    var bus' := Adapter.Next(Adapter.Inserting, bus, step);
    forall k | k in bus'.listeners && k != SenderKey() && k != ReceiverKey() ensures bus'.listeners[k] == Adapter.Null {
      assert Adapter.ListenerOf(bus'.listeners, k) == Adapter.ListenerOf(bus.listeners, k);
    }
  }

  lemma EventKeepsHearing(c: Center, t: Adapter.Thread, answers: Answers, peers: set<string>)
    requires HearingInvariant(c, peers) && Routed(t, peers)
    ensures HearingInvariant(ChannelEvent(c, t.event, answers), peers)
  {
  }

  lemma SoftbusStepKeepsHearing(c: Center, step: Adapter.Step, answers: Answers, peers: set<string>)
    requires HearingInvariant(c, peers) && Names(step, peers)
    ensures HearingInvariant(SoftbusStep(c, step, answers), peers)
  {
    if FromSoftbus(step) {
      SoftbusKeepsBus(c.softbus, step, peers);
      if CallsCentre(c.softbus, step) {
        var c1 := c.(softbus := Adapter.Next(Adapter.Inserting, c.softbus, step));
        EventKeepsHearing(c1, c.softbus.threads[step.i], answers, peers);
      }
    }
  }

  lemma StepKeepsHearing(c: Center, step: Step, peers: set<string>)
    requires HearingInvariant(c, peers) && (step.Softbus? ==> Names(step.step, peers))
    ensures HearingInvariant(Next(c, step), peers)
  {
    match step
    case DoInitialize(role, answers) => InitializeKeepsHearing(c, role, answers, peers);
    case DoRelease(id, answers) => ReleaseKeepsHearing(c, id, answers, peers);
    case DoCreate(id, dev, answers) => CreateKeepsHearing(c, id, dev, answers, peers);
    case DoNotify(_, _) =>
    case DoRegisterCallback(_, _) =>
    case Softbus(s, answers) => SoftbusStepKeepsHearing(c, s, answers, peers);
  }

  lemma {:induction false} RunKeepsHearing(c: Center, steps: seq<Step>, peers: set<string>)
    requires HearingInvariant(c, peers)
    requires forall i :: 0 <= i < |steps| && steps[i].Softbus? ==> Names(steps[i].step, peers)
    ensures HearingInvariant(Run(c, steps), peers)
    decreases |steps|
  {
    if steps != [] {
      StepKeepsHearing(c, steps[0], peers);
      RunKeepsHearing(Next(c, steps[0]), steps[1..], peers);
    }
  }

  /** The devices of the opened callbacks of a run. */
  function Openers(steps: seq<Step>): set<string> {
    set i | 0 <= i < |steps| && steps[i].Softbus? && steps[i].step.OnOpened? :: steps[i].step.dev
  }

  lemma Reachable(table: map<string, string>, steps: seq<Step>)
    ensures HearingInvariant(Run(Initial(table), steps), Openers(steps))
  {
    RunKeepsHearing(Initial(table), steps, Openers(steps));
  }

  /** In every run the centre hears of channels that peers open exactly from its initialisation
      until a release closes a channel: that release ends the registration all peers share,
      and no later initialisation renews it. */
  lemma HeardUntilFirstClose(table: map<string, string>, steps: seq<Step>)
    ensures var c := Run(Initial(table), steps);
      Hears(c.softbus, ReceiverKey()) <==> c.initialized && c.closes == []
  {
    Reachable(table, steps);
  }

  // ----- deaf after the first close

  /** All opened events after the first ones were under another session. */
  ghost predicate NoReceiverOpens(before: seq<Adapter.Event>, after: seq<Adapter.Event>) {
    before <= after && forall i :: |before| <= i < |after| ==> after[i].content != RECEIVER
  }

  lemma DeafStep(c: Center, step: Step, peers: set<string>)
    requires HearingInvariant(c, peers) && c.closes != []
    ensures Next(c, step).closes != []
    ensures NoReceiverOpens(c.opens, Next(c, step).opens)
  {
    if step.Softbus? {
      SoftbusOnlyConnects(c, step.step, step.answers);
      if CallsCentre(c.softbus, step.step) {
        ControlKeysRoute();
        var t := c.softbus.threads[step.step.i];
        assert t.key == SenderKey() && Routed(t, peers);
      }
    } else if step.DoRelease? {
      ReleaseKeepsOpens(c, step.id, step.answers);
    } else {
      OnlyReleaseCloses(c, step);
      OtherStepsKeepOpens(c, step);
    }
  }

  lemma ReleaseKeepsOpens(c: Center, id: int, answers: Answers)
    ensures Release(c, id, answers).c.opens == c.opens && c.closes <= Release(c, id, answers).c.closes
  {
  }

  lemma OtherStepsKeepOpens(c: Center, step: Step)
    requires !step.Softbus?
    ensures Next(c, step).opens == c.opens
  {
  }

  lemma {:induction false} DeafRun(c: Center, steps: seq<Step>, peers: set<string>)
    requires HearingInvariant(c, peers) && c.closes != []
    requires forall i :: 0 <= i < |steps| && steps[i].Softbus? ==> Names(steps[i].step, peers)
    ensures NoReceiverOpens(c.opens, Run(c, steps).opens)
    decreases |steps|
  {
    if steps != [] {
      StepKeepsHearing(c, steps[0], peers);
      DeafStep(c, steps[0], peers);
      DeafRun(Next(c, steps[0]), steps[1..], peers);
    }
  }

  /** Once a release has closed a channel, the centre is told of no channel that a peer opens,
      in every further run, whatever the peers and the other engines do. */
  lemma DeafAfterFirstClose(table: map<string, string>, before: seq<Step>, after: seq<Step>)
    requires Run(Initial(table), before).closes != []
    ensures var c := Run(Initial(table), before);
      !Hears(Run(c, after).softbus, ReceiverKey()) && NoReceiverOpens(c.opens, Run(c, after).opens)
  {
    var c, peers := Run(Initial(table), before), Openers(before) + Openers(after);
    RunKeepsHearing(Initial(table), before, peers);
    RunKeepsHearing(c, after, peers);
    DeafRun(c, after, peers);
    RunGrowsCloses(c, after);
  }

  lemma {:induction false} RunGrowsCloses(c: Center, steps: seq<Step>)
    ensures c.closes <= Run(c, steps).closes
    decreases |steps|
  {
    if steps != [] {
      if steps[0].DoRelease? {
        ReleaseKeepsOpens(c, steps[0].id, steps[0].answers);
      } else {
        OnlyReleaseCloses(c, steps[0]);
      }
      RunGrowsCloses(Next(c, steps[0]), steps[1..]);
    }
  }

  // ----- results of time synchronisation

  /** Delivering to a list of keys calls somebody exactly when one of them has a listener. */
  lemma {:induction false} DeliverReaches(sv: Adapter.Served, keys: seq<string>, event: Adapter.Event)
    ensures var calls := Adapter.DeliverAll(Adapter.Inserting, sv, keys, event).calls;
      if exists k :: k in keys && Adapter.ListenerOf(sv.listeners, k) != Adapter.Null then |calls| > |sv.calls|
      else calls == sv.calls
  {
    if keys != [] {
      var n := |keys| - 1;
      assert keys == keys[..n] + [keys[n]];
      DeliverReaches(sv, keys[..n], event);
      DeliverKeepsListeners(Adapter.Inserting, sv, keys[..n], event);
      var part := Adapter.DeliverAll(Adapter.Inserting, sv, keys[..n], event);
      assert Adapter.ListenerOf(part.listeners, keys[n]) == Adapter.ListenerOf(sv.listeners, keys[n]);
    }
  }

  /** In every reachable state a time synchronisation result reaches the centre exactly if it is
      not zero, the centre is still heard and time is synchronised with a device that has the
      special id. */
  lemma TimeSyncReaches(table: map<string, string>, steps: seq<Step>, result: int, millisecond: string, target: string)
    ensures var bus := Run(Initial(table), steps).softbus;
      Adapter.TimeSynced(Adapter.Inserting, bus, result, millisecond, target).calls != bus.calls <==>
        result != 0 && Hears(bus, ReceiverKey()) && ReceiverKey() in bus.timeSync
  {
    var bus := Run(Initial(table), steps).softbus;
    Reachable(table, steps);
    DeliverReaches(Adapter.ServedOf(bus), InOrder(bus.timeSync),
                   Adapter.Event(Adapter.TimeSyncResult, millisecond, target));
    forall k | k in bus.timeSync && Hears(bus, k) ensures k == ReceiverKey() {
      var d :| d in Openers(steps) && k == Key(RECEIVER, d);
      KeysDiffer(d, ANY_DEVICE);
    }
  }

  /** So with real device ids no such result ever reaches the centre: it listens under the
      special id, and time is synchronised under the peer's. */
  lemma TimeSyncIsNeverHeard(
    table: map<string, string>, steps: seq<Step>, result: int, millisecond: string, target: string)
    requires ANY_DEVICE !in Openers(steps)
    ensures var bus := Run(Initial(table), steps).softbus;
      Adapter.TimeSynced(Adapter.Inserting, bus, result, millisecond, target).calls == bus.calls
  {
    TimeSyncReaches(table, steps, result, millisecond, target);
    Reachable(table, steps);
    var bus := Run(Initial(table), steps).softbus;
    if ReceiverKey() in bus.timeSync {
      var d :| d in Openers(steps) && ReceiverKey() == Key(RECEIVER, d);
      KeysDiffer(d, ANY_DEVICE);
    }
  }

  /** In every run an initialised centre has its server for the receiver session. */
  lemma {:induction false} ServerStands(c: Center, steps: seq<Step>)
    requires c.initialized ==> Key(PKG_NAME_DH_FWK, RECEIVER) in c.softbus.servers
    ensures Run(c, steps).initialized ==> Key(PKG_NAME_DH_FWK, RECEIVER) in Run(c, steps).softbus.servers
    decreases |steps|
  {
    if steps != [] {
      StepKeepsServer(c, steps[0]);
      ServerStands(Next(c, steps[0]), steps[1..]);
    }
  }

  lemma StepKeepsServer(c: Center, step: Step)
    requires c.initialized ==> Key(PKG_NAME_DH_FWK, RECEIVER) in c.softbus.servers
    ensures Next(c, step).initialized ==> Key(PKG_NAME_DH_FWK, RECEIVER) in Next(c, step).softbus.servers
  {
    if step.DoRelease? && !IsInvalidEngineId(c, step.id) {
      ReleaseClosesUnshared(c, step.id, step.answers);
    }
  }

  /** A thread that brings the centre an opened event connects the peer, and for the receiver
      session starts the time synchronisation with it, if the softbus agrees. */
  lemma OpenedEventConnects(c: Center, i: nat, answers: Answers)
    requires CallsCentre(c.softbus, Adapter.ThreadRuns(i))
    requires c.softbus.threads[i].event.kind == Adapter.ChannelOpened
    ensures var event, c' := c.softbus.threads[i].event, SoftbusStep(c, Adapter.ThreadRuns(i), answers);
      && c'.connected == c.connected + [event.peerDevId] && c'.sessionName == event.content
      && c'.opens == c.opens + [event]
      && c'.softbus.timeSync == c.softbus.timeSync +
           (if event.content == RECEIVER && event.peerDevId != "" && answers.timeSync == 0
            then {Key(RECEIVER, event.peerDevId)} else {})
  {
  }

  /** What hanging up takes away: the synchronisation with the peer, its channel of that session,
      and both registrations of the centre, and nothing else. */
  lemma HangupTakesAway(bus: Adapter.State, sess: string, dev: string, answers: Answers, key: string)
    requires sess != "" && dev != ""
    ensures var bus' := Hangup(bus, sess, dev, answers);
      && (key in bus'.timeSync <==> key in bus.timeSync && !(key == Key(sess, dev) && answers.timeSync == 0))
      && (key in bus'.ids <==> key in bus.ids && key != Key(sess, dev))
      && (key in bus'.ids ==> bus'.ids[key] == bus.ids[key])
      && Adapter.ListenerOf(bus'.listeners, key) ==
           (if key == SenderKey() || key == ReceiverKey() then Adapter.Null else Adapter.ListenerOf(bus.listeners, key))
      && bus'.threads == bus.threads && bus'.servers == bus.servers && bus'.calls == bus.calls
  {
  }

  // ----- which channels a release closes

  lemma SameDevice(a: string, b: string, dev: string)
    ensures Key(a, dev) == Key(b, dev) <==> a == b
  {
    assert Key(a, dev)[..|Key(a, dev)| - |dev| - 1] == a;
    assert Key(b, dev)[..|Key(b, dev)| - |dev| - 1] == b;
  }

  /** A release that closes the channel of a peer closes, in every reachable state, the one of
      the session last opened by anybody, and no other: the channel that the centre itself
      opened to the peer stays exactly if the last opened event was of another session. */
  lemma ReleaseClosesLastSession(table: map<string, string>, steps: seq<Step>, id: int, answers: Answers, sess: string)
    requires var c := Run(Initial(table), steps);
      id in c.engine2DevId && Release(c, id, answers).c.closes != c.closes
    ensures var c := Run(Initial(table), steps);
      var key := Key(sess, c.engine2DevId[id]);
      key in Release(c, id, answers).c.softbus.ids <==> key in c.softbus.ids && sess != c.sessionName
  {
    Reachable(table, steps);
    var c := Run(Initial(table), steps);
    SameDevice(sess, c.sessionName, c.engine2DevId[id]);
  }

  /** No bound device contains a bar, before the step and after. */
  ghost predicate BarFree(c: Center, step: Step) {
    && (forall e :: e in c.engine2DevId ==> NoBar(c.engine2DevId[e]))
    && (step.DoCreate? ==> NoBar(step.dev))
  }

  /** The softbus closes the session that `key` stands for. */
  predicate Drops(bus: Adapter.State, step: Step, key: string) {
    step.Softbus? && step.step.OnClosed? && Adapter.HasId(bus.ids, step.step.id)(key)
  }

  /** Engine `id` is not released, and the softbus does not close the session of `key`. */
  ghost predicate Undisturbed(c: Center, steps: seq<Step>, id: int, key: string)
    decreases |steps|
  {
    steps == [] ||
    (BarFree(c, steps[0]) && !Releases(steps[0], id) && !Drops(c.softbus, steps[0], key) &&
     Undisturbed(Next(c, steps[0]), steps[1..], id, key))
  }

  lemma SoftbusIds(c: Center, step: Adapter.Step, answers: Answers)
    requires FromSoftbus(step)
    ensures SoftbusStep(c, step, answers).softbus.ids == Adapter.Next(Adapter.Inserting, c.softbus, step).ids
  {
  }

  /** The release of another engine closes no channel to this engine's peer. */
  lemma ReleaseKeepsOpen(c: Center, other: int, answers: Answers, id: int, sess: string)
    requires id in c.engine2DevId && BarFree(c, DoRelease(other, answers)) && other != id
    ensures !Leaves(c, DoRelease(other, answers), Key(sess, c.engine2DevId[id]))
  {
    if other in c.engine2DevId {
      var left := c.engine2DevId - {other};
      assert id in left && left[id] == c.engine2DevId[id];
      if Key(sess, c.engine2DevId[id]) == Key(c.sessionName, c.engine2DevId[other]) {
        KeyIsInjective(sess, c.engine2DevId[id], c.sessionName, c.engine2DevId[other]);
      }
    }
  }

  lemma StepKeepsOpen(c: Center, step: Step, id: int, sess: string)
    requires id in c.engine2DevId && BarFree(c, step) && !Releases(step, id)
    requires Key(sess, c.engine2DevId[id]) in c.softbus.ids
    requires !Drops(c.softbus, step, Key(sess, c.engine2DevId[id]))
    ensures Key(sess, c.engine2DevId[id]) in Next(c, step).softbus.ids
  {
    if step.DoRelease? {
      ReleaseKeepsOpen(c, step.id, step.answers, id, sess);
    }
    StepTable(c, step, Key(sess, c.engine2DevId[id]));
  }

  /** In every run, while an engine is bound to a peer, every channel to that peer stays in the
      adapter's table until the softbus itself closes it: no call of another engine does. */
  lemma {:induction false} SharedChannelStaysOpen(c: Center, steps: seq<Step>, id: int, sess: string)
    requires id in c.engine2DevId && Key(sess, c.engine2DevId[id]) in c.softbus.ids
    requires Undisturbed(c, steps, id, Key(sess, c.engine2DevId[id]))
    ensures Key(sess, c.engine2DevId[id]) in Run(c, steps).softbus.ids
    decreases |steps|
  {
    if steps != [] {
      StepKeepsOpen(c, steps[0], id, sess);
      StepKeepsChannel(c, steps[0], id);
      SharedChannelStaysOpen(Next(c, steps[0]), steps[1..], id, sess);
    }
  }

  // ----- which channels there are

  /** The opened callback is handled, under this session. */
  predicate Handled(bus: Adapter.State, step: Adapter.Step)
    requires step.OnOpened?
  {
    step.peerSess != "" && step.dev != "" && Adapter.OwnSession(bus, step.peerSess) != ""
  }

  /** The centre gets as far as opening a channel, and the softbus agrees. */
  predicate Dials(c: Center, step: Step)
    requires step.DoCreate?
  {
    && !IsInvalidEngineId(c, step.id) && c.initialized && step.dev !in c.connected && step.dev != ""
    && Adapter.SessIdOf(c.softbus.ids, SENDER, step.dev) <= 0 && step.answers.socket >= 0 && step.answers.bind == 0
  }

  /** The step enters `key` into the adapter's table of channels. */
  predicate Enters(c: Center, step: Step, key: string) {
    || (step.DoCreate? && Dials(c, step) && key == Key(SENDER, step.dev))
    || (step.Softbus? && step.step.OnOpened? && Handled(c.softbus, step.step) &&
        var own := Adapter.OwnSession(c.softbus, step.step.peerSess);
        key == Key(own, step.step.dev) || Adapter.IsLive(c.softbus.listeners, own)(key))
  }

  /** The step takes it out: the softbus closes the session, or a release closes the peer's
      channel of the session last opened. */
  predicate Leaves(c: Center, step: Step, key: string) {
    || Drops(c.softbus, step, key)
    || (step.DoRelease? && HangsUp(c, step.id) && c.sessionName != "" && c.engine2DevId[step.id] != "" &&
        key == Key(c.sessionName, c.engine2DevId[step.id]))
  }

  lemma OpenedTable(c: Center, step: Adapter.Step, answers: Answers, key: string)
    requires step.OnOpened?
    ensures key in Adapter.Next(Adapter.Inserting, c.softbus, step).ids <==>
      Enters(c, Softbus(step, answers), key) || key in c.softbus.ids
  {
    var own := Adapter.OwnSession(c.softbus, step.peerSess);
    LiveKeysAreListed(c.softbus.listeners, own);
    RemappedKeys(c.softbus.ids, Adapter.LiveKeys(c.softbus.listeners, own), step.id);
  }

  lemma OtherCallbacksTable(bus: Adapter.State, step: Adapter.Step, key: string)
    requires FromSoftbus(step) && !step.OnOpened?
    ensures key in Adapter.Next(Adapter.Inserting, bus, step).ids <==>
      key in bus.ids && !(step.OnClosed? && Adapter.HasId(bus.ids, step.id)(key))
  {
  }

  lemma CallbackTable(c: Center, step: Adapter.Step, answers: Answers, key: string)
    requires FromSoftbus(step)
    ensures key in SoftbusStep(c, step, answers).softbus.ids <==>
      Enters(c, Softbus(step, answers), key) || (key in c.softbus.ids && !Drops(c.softbus, Softbus(step, answers), key))
  {
    SoftbusIds(c, step, answers);
    if step.OnOpened? {
      OpenedTable(c, step, answers, key);
    } else {
      OtherCallbacksTable(c.softbus, step, key);
    }
  }

  lemma CreateTable(c: Center, id: int, dev: string, answers: Answers, key: string)
    ensures key in CreateControlChannel(c, id, dev, answers).c.softbus.ids <==>
      Enters(c, DoCreate(id, dev, answers), key) || key in c.softbus.ids
  {
  }

  lemma ReleaseTable(c: Center, id: int, answers: Answers, key: string)
    ensures key in Release(c, id, answers).c.softbus.ids <==>
      key in c.softbus.ids && !Leaves(c, DoRelease(id, answers), key)
  {
    if !IsInvalidEngineId(c, id) {
      ReleaseClosesUnshared(c, id, answers);
    }
  }

  /** One step, exactly. */
  lemma StepTable(c: Center, step: Step, key: string)
    ensures key in Next(c, step).softbus.ids <==>
      Enters(c, step, key) || (key in c.softbus.ids && !Leaves(c, step, key))
  {
    match step
    case DoCreate(id, dev, answers) => CreateTable(c, id, dev, answers, key);
    case DoRelease(id, answers) => ReleaseTable(c, id, answers, key);
    case Softbus(s, answers) =>
      if FromSoftbus(s) {
        CallbackTable(c, s, answers, key);
      }
    case _ =>
  }

  /** At which steps of the run `key` is entered. */
  ghost function EnterTrace(c: Center, steps: seq<Step>, key: string): (trace: seq<bool>)
    ensures |trace| == |steps|
  {
    seq(|steps|, i requires 0 <= i < |steps| => Enters(Run(c, steps[..i]), steps[i], key))
  }

  /** At which steps it is taken out. */
  ghost function LeaveTrace(c: Center, steps: seq<Step>, key: string): (trace: seq<bool>)
    ensures |trace| == |steps|
  {
    seq(|steps|, i requires 0 <= i < |steps| => Leaves(Run(c, steps[..i]), steps[i], key))
  }

  /** At every point of every run there is a channel exactly if some step entered it and none took
      it out since: an opened event that was handled, and the connected list, say nothing about
      that. */
  lemma ChannelHistory(c: Center, steps: seq<Step>, key: string, n: nat)
    requires key !in c.softbus.ids && n <= |steps|
    ensures key in Run(c, steps[..n]).softbus.ids <==>
      HasLastEntry(EnterTrace(c, steps, key), LeaveTrace(c, steps, key), n)
  {
    var inside := seq(|steps| + 1, i requires 0 <= i <= |steps| => key in Run(c, steps[..i]).softbus.ids);
    var enters, leaves := EnterTrace(c, steps, key), LeaveTrace(c, steps, key);
    assert steps[..0] == [];
    forall k | 0 <= k < |steps| ensures inside[k + 1] == (enters[k] || (inside[k] && !leaves[k])) {
      RunPrefix(c, steps, k);
      StepTable(Run(c, steps[..k]), steps[k], key);
    }
    HistoryDecides(inside, enters, leaves, n);
  }

  // ----- runs that show it

  lemma OnlyKey(keys: seq<string>, x: string)
    requires Distinct(keys) && forall k :: k in keys <==> k == x
    ensures keys == [x]
  {
    assert x in keys;
    var n := |keys| - 1;
    assert keys[0] in keys && keys[n] in keys;
  }

  /** With both registrations in place, each control session has one live key. */
  lemma OneLiveKey(bus: Adapter.State, sess: string, key: string)
    requires (sess == SENDER && key == SenderKey()) || (sess == RECEIVER && key == ReceiverKey())
    requires forall k :: k in bus.listeners ==> k == SenderKey() || k == ReceiverKey()
    requires Hears(bus, key)
    ensures Adapter.LiveKeys(bus.listeners, sess) == [key]
  {
    ControlKeysRoute();
    LiveKeysAreListed(bus.listeners, sess);
    forall k ensures Adapter.IsLive(bus.listeners, sess)(k) <==> k == key {
    }
    OnlyKey(Adapter.LiveKeys(bus.listeners, sess), key);
  }

  const CONTROL_TABLE := map[SENDER := RECEIVER, RECEIVER := SENDER]
  const OK := Answers(5, 0, 0, 0)

  ghost predicate Reached(c: Center) {
    exists steps :: c == Run(Initial(CONTROL_TABLE), steps)
  }

  lemma ReachedNext(c: Center, step: Step)
    requires Reached(c)
    ensures Reached(Next(c, step))
  {
    var steps :| c == Run(Initial(CONTROL_TABLE), steps);
    RunOneMore(Initial(CONTROL_TABLE), steps, step);
  }

  /** A reached state in which one engine is bound to A, to which a channel is open. */
  ghost predicate BoundToA(c: Center, connected: seq<string>, sess: string, threads: seq<Adapter.Thread>) {
    && Reached(c)
    && c.connected == connected && c.sessionName == sess && c.softbus.threads == threads
    && c.initialized && c.rootEngineId == BASE_ENGINE_ID + 1 && c.closes == []
    && c.softbus.table == CONTROL_TABLE
    && c.softbus.listeners == map[ReceiverKey() := SELF, SenderKey() := SELF]
    && c.engine2DevId == map[BASE_ENGINE_ID := "A"]
    && Key(SENDER, "A") in c.softbus.ids
  }

  function OpenedThread(key: string, sess: string, dev: string): Adapter.Thread {
    Adapter.Thread(key, Adapter.Event(Adapter.ChannelOpened, sess, dev))
  }

  lemma OneThread(bus: Adapter.State, sess: string, key: string, dev: string)
    requires (sess == SENDER && key == SenderKey()) || (sess == RECEIVER && key == ReceiverKey())
    requires forall k :: k in bus.listeners ==> k == SenderKey() || k == ReceiverKey()
    requires Hears(bus, key)
    ensures OpenedThreads(bus, sess, dev) == [OpenedThread(key, sess, dev)]
  {
    OneLiveKey(bus, sess, key);
  }

  lemma Initialised() returns (c: Center)
    ensures Reached(c) && c.initialized && c.rootEngineId == BASE_ENGINE_ID + 1
    ensures c.connected == [] && c.sessionName == "" && c.closes == [] && c.engine2DevId == map[]
    ensures c.softbus.table == CONTROL_TABLE && c.softbus.threads == [] && c.softbus.ids == map[]
    ensures c.softbus.listeners == map[ReceiverKey() := SELF]
  {
    assert Initial(CONTROL_TABLE) == Run(Initial(CONTROL_TABLE), []);
    ReachedNext(Initial(CONTROL_TABLE), DoInitialize(AVSender, OK));
    c := Next(Initial(CONTROL_TABLE), DoInitialize(AVSender, OK));
  }

  lemma DialNext(c: Center, id: int, dev: string) returns (c': Center)
    requires Reached(c) && Dials(c, DoCreate(id, dev, OK)) && id !in c.engine2DevId
    ensures Reached(c') && Key(SENDER, dev) in c'.softbus.ids
    ensures var bus := Listen(c.softbus, SENDER);
      c' == c.(engine2DevId := c.engine2DevId[id := dev],
               softbus := bus.(ids := c'.softbus.ids, threads := bus.threads + OpenedThreads(bus, SENDER, dev)))
  {
    ReachedNext(c, DoCreate(id, dev, OK));
    c' := CreateControlChannel(c, id, dev, OK).c;
  }

  /** An engine has the centre open a channel to A. */
  lemma ChannelToA() returns (c: Center)
    ensures BoundToA(c, [], "", [OpenedThread(SenderKey(), SENDER, "A")])
  {
    var before := Initialised();
    OneThread(Listen(before.softbus, SENDER), SENDER, SenderKey(), "A");
    c := DialNext(before, BASE_ENGINE_ID, "A");
  }

  lemma ThreadTells(c: Center, connected: seq<string>, before: string, key: string, sess: string, dev: string)
    returns (c': Center)
    requires BoundToA(c, connected, before, [OpenedThread(key, sess, dev)])
    requires key == SenderKey() || key == ReceiverKey()
    ensures BoundToA(c', connected + [dev], sess, [])
  {
    ReachedNext(c, Softbus(Adapter.ThreadRuns(0), OK));
    c' := SoftbusStep(c, Adapter.ThreadRuns(0), OK);
  }

  lemma OpenedNext(c: Center, peerSess: string, id: int, dev: string, key: string) returns (c': Center)
    requires Reached(c) && key in c.softbus.ids
    requires peerSess != "" && dev != "" && Adapter.OwnSession(c.softbus, peerSess) != ""
    ensures Reached(c') && key in c'.softbus.ids
    ensures c' == c.(softbus := c.softbus.(ids := c'.softbus.ids, threads := c.softbus.threads
                      + OpenedThreads(c.softbus, Adapter.OwnSession(c.softbus, peerSess), dev)))
  {
    ReachedNext(c, Softbus(Adapter.OnOpened(peerSess, id, dev), OK));
    c' := SoftbusStep(c, Adapter.OnOpened(peerSess, id, dev), OK);
  }

  /** The peer B opens a channel of its own. */
  lemma ChannelFromB(c: Center, connected: seq<string>) returns (c': Center)
    requires BoundToA(c, connected, SENDER, [])
    ensures BoundToA(c', connected, SENDER, [OpenedThread(ReceiverKey(), RECEIVER, "B")])
  {
    OneThread(c.softbus, RECEIVER, ReceiverKey(), "B");
    c' := OpenedNext(c, SENDER, 6, "B", Key(SENDER, "A"));
  }

  lemma ReleaseOfA(c: Center) returns (c': Center)
    requires BoundToA(c, ["A", "B"], RECEIVER, [])
    ensures Reached(c') && c'.closes == ["A"] && Key(SENDER, "A") in c'.softbus.ids && c'.engine2DevId == map[]
  {
    KeysDiffer("A", "A");
    ReachedNext(c, DoRelease(BASE_ENGINE_ID, OK));
    c' := Release(c, BASE_ENGINE_ID, OK).c;
    assert c.engine2DevId - {BASE_ENGINE_ID} == map[];
  }

  /** There is a run in which the last engine bound to a peer is released and the channel opened
      to that peer stays, because another peer called in between. */
  lemma ChannelLeftOpen()
    ensures exists steps :: var c := Run(Initial(CONTROL_TABLE), steps);
      c.closes == ["A"] && Key(SENDER, "A") in c.softbus.ids && c.engine2DevId == map[]
  {
    var c := ChannelToA();
    c := ThreadTells(c, [], "", SenderKey(), SENDER, "A");
    c := ChannelFromB(c, [] + ["A"]);
    c := ThreadTells(c, [] + ["A"], SENDER, ReceiverKey(), RECEIVER, "B");
    assert [] + ["A"] + ["B"] == ["A", "B"];
    c := ReleaseOfA(c);
  }

  /** There is a run after which A is connected and the channel opened to it is gone: the softbus
      closed it. A request for a channel to A then reports that there is one, and opens none. */
  lemma ConnectedWithoutChannel()
    ensures exists steps :: var c := Run(Initial(CONTROL_TABLE), steps);
      && c.connected == ["A"] && c.closes == [] && Key(SENDER, "A") !in c.softbus.ids
      && CreateControlChannel(c, BASE_ENGINE_ID, "A", OK) == Done(c, ERR_DH_AVT_CHANNEL_ALREADY_CREATED)
  {
    var c := ChannelToA();
    c := ThreadTells(c, [], "", SenderKey(), SENDER, "A");
    assert [] + ["A"] == ["A"];
    c := ClosedNext(c, c.softbus.ids[Key(SENDER, "A")]);
  }

  lemma ClosedNext(c: Center, id: int) returns (c': Center)
    requires Reached(c)
    ensures Reached(c') && c' == c.(softbus := c'.softbus)
    ensures forall k :: k in c.softbus.ids && c.softbus.ids[k] == id ==> k !in c'.softbus.ids
  {
    ReachedNext(c, Softbus(Adapter.OnClosed(id), OK));
    c' := SoftbusStep(c, Adapter.OnClosed(id), OK);
  }
}
