/** What holds of the channel adapter over every run. */
module ChannelAdapterProofs {
  import opened Strings
  import opened SessionKeys
  import opened ChannelAdapter

  // ----- null entries are invisible

  function WithoutNulls(listeners: map<string, Listener>): map<string, Listener> {
    map k | k in listeners && listeners[k] != Null :: listeners[k]
  }

  function Erased(st: State): State {
    st.(listeners := WithoutNulls(st.listeners))
  }

  lemma LiveKeysIgnoreNulls(listeners: map<string, Listener>, sess: string)
    ensures LiveKeys(WithoutNulls(listeners), sess) == LiveKeys(listeners, sess)
  {
    var pure := WithoutNulls(listeners);
    FilterInOrder(listeners.Keys, IsLive(listeners, sess));
    FilterInOrder(pure.Keys, IsLive(pure, sess));
    assert Select(listeners.Keys, IsLive(listeners, sess)) == Select(pure.Keys, IsLive(pure, sess));
  }

  lemma TouchIsInvisible(listeners: map<string, Listener>, key: string)
    ensures WithoutNulls(Touch(Inserting, listeners, key)) == WithoutNulls(listeners)
    ensures Touch(Pure, WithoutNulls(listeners), key) == WithoutNulls(listeners)
    ensures ListenerOf(WithoutNulls(listeners), key) == ListenerOf(listeners, key)
  {
  }

  function ErasedServed(sv: Served): Served {
    Served(WithoutNulls(sv.listeners), sv.calls)
  }

  lemma {:induction false} StreamIgnoresNulls(sv: Served, keys: seq<string>, data: nat)
    ensures ErasedServed(StreamTo(Inserting, sv, keys, data)) == StreamTo(Pure, ErasedServed(sv), keys, data)
    decreases |keys|
  {
    if keys != [] {
      TouchIsInvisible(sv.listeners, keys[0]);
      var listener := ListenerOf(sv.listeners, keys[0]);
      if listener != Null {
        var calls := sv.calls + [OnStreamReceived(listener.id, data)];
        StreamIgnoresNulls(Served(Touch(Inserting, sv.listeners, keys[0]), calls), keys[1..], data);
      }
    }
  }

  lemma {:induction false} DeliverIgnoresNulls(sv: Served, keys: seq<string>, event: Event)
    ensures ErasedServed(DeliverAll(Inserting, sv, keys, event)) == DeliverAll(Pure, ErasedServed(sv), keys, event)
  {
    if keys != [] {
      var n := |keys| - 1;
      DeliverIgnoresNulls(sv, keys[..n], event);
      TouchIsInvisible(DeliverAll(Inserting, sv, keys[..n], event).listeners, keys[n]);
    }
  }

  lemma UpdatesIgnoreNulls(listeners: map<string, Listener>, key: string, listener: Listener)
    ensures listener != Null ==> WithoutNulls(listeners[key := listener]) == WithoutNulls(listeners)[key := listener]
    ensures WithoutNulls(listeners - {key}) == WithoutNulls(listeners) - {key}
  {
  }

  lemma OpenIgnoresNulls(st: State, sess: string, peerSess: string, dev: string, socket: int, bind: int)
    ensures Erased(OpenChannel(st, sess, peerSess, dev, socket, bind).st)
         == OpenChannel(Erased(st), sess, peerSess, dev, socket, bind).st
  {
    LiveKeysIgnoreNulls(st.listeners, sess);
  }

  lemma OpenedIgnoresNulls(st: State, peerSess: string, id: int, dev: string)
    ensures Erased(ChannelOpenedBy(st, peerSess, id, dev).st) == ChannelOpenedBy(Erased(st), peerSess, id, dev).st
  {
    LiveKeysIgnoreNulls(st.listeners, OwnSession(st, peerSess));
  }

  lemma OnStreamIgnoresNulls(st: State, id: int, frame: nat)
    ensures Erased(StreamReceived(Inserting, st, id, frame)) == StreamReceived(Pure, Erased(st), id, frame)
  {
    StreamIgnoresNulls(ServedOf(st), KeysOf(st.ids, id), frame);
  }

  lemma TimeSyncIgnoresNulls(st: State, result: int, millisecond: string, target: string)
    ensures Erased(TimeSynced(Inserting, st, result, millisecond, target))
         == TimeSynced(Pure, Erased(st), result, millisecond, target)
  {
    DeliverIgnoresNulls(ServedOf(st), InOrder(st.timeSync), Event(TimeSyncResult, millisecond, target));
  }

  lemma ThreadIgnoresNulls(st: State, i: nat)
    ensures Erased(RunThread(Inserting, st, i)) == RunThread(Pure, Erased(st), i)
  {
    if i < |st.threads| {
      TouchIsInvisible(st.listeners, st.threads[i].key);
    }
  }

  lemma StepIgnoresNulls(st: State, step: Step)
    ensures Erased(Next(Inserting, st, step)) == Next(Pure, Erased(st), step)
  {
    match step
    case DoOpen(sess, peerSess, dev, socket, bind) => OpenIgnoresNulls(st, sess, peerSess, dev, socket, bind);
    case DoRegister(sess, dev, listener) => UpdatesIgnoreNulls(st.listeners, Key(sess, dev), listener);
    case DoUnregister(sess, dev) => UpdatesIgnoreNulls(st.listeners, Key(sess, dev), Null);
    case OnOpened(peerSess, id, dev) => OpenedIgnoresNulls(st, peerSess, id, dev);
    case OnStream(id, frame) => OnStreamIgnoresNulls(st, id, frame);
    case OnTimeSync(result, millisecond, target) => TimeSyncIgnoresNulls(st, result, millisecond, target);
    case ThreadRuns(i) => ThreadIgnoresNulls(st, i);
    case _ =>
  }

  /** Over every run the adapter whose lookups insert null entries makes the same calls to
      the same listeners in the same order as one whose lookups do not. */
  lemma {:induction false} NullEntriesAreInvisible(st: State, steps: seq<Step>)
    ensures Erased(Run(Inserting, st, steps)) == Run(Pure, Erased(st), steps)
    ensures Run(Inserting, st, steps).calls == Run(Pure, Erased(st), steps).calls
    decreases |steps|
  {
    if steps != [] {
      StepIgnoresNulls(st, steps[0]);
      NullEntriesAreInvisible(Next(Inserting, st, steps[0]), steps[1..]);
    }
  }

  // ----- the session table

  /** `keys` lists exactly the keys that satisfy `p`, each once. */
  ghost predicate ListsExactly(keys: seq<string>, p: string -> bool) {
    Distinct(keys) && forall k :: k in keys <==> p(k)
  }

  lemma LiveKeysAreListed(listeners: map<string, Listener>, sess: string)
    ensures ListsExactly(LiveKeys(listeners, sess), IsLive(listeners, sess))
  {
    FilterMembers(InOrder(listeners.Keys), IsLive(listeners, sess));
    FilterInOrder(listeners.Keys, IsLive(listeners, sess));
  }

  lemma KeysOfAreListed(ids: map<string, int>, id: int)
    ensures ListsExactly(KeysOf(ids, id), HasId(ids, id))
  {
    FilterMembers(InOrder(ids.Keys), HasId(ids, id));
    FilterInOrder(ids.Keys, HasId(ids, id));
  }

  /** One new thread for each of the keys, in order, with that event. */
  ghost predicate OneThreadEach(before: seq<Thread>, after: seq<Thread>, keys: seq<string>, event: Event) {
    && |after| == |before| + |keys| && before <= after
    && (forall i :: 0 <= i < |keys| ==> after[|before| + i] == Thread(keys[i], event))
  }

  /** A handled opened callback. */
  lemma OpenedCallback(st: State, peerSess: string, id: int, dev: string)
    requires peerSess != "" && dev != "" && OwnSession(st, peerSess) != ""
    ensures var sess := OwnSession(st, peerSess);
      var st' := ChannelOpenedBy(st, peerSess, id, dev).st;
      // every live key of the session points at the new id
      && (forall k :: IsLive(st.listeners, sess)(k) ==> k in st'.ids && st'.ids[k] == id)
      // the peer's own key is present
      && Key(sess, dev) in st'.ids
      // all other keys are as before
      && (forall k :: !IsLive(st.listeners, sess)(k) && k != Key(sess, dev) ==>
            (k in st'.ids <==> k in st.ids) && (k in st.ids ==> st'.ids[k] == st.ids[k]))
      // one event for each live key
      && (exists keys :: ListsExactly(keys, IsLive(st.listeners, sess)) &&
            OneThreadEach(st.threads, st'.threads, keys, Event(ChannelOpened, sess, dev)))
  {
    var sess := OwnSession(st, peerSess);
    LiveKeysAreListed(st.listeners, sess);
    assert ListsExactly(LiveKeys(st.listeners, sess), IsLive(st.listeners, sess));
  }

  /** A closed callback removes exactly the keys with that id, with one event each, which names the
      owner of the key. */
  lemma ClosedCallback(st: State, id: int)
    ensures var st' := ChannelClosedBy(st, id);
      && (forall k :: k in st'.ids <==> k in st.ids && st.ids[k] != id)
      && (forall k :: k in st'.ids ==> st'.ids[k] == st.ids[k])
      && (exists keys :: ListsExactly(keys, HasId(st.ids, id)) &&
            |st'.threads| == |st.threads| + |keys| && st.threads <= st'.threads &&
            forall i :: 0 <= i < |keys| ==>
              st'.threads[|st.threads| + i]
                == Thread(keys[i], Event(ChannelClosed, OwnerOf(keys[i]), PeerOf(st.ids, id))))
  {
    KeysOfAreListed(st.ids, id);
    assert ListsExactly(KeysOf(st.ids, id), HasId(st.ids, id));
  }

  /** The step maps, or may map, a key to `id`. */
  predicate MayMap(step: Step, id: int) {
    || (step.DoOpen? && step.socket == id)
    || (step.OnOpened? && step.id == id)
  }

  ghost predicate Unmapped(st: State, id: int) {
    forall k :: k in st.ids ==> st.ids[k] != id
  }

  lemma UnmappedHasNoKeys(st: State, id: int)
    requires Unmapped(st, id)
    ensures KeysOf(st.ids, id) == []
  {
    FilterInOrder(st.ids.Keys, HasId(st.ids, id));
    assert Select(st.ids.Keys, HasId(st.ids, id)) == {};
  }

  lemma {:induction false} EraseFirstShrinks(m: map<string, int>, keys: seq<string>, pattern: string)
    ensures forall k :: k in EraseFirst(m, keys, pattern) ==> k in m && EraseFirst(m, keys, pattern)[k] == m[k]
  {
    if keys != [] {
      EraseFirstShrinks(m, keys[1..], pattern);
    }
  }

  /** Lookups leave every listener where it was. */
  ghost predicate SameListeners(a: map<string, Listener>, b: map<string, Listener>) {
    forall k :: ListenerOf(a, k) == ListenerOf(b, k)
  }

  lemma {:induction false} StreamKeepsListeners(mode: Mode, sv: Served, keys: seq<string>, data: nat)
    ensures SameListeners(StreamTo(mode, sv, keys, data).listeners, sv.listeners)
    decreases |keys|
  {
    if keys != [] {
      var listener := ListenerOf(sv.listeners, keys[0]);
      if listener != Null {
        var calls := sv.calls + [OnStreamReceived(listener.id, data)];
        StreamKeepsListeners(mode, Served(Touch(mode, sv.listeners, keys[0]), calls), keys[1..], data);
      }
    }
  }

  lemma {:induction false} DeliverKeepsListeners(mode: Mode, sv: Served, keys: seq<string>, event: Event)
    ensures SameListeners(DeliverAll(mode, sv, keys, event).listeners, sv.listeners)
  {
    if keys != [] {
      DeliverKeepsListeners(mode, sv, keys[..|keys| - 1], event);
    }
  }

  /** Callbacks and threads register and unregister nobody. */
  lemma CallbacksKeepListeners(st: State, step: Step)
    requires step.OnOpened? || step.OnClosed? || step.OnBytes? || step.OnStream? || step.OnTimeSync? || step.ThreadRuns?
    ensures SameListeners(Next(Inserting, st, step).listeners, st.listeners)
  {
    match step
    case OnStream(id, frame) => StreamKeepsListeners(Inserting, ServedOf(st), KeysOf(st.ids, id), frame);
    case OnTimeSync(_, millisecond, target) =>
      DeliverKeepsListeners(Inserting, ServedOf(st), InOrder(st.timeSync), Event(TimeSyncResult, millisecond, target));
    case _ =>
  }

  lemma RemappedKeys(ids: map<string, int>, live: seq<string>, id: int)
    ensures forall k :: k in Remapped(ids, live, id) <==> k in ids || k in live
  {
  }

  lemma OpenedKeepsUnmapped(st: State, peerSess: string, i: int, dev: string, id: int)
    requires Unmapped(st, id) && i != id
    ensures Unmapped(ChannelOpenedBy(st, peerSess, i, dev).st, id)
  {
  }

  lemma StepKeepsUnmapped(mode: Mode, st: State, step: Step, id: int)
    requires Unmapped(st, id) && !MayMap(step, id)
    ensures Unmapped(Next(mode, st, step), id)
  {
    match step
    case DoRemoveServer(_, sess) => EraseFirstShrinks(st.ids, InOrder(st.ids.Keys), sess);
    case OnOpened(peerSess, i, dev) => OpenedKeepsUnmapped(st, peerSess, i, dev, id);
    case _ =>
  }

  lemma {:induction false} UnmappedIsSilent(mode: Mode, st: State, id: int, steps: seq<Step>, data: string, frame: nat)
    requires Unmapped(st, id)
    requires forall i :: 0 <= i < |steps| ==> !MayMap(steps[i], id)
    ensures var st' := Run(mode, st, steps);
      BytesReceived(st', id, data) == st' && StreamReceived(mode, st', id, frame) == st'
    decreases |steps|
  {
    if steps == [] {
      UnmappedHasNoKeys(st, id);
    } else {
      StepKeepsUnmapped(mode, st, steps[0], id);
      UnmappedIsSilent(mode, Next(mode, st, steps[0]), id, steps[1..], data, frame);
    }
  }

  /** After a closed callback, and until a step maps a key to the id again, no received bytes
      or stream under it start a thread, reach a listener or change anything. */
  lemma ClosedIdIsSilent(mode: Mode, st: State, id: int, steps: seq<Step>, data: string, frame: nat)
    requires forall i :: 0 <= i < |steps| ==> !MayMap(steps[i], id)
    ensures var st' := Run(mode, ChannelClosedBy(st, id), steps);
      BytesReceived(st', id, data) == st' && StreamReceived(mode, st', id, frame) == st'
  {
    UnmappedIsSilent(mode, ChannelClosedBy(st, id), id, steps, data, frame);
  }

  // ----- routing by session over whole runs

  predicate IsKeyFrom(k: string, names: set<string>, devices: set<string>) {
    exists sess, dev :: sess in names && dev in devices && k == Key(sess, dev)
  }

  /** Every key the adapter holds was built from one of `names` and one of `devices`. */
  ghost predicate WellNamed(st: State, names: set<string>, devices: set<string>) {
    && NamedListeners(st.listeners, names, devices)
    && NamedIds(st.ids, names, devices)
    && (forall k :: k in st.timeSync ==> IsKeyFrom(k, names, devices))
    && (forall i :: 0 <= i < |st.threads| ==> IsKeyFrom(st.threads[i].key, names, devices))
    && (forall s :: s in st.table ==> st.table[s] in names)
  }

  /** The calls and callbacks use only those names and devices. */
  ghost predicate StepIsNamed(step: Step, names: set<string>, devices: set<string>) {
    match step
    case DoOpen(sess, _, dev, _, _) => sess in names && dev in devices
    case DoRegister(sess, dev, _) => sess in names && dev in devices
    case DoStartTimeSync(sess, dev, _) => sess in names && dev in devices
    case OnOpened(_, _, dev) => dev in devices
    case _ => true
  }

  lemma SpawnedKeys(st: State, keys: seq<string>, names: set<string>, devices: set<string>, more: seq<Thread>)
    requires WellNamed(st, names, devices)
    requires forall k :: k in keys ==> IsKeyFrom(k, names, devices)
    requires |more| == |keys| && forall i :: 0 <= i < |keys| ==> more[i].key == keys[i]
    ensures WellNamed(st.(threads := st.threads + more), names, devices)
  {
    var threads := st.threads + more;
    forall i | 0 <= i < |threads| ensures IsKeyFrom(threads[i].key, names, devices) {
      if i >= |st.threads| {
        assert keys[i - |st.threads|] in keys;
      }
    }
  }

  lemma LiveKeysAreNamed(st: State, sess: string, names: set<string>, devices: set<string>)
    requires WellNamed(st, names, devices)
    ensures forall k :: k in LiveKeys(st.listeners, sess) ==> IsKeyFrom(k, names, devices)
  {
    LiveKeysAreListed(st.listeners, sess);
    assert forall k :: k in LiveKeys(st.listeners, sess) ==> IsLive(st.listeners, sess)(k) && k in st.listeners;
  }

  ghost predicate NamedIds(ids: map<string, int>, names: set<string>, devices: set<string>) {
    forall k :: k in ids ==> IsKeyFrom(k, names, devices)
  }

  lemma RemappedKeepsNames(
    ids: map<string, int>, live: seq<string>, id: int, key: string, names: set<string>, devices: set<string>)
    requires NamedIds(ids, names, devices) && IsKeyFrom(key, names, devices)
    requires forall k :: k in live ==> IsKeyFrom(k, names, devices)
    ensures NamedIds(InsertNew(Remapped(ids, live, id), key, id), names, devices)
  {
    RemappedKeys(ids, live, id);
  }

  lemma OpenedKeepsNames(st: State, peerSess: string, id: int, dev: string, names: set<string>, devices: set<string>)
    requires WellNamed(st, names, devices) && dev in devices
    ensures WellNamed(ChannelOpenedBy(st, peerSess, id, dev).st, names, devices)
  {
    var sess := OwnSession(st, peerSess);
    if sess != "" {
      var live := LiveKeys(st.listeners, sess);
      LiveKeysAreNamed(st, sess, names, devices);
      SpawnedKeys(st, live, names, devices, Spawn(live, Event(ChannelOpened, sess, dev)));
      assert IsKeyFrom(Key(sess, dev), names, devices);
      RemappedKeepsNames(st.ids, live, id, Key(sess, dev), names, devices);
    }
  }

  lemma InsertKeepsNames(ids: map<string, int>, key: string, id: int, names: set<string>, devices: set<string>)
    requires NamedIds(ids, names, devices) && IsKeyFrom(key, names, devices)
    ensures NamedIds(InsertNew(ids, key, id), names, devices)
  {
  }

  lemma WithNamedIds(st: State, ids: map<string, int>, names: set<string>, devices: set<string>)
    requires WellNamed(st, names, devices) && NamedIds(ids, names, devices)
    ensures WellNamed(st.(ids := ids), names, devices)
  {
  }

  lemma KeyIsNamed(sess: string, dev: string, names: set<string>, devices: set<string>)
    requires sess in names && dev in devices
    ensures IsKeyFrom(Key(sess, dev), names, devices)
  {
  }

  lemma OpenShape(st: State, sess: string, peerSess: string, dev: string, socket: int, bind: int)
    ensures var st' := OpenChannel(st, sess, peerSess, dev, socket, bind).st;
      var threads := st.threads + Spawn(LiveKeys(st.listeners, sess), Event(ChannelOpened, sess, dev));
      st' == st || st' == st.(threads := threads).(ids := InsertNew(st.ids, Key(sess, dev), socket))
  {
  }

  lemma OpenKeepsNames(st: State, sess: string, peerSess: string, dev: string, socket: int, bind: int,
                       names: set<string>, devices: set<string>)
    requires WellNamed(st, names, devices) && sess in names && dev in devices
    ensures WellNamed(OpenChannel(st, sess, peerSess, dev, socket, bind).st, names, devices)
  {
    var live, ids := LiveKeys(st.listeners, sess), InsertNew(st.ids, Key(sess, dev), socket);
    var threads := Spawn(live, Event(ChannelOpened, sess, dev));
    LiveKeysAreNamed(st, sess, names, devices);
    SpawnedKeys(st, live, names, devices, threads);
    KeyIsNamed(sess, dev, names, devices);
    InsertKeepsNames(st.ids, Key(sess, dev), socket, names, devices);
    WithNamedIds(st.(threads := st.threads + threads), ids, names, devices);
    OpenShape(st, sess, peerSess, dev, socket, bind);
  }

  lemma ReceivedKeepsNames(st: State, id: int, data: string, names: set<string>, devices: set<string>)
    requires WellNamed(st, names, devices)
    ensures WellNamed(BytesReceived(st, id, data), names, devices)
    ensures WellNamed(ChannelClosedBy(st, id), names, devices)
  {
    var keys, peer := KeysOf(st.ids, id), PeerOf(st.ids, id);
    KeysOfAreListed(st.ids, id);
    assert forall k :: k in keys ==> HasId(st.ids, id)(k) && k in st.ids;
    SpawnedKeys(st, keys, names, devices, Spawn(keys, Event(DataReceived, data, peer)));
    SpawnedKeys(st, keys, names, devices, SpawnClosed(keys, peer));
  }

  ghost predicate NamedListeners(listeners: map<string, Listener>, names: set<string>, devices: set<string>) {
    forall k :: k in listeners ==> IsKeyFrom(k, names, devices)
  }

  lemma {:induction false} StreamKeepsNames(
    sv: Served, keys: seq<string>, data: nat, names: set<string>, devices: set<string>)
    requires NamedListeners(sv.listeners, names, devices)
    requires forall k :: k in keys ==> IsKeyFrom(k, names, devices)
    ensures NamedListeners(StreamTo(Inserting, sv, keys, data).listeners, names, devices)
    decreases |keys|
  {
    if keys != [] {
      var listener := ListenerOf(sv.listeners, keys[0]);
      if listener != Null {
        var calls := sv.calls + [OnStreamReceived(listener.id, data)];
        StreamKeepsNames(Served(Touch(Inserting, sv.listeners, keys[0]), calls), keys[1..], data, names, devices);
      }
    }
  }

  lemma {:induction false} DeliverKeepsNames(
    sv: Served, keys: seq<string>, event: Event, names: set<string>, devices: set<string>)
    requires NamedListeners(sv.listeners, names, devices)
    requires forall k :: k in keys ==> IsKeyFrom(k, names, devices)
    ensures NamedListeners(DeliverAll(Inserting, sv, keys, event).listeners, names, devices)
  {
    if keys != [] {
      DeliverKeepsNames(sv, keys[..|keys| - 1], event, names, devices);
    }
  }

  lemma LookupsKeepNames(st: State, step: Step, names: set<string>, devices: set<string>)
    requires WellNamed(st, names, devices) && (step.OnStream? || step.OnTimeSync?)
    ensures WellNamed(Next(Inserting, st, step), names, devices)
  {
    match step
    case OnStream(id, frame) =>
      KeysOfAreListed(st.ids, id);
      assert forall k :: k in KeysOf(st.ids, id) ==> HasId(st.ids, id)(k) && k in st.ids;
      StreamKeepsNames(ServedOf(st), KeysOf(st.ids, id), frame, names, devices);
    case OnTimeSync(_, millisecond, target) =>
      DeliverKeepsNames(ServedOf(st), InOrder(st.timeSync), Event(TimeSyncResult, millisecond, target), names, devices);
  }

  lemma StepKeepsNames(st: State, step: Step, names: set<string>, devices: set<string>)
    requires WellNamed(st, names, devices) && StepIsNamed(step, names, devices)
    ensures WellNamed(Next(Inserting, st, step), names, devices)
  {
    match step
    case DoRemoveServer(_, sess) => EraseFirstShrinks(st.ids, InOrder(st.ids.Keys), sess);
    case DoOpen(sess, peerSess, dev, socket, bind) =>
      OpenKeepsNames(st, sess, peerSess, dev, socket, bind, names, devices);
    case DoRegister(sess, dev, _) => KeyIsNamed(sess, dev, names, devices);
    case DoStartTimeSync(sess, dev, _) => KeyIsNamed(sess, dev, names, devices);
    case OnOpened(peerSess, id, dev) => OpenedKeepsNames(st, peerSess, id, dev, names, devices);
    case OnClosed(id) => ReceivedKeepsNames(st, id, "", names, devices);
    case OnBytes(id, data) => ReceivedKeepsNames(st, id, data, names, devices);
    case OnStream(_, _) => LookupsKeepNames(st, step, names, devices);
    case OnTimeSync(_, _, _) => LookupsKeepNames(st, step, names, devices);
    case _ =>
  }

  /** Names and devices for which a key contains a session name only as its own session. */
  ghost predicate Routable(names: set<string>, devices: set<string>) {
    && (forall d :: d in devices ==> NoBar(d))
    && (forall a, d, b :: a in names && d in devices && b in names ==> (Contains(Key(a, d), b) <==> a == b))
  }

  lemma {:induction false} RunKeepsNames(st: State, steps: seq<Step>, names: set<string>, devices: set<string>)
    requires WellNamed(st, names, devices)
    requires forall i :: 0 <= i < |steps| ==> StepIsNamed(steps[i], names, devices)
    ensures WellNamed(Run(Inserting, st, steps), names, devices)
    decreases |steps|
  {
    if steps != [] {
      StepKeepsNames(st, steps[0], names, devices);
      RunKeepsNames(Next(Inserting, st, steps[0]), steps[1..], names, devices);
    }
  }

  /** `k` is the key of a listener registered under session `sess`, for some device. */
  ghost predicate ListensTo(listeners: map<string, Listener>, k: string, sess: string, devices: set<string>) {
    ListenerOf(listeners, k) != Null && exists d :: d in devices && k == Key(sess, d)
  }

  /** With routable names the substring test picks the listeners of the session, and no others. */
  lemma LiveIsListening(
    st: State, sess: string, names: set<string>, devices: set<string>, k: string)
    requires Routable(names, devices) && WellNamed(st, names, devices) && sess in names
    ensures IsLive(st.listeners, sess)(k) <==> ListensTo(st.listeners, k, sess, devices)
  {
    if ListenerOf(st.listeners, k) != Null {
      var a, d :| a in names && d in devices && k == Key(a, d);
      assert Contains(Key(a, d), sess) <==> a == sess;
    }
  }

  /** Over every run with routable names, a handled opened callback points exactly the
      listeners registered under its own session at the new id, whatever their device, and
      starts one thread for each of those; of all other ids it may only add that of the peer. */
  lemma OpenedRoutesBySession(
    st: State, steps: seq<Step>, names: set<string>, devices: set<string>, peerSess: string, id: int, dev: string)
    requires Routable(names, devices) && WellNamed(st, names, devices)
    requires forall i :: 0 <= i < |steps| ==> StepIsNamed(steps[i], names, devices)
    requires var before := Run(Inserting, st, steps);
      peerSess != "" && dev != "" && OwnSession(before, peerSess) != ""
    ensures var before := Run(Inserting, st, steps);
      var own := OwnSession(before, peerSess);
      var after := ChannelOpenedBy(before, peerSess, id, dev).st;
      && (forall k :: ListensTo(before.listeners, k, own, devices) ==> k in after.ids && after.ids[k] == id)
      && (forall k :: !ListensTo(before.listeners, k, own, devices) && k != Key(own, dev) ==>
            (k in after.ids <==> k in before.ids) && (k in before.ids ==> after.ids[k] == before.ids[k]))
      && (exists keys :: Distinct(keys) && (forall k :: k in keys <==> ListensTo(before.listeners, k, own, devices)) &&
            OneThreadEach(before.threads, after.threads, keys, Event(ChannelOpened, own, dev)))
  {
    RunKeepsNames(st, steps, names, devices);
    var before := Run(Inserting, st, steps);
    var own := OwnSession(before, peerSess);
    forall k ensures IsLive(before.listeners, own)(k) <==> ListensTo(before.listeners, k, own, devices) {
      LiveIsListening(before, own, names, devices, k);
    }
    OpenedCallback(before, peerSess, id, dev);
    var keys :| ListsExactly(keys, IsLive(before.listeners, own)) &&
      OneThreadEach(before.threads, ChannelOpenedBy(before, peerSess, id, dev).st.threads, keys,
                    Event(ChannelOpened, own, dev));
    assert forall k :: k in keys <==> ListensTo(before.listeners, k, own, devices);
  }

  // ----- the names of the transport layer are routable

  predicate IsControlName(n: string) {
    n == AV_SYNC_SENDER_CONTROL_SESSION_NAME || n == AV_SYNC_RECEIVER_CONTROL_SESSION_NAME
  }

  ghost predicate IsTransportName(n: string) {
    IsControlName(n) || exists o, s :: IsOwner(o) && IsNameSuffix(s) && n == SessionName(o, s)
  }

  /** A device id has no bar and does not contain a control session name. */
  ghost predicate IsDeviceId(d: string) {
    && NoBar(d)
    && !Contains(d, AV_SYNC_SENDER_CONTROL_SESSION_NAME)
    && !Contains(d, AV_SYNC_RECEIVER_CONTROL_SESSION_NAME)
  }

  lemma OwnerHasNoBar(o: string)
    requires IsOwner(o)
    ensures NoBar(o) && |o| <= 30 && o[|o| - 1] != 'l'
  {
  }

  lemma SuffixHasNoBar(s: string)
    requires IsNameSuffix(s)
    ensures NoBar(s) && |s| <= 24
  {
  }

  lemma ControlNameHasNoBar(n: string)
    requires IsControlName(n)
    ensures NoBar(n) && |n| >= 37 && n[|n| - 1] == 'l'
  {
  }

  lemma ControlNamesDiffer(a: string, b: string)
    requires IsControlName(a) && IsControlName(b)
    ensures Contains(a, b) <==> a == b
  {
    if a == b {
      Found(a, b, 0);
    } else if |a| > |b| {
      SenderNotInReceiver();
    } else {
      ShorterContainsNot(a, b);
    }
  }

  lemma SenderNotInReceiver()
    ensures !Contains(AV_SYNC_RECEIVER_CONTROL_SESSION_NAME, AV_SYNC_SENDER_CONTROL_SESSION_NAME)
  {
    NoShiftMatches(AV_SYNC_RECEIVER_CONTROL_SESSION_NAME, AV_SYNC_SENDER_CONTROL_SESSION_NAME);
  }

  lemma NoShiftMatches(a: string, b: string)
    requires |a| == |b| + 2 && |b| > 23
    requires a[23] != b[23] && a[1] != b[0] && a[3] != b[1]
    ensures !Contains(a, b)
  {
    Mismatch(a, b, 0, 23);
    Mismatch(a, b, 1, 0);
    Mismatch(a, b, 2, 1);
  }

  lemma ShorterContainsNot(a: string, b: string)
    requires |a| < |b|
    ensures !Contains(a, b)
  {
  }

  lemma ControlNameRoutes(a: string, d: string, b: string)
    requires IsTransportName(a) && IsControlName(b) && IsDeviceId(d)
    ensures Contains(Key(a, d), b) <==> a == b
  {
    ControlNameHasNoBar(b);
    PlainSearch(a, d, b);
    if IsControlName(a) {
      ControlNamesDiffer(a, b);
    } else {
      var o, s :| IsOwner(o) && IsNameSuffix(s) && a == SessionName(o, s);
      SearchInOrdinary(o, s, b);
    }
  }

  lemma OrdinaryNameRoutes(a: string, d: string, o: string, s: string)
    requires IsTransportName(a) && IsOwner(o) && IsNameSuffix(s) && IsDeviceId(d)
    ensures Contains(Key(a, d), SessionName(o, s)) <==> a == SessionName(o, s)
  {
    OwnerHasNoBar(o);
    SuffixHasNoBar(s);
    if IsControlName(a) {
      ControlNameHasNoBar(a);
      BarSearch(a, d, o, s);
      NoBarInside(d, o, s);
      Mismatch(a, o, |a| - |o|, |o| - 1);
      assert SessionName(o, s)[|o|] == '_';
    } else {
      var o1, s1 :| IsOwner(o1) && IsNameSuffix(s1) && a == SessionName(o1, s1);
      OwnerHasNoBar(o1);
      SuffixHasNoBar(s1);
      TransportNamesAreUnambiguous(o1, s1, d, o, s);
      RoutingIsByEquality(o1, s1, d, o, s);
    }
  }

  lemma SearchInOrdinary(o: string, s: string, b: string)
    requires IsOwner(o) && IsNameSuffix(s) && IsControlName(b)
    ensures !Contains(SessionName(o, s), b) && SessionName(o, s) != b
  {
    OwnerHasNoBar(o);
    SuffixHasNoBar(s);
    ControlNameHasNoBar(b);
    PlainSearch(o, s, b);
    ShorterContainsNot(o, b);
    ShorterContainsNot(s, b);
    assert SessionName(o, s)[|o|] == '_';
  }

  /** So the adapter routes by session whenever it is used with the transport layer's names
      and with device ids that contain neither a bar nor a control session name. */
  lemma TransportNamesAreRoutable(names: set<string>, devices: set<string>)
    requires forall n :: n in names ==> IsTransportName(n)
    requires forall d :: d in devices ==> IsDeviceId(d)
    ensures Routable(names, devices)
  {
    forall a, d, b | a in names && d in devices && b in names ensures Contains(Key(a, d), b) <==> a == b {
      if IsControlName(b) {
        ControlNameRoutes(a, d, b);
      } else {
        var o, s :| IsOwner(o) && IsNameSuffix(s) && b == SessionName(o, s);
        OrdinaryNameRoutes(a, d, o, s);
      }
    }
  }
}
