/** What the channel adapter delivers, and to whom, over every run; and what its calls leave in
    its tables, said without its steps. */
module ChannelDelivery {
  import opened Errno
  import opened Strings
  import opened SessionKeys
  import opened ChannelAdapter
  import opened ChannelAdapterProofs

  // ----- the peer of a session

  /** The key names a device other than the special one. */
  predicate NamesDevice(k: string) {
    !NoBar(k) && DeviceOf(k) != AV_TRANS_SPECIAL_DEVICE_ID
  }

  /** The key has that id and names a device. */
  predicate IsNamed(ids: map<string, int>, id: int, k: string) {
    HasId(ids, id)(k) && NamesDevice(k)
  }

  /** The position of the first key that names a device, or the length if none does. */
  lemma {:induction false} FirstDeviceIs(keys: seq<string>) returns (i: nat)
    ensures i <= |keys| && forall j :: 0 <= j < i ==> !NamesDevice(keys[j])
    ensures if i < |keys| then NamesDevice(keys[i]) && FirstDevice(keys) == DeviceOf(keys[i])
      else FirstDevice(keys) == ""
  {
    i := 0;
    if keys != [] && !NamesDevice(keys[0]) {
      var rest := FirstDeviceIs(keys[1..]);
      i := rest + 1;
      assert forall j :: 0 < j < |keys| ==> keys[j] == keys[1..][j - 1];
    }
  }

  /** `k` is the first key, in key order, with that id that names a device. */
  ghost predicate IsFirstNamed(ids: map<string, int>, id: int, k: string) {
    IsNamed(ids, id, k) && forall x :: IsNamed(ids, id, x) ==> Leq(k, x)
  }

  lemma KeysOfAreSorted(ids: map<string, int>, id: int)
    ensures Sorted(KeysOf(ids, id))
  {
    FilterInOrder(ids.Keys, HasId(ids, id));
    InOrderIsSorted(Select(ids.Keys, HasId(ids, id)));
  }

  lemma FirstOfSorted(ids: map<string, int>, id: int, keys: seq<string>, i: nat)
    requires Sorted(keys) && ListsExactly(keys, HasId(ids, id)) && i < |keys| && NamesDevice(keys[i])
    requires forall j :: 0 <= j < i ==> !NamesDevice(keys[j])
    ensures IsFirstNamed(ids, id, keys[i])
  {
    assert keys[i] in keys;
    forall x | IsNamed(ids, id, x) ensures Leq(keys[i], x) {
      assert x in keys;
      LeqTotal(x, x);
    }
  }

  /** The peer of a session is the device that the first key with its id names, in key order, of
      those that name one; without such a key it is empty. */
  lemma PeerIsFirstNamed(ids: map<string, int>, id: int)
    ensures if exists k :: IsNamed(ids, id, k)
      then exists k :: IsFirstNamed(ids, id, k) && PeerOf(ids, id) == DeviceOf(k)
      else PeerOf(ids, id) == ""
  {
    var keys := KeysOf(ids, id);
    KeysOfAreListed(ids, id);
    KeysOfAreSorted(ids, id);
    assert forall k :: IsNamed(ids, id, k) ==> k in keys;
    var i := FirstDeviceIs(keys);
    if i < |keys| {
      FirstOfSorted(ids, id, keys, i);
    }
  }

  // ----- received bytes, and the threads that deliver

  /** Between one byte and 100 MiB start one thread for each key with the id, and nothing else;
      everything else is dropped. */
  lemma BytesStartThreads(st: State, id: int, data: string)
    ensures var st' := BytesReceived(st, id, data);
      if 1 <= |data| <= 100 * 1024 * 1024 then
        && (exists keys :: ListsExactly(keys, HasId(st.ids, id)) &&
              OneThreadEach(st.threads, st'.threads, keys, Event(DataReceived, data, PeerOf(st.ids, id))))
        && st' == st.(threads := st'.threads)
      else st' == st
  {
    KeysOfAreListed(st.ids, id);
    assert ListsExactly(KeysOf(st.ids, id), HasId(st.ids, id));
  }

  /** A thread that runs is gone; it calls the listener its key then has, with its event, and
      nobody if there is none. */
  lemma ThreadCalls(st: State, i: nat)
    requires i < |st.threads|
    ensures var st', t := RunThread(Inserting, st, i), st.threads[i];
      && st'.threads == st.threads[..i] + st.threads[i + 1..]
      && st'.calls == (match ListenerOf(st.listeners, t.key)
                       case Null => st.calls
                       case Client(n) => st.calls + [OnChannelEvent(n, t.event)])
      && SameListeners(st'.listeners, st.listeners)
  {
  }

  // ----- no event is lost

  lemma {:induction false} StreamCallsGrow(sv: Served, keys: seq<string>, data: nat)
    ensures sv.calls <= StreamTo(Inserting, sv, keys, data).calls
    decreases |keys|
  {
    if keys != [] {
      var listener := ListenerOf(sv.listeners, keys[0]);
      if listener != Null {
        var calls := sv.calls + [OnStreamReceived(listener.id, data)];
        StreamCallsGrow(Served(Touch(Inserting, sv.listeners, keys[0]), calls), keys[1..], data);
      }
    }
  }

  lemma {:induction false} DeliverCallsGrow(sv: Served, keys: seq<string>, event: Event)
    ensures sv.calls <= DeliverAll(Inserting, sv, keys, event).calls
  {
    if keys != [] {
      DeliverCallsGrow(sv, keys[..|keys| - 1], event);
    }
  }

  lemma CallsGrow(st: State, step: Step)
    ensures st.calls <= Next(Inserting, st, step).calls
    ensures !step.ThreadRuns? ==> st.threads <= Next(Inserting, st, step).threads
  {
    match step
    case OnStream(id, frame) => StreamCallsGrow(ServedOf(st), KeysOf(st.ids, id), frame);
    case OnTimeSync(_, millisecond, target) =>
      DeliverCallsGrow(ServedOf(st), InOrder(st.timeSync), Event(TimeSyncResult, millisecond, target));
    case _ =>
  }

  /** The listener of `k` after the step, if it was `l` before: that of the last registration. */
  function ListenerAfter(step: Step, k: string, l: Listener): Listener {
    match step
    case DoRegister(sess, dev, x) => if sess != "" && dev != "" && x != Null && Key(sess, dev) == k then x else l
    case DoUnregister(sess, dev) => if sess != "" && dev != "" && Key(sess, dev) == k then Null else l
    case _ => l
  }

  function LastListener(steps: seq<Step>, k: string, l: Listener): Listener
    decreases |steps|
  {
    if steps == [] then l else LastListener(steps[1..], k, ListenerAfter(steps[0], k, l))
  }

  lemma ListenerStep(st: State, step: Step, k: string)
    ensures ListenerOf(Next(Inserting, st, step).listeners, k) == ListenerAfter(step, k, ListenerOf(st.listeners, k))
  {
    if step.OnOpened? || step.OnClosed? || step.OnBytes? || step.OnStream? || step.OnTimeSync? || step.ThreadRuns? {
      CallbacksKeepListeners(st, step);
    }
  }

  /** In every run the listener of a key is the one of the last call that registered or
      unregistered it: registering overwrites. */
  lemma {:induction false} ListenerHistory(st: State, steps: seq<Step>, k: string)
    ensures ListenerOf(Run(Inserting, st, steps).listeners, k) == LastListener(steps, k, ListenerOf(st.listeners, k))
    decreases |steps|
  {
    if steps != [] {
      ListenerStep(st, steps[0], k);
      ListenerHistory(Next(Inserting, st, steps[0]), steps[1..], k);
    }
  }

  /** The event is on its way to `k`, or listener `n` was called with it. */
  ghost predicate Due(st: State, k: string, n: nat, event: Event) {
    Thread(k, event) in st.threads || OnChannelEvent(n, event) in st.calls
  }

  /** The step leaves the registration of `k` alone. */
  predicate Spares(step: Step, k: string) {
    (step.DoRegister? || step.DoUnregister?) ==> Key(step.sess, step.dev) != k
  }

  lemma StillThere(threads: seq<Thread>, i: nat, t: Thread)
    requires i < |threads| && t in threads && t != threads[i]
    ensures t in threads[..i] + threads[i + 1..]
  {
    var j :| 0 <= j < |threads| && threads[j] == t;
    var left := threads[..i] + threads[i + 1..];
    assert left[if j < i then j else j - 1] == t;
  }

  lemma DueThread(st: State, i: nat, k: string, n: nat, event: Event)
    requires Thread(k, event) in st.threads && ListenerOf(st.listeners, k) == Client(n)
    ensures Due(RunThread(Inserting, st, i), k, n, event)
  {
    if i < |st.threads| {
      var st' := RunThread(Inserting, st, i);
      ThreadCalls(st, i);
      if st.threads[i] == Thread(k, event) {
        assert st'.calls[|st.calls|] == OnChannelEvent(n, event);
      } else {
        StillThere(st.threads, i, Thread(k, event));
      }
    }
  }

  lemma DueStep(st: State, step: Step, k: string, n: nat, event: Event)
    requires Due(st, k, n, event) && ListenerOf(st.listeners, k) == Client(n) && Spares(step, k)
    ensures Due(Next(Inserting, st, step), k, n, event)
    ensures ListenerOf(Next(Inserting, st, step).listeners, k) == Client(n)
  {
    ListenerStep(st, step, k);
    CallsGrow(st, step);
    if step.ThreadRuns? && Thread(k, event) in st.threads {
      DueThread(st, step.i, k, n, event);
    }
  }

  /** Over every run that leaves the registration alone, whatever else happens in between, an event
      on its way to a listener is still on its way or was delivered to it: none is lost. */
  lemma {:induction false} EventIsNotLost(st: State, steps: seq<Step>, k: string, n: nat, event: Event)
    requires Due(st, k, n, event) && ListenerOf(st.listeners, k) == Client(n)
    requires forall i :: 0 <= i < |steps| ==> Spares(steps[i], k)
    ensures Due(Run(Inserting, st, steps), k, n, event)
    decreases |steps|
  {
    if steps != [] {
      DueStep(st, steps[0], k, n, event);
      EventIsNotLost(Next(Inserting, st, steps[0]), steps[1..], k, n, event);
    }
  }

  /** So bytes of a session reach every listener with a key of its id, in every such run: once no
      thread is left, it was called with the bytes and the peer. */
  lemma BytesReachListener(st: State, k: string, n: nat, id: int, data: string, steps: seq<Step>)
    requires HasId(st.ids, id)(k) && ListenerOf(st.listeners, k) == Client(n) && 0 < |data| <= MAX_RECV_DATA_LEN
    requires forall i :: 0 <= i < |steps| ==> Spares(steps[i], k)
    ensures var event, end := Event(DataReceived, data, PeerOf(st.ids, id)),
                              Run(Inserting, BytesReceived(st, id, data), steps);
      Due(end, k, n, event) && (end.threads == [] ==> OnChannelEvent(n, event) in end.calls)
  {
    ThreadForKey(st, k, id, data);
    EventIsNotLost(BytesReceived(st, id, data), steps, k, n, Event(DataReceived, data, PeerOf(st.ids, id)));
  }

  lemma HasItsThread(before: seq<Thread>, after: seq<Thread>, keys: seq<string>, event: Event, k: string)
    requires OneThreadEach(before, after, keys, event) && k in keys
    ensures Thread(k, event) in after
  {
    var i :| 0 <= i < |keys| && keys[i] == k;
    assert after[|before| + i] == Thread(k, event);
  }

  lemma ThreadForKey(st: State, k: string, id: int, data: string)
    requires HasId(st.ids, id)(k) && 0 < |data| <= MAX_RECV_DATA_LEN
    ensures Thread(k, Event(DataReceived, data, PeerOf(st.ids, id))) in BytesReceived(st, id, data).threads
    ensures BytesReceived(st, id, data).listeners == st.listeners
  {
    BytesStartThreads(st, id, data);
    var event, after := Event(DataReceived, data, PeerOf(st.ids, id)), BytesReceived(st, id, data).threads;
    var keys :| ListsExactly(keys, HasId(st.ids, id)) && OneThreadEach(st.threads, after, keys, event);
    HasItsThread(st.threads, after, keys, event, k);
  }

  /** From the start: a listener registered for a session and a device, the peer opens the session,
      and sends bytes. Then, whatever happens that leaves the registration alone, it is told of
      both, with the device as the peer, once the threads have run. */
  lemma RegisteredHearsBytes(table: map<string, string>, peerSess: string, dev: string, n: nat, id: int, data: string,
                             steps: seq<Step>)
    requires peerSess != "" && peerSess in table && table[peerSess] != ""
    requires dev != "" && NoBar(dev) && dev != AV_TRANS_SPECIAL_DEVICE_ID && 0 < |data| <= MAX_RECV_DATA_LEN
    requires forall i :: 0 <= i < |steps| ==> Spares(steps[i], Key(table[peerSess], dev))
    ensures var sess := table[peerSess];
      var registered := Register(Initial(table), sess, dev, Client(n)).st;
      var connected := ChannelOpenedBy(registered, peerSess, id, dev).st;
      var end := Run(Inserting, BytesReceived(connected, id, data), steps);
      && Due(end, Key(sess, dev), n, Event(ChannelOpened, sess, dev))
      && Due(end, Key(sess, dev), n, Event(DataReceived, data, dev))
  {
    var sess := table[peerSess];
    var k := Key(sess, dev);
    var registered := Register(Initial(table), sess, dev, Client(n)).st;
    var connected := ChannelOpenedBy(registered, peerSess, id, dev).st;
    OnlyListenerConnects(registered, peerSess, id, dev, n);
    SolePeer(connected.ids, sess, dev, id);
    BytesReachListener(connected, k, n, id, data, steps);
    BytesStartThreads(connected, id, data);
    EventIsNotLost(BytesReceived(connected, id, data), steps, k, n, Event(ChannelOpened, sess, dev));
  }

  /** Every live key gets its thread. */
  lemma ThreadForLive(st: State, peerSess: string, id: int, dev: string, k: string)
    requires peerSess != "" && dev != "" && OwnSession(st, peerSess) != ""
    requires IsLive(st.listeners, OwnSession(st, peerSess))(k)
    ensures Thread(k, Event(ChannelOpened, OwnSession(st, peerSess), dev))
      in ChannelOpenedBy(st, peerSess, id, dev).st.threads
  {
    var event := Event(ChannelOpened, OwnSession(st, peerSess), dev);
    var after := ChannelOpenedBy(st, peerSess, id, dev).st.threads;
    OpenedCallback(st, peerSess, id, dev);
    var keys :| ListsExactly(keys, IsLive(st.listeners, OwnSession(st, peerSess))) &&
      OneThreadEach(st.threads, after, keys, event);
    HasItsThread(st.threads, after, keys, event, k);
  }

  /** With one listener the peer's key is the only one in the table. */
  lemma OnlyKeyConnects(st: State, peerSess: string, id: int, dev: string, n: nat)
    requires peerSess != "" && dev != "" && OwnSession(st, peerSess) != "" && st.ids == map[]
    requires st.listeners == map[Key(OwnSession(st, peerSess), dev) := Client(n)]
    requires IsLive(st.listeners, OwnSession(st, peerSess))(Key(OwnSession(st, peerSess), dev))
    ensures ChannelOpenedBy(st, peerSess, id, dev).st.ids == map[Key(OwnSession(st, peerSess), dev) := id]
  {
    OpenedCallback(st, peerSess, id, dev);
    assert forall x :: x in ChannelOpenedBy(st, peerSess, id, dev).st.ids <==> x == Key(OwnSession(st, peerSess), dev);
  }

  /** One listener, and the peer opens its session. */
  lemma OnlyListenerConnects(st: State, peerSess: string, id: int, dev: string, n: nat)
    requires peerSess != "" && dev != "" && OwnSession(st, peerSess) != "" && st.ids == map[]
    requires st.listeners == map[Key(OwnSession(st, peerSess), dev) := Client(n)]
    ensures var sess, st' := OwnSession(st, peerSess), ChannelOpenedBy(st, peerSess, id, dev).st;
      && st'.listeners == st.listeners && st'.ids == map[Key(sess, dev) := id]
      && Thread(Key(sess, dev), Event(ChannelOpened, sess, dev)) in st'.threads
  {
    var k := Key(OwnSession(st, peerSess), dev);
    Found(k, OwnSession(st, peerSess), 0);
    ThreadForLive(st, peerSess, id, dev, k);
    OnlyKeyConnects(st, peerSess, id, dev, n);
  }

  lemma SolePeer(ids: map<string, int>, sess: string, dev: string, id: int)
    requires ids == map[Key(sess, dev) := id] && NoBar(dev) && dev != AV_TRANS_SPECIAL_DEVICE_ID
    ensures PeerOf(ids, id) == dev
  {
    DeviceRecovered(sess, dev);
    PeerIsFirstNamed(ids, id);
    assert IsNamed(ids, id, Key(sess, dev));
  }

  // ----- each event is delivered once

  /** How often listener `n` was called with the event. */
  function Told(calls: seq<Call>, n: nat, event: Event): nat {
    if calls == [] then 0
    else Told(calls[..|calls| - 1], n, event) + if calls[|calls| - 1] == OnChannelEvent(n, event) then 1 else 0
  }

  predicate GoesTo(t: Thread, listeners: map<string, Listener>, n: nat, event: Event) {
    ListenerOf(listeners, t.key) == Client(n) && t.event == event
  }

  /** How often the event is on its way to listener `n`. */
  function Pending(threads: seq<Thread>, listeners: map<string, Listener>, n: nat, event: Event): nat {
    if threads == [] then 0
    else
      Pending(threads[..|threads| - 1], listeners, n, event) +
      if GoesTo(threads[|threads| - 1], listeners, n, event) then 1 else 0
  }

  lemma {:induction false} PendingConcat(
    a: seq<Thread>, b: seq<Thread>, listeners: map<string, Listener>, n: nat, event: Event)
    ensures Pending(a + b, listeners, n, event) == Pending(a, listeners, n, event) + Pending(b, listeners, n, event)
  {
    if b == [] {
      assert a + b == a;
    } else {
      var m := |b| - 1;
      PendingConcat(a, b[..m], listeners, n, event);
      assert (a + b)[..|a| + m] == a + b[..m];
    }
  }

  lemma {:induction false} PendingSame(
    threads: seq<Thread>, a: map<string, Listener>, b: map<string, Listener>, n: nat, event: Event)
    requires SameListeners(a, b)
    ensures Pending(threads, a, n, event) == Pending(threads, b, n, event)
  {
    if threads != [] {
      PendingSame(threads[..|threads| - 1], a, b, n, event);
    }
  }

  lemma PendingWithout(threads: seq<Thread>, i: nat, listeners: map<string, Listener>, n: nat, event: Event)
    requires i < |threads|
    ensures Pending(threads, listeners, n, event) ==
      Pending(threads[..i] + threads[i + 1..], listeners, n, event)
      + if GoesTo(threads[i], listeners, n, event) then 1 else 0
  {
    var t, rest := [threads[i]], threads[i + 1..];
    assert threads == threads[..i] + (t + rest);
    assert t[..0] == [];
    PendingConcat(threads[..i], t + rest, listeners, n, event);
    PendingConcat(t, rest, listeners, n, event);
    PendingConcat(threads[..i], rest, listeners, n, event);
  }

  lemma ToldOneMore(calls: seq<Call>, call: Call, n: nat, event: Event)
    ensures Told(calls + [call], n, event) == Told(calls, n, event) + if call == OnChannelEvent(n, event) then 1 else 0
  {
    assert (calls + [call])[..|calls|] == calls;
  }

  function ToldAndPending(st: State, n: nat, event: Event): nat {
    Told(st.calls, n, event) + Pending(st.threads, st.listeners, n, event)
  }

  lemma ThreadConserves(st: State, i: nat, n: nat, event: Event)
    ensures ToldAndPending(RunThread(Inserting, st, i), n, event) == ToldAndPending(st, n, event)
  {
    if i < |st.threads| {
      var st' := RunThread(Inserting, st, i);
      ThreadCalls(st, i);
      PendingSame(st'.threads, st'.listeners, st.listeners, n, event);
      PendingWithout(st.threads, i, st.listeners, n, event);
      match ListenerOf(st.listeners, st.threads[i].key)
      case Null =>
      case Client(m) => ToldOneMore(st.calls, OnChannelEvent(m, st.threads[i].event), n, event);
    }
  }

  /** The threads run in some order, each time the one at that position. */
  function RunThreads(st: State, order: seq<nat>): State
    decreases |order|
  {
    if order == [] then st else RunThreads(RunThread(Inserting, st, order[0]), order[1..])
  }

  lemma {:induction false} ScheduleConserves(st: State, order: seq<nat>, n: nat, event: Event)
    ensures ToldAndPending(RunThreads(st, order), n, event) == ToldAndPending(st, n, event)
    decreases |order|
  {
    if order != [] {
      ThreadConserves(st, order[0], n, event);
      ScheduleConserves(RunThread(Inserting, st, order[0]), order[1..], n, event);
    }
  }

  /** Whatever the order in which the threads run: when all have, each listener was called exactly
      once for each thread to a key of its own, with that thread's event. */
  lemma EachEventOnce(st: State, order: seq<nat>, n: nat, event: Event)
    requires RunThreads(st, order).threads == []
    ensures Told(RunThreads(st, order).calls, n, event)
         == Told(st.calls, n, event) + Pending(st.threads, st.listeners, n, event)
  {
    ScheduleConserves(st, order, n, event);
  }

  // ----- streams and time synchronisation

  /** The listeners of the keys, in order. */
  function StreamCalls(listeners: map<string, Listener>, keys: seq<string>, data: nat): seq<Call>
    requires forall i :: 0 <= i < |keys| ==> ListenerOf(listeners, keys[i]) != Null
  {
    seq(|keys|, i requires 0 <= i < |keys| => OnStreamReceived(ListenerOf(listeners, keys[i]).id, data))
  }

  lemma {:induction false} StreamReaches(sv: Served, keys: seq<string>, data: nat) returns (m: nat)
    ensures m <= |keys| && (forall i :: 0 <= i < m ==> ListenerOf(sv.listeners, keys[i]) != Null)
    ensures m < |keys| ==> ListenerOf(sv.listeners, keys[m]) == Null
    ensures StreamTo(Inserting, sv, keys, data).calls == sv.calls + StreamCalls(sv.listeners, keys[..m], data)
    decreases |keys|
  {
    m := 0;
    if keys != [] {
      var listener := ListenerOf(sv.listeners, keys[0]);
      if listener != Null {
        var next := Served(Touch(Inserting, sv.listeners, keys[0]), sv.calls + [OnStreamReceived(listener.id, data)]);
        var k := StreamReaches(next, keys[1..], data);
        m := k + 1;
        assert forall x :: ListenerOf(next.listeners, x) == ListenerOf(sv.listeners, x);
        assert forall i :: 0 <= i < k ==> keys[i + 1] == keys[1..][i];
        assert StreamCalls(sv.listeners, keys[..m], data)
            == [OnStreamReceived(listener.id, data)] + StreamCalls(next.listeners, keys[1..][..k], data);
      }
    }
  }

  /** A stream goes to the listeners of the keys with its id, in key order, up to the first key that
      has none. */
  lemma StreamIsHandedOn(st: State, id: int, data: nat) returns (keys: seq<string>, m: nat)
    ensures ListsExactly(keys, HasId(st.ids, id)) && Sorted(keys) && m <= |keys|
    ensures forall i :: 0 <= i < m ==> ListenerOf(st.listeners, keys[i]) != Null
    ensures m < |keys| ==> ListenerOf(st.listeners, keys[m]) == Null
    ensures StreamReceived(Inserting, st, id, data).calls == st.calls + StreamCalls(st.listeners, keys[..m], data)
  {
    keys := KeysOf(st.ids, id);
    KeysOfAreListed(st.ids, id);
    KeysOfAreSorted(st.ids, id);
    m := StreamReaches(ServedOf(st), keys, data);
  }

  /** The calls with `event` to the listeners of the keys that have one, in order. */
  function EventCalls(listeners: map<string, Listener>, keys: seq<string>, event: Event): seq<Call> {
    if keys == [] then []
    else
      var last := ListenerOf(listeners, keys[|keys| - 1]);
      EventCalls(listeners, keys[..|keys| - 1], event) + if last == Null then [] else [OnChannelEvent(last.id, event)]
  }

  lemma {:induction false} DeliverReachesAll(sv: Served, keys: seq<string>, event: Event)
    ensures DeliverAll(Inserting, sv, keys, event).calls == sv.calls + EventCalls(sv.listeners, keys, event)
  {
    if keys != [] {
      DeliverReachesAll(sv, keys[..|keys| - 1], event);
      DeliverKeepsListeners(Inserting, sv, keys[..|keys| - 1], event);
      var part := DeliverAll(Inserting, sv, keys[..|keys| - 1], event);
      assert ListenerOf(part.listeners, keys[|keys| - 1]) == ListenerOf(sv.listeners, keys[|keys| - 1]);
    }
  }

  /** A time synchronisation result that is not zero goes to all listeners of the synchronised
      keys, in key order; zero goes to nobody. */
  lemma TimeSyncIsHandedOn(st: State, result: int, millisecond: string, target: string) returns (keys: seq<string>)
    ensures (forall k :: k in keys <==> k in st.timeSync) && Distinct(keys) && Sorted(keys)
    ensures TimeSynced(Inserting, st, result, millisecond, target).calls == st.calls +
      if result == 0 then [] else EventCalls(st.listeners, keys, Event(TimeSyncResult, millisecond, target))
  {
    keys := InOrder(st.timeSync);
    InOrderIsSorted(st.timeSync);
    DeliverReachesAll(ServedOf(st), keys, Event(TimeSyncResult, millisecond, target));
  }

  // ----- the other tables

  /** Whether time is synchronised under `k` after the step, if it was so before or not. */
  function SyncedAfter(step: Step, k: string, synced: bool): bool {
    match step
    case DoStartTimeSync(sess, dev, ret) => synced || (dev != "" && ret == 0 && Key(sess, dev) == k)
    case DoStopTimeSync(sess, dev, ret) => synced && !(dev != "" && ret == 0 && Key(sess, dev) == k)
    case _ => synced
  }

  function LastSynced(steps: seq<Step>, k: string, synced: bool): bool
    decreases |steps|
  {
    if steps == [] then synced else LastSynced(steps[1..], k, SyncedAfter(steps[0], k, synced))
  }

  lemma SyncedStep(st: State, step: Step, k: string)
    ensures k in Next(Inserting, st, step).timeSync <==> SyncedAfter(step, k, k in st.timeSync)
  {
  }

  /** In every run time is synchronised under a key exactly if the last successful call about it
      was a start. */
  lemma {:induction false} TimeSyncHistory(st: State, steps: seq<Step>, k: string)
    ensures k in Run(Inserting, st, steps).timeSync <==> LastSynced(steps, k, k in st.timeSync)
    decreases |steps|
  {
    if steps != [] {
      SyncedStep(st, steps[0], k);
      TimeSyncHistory(Next(Inserting, st, steps[0]), steps[1..], k);
    }
  }

  /** `k` is the first key, in key order, in which the pattern occurs. */
  ghost predicate IsFirstWith(m: map<string, int>, pattern: string, k: string) {
    k in m && Contains(k, pattern) && forall x :: x in m && Contains(x, pattern) ==> Leq(k, x)
  }

  lemma {:induction false} EraseFirstIn(m: map<string, int>, keys: seq<string>, pattern: string)
    requires Sorted(keys) && forall k :: k in keys ==> k in m
    ensures if exists i :: 0 <= i < |keys| && Contains(keys[i], pattern)
      then exists k :: k in keys && Contains(k, pattern) && EraseFirst(m, keys, pattern) == m - {k} &&
             forall i :: 0 <= i < |keys| && Contains(keys[i], pattern) ==> Leq(k, keys[i])
      else EraseFirst(m, keys, pattern) == m
  {
    if keys != [] {
      LeqTotal(keys[0], keys[0]);
      if !Contains(keys[0], pattern) {
        var rest := keys[1..];
        assert forall i :: 0 <= i < |rest| ==> rest[i] == keys[i + 1];
        EraseFirstIn(m, rest, pattern);
        assert forall i :: 0 < i < |keys| ==> keys[i] == rest[i - 1];
        if k :| k in rest && Contains(k, pattern) && EraseFirst(m, rest, pattern) == m - {k} &&
                forall i :: 0 <= i < |rest| && Contains(rest[i], pattern) ==> Leq(k, rest[i]) {
          assert k in keys;
        }
      } else {
        assert keys[0] in keys && EraseFirst(m, keys, pattern) == m - {keys[0]};
      }
    }
  }

  /** `m'` is `m` without the first key in which the pattern occurs, if there is one. */
  ghost predicate LacksFirst(m: map<string, int>, m': map<string, int>, pattern: string) {
    if exists k :: k in m && Contains(k, pattern) then exists k :: IsFirstWith(m, pattern, k) && m' == m - {k}
    else m' == m
  }

  /** Removing a server takes the first server of that name and the first channel of that session,
      where there are any. */
  lemma ServerIsRemoved(st: State, pkg: string, sess: string)
    requires pkg != "" && sess != ""
    ensures var st' := RemoveServer(st, pkg, sess).st;
      && LacksFirst(st.servers, st'.servers, Key(pkg, sess)) && LacksFirst(st.ids, st'.ids, sess)
      && st' == st.(servers := st'.servers, ids := st'.ids)
  {
    RemoveTakesFirst(st.servers, Key(pkg, sess));
    RemoveTakesFirst(st.ids, sess);
  }

  lemma RemoveTakesFirst(m: map<string, int>, pattern: string)
    ensures LacksFirst(m, EraseFirst(m, InOrder(m.Keys), pattern), pattern)
  {
    var keys := InOrder(m.Keys);
    InOrderIsSorted(m.Keys);
    EraseFirstIn(m, keys, pattern);
    assert forall i :: 0 <= i < |keys| ==> keys[i] in keys;
    if x :| x in m && Contains(x, pattern) {
      assert x in keys;
      var k :| k in keys && Contains(k, pattern) && EraseFirst(m, keys, pattern) == m - {k} &&
        forall i :: 0 <= i < |keys| && Contains(keys[i], pattern) ==> Leq(k, keys[i]);
      forall y | y in m && Contains(y, pattern) ensures Leq(k, y) {
        assert y in keys;
      }
      assert IsFirstWith(m, pattern, k);
    }
  }

  /** A server is there after a successful creation, with the socket it got first. */
  lemma ServerIsCreated(st: State, pkg: string, sess: string, socket: int, listen: int)
    requires pkg != "" && sess != ""
    ensures var done, k := CreateServer(st, pkg, sess, socket, listen), Key(pkg, sess);
      && (done.ret == DH_AVT_SUCCESS <==> k in done.st.servers)
      && (k in done.st.servers <==> k in st.servers || (socket >= 0 && listen == 0))
      && (k in done.st.servers ==> done.st.servers[k] == if k in st.servers then st.servers[k] else socket)
      && done.st == st.(servers := done.st.servers)
  {
  }

  /** A channel is opened exactly if there is none with a positive id and the softbus agrees; then
      it is in the table, and one thread starts for each listener of the session. */
  lemma ChannelIsOpened(st: State, sess: string, peerSess: string, dev: string, socket: int, bind: int)
    requires sess != "" && peerSess != "" && dev != ""
    ensures var done, k := OpenChannel(st, sess, peerSess, dev, socket, bind), Key(sess, dev);
      && (done.ret == ERR_DH_AVT_SESSION_HAS_OPENED <==> k in st.ids && st.ids[k] > 0)
      && (done.ret == DH_AVT_SUCCESS <==> !(k in st.ids && st.ids[k] > 0) && socket >= 0 && bind == 0)
      && if done.ret == DH_AVT_SUCCESS then
           && k in done.st.ids && done.st.ids[k] == (if k in st.ids then st.ids[k] else socket)
           && (exists keys :: ListsExactly(keys, IsLive(st.listeners, sess)) &&
                 OneThreadEach(st.threads, done.st.threads, keys, Event(ChannelOpened, sess, dev)))
         else done.st == st
  {
    LiveKeysAreListed(st.listeners, sess);
    assert ListsExactly(LiveKeys(st.listeners, sess), IsLive(st.listeners, sess));
  }
}
