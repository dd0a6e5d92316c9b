/** The softbus channel adapter as a state machine. Each locked method or callback is one
    step. Events handed to a detached thread wait in `threads`; the step `RunThread` is that
    thread looking up its listener and calling it, at any later time and in any order. */
module ChannelAdapter {
  import opened Errno
  import opened Strings
  import opened SessionKeys

  datatype Listener = Null | Client(id: nat)

  datatype EventType = ChannelOpened | ChannelClosed | DataReceived | TimeSyncResult

  datatype Event = Event(kind: EventType, content: string, peerDevId: string)

  /** A detached thread that will deliver `event` to the listener of `key`. */
  datatype Thread = Thread(key: string, event: Event)

  /** A call into a listener. */
  datatype Call = OnChannelEvent(id: nat, event: Event) | OnStreamReceived(id: nat, data: nat)

  datatype State = State(
    table: map<string, string>,         // peer session name to own session name
    servers: map<string, int>,
    ids: map<string, int>,
    listeners: map<string, Listener>,
    timeSync: set<string>,
    threads: seq<Thread>,
    calls: seq<Call>)

  /** The adapter at the start. */
  function Initial(table: map<string, string>): State {
    State(table, map[], map[], map[], {}, [], [])
  }

  /** A lookup by `operator[]` inserts a null listener for a missing key; a pure one does not. */
  datatype Mode = Inserting | Pure

  datatype Done = Done(st: State, ret: int)

  const MAX_RECV_DATA_LEN := 104857600

  // ----- lookups

  function ListenerOf(listeners: map<string, Listener>, key: string): Listener {
    if key in listeners then listeners[key] else Null
  }

  function Touch(mode: Mode, listeners: map<string, Listener>, key: string): map<string, Listener> {
    if mode == Inserting && key !in listeners then listeners[key := Null] else listeners
  }

  function InsertNew(m: map<string, int>, key: string, value: int): map<string, int> {
    if key in m then m else m[key := value]
  }

  function SessIdOf(ids: map<string, int>, sess: string, dev: string): int {
    if Key(sess, dev) in ids then ids[Key(sess, dev)] else -1
  }

  /** The keys with a listener in which `sess` occurs. */
  function IsLive(listeners: map<string, Listener>, sess: string): string -> bool {
    k => ListenerOf(listeners, k) != Null && Contains(k, sess)
  }

  function LiveKeys(listeners: map<string, Listener>, sess: string): seq<string> {
    Filter(InOrder(listeners.Keys), IsLive(listeners, sess))
  }

  function HasId(ids: map<string, int>, id: int): string -> bool {
    k => k in ids && ids[k] == id
  }

  /** The keys mapped to `id`. */
  function KeysOf(ids: map<string, int>, id: int): seq<string> {
    Filter(InOrder(ids.Keys), HasId(ids, id))
  }

  /** The device of the first key that names one other than the special device. */
  function FirstDevice(keys: seq<string>): string {
    if keys == [] then ""
    else if !NoBar(keys[0]) && DeviceOf(keys[0]) != AV_TRANS_SPECIAL_DEVICE_ID then DeviceOf(keys[0])
    else FirstDevice(keys[1..])
  }

  function PeerOf(ids: map<string, int>, id: int): string {
    FirstDevice(KeysOf(ids, id))
  }

  /** Removes the first key, in map order, in which `pattern` occurs. */
  function EraseFirst(m: map<string, int>, keys: seq<string>, pattern: string): map<string, int> {
    if keys == [] then m
    else if Contains(keys[0], pattern) then m - {keys[0]}
    else EraseFirst(m, keys[1..], pattern)
  }

  function Spawn(keys: seq<string>, event: Event): seq<Thread> {
    seq(|keys|, i requires 0 <= i < |keys| => Thread(keys[i], event))
  }

  function SpawnClosed(keys: seq<string>, peer: string): seq<Thread> {
    seq(|keys|, i requires 0 <= i < |keys| => Thread(keys[i], Event(ChannelClosed, OwnerOf(keys[i]), peer)))
  }

  /** The table after every key of `live` was pointed at `id`. */
  function Remapped(ids: map<string, int>, live: seq<string>, id: int): map<string, int> {
    map k | k in ids.Keys + (set x | x in live) :: if k in live then id else ids[k]
  }

  // ----- calls from the engines

  function CreateServer(st: State, pkg: string, sess: string, socket: int, listen: int): Done {
    if pkg == "" || sess == "" then Done(st, ERR_DH_AVT_INVALID_PARAM)
    else if Key(pkg, sess) in st.servers then Done(st, DH_AVT_SUCCESS)
    else if socket < 0 || listen != 0 then Done(st, ERR_DH_AVT_SESSION_ERROR)
    else Done(st.(servers := InsertNew(st.servers, Key(pkg, sess), socket)), DH_AVT_SUCCESS)
  }

  function RemoveServer(st: State, pkg: string, sess: string): Done {
    if pkg == "" || sess == "" then Done(st, ERR_DH_AVT_INVALID_PARAM)
    else
      Done(st.(servers := EraseFirst(st.servers, InOrder(st.servers.Keys), Key(pkg, sess)),
               ids := EraseFirst(st.ids, InOrder(st.ids.Keys), sess)),
           DH_AVT_SUCCESS)
  }

  function OpenChannel(st: State, sess: string, peerSess: string, dev: string, socket: int, bind: int): Done {
    if sess == "" || peerSess == "" || dev == "" then Done(st, ERR_DH_AVT_INVALID_PARAM)
    else if SessIdOf(st.ids, sess, dev) > 0 then Done(st, ERR_DH_AVT_SESSION_HAS_OPENED)
    else if socket < 0 || bind != DH_AVT_SUCCESS then Done(st, ERR_DH_AVT_SESSION_ERROR)
    else
      Done(st.(ids := InsertNew(st.ids, Key(sess, dev), socket),
               threads := st.threads + Spawn(LiveKeys(st.listeners, sess), Event(ChannelOpened, sess, dev))),
           DH_AVT_SUCCESS)
  }

  function CloseChannel(st: State, sess: string, dev: string): Done {
    if sess == "" || dev == "" then Done(st, ERR_DH_AVT_INVALID_PARAM)
    else Done(st.(ids := st.ids - {Key(sess, dev)}), DH_AVT_SUCCESS)
  }

  function Register(st: State, sess: string, dev: string, listener: Listener): Done {
    if sess == "" || dev == "" || listener == Null then Done(st, ERR_DH_AVT_INVALID_PARAM)
    else Done(st.(listeners := st.listeners[Key(sess, dev) := listener]), DH_AVT_SUCCESS)
  }

  function Unregister(st: State, sess: string, dev: string): Done {
    if sess == "" || dev == "" then Done(st, ERR_DH_AVT_INVALID_PARAM)
    else Done(st.(listeners := st.listeners - {Key(sess, dev)}), DH_AVT_SUCCESS)
  }

  function StartTimeSync(st: State, sess: string, dev: string, ret: int): Done {
    if dev == "" then Done(st, ERR_DH_AVT_INVALID_PARAM)
    else if ret != 0 then Done(st, ERR_DH_AVT_TIME_SYNC_FAILED)
    else Done(st.(timeSync := st.timeSync + {Key(sess, dev)}), DH_AVT_SUCCESS)
  }

  function StopTimeSync(st: State, sess: string, dev: string, ret: int): Done {
    if dev == "" then Done(st, ERR_DH_AVT_INVALID_PARAM)
    else if ret != 0 then Done(st, ERR_DH_AVT_TIME_SYNC_FAILED)
    else Done(st.(timeSync := st.timeSync - {Key(sess, dev)}), DH_AVT_SUCCESS)
  }

  // ----- callbacks from the softbus

  function OwnSession(st: State, peerSess: string): string {
    if peerSess in st.table then st.table[peerSess] else ""
  }

  function ChannelOpenedBy(st: State, peerSess: string, id: int, dev: string): Done {
    var sess := OwnSession(st, peerSess);
    if peerSess == "" || dev == "" || sess == "" then Done(st, ERR_DH_AVT_INVALID_PARAM)
    else
      var live := LiveKeys(st.listeners, sess);
      Done(st.(ids := InsertNew(Remapped(st.ids, live, id), Key(sess, dev), id),
               threads := st.threads + Spawn(live, Event(ChannelOpened, sess, dev))),
           DH_AVT_SUCCESS)
  }

  function ChannelClosedBy(st: State, id: int): State {
    var keys := KeysOf(st.ids, id);
    st.(ids := map k | k in st.ids && st.ids[k] != id :: st.ids[k],
        threads := st.threads + SpawnClosed(keys, PeerOf(st.ids, id)))
  }

  function BytesReceived(st: State, id: int, data: string): State {
    if |data| == 0 || |data| > MAX_RECV_DATA_LEN then st
    else st.(threads := st.threads + Spawn(KeysOf(st.ids, id), Event(DataReceived, data, PeerOf(st.ids, id))))
  }

  /** What looking up and calling listeners changes. */
  datatype Served = Served(listeners: map<string, Listener>, calls: seq<Call>)

  function ServedOf(st: State): Served {
    Served(st.listeners, st.calls)
  }

  function WithServed(st: State, served: Served): State {
    st.(listeners := served.listeners, calls := served.calls)
  }

  /** Calls the listeners of `keys` in turn, and stops at the first key without one. */
  function StreamTo(mode: Mode, sv: Served, keys: seq<string>, data: nat): Served
    decreases |keys|
  {
    if keys == [] then sv
    else
      var listener := ListenerOf(sv.listeners, keys[0]);
      var touched := Touch(mode, sv.listeners, keys[0]);
      if listener == Null then Served(touched, sv.calls)
      else StreamTo(mode, Served(touched, sv.calls + [OnStreamReceived(listener.id, data)]), keys[1..], data)
  }

  function StreamReceived(mode: Mode, st: State, id: int, data: nat): State {
    WithServed(st, StreamTo(mode, ServedOf(st), KeysOf(st.ids, id), data))
  }

  /** One listener is looked up and, if there is one, called with `event`. */
  function Deliver(mode: Mode, sv: Served, key: string, event: Event): Served {
    var listener := ListenerOf(sv.listeners, key);
    Served(Touch(mode, sv.listeners, key),
           if listener == Null then sv.calls else sv.calls + [OnChannelEvent(listener.id, event)])
  }

  function DeliverAll(mode: Mode, sv: Served, keys: seq<string>, event: Event): Served {
    if keys == [] then sv
    else
      var n := |keys| - 1;
      Deliver(mode, DeliverAll(mode, sv, keys[..n], event), keys[n], event)
  }

  /** A time synchronisation result; the code treats a zero result as the failure. */
  function TimeSynced(mode: Mode, st: State, result: int, millisecond: string, target: string): State {
    if result == 0 then st
    else
      WithServed(st, DeliverAll(mode, ServedOf(st), InOrder(st.timeSync), Event(TimeSyncResult, millisecond, target)))
  }

  function RunThread(mode: Mode, st: State, i: nat): State {
    if i >= |st.threads| then st
    else
      var rest := st.(threads := st.threads[..i] + st.threads[i + 1..]);
      WithServed(rest, Deliver(mode, ServedOf(st), st.threads[i].key, st.threads[i].event))
  }

  // ----- runs

  datatype Step =
    | DoCreateServer(pkg: string, sess: string, socket: int, listen: int)
    | DoRemoveServer(pkg: string, sess: string)
    | DoOpen(sess: string, peerSess: string, dev: string, socket: int, bind: int)
    | DoClose(sess: string, dev: string)
    | DoRegister(sess: string, dev: string, listener: Listener)
    | DoUnregister(sess: string, dev: string)
    | DoStartTimeSync(sess: string, dev: string, ret: int)
    | DoStopTimeSync(sess: string, dev: string, ret: int)
    | OnOpened(peerSess: string, id: int, dev: string)
    | OnClosed(id: int)
    | OnBytes(id: int, data: string)
    | OnStream(id: int, frame: nat)
    | OnTimeSync(result: int, millisecond: string, target: string)
    | ThreadRuns(i: nat)

  function Next(mode: Mode, st: State, step: Step): State {
    match step
    case DoCreateServer(pkg, sess, socket, listen) => CreateServer(st, pkg, sess, socket, listen).st
    case DoRemoveServer(pkg, sess) => RemoveServer(st, pkg, sess).st
    case DoOpen(sess, peerSess, dev, socket, bind) => OpenChannel(st, sess, peerSess, dev, socket, bind).st
    case DoClose(sess, dev) => CloseChannel(st, sess, dev).st
    case DoRegister(sess, dev, listener) => Register(st, sess, dev, listener).st
    case DoUnregister(sess, dev) => Unregister(st, sess, dev).st
    case DoStartTimeSync(sess, dev, ret) => StartTimeSync(st, sess, dev, ret).st
    case DoStopTimeSync(sess, dev, ret) => StopTimeSync(st, sess, dev, ret).st
    case OnOpened(peerSess, id, dev) => ChannelOpenedBy(st, peerSess, id, dev).st
    case OnClosed(id) => ChannelClosedBy(st, id)
    case OnBytes(id, data) => BytesReceived(st, id, data)
    case OnStream(id, frame) => StreamReceived(mode, st, id, frame)
    case OnTimeSync(result, millisecond, target) => TimeSynced(mode, st, result, millisecond, target)
    case ThreadRuns(i) => RunThread(mode, st, i)
  }

  function Run(mode: Mode, st: State, steps: seq<Step>): State
    decreases |steps|
  {
    if steps == [] then st else Run(mode, Next(mode, st, steps[0]), steps[1..])
  }
}
