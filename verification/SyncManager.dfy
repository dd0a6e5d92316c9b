/** The A/V sync manager: the list of running streams and the sync group merged from it. */
module SyncManager {
  import opened Collections

  const SCENE_TYPE_D_MIC := "dmic_stream"
  const SCENE_TYPE_D_SCREEN := "dscreen_stream"
  const SCENE_TYPE_D_SPEAKER := "dspeaker_stream"
  const SCENE_TYPE_D_CAMERA_STR := "dcamera_stream"
  const SCENE_TYPE_D_CAMERA_PIC := "dcamera_picture"

  const AV_SYNC_STREAM_COUNT := 2

  datatype StreamInfo = StreamInfo(sceneType: string, peerDevId: string)

  datatype SyncFlag = Master | Slave

  /** One line of the group: what is printed for a stream. */
  datatype GroupEntry = GroupEntry(stream: StreamInfo, startFrame: nat, flag: SyncFlag)

  datatype Group = NoGroup | SyncGroup(entries: set<GroupEntry>)

  /** What the manager sends: messages to the peers, and the shared memory that it hands to, or
      takes back from, all engines. */
  datatype Message =
    | StartAVSync(entries: set<GroupEntry>, dstDevId: string)
    | StopAVSync(dstDevId: string)
    | ShareMemory
    | WithdrawMemory

  /** `active` records that sender sync was switched on and not off since. */
  datatype SyncState = SyncState(streams: seq<StreamInfo>, active: bool, sent: seq<Message>)

  const INITIAL := SyncState([], false, [])

  // ----- the group

  function Scenes(streams: seq<StreamInfo>): set<string> {
    set i | 0 <= i < |streams| :: streams[i].sceneType
  }

  predicate IsMasterScene(scene: string) {
    scene == SCENE_TYPE_D_MIC || scene == SCENE_TYPE_D_SPEAKER
  }

  predicate IsSlaveScene(scene: string) {
    scene == SCENE_TYPE_D_SCREEN || scene == SCENE_TYPE_D_CAMERA_STR
  }

  predicate IsKnownScene(scene: string) {
    IsMasterScene(scene) || IsSlaveScene(scene)
  }

  function EntryOf(stream: StreamInfo): GroupEntry {
    GroupEntry(stream, 0, if IsMasterScene(stream.sceneType) then Master else Slave)
  }

  function Entries(streams: seq<StreamInfo>): set<GroupEntry> {
    set i | 0 <= i < |streams| && IsKnownScene(streams[i].sceneType) :: EntryOf(streams[i])
  }

  function MergeGroup(streams: seq<StreamInfo>): Group {
    var scenes := Scenes(streams);
    if |scenes| < AV_SYNC_STREAM_COUNT then NoGroup
    else if SCENE_TYPE_D_MIC in scenes && SCENE_TYPE_D_SPEAKER in scenes then NoGroup
    else
      var source2Sink := SCENE_TYPE_D_SCREEN in scenes && SCENE_TYPE_D_SPEAKER in scenes;
      var sink2Source := SCENE_TYPE_D_CAMERA_STR in scenes && SCENE_TYPE_D_MIC in scenes;
      if !source2Sink && !sink2Source then NoGroup else SyncGroup(Entries(streams))
  }

  // ----- the list

  function StartMessages(streams: seq<StreamInfo>, entries: set<GroupEntry>): seq<Message> {
    seq(|streams|, i requires 0 <= i < |streams| => StartAVSync(entries, streams[i].peerDevId))
  }

  function StopMessages(streams: seq<StreamInfo>): seq<Message> {
    seq(|streams|, i requires 0 <= i < |streams| => StopAVSync(streams[i].peerDevId))
  }

  /** Whether the engines hold a shared memory, going by what was sent. */
  function HoldsMemory(sent: seq<Message>): bool {
    if sent == [] then false
    else
      match sent[|sent| - 1]
      case ShareMemory => true
      case WithdrawMemory => false
      case _ => HoldsMemory(sent[..|sent| - 1])
  }

  function Enabled(st: SyncState): SyncState {
    match MergeGroup(st.streams)
    case NoGroup => st
    case SyncGroup(entries) => st.(active := true, sent := st.sent + StartMessages(st.streams, entries) + [ShareMemory])
  }

  function Disabled(st: SyncState): SyncState {
    if |st.streams| >= AV_SYNC_STREAM_COUNT then st
    else st.(active := false, sent := st.sent + StopMessages(st.streams) + [WithdrawMemory])
  }

  function Added(st: SyncState, stream: StreamInfo): SyncState {
    var grown := st.(streams := st.streams + [stream]);
    if |grown.streams| < AV_SYNC_STREAM_COUNT then grown else Enabled(grown)
  }

  /** The list without the entries equal to `stream`. */
  function Without(streams: seq<StreamInfo>, stream: StreamInfo): seq<StreamInfo> {
    if streams == [] then []
    else
      var n := |streams| - 1;
      Without(streams[..n], stream) + (if streams[n] == stream then [] else [streams[n]])
  }

  function Removed(st: SyncState, stream: StreamInfo): SyncState {
    Disabled(st.(streams := Without(st.streams, stream)))
  }

  // ----- properties of the group

  /** The scenes of the list make a group: a speaker with a screen and no mic, or a mic with a
      camera stream and no speaker. */
  ghost predicate Mergeable(streams: seq<StreamInfo>) {
    var scenes := Scenes(streams);
    || (SCENE_TYPE_D_SPEAKER in scenes && SCENE_TYPE_D_SCREEN in scenes && SCENE_TYPE_D_MIC !in scenes)
    || (SCENE_TYPE_D_MIC in scenes && SCENE_TYPE_D_CAMERA_STR in scenes && SCENE_TYPE_D_SPEAKER !in scenes)
  }

  /** Exactly then a group is produced. */
  lemma GroupCondition(streams: seq<StreamInfo>)
    ensures MergeGroup(streams).SyncGroup? <==> Mergeable(streams)
  {
    var scenes := Scenes(streams);
    if SCENE_TYPE_D_SPEAKER in scenes && SCENE_TYPE_D_SCREEN in scenes {
      TwoElements(scenes, SCENE_TYPE_D_SPEAKER, SCENE_TYPE_D_SCREEN);
    }
    if SCENE_TYPE_D_MIC in scenes && SCENE_TYPE_D_CAMERA_STR in scenes {
      TwoElements(scenes, SCENE_TYPE_D_MIC, SCENE_TYPE_D_CAMERA_STR);
    }
  }

  lemma TwoElements(s: set<string>, a: string, b: string)
    requires a in s && b in s && a != b
    ensures |s| >= 2
  {
    assert |s - {a}| == |s| - 1 && b in s - {a};
  }

  /** The group depends only on the set of streams, not on their order or repetition. */
  lemma GroupDependsOnSet(a: seq<StreamInfo>, b: seq<StreamInfo>)
    requires forall s :: s in a <==> s in b
    ensures MergeGroup(a) == MergeGroup(b)
  {
    ScenesDependOnSet(a, b);
    ScenesDependOnSet(b, a);
    EntriesDependOnSet(a, b);
    EntriesDependOnSet(b, a);
    assert Scenes(a) == Scenes(b) && Entries(a) == Entries(b);
  }

  lemma ScenesDependOnSet(a: seq<StreamInfo>, b: seq<StreamInfo>)
    requires forall s :: s in a ==> s in b
    ensures Scenes(a) <= Scenes(b)
  {
    forall x | x in Scenes(a) ensures x in Scenes(b) {
      var i :| 0 <= i < |a| && a[i].sceneType == x;
      assert a[i] in b;
    }
  }

  lemma EntriesDependOnSet(a: seq<StreamInfo>, b: seq<StreamInfo>)
    requires forall s :: s in a ==> s in b
    ensures Entries(a) <= Entries(b)
  {
    forall x | x in Entries(a) ensures x in Entries(b) {
      var i :| 0 <= i < |a| && IsKnownScene(a[i].sceneType) && EntryOf(a[i]) == x;
      assert a[i] in b;
    }
  }

  predicate HasItsRole(x: GroupEntry) {
    && x.startFrame == 0
    && (x.flag == Master <==> IsMasterScene(x.stream.sceneType))
    && (x.flag == Slave <==> IsSlaveScene(x.stream.sceneType))
  }

  /** What a group looks like: one master scene, at least one master and one slave, and every
      known stream exactly once, with the role its scene type gives. */
  lemma GroupShape(streams: seq<StreamInfo>)
    requires MergeGroup(streams).SyncGroup?
    ensures var entries := MergeGroup(streams).entries;
      && (exists m :: m in entries && m.flag == Master)
      && (exists s :: s in entries && s.flag == Slave)
      && (forall x, y :: x in entries && y in entries && x.flag == Master && y.flag == Master ==>
            x.stream.sceneType == y.stream.sceneType)
      && (forall s :: s in streams && IsKnownScene(s.sceneType) ==> EntryOf(s) in entries)
      && (forall x :: x in entries ==> x.stream in streams && x == EntryOf(x.stream) && HasItsRole(x))
  {
    GroupCondition(streams);
    var scenes := Scenes(streams);
    if SCENE_TYPE_D_MIC in scenes {
      SceneHasEntry(streams, SCENE_TYPE_D_MIC);
      SceneHasEntry(streams, SCENE_TYPE_D_CAMERA_STR);
    } else {
      SceneHasEntry(streams, SCENE_TYPE_D_SPEAKER);
      SceneHasEntry(streams, SCENE_TYPE_D_SCREEN);
    }
    forall x | x in Entries(streams) ensures x.stream.sceneType in scenes {
      var i :| 0 <= i < |streams| && IsKnownScene(streams[i].sceneType) && EntryOf(streams[i]) == x;
    }
  }

  lemma SceneHasEntry(streams: seq<StreamInfo>, scene: string)
    requires scene in Scenes(streams) && IsKnownScene(scene)
    ensures exists x :: x in Entries(streams) && x.stream.sceneType == scene && HasItsRole(x)
  {
    var i :| 0 <= i < |streams| && streams[i].sceneType == scene;
    assert EntryOf(streams[i]) in Entries(streams);
  }

  // ----- properties of the list

  /** Switching sync on or off does not touch the list. */
  lemma ListAfter(st: SyncState, stream: StreamInfo)
    ensures Added(st, stream).streams == st.streams + [stream]
    ensures Removed(st, stream).streams == Without(st.streams, stream)
  {
  }

  /** Removal deletes every equal entry and keeps the rest in order: it acts on each entry
      by itself. */
  lemma {:induction false} WithoutConcat(a: seq<StreamInfo>, b: seq<StreamInfo>, stream: StreamInfo)
    ensures Without(a + b, stream) == Without(a, stream) + Without(b, stream)
  {
    if b == [] {
      assert a + b == a;
    } else {
      var n := |b| - 1;
      WithoutConcat(a, b[..n], stream);
      assert (a + b)[..|a| + n] == a + b[..n];
    }
  }

  lemma CountLast(front: seq<StreamInfo>, last: StreamInfo, x: StreamInfo)
    ensures multiset(front + [last])[x] == multiset(front)[x] + if last == x then 1 else 0
  {
  }

  lemma WithoutLast(front: seq<StreamInfo>, last: StreamInfo, stream: StreamInfo)
    ensures Without(front + [last], stream)
         == if last == stream then Without(front, stream) else Without(front, stream) + [last]
  {
    assert (front + [last])[..|front|] == front;
  }

  /** Counted per stream, removal clears one count and touches no other. */
  lemma {:induction false} WithoutCounts(streams: seq<StreamInfo>, stream: StreamInfo, other: StreamInfo)
    ensures multiset(Without(streams, stream))[other] == if other == stream then 0 else multiset(streams)[other]
  {
    if streams != [] {
      var front, last := streams[..|streams| - 1], streams[|streams| - 1];
      assert streams == front + [last];
      WithoutCounts(front, stream, other);
      WithoutLast(front, last, stream);
      CountLast(front, last, other);
      CountLast(Without(front, stream), last, other);
    }
  }

  // ----- when sync starts and ends

  lemma TwoScenes(streams: seq<StreamInfo>, a: string, b: string)
    requires a in Scenes(streams) && b in Scenes(streams) && a != b
    ensures |streams| >= 2
  {
    var i :| 0 <= i < |streams| && streams[i].sceneType == a;
    var j :| 0 <= j < |streams| && streams[j].sceneType == b;
  }

  lemma MergeableIsLong(streams: seq<StreamInfo>)
    requires Mergeable(streams)
    ensures |streams| >= AV_SYNC_STREAM_COUNT
  {
    if SCENE_TYPE_D_MIC in Scenes(streams) {
      TwoScenes(streams, SCENE_TYPE_D_MIC, SCENE_TYPE_D_CAMERA_STR);
    } else {
      TwoScenes(streams, SCENE_TYPE_D_SPEAKER, SCENE_TYPE_D_SCREEN);
    }
  }

  /** `more` is one message to each peer of the list, in order, and then one about the memory. */
  ghost predicate TellsAll(more: seq<Message>, streams: seq<StreamInfo>, message: string -> Message, memory: Message) {
    && |more| == |streams| + 1 && more[|streams|] == memory
    && (forall i :: 0 <= i < |streams| ==> more[i] == message(streams[i].peerDevId))
  }

  /** Adding a stream starts sync, with the group sent to the peer of every stream and the memory
      handed out, if the list then is mergeable, and changes nothing else otherwise. */
  lemma AddStartsSync(st: SyncState, stream: StreamInfo)
    ensures var streams, st' := st.streams + [stream], Added(st, stream);
      && st'.streams == streams
      && if Mergeable(streams) then
           && st'.active && MergeGroup(streams).SyncGroup?
           && st.sent <= st'.sent
           && var entries := MergeGroup(streams).entries;
              TellsAll(st'.sent[|st.sent|..], streams, dev => StartAVSync(entries, dev), ShareMemory)
         else st'.active == st.active && st'.sent == st.sent
  {
    var streams := st.streams + [stream];
    GroupCondition(streams);
    if Mergeable(streams) {
      MergeableIsLong(streams);
    }
  }

  /** Removing a stream ends sync, with a message to the peer of every remaining stream and the
      memory taken back, if fewer than two remain, and changes nothing else otherwise. */
  lemma RemoveEndsSync(st: SyncState, stream: StreamInfo)
    ensures var rest, st' := Without(st.streams, stream), Removed(st, stream);
      && st'.streams == rest
      && if |rest| < AV_SYNC_STREAM_COUNT then
           && !st'.active && st.sent <= st'.sent
           && TellsAll(st'.sent[|st.sent|..], rest, dev => StopAVSync(dev), WithdrawMemory)
         else st'.active == st.active && st'.sent == st.sent
  {
  }

  datatype SyncStep = DoAdd(stream: StreamInfo) | DoRemove(stream: StreamInfo)

  function SyncNext(st: SyncState, step: SyncStep): SyncState {
    match step
    case DoAdd(s) => Added(st, s)
    case DoRemove(s) => Removed(st, s)
  }

  /** The state after all of `steps`. */
  function SyncRun(st: SyncState, steps: seq<SyncStep>): SyncState {
    if steps == [] then st else SyncNext(SyncRun(st, steps[..|steps| - 1]), steps[|steps| - 1])
  }

  ghost predicate SyncInvariant(st: SyncState) {
    && st.active == HoldsMemory(st.sent)
    && (st.active ==> |st.streams| >= AV_SYNC_STREAM_COUNT)
  }

  /** In every run sender sync is on exactly while the engines hold the shared memory, and then
      there are at least two streams. */
  lemma {:induction false} SyncNeedsTwoStreams(st: SyncState, steps: seq<SyncStep>)
    requires SyncInvariant(st)
    ensures SyncInvariant(SyncRun(st, steps))
  {
    if steps != [] {
      SyncNeedsTwoStreams(st, steps[..|steps| - 1]);
    }
  }

  /** The list after all of `steps`: added streams at the end, removed ones taken out. */
  function ListRun(steps: seq<SyncStep>): seq<StreamInfo> {
    if steps == [] then []
    else
      var before := ListRun(steps[..|steps| - 1]);
      match steps[|steps| - 1]
      case DoAdd(s) => before + [s]
      case DoRemove(s) => Without(before, s)
  }

  lemma {:induction false} ListOfRun(steps: seq<SyncStep>)
    ensures SyncRun(INITIAL, steps).streams == ListRun(steps)
  {
    if steps != [] {
      ListOfRun(steps[..|steps| - 1]);
      ListAfter(SyncRun(INITIAL, steps[..|steps| - 1]), steps[|steps| - 1].stream);
    }
  }

  /** Step `i` adds a stream to a list that then is mergeable. */
  ghost predicate Starts(steps: seq<SyncStep>, i: nat)
    requires i < |steps|
  {
    steps[i].DoAdd? && Mergeable(ListRun(steps[..i]) + [steps[i].stream])
  }

  /** Step `i` is a removal that leaves fewer than two streams. */
  ghost predicate Ends(steps: seq<SyncStep>, i: nat)
    requires i < |steps|
  {
    steps[i].DoRemove? && |Without(ListRun(steps[..i]), steps[i].stream)| < AV_SYNC_STREAM_COUNT
  }

  ghost function StartTrace(steps: seq<SyncStep>): (trace: seq<bool>)
    ensures |trace| == |steps|
  {
    seq(|steps|, i requires 0 <= i < |steps| => Starts(steps, i))
  }

  ghost function EndTrace(steps: seq<SyncStep>): (trace: seq<bool>)
    ensures |trace| == |steps|
  {
    seq(|steps|, i requires 0 <= i < |steps| => Ends(steps, i))
  }

  lemma ActiveStep(steps: seq<SyncStep>, k: nat)
    requires k < |steps|
    ensures SyncRun(INITIAL, steps[..k + 1]).active <==>
      Starts(steps, k) || (SyncRun(INITIAL, steps[..k]).active && !Ends(steps, k))
  {
    var st := SyncRun(INITIAL, steps[..k]);
    assert steps[..k + 1][..k] == steps[..k];
    ListOfRun(steps[..k]);
    AddStartsSync(st, steps[k].stream);
    RemoveEndsSync(st, steps[k].stream);
  }

  /** At every point of every run sender sync is on exactly if some add made the list mergeable
      and no later removal left fewer than two streams. */
  lemma SyncHistory(steps: seq<SyncStep>, n: nat)
    requires n <= |steps|
    ensures SyncRun(INITIAL, steps[..n]).active <==> HasLastEntry(StartTrace(steps), EndTrace(steps), n)
  {
    var inside := seq(|steps| + 1, i requires 0 <= i <= |steps| => SyncRun(INITIAL, steps[..i]).active);
    var enters, leaves := StartTrace(steps), EndTrace(steps);
    forall k | 0 <= k < |steps| ensures inside[k + 1] == (enters[k] || (inside[k] && !leaves[k])) {
      ActiveStep(steps, k);
    }
    HistoryDecides(inside, enters, leaves, n);
  }
}

/** The sync manager in the form of the source. */
module AVSyncManagers {
  import opened SyncManager

  /** One more entry looked at. */
  lemma WithoutStep(list: seq<StreamInfo>, stream: StreamInfo, d: nat)
    requires d < |list|
    ensures Without(list[..d + 1], stream)
         == Without(list[..d], stream) + if list[d] == stream then [] else [list[d]]
  {
    assert list[..d + 1][..d] == list[..d];
  }

  /** What is left to look at, one entry on. */
  lemma NextEntry(rest: seq<StreamInfo>, i: nat, list: seq<StreamInfo>, d: nat)
    requires i < |rest| && d <= |list| && rest[i..] == list[d..]
    ensures d < |list| && rest[i] == list[d] && rest[i + 1..] == list[d + 1..]
  {
    assert rest[i] == rest[i..][0];
    assert rest[i + 1..] == rest[i..][1..];
    assert list[d + 1..] == list[d..][1..];
  }

  /** Erases the entries equal to `stream` while going through the list; `d` counts the entries
      of the original list looked at. */
  method EraseEqual(list: seq<StreamInfo>, stream: StreamInfo) returns (rest: seq<StreamInfo>)
    ensures rest == Without(list, stream)
  {
    rest := list;
    var i := 0;
    ghost var d := 0;
    while i < |rest|
      invariant i <= |rest| && d <= |list|
      invariant rest[..i] == Without(list[..d], stream) && rest[i..] == list[d..]
      decreases |rest| - i
    {
      NextEntry(rest, i, list, d);
      WithoutStep(list, stream, d);
      if rest[i].sceneType == stream.sceneType && rest[i].peerDevId == stream.peerDevId {
        rest := rest[..i] + rest[i + 1..];
      } else {
        i := i + 1;
      }
      d := d + 1;
    }
    assert list[..d] == list;
  }

  class AVSyncManager {
    var streamInfoList: seq<StreamInfo>
    ghost var active: bool
    ghost var sent: seq<Message>

    ghost function Value(): SyncState
      reads this
    {
      SyncState(streamInfoList, active, sent)
    }

    constructor ()
      ensures Value() == INITIAL
    {
      streamInfoList, active, sent := [], false, [];
    }

    method AddStreamInfo(stream: StreamInfo)
      modifies this
      ensures Value() == Added(old(Value()), stream)
    {
      streamInfoList := streamInfoList + [stream];
      if |streamInfoList| < AV_SYNC_STREAM_COUNT {
        return;
      }
      EnableSenderAVSync();
    }

    method RemoveStreamInfo(stream: StreamInfo)
      modifies this
      ensures Value() == Removed(old(Value()), stream)
    {
      streamInfoList := EraseEqual(streamInfoList, stream);
      DisableSenderAVSync();
    }

    method EnableSenderAVSync()
      modifies this
      ensures Value() == Enabled(old(Value()))
    {
      var merged := MergeGroupInfo();
      match merged
      case NoGroup =>
      case SyncGroup(entries) =>
        active := true;
        for i := 0 to |streamInfoList|
          invariant streamInfoList == old(streamInfoList) && active
          invariant sent == old(sent) + StartMessages(streamInfoList[..i], entries)
        {
          sent := sent + [StartAVSync(entries, streamInfoList[i].peerDevId)];
        }
        assert streamInfoList[..|streamInfoList|] == streamInfoList;
        sent := sent + [ShareMemory];
    }

    method DisableSenderAVSync()
      modifies this
      ensures Value() == Disabled(old(Value()))
    {
      if |streamInfoList| >= AV_SYNC_STREAM_COUNT {
        return;
      }
      for i := 0 to |streamInfoList|
        invariant streamInfoList == old(streamInfoList) && active == old(active)
        invariant sent == old(sent) + StopMessages(streamInfoList[..i])
      {
        sent := sent + [StopAVSync(streamInfoList[i].peerDevId)];
      }
      assert streamInfoList[..|streamInfoList|] == streamInfoList;
      sent := sent + [WithdrawMemory];
      active := false;
    }

    method MergeGroupInfo() returns (group: Group)
      ensures group == MergeGroup(streamInfoList)
    {
      var sceneTypeSet := {};
      for i := 0 to |streamInfoList|
        invariant sceneTypeSet == Scenes(streamInfoList[..i])
      {
        sceneTypeSet := sceneTypeSet + {streamInfoList[i].sceneType};
      }
      assert streamInfoList[..|streamInfoList|] == streamInfoList;
      if |sceneTypeSet| < AV_SYNC_STREAM_COUNT {
        return NoGroup;
      }
      if SCENE_TYPE_D_MIC in sceneTypeSet && SCENE_TYPE_D_SPEAKER in sceneTypeSet {
        return NoGroup;
      }
      var source2Sink := SCENE_TYPE_D_SCREEN in sceneTypeSet && SCENE_TYPE_D_SPEAKER in sceneTypeSet;
      var sink2Source := SCENE_TYPE_D_CAMERA_STR in sceneTypeSet && SCENE_TYPE_D_MIC in sceneTypeSet;
      if !source2Sink && !sink2Source {
        return NoGroup;
      }
      var groupInfoSet := MergeGroupInfoInner();
      return SyncGroup(groupInfoSet);
    }

    method MergeGroupInfoInner() returns (groupInfoSet: set<GroupEntry>)
      ensures groupInfoSet == Entries(streamInfoList)
    {
      groupInfoSet := {};
      for i := 0 to |streamInfoList|
        invariant groupInfoSet == Entries(streamInfoList[..i])
      {
        var item := streamInfoList[i];
        if item.sceneType == SCENE_TYPE_D_MIC || item.sceneType == SCENE_TYPE_D_SPEAKER {
          groupInfoSet := groupInfoSet + {GroupEntry(item, 0, Master)};
        } else if item.sceneType == SCENE_TYPE_D_SCREEN || item.sceneType == SCENE_TYPE_D_CAMERA_STR {
          groupInfoSet := groupInfoSet + {GroupEntry(item, 0, Slave)};
        }
      }
      assert streamInfoList[..|streamInfoList|] == streamInfoList;
    }
  }
}
