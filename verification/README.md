# Model of the audio/video transport layer

A Dafny model of the hardware-sharing framework's audio/video transport and of three small
pieces next to it, with proofs over all inputs, all runs and all interleavings of the steps
modelled. `dafny verify dfyconfig.toml` checks everything.

Each part has two layers. A value-level specification says what a step does; the properties
are lemmas about it, most of them over whole runs. A class or method in the form of the
source (fields updated in place, loops, arrays) is proved to do exactly that step.

| files | what they model |
|---|---|
| `Bytes`, `ClockRing`, `ClockRingProofs`, `ClockScanProofs`, `ClockMemory` | the shared-memory clock ring: 50 slots of 12 bytes, byte stores in program order, the scan for the largest time |
| `Strings`, `SessionKeys`, `ChannelAdapter`, `ChannelAdapterProofs`, `ChannelDelivery`, `SoftbusChannelAdapter` | the softbus channel adapter: three maps and a set keyed by `session_device` strings, detached threads that deliver events |
| `SyncManager`, `ControlCenter`, `ControlChannels`, `AVTransControlCenter` | the A/V sync manager, and the control centre with its engine ids and shared channels, on its own channel adapter |
| `SenderEngine`, `Transport`, `AVSenderEngine` | the sender engine, and any number of engines composed with the control centre and the sync manager |
| `ListenerCache` | the client's cache of publisher listeners across crashes and restarts of the service |
| `AbilityJson` | codec abilities printed as JSON trees and parsed by a separate component |
| `HexDigest`, `BufferData` | the in-place hexadecimal expansion of a digest, and the bounded byte buffer |
| `Errno`, `Collections` | result codes, and what the history of a run says about its end |

## How the code is read

- A write to the ring is twelve byte stores, eight of the time and then four of the frame
  number; `View` gives the memory after each, and `WriteClockUnit` is proved to pass through
  exactly those. Stores are taken to become visible in program order. Shifts and masks of
  unsigned words are written as division and remainder.
- Each call or callback of the adapter is one step. An event handed to a detached thread
  waits until a separate step lets that thread run, so delivery may come later and in any
  order. Sorted containers are visited in lexicographic order. The opened callback is
  modelled for a zero result, the only one its caller passes (softbus_channel_adapter.cpp:87).
- Answers of code that is not modelled (softbus, pipeline, filters, the operating system) are
  parameters of the step. Calls do not overlap.
- The control centre is the only client of the channel adapter in its process; engines run in
  other processes, with an adapter of their own, and reach the centre through the kit. Their
  calls to create a channel, to release and to notify are one-way.
- A proxy belongs to one life of the service; a call through a proxy of an earlier life
  fails, a call that reaches the service succeeds.
- History that the properties speak about (ids handed out, opens and closes, pushes since the
  last Stop, messages sent, calls to an adapter) is recorded in ghost fields.

## Where the code does not do what it is meant to

- A time synchronisation result of zero is dropped and any other handed on
  (softbus_channel_adapter.cpp:564): `TimeSyncReaches`.
- `RestoreListener` looks at the wrong variable, so failed publisher listeners are never
  reported (dhfwk_sa_manager.cpp:159); `SuccessIsTrue` says exactly when a reported success is
  true, `FalseSuccess` gives a run in which it is not.
- The parser checks for bit stream formats before it reads a video decoder output's pixel
  formats (histreamer_ability_parser.cpp:332); `VideoDecodersRoundTrip` gives the exact effect.
- A clock read during a rewrite of slot 0 can report that the master is not ready long after
  the first write; `NotReadyInTheMiddle` gives the exact condition, `NotReadyHappens` an input.
- A clock read during a write can pair the new time with the frame number of 50 writes before;
  `PairIsOneWrite` and `NewTimeWithOldFrame` give the exact condition, `MixedPairHappens` an input.
- Releasing an engine does not take its stream from the sync manager, only stopping it does;
  `ReleaseLeavesEntries` counts what stays, `EntryLeftBehind` gives a run, and `EntryLost` one in
  which a lost notice makes the count come out lower.
- The release that closes a channel ends both registrations of the control centre, which all
  peers share, and no later call renews that of the receiver session
  (av_trans_control_center.cpp:58, 131-134): `HeardUntilFirstClose`, `DeafAfterFirstClose`.
- That release closes the channel of the session last opened, not the one opened to the peer
  (av_trans_control_center.cpp:130): `ReleaseClosesLastSession`, `ChannelLeftOpen`.
- Time synchronisation results are delivered under the peer's device id, and the centre listens
  under the special one (av_trans_control_center.cpp:69, 288): `TimeSyncIsNeverHeard`.
- An engine can be started before it was ever successfully initialised, if an opened event
  reaches it after its pipeline was built; a later initialisation then stops it silently:
  `PushSucceedsInWindow`, `StartedUninitialised`.
- An engine that is given another device stays registered under the earlier one
  (av_sender_engine.cpp:139, 203): `ReleaseLeavesRegistered`, `RegisteredAfterRelease`.
- A channel that the softbus closes stays in the connected list
  (av_trans_control_center.cpp:275-278): `ChannelHistory` says exactly which channels there are,
  `ConnectedWithoutChannel` gives a run in which a new one is refused.
- The order in which the bytes of a time are loaded is left open; the bound on a read during
  writes holds for the orders of `ByteWiseScanBound` and fails for all others:
  `OtherOrdersOvershoot`, `ScanOvershoots`, and for one field `OvershootsUnlessFreshBelow`.

## Model

| member | source | states |
|---|---|---|
| `ClockRingProofs.TornReadBound` | av_transport/common/src/av_sync_utils.cpp:103-107 | with growing times, on any lap, a successful read whose view falls between any two byte stores of a write returns a time between the last completed one and the one being written; on the very first write, exactly the latter |
| `ClockScanProofs.OverlappingScanBound` | av_transport/common/src/av_sync_utils.cpp:148-160 | a scan that looks at each slot at its own moment, in any order, while up to 49 further writes go on still finds a time between the last write completed before it and the last one begun |
| `ClockScanProofs.ByteWiseScanBound` | av_transport/common/src/av_sync_utils.cpp:374-399 | the same for a scan that loads every byte of every time at its own moment, if in each slot the bytes loaded after they were overwritten are the lowest ones |
| `ClockScanProofs.OtherOrdersOvershoot` | av_transport/common/src/av_sync_utils.cpp:374-399 | that condition cannot be dropped: for every order of loads that breaks it, while slot 0 is rewritten at the start of the second lap, there are growing times for which the load exceeds the newest |
| `ClockScanProofs.ScanOvershoots` | av_transport/common/src/av_sync_utils.cpp:390-398 | a whole scan that returns 511 while the newest of the growing times 255 to 305 is being written: the lowest byte of slot 0 was loaded before the write, all others after it |
| `ClockRingProofs.RingRefinesRecentWrites` | av_transport/common/src/av_sync_utils.cpp:144-163 | after any run of writes the read reports not-ready exactly before the first write, and otherwise returns frame number and time of one single write: the largest time of the last min(n, 50), ties to the lowest slot |
| `ClockRingProofs.NewestWriteIsRead` | av_transport/common/src/av_sync_utils.cpp:144-163 | with growing times the read is the newest write |
| `ClockRingProofs.NotReadyInTheMiddle` | av_transport/common/src/av_sync_utils.cpp:145-146 | exactly when a read during a later write reports not-ready: slot 0 is being rewritten, the frame bytes stored so far are zero in the new number and the remaining ones zero in the old |
| `ClockRingProofs.NotReadyHappens` | av_transport/common/src/av_sync_utils.cpp:145-146 | such a read exists: frame 206 being replaced by frame 256 on the second lap |
| `ClockRingProofs.ReadInTheMiddle` | av_transport/common/src/av_sync_utils.cpp:144-160 | what a read during a later write returns: the slot being written if it shows a later time than the newest complete write, or as late a one in slot 0, otherwise that write |
| `ClockRingProofs.PairIsOneWrite` | av_transport/common/src/av_sync_utils.cpp:104-107 | exactly when frame number and time so returned belong to one single write |
| `ClockRingProofs.NewTimeWithOldFrame` | av_transport/common/src/av_sync_utils.cpp:104-107 | once the time is stored, they do exactly if the frame bytes still to be stored are equal in the new number and in that of 50 writes before; right after the time the old number is returned |
| `ClockRingProofs.MixedPairHappens` | av_transport/common/src/av_sync_utils.cpp:104-107 | such a pair: the time of frame 51 with frame number 1 |
| `ClockRingProofs.WrittenRepresents` | av_transport/common/src/av_sync_utils.cpp:103-112 | over every run of accepted writes from a zeroed region at index 0 each slot decodes to the last write that went to it, untouched slots to zero |
| `ClockRingProofs.WriteExtends` | av_transport/common/src/av_sync_utils.cpp:103-112 | one complete write takes a memory standing for a run to one standing for the run plus that write, wrap-around included |
| `ClockScanProofs.KeptUntilLap` | av_transport/common/src/av_sync_utils.cpp:104-112 | a completed write stays readable in its slot, frame number and time, at every moment until the write 50 later begins, whatever the times are |
| `ClockRingProofs.TornPtsBound` | av_transport/common/src/av_sync_utils.cpp:332-357 | a time field overwritten low byte first never exceeds the new value, if the old one does not |
| `ClockRingProofs.CompleteView` | av_transport/common/src/av_sync_utils.cpp:317-399 | all twelve stores done, the slot decodes to the unit given |
| `ClockRingProofs.OtherSlotKept` | av_transport/common/src/av_sync_utils.cpp:104-107 | no store of a write touches another slot |
| `Bytes.DecodeEncode` | av_transport/common/src/av_sync_utils.cpp:317-399 | decoding the bytes of a value gives the value, for every width that can hold it |
| `Bytes.TornStaysBelow` | av_transport/common/src/av_sync_utils.cpp:349-356 | a half overwritten little-endian field is at most the new value, if the old one is |
| `Bytes.TornIsZero` | av_transport/common/src/av_sync_utils.cpp:326-329 | a half overwritten field is zero exactly when both halves are |
| `Bytes.TornIsNew` | av_transport/common/src/av_sync_utils.cpp:326-329 | a half overwritten field reads as the new value exactly when the bytes still to be stored are equal |
| `Bytes.OvershootsUnlessFreshBelow` | av_transport/common/src/av_sync_utils.cpp:332-357 | a field loaded byte by byte while it is overwritten never exceeds the new value if and only if the bytes loaded after their store are the lowest ones, even for values up to 256 apart |
| `Bytes.FreshBelowIsOneMoment` | av_transport/common/src/av_sync_utils.cpp:349-356 | then the field looks as it did at one single moment |
| `Bytes.HighByteFirstIsFreshBelow` | av_transport/common/src/av_sync_utils.cpp:390-398 | loading the higher bytes first is enough for that; the source leaves the order of the loads open |
| `Bytes.EncodedByte` | av_transport/common/src/av_sync_utils.cpp:349-356 | the i-th byte of an encoding is the value shifted by 8i and masked |
| `Bytes.JoinedBytes32` | av_transport/common/src/av_sync_utils.cpp:359-372 | the four shifted bytes joined are the little-endian value |
| `Bytes.JoinedBytes64` | av_transport/common/src/av_sync_utils.cpp:374-399 | the same for eight bytes |
| `ClockMemory.U32ToU8` | av_transport/common/src/av_sync_utils.cpp:317-330 | stores the four bytes low first; the memory after each store is the one specified |
| `ClockMemory.U64ToU8` | av_transport/common/src/av_sync_utils.cpp:332-357 | the same for eight bytes |
| `ClockMemory.AccessIsGranted` | av_transport/common/src/av_sync_utils.cpp:257-260 | exactly when a region may be accessed, and what is reported otherwise |
| `ClockMemory.WriteClockUnit` | av_transport/common/src/av_sync_utils.cpp:78-117 | all error codes; on success the memory passes through exactly the thirteen views of the write, the index wraps, and the run stood for grows by this unit; otherwise nothing changes |
| `ClockMemory.ReadClockUnit` | av_transport/common/src/av_sync_utils.cpp:119-164 | all error codes; otherwise the unit becomes the latest slot, or not-ready is reported and it is left alone |
| `ClockMemory.ScanSlots` | av_transport/common/src/av_sync_utils.cpp:148-160 | the loop settles on the lowest slot with the largest positive time, or leaves the unit alone |
| `ClockMemory.ResetSharedMemory` | av_transport/common/src/av_sync_utils.cpp:229-255 | a reset region, of any size, is all zero; a ring then stands for no write at all |
| `SessionKeys.KeyIsInjective` | av_transport/common/src/softbus_channel_adapter.cpp:308 | key building is injective for device ids without a bar, whatever the session names |
| `SessionKeys.DeviceRecovered` | av_transport/common/src/softbus_channel_adapter.cpp:588-605 | the text after the last bar is the device, the text before it the session |
| `SessionKeys.OwnerRecovered` | av_transport/common/src/softbus_channel_adapter.cpp:607-617 | the text before the first bar is the owner |
| `SessionKeys.SubstringTest` | av_transport/common/src/softbus_channel_adapter.cpp:253-257 | the substring test on the key of an owner_suffix session, exactly: the owners must end alike and the suffixes begin alike, at one of the two bars |
| `SessionKeys.RoutingIsByEquality` | av_transport/common/src/softbus_channel_adapter.cpp:485-491 | for unambiguous names the substring test holds exactly when the key's session is the searched one |
| `SessionKeys.TransportNamesAreUnambiguous` | av_transport/common/src/softbus_channel_adapter.cpp:34-80 | the six owner names and four suffixes of the transport layer are unambiguous for every device id |
| `SessionKeys.PlainSearch` | av_transport/common/src/softbus_channel_adapter.cpp:253-257 | searching a session name without a bar never crosses a bar of the key |
| `SessionKeys.BarSearch` | av_transport/common/src/softbus_channel_adapter.cpp:253-257 | searching a name with a bar: either the bars line up or it occurs wholly after the first |
| `ChannelAdapterProofs.NullEntriesAreInvisible` | av_transport/common/src/softbus_channel_adapter.cpp:553-556 | over every run, with every schedule of the detached threads, the adapter whose lookups insert null listeners makes the same calls to the same listeners in the same order as one whose lookups do not |
| `ChannelAdapterProofs.StepIgnoresNulls` | av_transport/common/src/softbus_channel_adapter.cpp:619-631 | the simulation for one step: erasing null entries commutes with every call and callback |
| `ChannelAdapterProofs.OpenedCallback` | av_transport/common/src/softbus_channel_adapter.cpp:470-500 | an opened callback points every live key of the session at the new id, makes the peer's own key present, leaves all others alone, and starts one thread for each live key |
| `ChannelAdapterProofs.ClosedCallback` | av_transport/common/src/softbus_channel_adapter.cpp:502-520 | a closed callback removes exactly the keys with that id and starts one thread for each, which names the owner of the key and the peer |
| `ChannelAdapterProofs.ClosedIdIsSilent` | av_transport/common/src/softbus_channel_adapter.cpp:522-541 | after it, until a step maps a key to the id again, bytes and streams under the id change nothing and reach nobody, over every run |
| `ChannelAdapterProofs.OpenedRoutesBySession` | av_transport/common/src/softbus_channel_adapter.cpp:484-498 | over every run with routable names an opened callback points exactly the listeners registered under its own session at the new id, whatever their device, starts exactly one thread for each, and changes no other id but the peer's own |
| `ChannelAdapterProofs.LiveIsListening` | av_transport/common/src/softbus_channel_adapter.cpp:485-491 | with routable names the substring test on a key with a listener holds exactly when the key is one of the session |
| `ChannelAdapterProofs.RunKeepsNames` | av_transport/common/src/softbus_channel_adapter.cpp:388-389 | over every run all keys held, null entries and pending threads included, are built from the session names and devices the calls used |
| `ChannelAdapterProofs.TransportNamesAreRoutable` | av_transport/common/src/softbus_channel_adapter.cpp:34-80 | the transport layer's session names, the two control names included, are routable with device ids that contain neither a bar nor a control name |
| `ChannelDelivery.BytesStartThreads` | av_transport/common/src/softbus_channel_adapter.cpp:522-541 | received bytes within the limits start exactly one thread for each key with the id, with the bytes and the peer |
| `ChannelDelivery.PeerIsFirstNamed` | av_transport/common/src/softbus_channel_adapter.cpp:588-605 | that peer is the device named by the first key with the id, in key order, of those that name a device other than the special one, or empty |
| `ChannelDelivery.ThreadCalls` | av_transport/common/src/softbus_channel_adapter.cpp:619-631 | a thread that runs is gone and calls exactly the listener its key then has, with its event, or nobody |
| `ChannelDelivery.EventIsNotLost` | av_transport/common/src/softbus_channel_adapter.cpp:619-631 | over every run that leaves its registration alone, an event on its way to a listener is still on its way or was delivered to it |
| `ChannelDelivery.BytesReachListener` | av_transport/common/src/softbus_channel_adapter.cpp:522-541 | so bytes reach every listener with a key of their id in every such run: once no thread is left it was called with them and the peer |
| `ChannelDelivery.RegisteredHearsBytes` | av_transport/common/src/softbus_channel_adapter.cpp:379-541 | from the start: register, the peer opens the session, bytes arrive; then the listener is told of both, with the right peer, whatever else happens |
| `ChannelDelivery.EachEventOnce` | av_transport/common/src/softbus_channel_adapter.cpp:619-631 | whatever the order in which the threads run, when all have, each listener was called exactly once for each thread to a key of its own |
| `ChannelDelivery.StreamIsHandedOn` | av_transport/common/src/softbus_channel_adapter.cpp:543-559 | a stream calls exactly the listeners of the keys with its id, in key order, up to the first key without one |
| `ChannelDelivery.TimeSyncIsHandedOn` | av_transport/common/src/softbus_channel_adapter.cpp:561-586 | a time synchronisation result calls exactly the listeners of the synchronised keys, in key order; zero calls nobody |
| `ChannelDelivery.ListenerHistory` | av_transport/common/src/softbus_channel_adapter.cpp:379-405 | in every run the listener of a key is the one of the last call that registered or unregistered it |
| `ChannelDelivery.TimeSyncHistory` | av_transport/common/src/softbus_channel_adapter.cpp:407-443 | in every run time is synchronised under a key exactly if the last successful call about it was a start |
| `ChannelDelivery.ServerIsCreated` | av_transport/common/src/softbus_channel_adapter.cpp:162-208 | exactly when a server is there after a creation, with the socket it got first |
| `ChannelDelivery.ServerIsRemoved` | av_transport/common/src/softbus_channel_adapter.cpp:210-244 | a removal takes exactly the first server of that name and the first channel of that session, in key order |
| `ChannelDelivery.ChannelIsOpened` | av_transport/common/src/softbus_channel_adapter.cpp:261-313 | exactly when opening succeeds; then the channel is in the table and each listener of the session gets one thread |
| `SoftbusChannelAdapters.EraseFirstMatch` | av_transport/common/src/softbus_channel_adapter.cpp:220-226 | the loop erases the first key, in key order, in which the pattern occurs |
| `SoftbusChannelAdapters.SoftbusChannelAdapter.CreateChannelServer` | av_transport/common/src/softbus_channel_adapter.cpp:162-208 | refines the step: insertion does not overwrite, all error paths |
| `SoftbusChannelAdapters.SoftbusChannelAdapter.RemoveChannelServer` | av_transport/common/src/softbus_channel_adapter.cpp:210-244 | refines the step: at most one server and one session id go |
| `SoftbusChannelAdapters.SoftbusChannelAdapter.SendEventChannelOpened` | av_transport/common/src/softbus_channel_adapter.cpp:246-259 | one thread for each live key of the session, in key order |
| `SoftbusChannelAdapters.SoftbusChannelAdapter.OpenSoftbusChannel` | av_transport/common/src/softbus_channel_adapter.cpp:261-313 | refines the step, with its four results |
| `SoftbusChannelAdapters.SoftbusChannelAdapter.CloseSoftbusChannel` | av_transport/common/src/softbus_channel_adapter.cpp:315-331 | refines the step |
| `SoftbusChannelAdapters.SoftbusChannelAdapter.RegisterChannelListener` | av_transport/common/src/softbus_channel_adapter.cpp:379-392 | refines the step: overwrites, refuses a null listener |
| `SoftbusChannelAdapters.SoftbusChannelAdapter.UnRegisterChannelListener` | av_transport/common/src/softbus_channel_adapter.cpp:394-405 | refines the step |
| `SoftbusChannelAdapters.SoftbusChannelAdapter.StartDeviceTimeSync` | av_transport/common/src/softbus_channel_adapter.cpp:407-425 | refines the step |
| `SoftbusChannelAdapters.SoftbusChannelAdapter.StopDeviceTimeSync` | av_transport/common/src/softbus_channel_adapter.cpp:427-443 | refines the step |
| `SoftbusChannelAdapters.SoftbusChannelAdapter.GetPeerDevIdBySessId` | av_transport/common/src/softbus_channel_adapter.cpp:588-605 | the device of the first key with the id that names one other than the special device, or the empty string |
| `SoftbusChannelAdapters.SoftbusChannelAdapter.OnSoftbusChannelOpened` | av_transport/common/src/softbus_channel_adapter.cpp:470-500 | the loop that erases and reinserts refines the opened step |
| `SoftbusChannelAdapters.SoftbusChannelAdapter.OnSoftbusChannelClosed` | av_transport/common/src/softbus_channel_adapter.cpp:502-520 | erasing while iterating refines the closed step |
| `SoftbusChannelAdapters.SoftbusChannelAdapter.OnSoftbusBytesReceived` | av_transport/common/src/softbus_channel_adapter.cpp:522-541 | one thread for each key with the id, within the length limits |
| `SoftbusChannelAdapters.SoftbusChannelAdapter.OnSoftbusStreamReceived` | av_transport/common/src/softbus_channel_adapter.cpp:543-559 | direct calls in key order up to the first key without a listener, which gets a null entry |
| `SoftbusChannelAdapters.SoftbusChannelAdapter.OnSoftbusTimeSyncResult` | av_transport/common/src/softbus_channel_adapter.cpp:561-586 | every time-sync key is looked up, inserting null entries, and those with a listener are called |
| `SoftbusChannelAdapters.SoftbusChannelAdapter.SendChannelEvent` | av_transport/common/src/softbus_channel_adapter.cpp:619-631 | a detached thread looks its listener up when it runs, and is then gone |
| `SyncManager.GroupDependsOnSet` | av_transport/av_trans_control_center/services/src/av_sync_manager.cpp:144-227 | lists with the same streams, in any order and repetition, merge to the same group |
| `SyncManager.GroupShape` | av_transport/av_trans_control_center/services/src/av_sync_manager.cpp:185-227 | a group has masters of one scene type, at least one master and one slave, and every known stream exactly once with the role of its scene type |
| `SyncManager.GroupCondition` | av_transport/av_trans_control_center/services/src/av_sync_manager.cpp:153-171 | a group is produced exactly for speaker and screen without mic, or mic and camera stream without speaker |
| `SyncManager.AddStartsSync` | av_transport/av_trans_control_center/services/src/av_sync_manager.cpp:43-95 | adding a stream that makes the list mergeable starts sync: the group goes to the peer of every stream, in order, and the memory is handed out; otherwise only the list changes |
| `SyncManager.RemoveEndsSync` | av_transport/av_trans_control_center/services/src/av_sync_manager.cpp:59-112 | a removal that leaves fewer than two streams ends sync, with a message to every remaining peer and the memory taken back; otherwise only the list changes |
| `SyncManager.SyncHistory` | av_transport/av_trans_control_center/services/src/av_sync_manager.cpp:43-112 | at every point of every run sync is on exactly if some add made the list mergeable and no later removal left fewer than two streams |
| `SyncManager.ListOfRun` | av_transport/av_trans_control_center/services/src/av_sync_manager.cpp:43-74 | the list of a run is its added streams in order without those removed later |
| `SyncManager.SyncNeedsTwoStreams` | av_transport/av_trans_control_center/services/src/av_sync_manager.cpp:43-112 | in every run of adds and removes sender sync is on exactly while the engines hold the shared memory, and then there are at least two streams |
| `SyncManager.WithoutConcat` | av_transport/av_trans_control_center/services/src/av_sync_manager.cpp:65-71 | removal acts on each entry by itself, so the rest keeps its order |
| `SyncManager.WithoutCounts` | av_transport/av_trans_control_center/services/src/av_sync_manager.cpp:65-71 | removal clears all entries equal to the stream and changes no other count |
| `AVSyncManagers.AVSyncManager.AddStreamInfo` | av_transport/av_trans_control_center/services/src/av_sync_manager.cpp:43-57 | refines adding: sync is tried from the second stream on |
| `AVSyncManagers.EraseEqual` | av_transport/av_trans_control_center/services/src/av_sync_manager.cpp:65-71 | the erase loop removes exactly the equal entries and keeps the rest in order |
| `AVSyncManagers.AVSyncManager.RemoveStreamInfo` | av_transport/av_trans_control_center/services/src/av_sync_manager.cpp:59-74 | the equal entries go, then sync may be switched off |
| `AVSyncManagers.AVSyncManager.EnableSenderAVSync` | av_transport/av_trans_control_center/services/src/av_sync_manager.cpp:76-95 | one start message with the group for every entry, and the shared memory handed to the engines, if there is a group |
| `AVSyncManagers.AVSyncManager.DisableSenderAVSync` | av_transport/av_trans_control_center/services/src/av_sync_manager.cpp:97-112 | one stop message for every remaining entry, and the shared memory taken back, if fewer than two |
| `AVSyncManagers.AVSyncManager.MergeGroupInfo` | av_transport/av_trans_control_center/services/src/av_sync_manager.cpp:144-183 | the scene loop and the four checks compute the specified group |
| `AVSyncManagers.AVSyncManager.MergeGroupInfoInner` | av_transport/av_trans_control_center/services/src/av_sync_manager.cpp:185-227 | the loop collects one entry for each known stream |
| `ControlCenter.EngineIdsAreUnique` | av_transport/av_trans_control_center/services/src/av_trans_control_center.cpp:49-80 | in every run within the 32-bit range no id is handed out twice, the accepted ids are exactly those and the next one, and ids handed out earlier stay accepted |
| `ControlCenter.InitializeIssues` | av_transport/av_trans_control_center/services/src/av_trans_control_center.cpp:49-80 | a successful initialisation hands out and records the current id; a failed one consumes none |
| `ControlCenter.ReleaseClosesUnshared` | av_transport/av_trans_control_center/services/src/av_trans_control_center.cpp:82-137 | a release takes the engine from both maps, and closes the channel of its peer exactly if that peer is connected and no remaining engine is bound to it |
| `ControlCenter.OnlyReleaseCloses` | av_transport/av_trans_control_center/services/src/av_trans_control_center.cpp:139-293 | every other step keeps all bindings, closes nothing and connects at most the peer of the opened event it handled |
| `ControlCenter.SharedChannelIsKept` | av_transport/av_trans_control_center/services/src/av_trans_control_center.cpp:82-178 | in every run, from its binding to its release an engine keeps its peer, no release of another engine closes the channel to that peer, and the peer is connected at least as often as before |
| `ControlCenter.CreateBinds` | av_transport/av_trans_control_center/services/src/av_trans_control_center.cpp:139-178 | a request for a channel is granted exactly if the peer is connected or its channel is there or can be opened, and then binds an engine not yet bound, also to a channel that others use |
| `ControlCenter.CreatedChannelIsKept` | av_transport/av_trans_control_center/services/src/av_trans_control_center.cpp:82-178 | from the request on, in every run without the release of that engine, it stays bound and no release of others closes the channel to its peer |
| `ControlCenter.BindingHistory` | av_transport/av_trans_control_center/services/src/av_trans_control_center.cpp:82-178 | at every point of every run an engine is bound exactly if it was granted a channel and not released since |
| `ControlCenter.CallbackHistory` | av_transport/av_trans_control_center/services/src/av_trans_control_center.cpp:204-219 | and has a callback exactly if it registered one and was not released since |
| `ControlCenter.CallbackStep` | av_transport/av_trans_control_center/services/src/av_trans_control_center.cpp:204-219 | which is the first one it registered |
| `ControlCenter.ConnectionsAreConserved` | av_transport/av_trans_control_center/services/src/av_trans_control_center.cpp:285-292 | in every run a device occurs in the connected list as often as handled opened events minus closes by releases; closes never outnumber opens |
| `ControlChannels.HeardUntilFirstClose` | av_transport/av_trans_control_center/services/src/av_trans_control_center.cpp:58-134 | in every run of the centre with its adapter, it hears of channels that peers open exactly from its initialisation until the first release that closes a channel |
| `ControlChannels.DeafAfterFirstClose` | av_transport/av_trans_control_center/services/src/av_trans_control_center.cpp:129-134 | after that release no opened event of the receiver session is handled in any further run |
| `ControlChannels.TimeSyncReaches` | av_transport/av_trans_control_center/services/src/av_trans_control_center.cpp:285-292 | in every reachable state a time synchronisation result calls somebody exactly if it is not zero, the centre is still heard and time is synchronised with a device of the special id |
| `ControlChannels.TimeSyncIsNeverHeard` | av_transport/common/src/softbus_channel_adapter.cpp:579-585 | so with real device ids none ever reaches the centre: it listens under the special id, time is synchronised under the peer's |
| `ControlChannels.ServerStands` | av_transport/av_trans_control_center/services/src/av_trans_control_center.cpp:49-80 | in every run an initialised centre has its server for the receiver session |
| `ControlChannels.OpenedEventConnects` | av_transport/av_trans_control_center/services/src/av_trans_control_center.cpp:285-292 | a thread that brings the centre an opened event connects the peer and, for the receiver session, starts the time synchronisation with it |
| `ControlChannels.HangupTakesAway` | av_transport/av_trans_control_center/services/src/av_trans_control_center.cpp:129-134 | what the four calls of a closing release take away, for every key, and that nothing else changes |
| `ControlChannels.ReleaseClosesLastSession` | av_transport/av_trans_control_center/services/src/av_trans_control_center.cpp:129-130 | a closing release takes away exactly the peer's channel of the session last opened by anybody; the one the centre opened itself stays exactly if that was another session |
| `ControlChannels.ChannelLeftOpen` | av_transport/av_trans_control_center/services/src/av_trans_control_center.cpp:129-130 | a run in which it stays: another peer called in between |
| `ControlChannels.SharedChannelStaysOpen` | av_transport/av_trans_control_center/services/src/av_trans_control_center.cpp:82-137 | in every run, while an engine is bound to a peer, each channel to that peer stays in the adapter's table until the softbus itself closes it |
| `ControlChannels.ChannelHistory` | av_transport/av_trans_control_center/services/src/av_trans_control_center.cpp:273-292 | at every point of every run the adapter has a channel exactly if some step entered it and none took it out since; the connected list follows opened events only |
| `ControlChannels.ConnectedWithoutChannel` | av_transport/av_trans_control_center/services/src/av_trans_control_center.cpp:150-162 | a run after which a device is connected, the channel opened to it is gone, and a request for one reports that it exists and opens none |
| `AVTransControlCenters.AVTransControlCenter.InitializeAVCenter` | av_transport/av_trans_control_center/services/src/av_trans_control_center.cpp:49-80 | refines the step on centre and adapter, with all results and the wrap-around of the counter |
| `AVTransControlCenters.IsDevIdUsed` | av_transport/av_trans_control_center/services/src/av_trans_control_center.cpp:103-109 | the loop decides whether some engine is bound to the device |
| `AVTransControlCenters.AVTransControlCenter.EraseConnected` | av_transport/av_trans_control_center/services/src/av_trans_control_center.cpp:117-127 | erases the first occurrence of the device, if there is one |
| `AVTransControlCenters.AVTransControlCenter.CloseControlChannel` | av_transport/av_trans_control_center/services/src/av_trans_control_center.cpp:129-134 | the four calls to the adapter |
| `AVTransControlCenters.AVTransControlCenter.ReleaseAVCenter` | av_transport/av_trans_control_center/services/src/av_trans_control_center.cpp:82-137 | refines the step on centre and adapter, with its five ways to end |
| `AVTransControlCenters.AVTransControlCenter.CreateChannel` | av_transport/av_trans_control_center/services/src/av_trans_control_center.cpp:139-178 | refines the step on centre and adapter: binding does not overwrite, also when the channel exists already |
| `AVTransControlCenters.AVTransControlCenter.NotifyAVCenter` | av_transport/av_trans_control_center/services/src/av_trans_control_center.cpp:180-202 | refines the step on the shared sync manager |
| `AVTransControlCenters.AVTransControlCenter.RegisterCtlCenterCallback` | av_transport/av_trans_control_center/services/src/av_trans_control_center.cpp:204-219 | refines the step: the first callback stays |
| `AVTransControlCenters.AVTransControlCenter.HandleChannelEvent` | av_transport/av_trans_control_center/services/src/av_trans_control_center.cpp:273-293 | only an opened event changes anything; one of the receiver session starts the time synchronisation |
| `SenderEngine.PushNeedsOpenWindow` | av_transport/av_trans_engine/av_sender/src/av_sender_engine.cpp:526-546 | over every run of a new engine a PushData succeeds only if a successful Start was made in CH_CREATED with no successful Stop, no Release, no handled channel event and no first successful initialisation since |
| `SenderEngine.PushSucceedsInWindow` | av_transport/av_trans_engine/av_sender/src/av_sender_engine.cpp:526-546 | over every run of a new engine a PushData succeeds exactly if such a window is open, the input filter is there and buffer and filter are good |
| `SenderEngine.StartedUninitialised` | av_transport/av_trans_engine/av_sender/src/av_sender_engine.cpp:54-110 | a run in which an engine pushes without ever having been initialised, and its first successful initialisation ends that |
| `SenderEngine.RunningMeansStarted` | av_transport/av_trans_engine/av_sender/src/av_sender_engine.cpp:152-176 | the invariant behind it: a started or playing engine has such an open window |
| `SenderEngine.StartAfterEvent` | av_transport/av_trans_engine/av_sender/src/av_sender_engine.cpp:657-690 | right after a handled channel event a Start succeeds exactly if the channel was opened |
| `SenderEngine.StartAfterReady` | av_transport/av_trans_engine/av_sender/src/av_sender_engine.cpp:548-583 | right after the engine was made ready a Start succeeds exactly if it could before, or it was initialised and the preparation went well |
| `SenderEngine.ReleasedIsInert` | av_transport/av_trans_engine/av_sender/src/av_sender_engine.cpp:193-215 | from its release to its next initialisation an engine can neither be made ready, started, fed nor stopped, whatever events reach it |
| `SenderEngine.ToldIsHandled` | av_transport/av_trans_engine/av_sender/src/av_sender_engine.cpp:657-690 | in every run the sender callback is told exactly the handled events, in order |
| `SenderEngine.CallbackOfRun` | av_transport/av_trans_engine/av_sender/src/av_sender_engine.cpp:592-599 | in every run of a new engine there is a sender callback exactly if one was registered and the engine was not released since |
| `SenderEngine.InitializeSucceeds` | av_transport/av_trans_engine/av_sender/src/av_sender_engine.cpp:54-130 | exactly when an initialisation succeeds |
| `SenderEngine.RegisteredUnderAll` | av_transport/av_trans_engine/av_sender/src/av_sender_engine.cpp:132-150 | in a run without a release the engine is registered with the adapter under exactly the devices it was ever given |
| `SenderEngine.ReleaseLeavesRegistered` | av_transport/av_trans_engine/av_sender/src/av_sender_engine.cpp:193-215 | a release then leaves it registered exactly under those other than its current peer |
| `SenderEngine.RegisteredAfterRelease` | av_transport/av_trans_engine/av_sender/src/av_sender_engine.cpp:132-150 | a run that shows it: given A and then B, the released engine is still registered under A |
| `Transport.SystemIsCenterRun` | av_transport/av_trans_engine/av_sender/src/av_sender_engine.cpp:112-130 | in every run of any number of engines the centre goes through one of its own runs, so all of its properties hold there |
| `Transport.HeardInSystem` | av_transport/av_trans_control_center/services/src/av_trans_control_center.cpp:129-134 | for instance the one about hearing peers |
| `Transport.StartedIsBound` | av_transport/av_trans_engine/av_sender/src/av_sender_engine.cpp:152-176 | a Start that reaches the centre binds the engine to its peer exactly if the centre grants the channel, whatever the kit returns |
| `Transport.ReleasedIsForgotten` | av_transport/av_trans_engine/av_sender/src/av_sender_engine.cpp:193-215 | a release that reaches the centre makes it forget the engine and closes its peer's channel exactly if no other engine is bound to it |
| `Transport.EntriesMatchPushes` | av_transport/av_trans_engine/av_sender/src/av_sender_engine.cpp:526-546 | over every run of all engines and the centre, while an initialised mic, speaker or screen sender keeps its peer, is alone with its stream and its PushData and Stop notices reach the centre, the sync manager holds exactly as many entries for it as PushData calls it entered in STARTED since its last successful Stop, whichever failed, and those left over from before; at least one push while it is playing |
| `Transport.EntriesOverWholeRun` | av_transport/av_trans_engine/av_sender/src/av_sender_engine.cpp:54-70 | the same from the start of the system: any run, the successful initialisation of an engine, then such a run; what is left over are the foreign entries at the initialisation, until its first successful Stop |
| `Transport.PlayingHasEntry` | av_transport/av_trans_engine/av_sender/src/av_sender_engine.cpp:526-546 | from the start of the system, an engine without pushes at its initialisation, in particular a new one, has at least one entry for each push, so at least one while it is playing |
| `Transport.NoEntryAfterStop` | av_transport/av_trans_engine/av_sender/src/av_sender_engine.cpp:178-191 | right after its successful Stop it has no entry, whatever was left over |
| `Transport.CameraAnnounces` | av_transport/av_trans_engine/av_sender/src/av_sender_engine.cpp:631-655 | a camera announces the scene of its current format, and takes that one away when it stops |
| `Transport.InitialisedIsTracked` | av_transport/av_trans_engine/av_sender/src/av_sender_engine.cpp:54-70 | the tracking starts with any successful initialisation, of a new engine or one used before |
| `Transport.ReleaseLeavesEntries` | av_transport/av_trans_engine/av_sender/src/av_sender_engine.cpp:193-215 | a release after such a run leaves exactly pushes plus left-overs behind; if no notice was lost before the tracking, so that the left-overs are not negative, none if and only if both are zero |
| `Transport.EntryLeftBehind` | av_transport/av_trans_engine/av_sender/src/av_sender_engine.cpp:193-215 | a run from the start, initialise, make ready, start, push once and release, that ends with one entry left |
| `Transport.EntryLost` | av_transport/av_trans_engine/av_sender/src/av_sender_engine.cpp:631-655 | a run with negative left-overs: the notice of a push was lost, the engine released and initialised again; the next release leaves nothing although the push still counts |
| `Transport.OtherEngineKeepsCount` | av_transport/av_trans_engine/av_sender/src/av_sender_engine.cpp:631-655 | no call of another engine changes the number of entries of a stream it does not announce |
| `AVSenderEngines.AVSenderEngine.Initialize` | av_transport/av_trans_engine/av_sender/src/av_sender_engine.cpp:54-130 | refines the step on engine and control centre, with every way to fail half-way |
| `AVSenderEngines.AVSenderEngine.InitPipeline` | av_transport/av_trans_engine/av_sender/src/av_sender_engine.cpp:72-110 | which references are set when it fails or succeeds |
| `AVSenderEngines.AVSenderEngine.CreateControlChannel` | av_transport/av_trans_engine/av_sender/src/av_sender_engine.cpp:132-150 | refines the step: the peer changes and is registered even if opening fails |
| `AVSenderEngines.AVSenderEngine.PreparePipeline` | av_transport/av_trans_engine/av_sender/src/av_sender_engine.cpp:548-583 | CH_CREATED exactly from INITIALIZED or CH_CREATED with both filters there and everything configured |
| `AVSenderEngines.AVSenderEngine.SetEngineReady` | av_transport/av_trans_engine/av_sender/src/av_sender_engine.cpp:498-502 | refines the step; a failed preparation is not reported |
| `AVSenderEngines.AVSenderEngine.Start` | av_transport/av_trans_engine/av_sender/src/av_sender_engine.cpp:152-176 | refines the step on engine and control centre; the kit's answer is not the centre's, because the call is one-way |
| `AVSenderEngines.AVSenderEngine.NotifyStreamChange` | av_transport/av_trans_engine/av_sender/src/av_sender_engine.cpp:631-655 | which stream change, if any, reaches the control centre |
| `AVSenderEngines.AVSenderEngine.PushData` | av_transport/av_trans_engine/av_sender/src/av_sender_engine.cpp:526-546 | refines the step: the stream is announced before the push can fail |
| `AVSenderEngines.AVSenderEngine.Stop` | av_transport/av_trans_engine/av_sender/src/av_sender_engine.cpp:178-191 | refines the step on engine and control centre |
| `AVSenderEngines.AVSenderEngine.Release` | av_transport/av_trans_engine/av_sender/src/av_sender_engine.cpp:193-215 | refines the step on engine, control centre and the engine's own session |
| `AVSenderEngines.AVSenderEngine.RegisterSenderCallback` | av_transport/av_trans_engine/av_sender/src/av_sender_engine.cpp:592-599 | refines the step |
| `AVSenderEngines.AVSenderEngine.OnChannelEvent` | av_transport/av_trans_engine/av_sender/src/av_sender_engine.cpp:657-690 | refines the step, with what the sender callback is told: nothing without a callback |
| `ListenerCache.RestoredUntilCrash` | interfaces/inner_kits/src/ipc/dhfwk_sa_manager.cpp:146-196 | in every run, from a completed restore to the next crash all cached pairs are registered, the two sets are equal unless a registration was refused for size since the restart, and no topic caches more than 256 listeners |
| `ListenerCache.RestoredIsHistory` | interfaces/inner_kits/src/ipc/dhfwk_sa_manager.cpp:103-122 | a restore completes exactly when the start notification is handled while the service can be reached, and lasts until a crash |
| `ListenerCache.CrashIsRepaired` | interfaces/inner_kits/src/ipc/dhfwk_sa_manager.cpp:103-178 | after a crash whose stop is noticed, whatever the clients do until the start is noticed, that notification leaves every cached pair registered |
| `ListenerCache.RestoreNeedsFreshProxy` | interfaces/inner_kits/src/ipc/dhfwk_sa_manager.cpp:146-165 | in every run a start notification leaves all cached pairs registered exactly when nothing is cached, or the service is up and the proxy was dropped or is of this life |
| `ListenerCache.SuccessIsTrue` | interfaces/inner_kits/src/ipc/dhfwk_sa_manager.cpp:153-165 | a reported success is true exactly when nothing is cached, or there was no proxy, or it is one of the running service |
| `ListenerCache.FalseSuccess` | interfaces/inner_kits/src/ipc/dhfwk_sa_manager.cpp:159-162 | a run in which success is reported and nothing is registered: the service came back before its stop was noticed |
| `ListenerCache.CacheHistory` | interfaces/inner_kits/src/ipc/dhfwk_sa_manager.cpp:180-196 | at every point of every run a pair is cached exactly if some registration cached it and it was not unregistered since |
| `ListenerCache.ServiceHistory` | interfaces/inner_kits/src/distributed_hardware_fwk_kit.cpp:43-84 | and registered exactly if a call that reached the service registered it, or a restore while it was cached, and neither such an unregistration nor a crash came since |
| `ListenerCache.UnregisteredStaysOut` | interfaces/inner_kits/src/distributed_hardware_fwk_kit.cpp:67-84 | in every run, from an unregistration to the next registration a pair is not cached, so no restore brings it back, and not registered if the call reached the service or once it crashed |
| `ListenerCache.RegisterSucceeds` | interfaces/inner_kits/src/distributed_hardware_fwk_kit.cpp:43-65 | a registration succeeds exactly if it caches the pair: a valid topic, the service reachable or absent, and room for the listener |
| `ListenerCache.OnlyListenersAreLimited` | interfaces/inner_kits/src/ipc/dhfwk_sa_manager.cpp:180-190 | the limit on topics is never reached: only 256 listeners of one topic make the cache refuse |
| `DHFWKSAManagers.DHFWKSAManager.GetDHFWKProxy` | interfaces/inner_kits/src/ipc/dhfwk_sa_manager.cpp:67-95 | keeps a proxy once obtained, even of an earlier life |
| `DHFWKSAManagers.DHFWKSAManager.AddPublisherListenerToCache` | interfaces/inner_kits/src/ipc/dhfwk_sa_manager.cpp:180-190 | the two limits, and the empty set that a lookup inserts |
| `DHFWKSAManagers.DHFWKSAManager.RegisterPublisherListener` | interfaces/inner_kits/src/distributed_hardware_fwk_kit.cpp:43-65 | refines the step: service first, then cache |
| `DHFWKSAManagers.DHFWKSAManager.UnregisterPublisherListener` | interfaces/inner_kits/src/distributed_hardware_fwk_kit.cpp:67-84 | refines the step: the cache forgets the listener even if the call fails |
| `DHFWKSAManagers.DHFWKSAManager.OnRemoveSystemAbility` | interfaces/inner_kits/src/ipc/dhfwk_sa_manager.cpp:124-144 | drops the proxy |
| `DHFWKSAManagers.DHFWKSAManager.RestoreListener` | interfaces/inner_kits/src/ipc/dhfwk_sa_manager.cpp:146-178 | the nested loops register every cached pair again; the result reports only on the engines' callbacks |
| `DHFWKSAManagers.RestoreCallbacks` | interfaces/inner_kits/src/ipc/dhfwk_sa_manager.cpp:168-175 | success exactly if it was so before and every callback was registered |
| `AbilityJson.AudioEncodersRoundTrip` | av_transport/av_trans_handler/histreamer_ability_querier/src/histreamer_ability_querier.cpp:950-967 | the parser recovers a printed list of audio encoders, in order, exactly when every element survives: texts of 1 to 40 MiB without zero characters, nested lists of at most 10000, versions below 256, or all fields blank |
| `AbilityJson.AudioDecodersRoundTrip` | utils/src/histreamer_ability_parser.cpp:135-218 | the same for audio decoders, with channel layouts that a double holds, in particular all below 2^53 |
| `AbilityJson.VideoEncodersRoundTrip` | utils/src/histreamer_ability_parser.cpp:220-293 | the same for video encoders |
| `AbilityJson.VideoDecodersRoundTrip` | utils/src/histreamer_ability_parser.cpp:320-343 | video decoders come back exactly when, besides, no output has pixel formats: the parser gates those on a key that is not printed there |
| `AbilityJson.VideoDecoderLosesPixelFormats` | utils/src/histreamer_ability_parser.cpp:320-380 | everything else of a video decoder comes back |
| `AbilityJson.CodecRoundTrip` | av_transport/av_trans_handler/histreamer_ability_querier/src/histreamer_ability_querier.cpp:252-287 | a codec comes back exactly when its name is a text, its lists fit and its inputs and outputs come back, or it is empty |
| `AbilityJson.PortRoundTrip` | utils/src/histreamer_ability_parser.cpp:38-64 | a MIME type with a list of numbers comes back exactly when it survives |
| `AbilityJson.MisgatedPort` | utils/src/histreamer_ability_parser.cpp:332-342 | read under the gate of another key it loses exactly its numbers |
| `AbilityJson.AudioEncoderOutRoundTrip` | av_transport/av_trans_handler/histreamer_ability_querier/src/histreamer_ability_querier.cpp:196-206 | an audio encoder output comes back exactly for a text and a version below 256, or if it is what the fields held before |
| `AbilityJson.VideoEncoderOutRoundTrip` | av_transport/av_trans_handler/histreamer_ability_querier/src/histreamer_ability_querier.cpp:630-636 | a video encoder output comes back exactly for a text or an empty MIME type |
| `AbilityJson.ListRoundTrip` | utils/src/histreamer_ability_parser.cpp:382-406 | a list comes back, in order, exactly when each element does |
| `AbilityJson.ExactDouble` | av_transport/av_trans_handler/histreamer_ability_querier/src/histreamer_ability_querier.cpp:388-390 | an integer is unchanged as a double exactly when it is a multiple of the spacing there, so always below 2^53 |
| `AbilityLoops.ToJsonPort` | av_transport/av_trans_handler/histreamer_ability_querier/src/histreamer_ability_querier.cpp:156-170 | the printing loop over the numbers |
| `AbilityLoops.FromJsonPort` | utils/src/histreamer_ability_parser.cpp:38-64 | the parsing loop, which skips what is not a number, behind its early returns |
| `AbilityLoops.ToArray` | av_transport/av_trans_handler/histreamer_ability_querier/src/histreamer_ability_querier.cpp:957-965 | the loop that prints a vector as an array |
| `AbilityLoops.FromItems` | utils/src/histreamer_ability_parser.cpp:396-400 | the loop that parses an array into a vector |
| `AbilityLoops.ToJsonCodec` | av_transport/av_trans_handler/histreamer_ability_querier/src/histreamer_ability_querier.cpp:252-287 | the two loops over inputs and outputs |
| `AbilityLoops.FromJsonCodec` | utils/src/histreamer_ability_parser.cpp:98-133 | the two loops behind their early returns |
| `AbilityLoops.FromJsonList` | utils/src/histreamer_ability_parser.cpp:382-406 | an array is parsed item by item, anything else as one item |
| `HexDigest.ExpandDigest` | utils/src/dh_utils_tool.cpp:116-133 | the digest at 32..63 becomes its 64-character lowercase text in the same buffer; no byte is overwritten before it is read, no zero is inside, and the text passes the hash size check |
| `HexDigest.UnhexOfHex` | utils/src/dh_utils_tool.cpp:124-130 | decoding the text gives the digest back |
| `HexDigest.HexIsInjective` | utils/src/dh_utils_tool.cpp:124-130 | texts are equal exactly when the digests are |
| `Buffers.AppendsAreTruncatedConcatenation` | av_transport/common/src/av_trans_buffer.cpp:125-139 | after any sequence of appending writes the content is the first capacity bytes of the chunks joined, and the reported lengths add up to its size |
| `Buffers.BufferData.Write` | av_transport/common/src/av_trans_buffer.cpp:125-139 | where the bytes go, what is cut off, that a copy of nothing leaves the size alone, and when the copy goes past a null address; without a position it is an append |
| `Buffers.BufferData.Read` | av_transport/common/src/av_trans_buffer.cpp:141-154 | delivers the slice at the position, cut to what is there, and leaves the rest of the target alone |
| `Buffers.BufferData.Reset` | av_transport/common/src/av_trans_buffer.cpp:156-159 | empties the buffer |
| `Buffers.BufferData.constructor` | av_transport/common/src/av_trans_buffer.cpp:95-103 | storage exactly up to 8192 bytes |

## Left out

- Shared-memory creation and closing, file descriptors, mapping: the region is an array and the system's answers are parameters.
- The single-unit frame memory (`WriteFrameInfoToMemory`, `ReadFrameInfoFromMemory`): the same codec without the ring.
- `ClockMemory.WriteClockUnit`: does not cover a region smaller than 600 bytes that passes all checks, because the source goes out of bounds there.
- `ClockMemory.ReadClockUnit`: does not cover such a region either, for the same reason.
- `ClockScanProofs.OverlappingScanBound`: takes the time of a slot at one moment; `ByteWiseScanBound` takes its bytes one by one.
- `AVSyncManagers.AVSyncManager.EnableSenderAVSync`: does not distinguish a memory whose creation failed, which the source hands out as well.
- Weak memory ordering: stores become visible in program order.
- Sending bytes and streams, sockets, shutdown of sessions: they change no state of the adapter.
- The table of own and peer session names: any table is allowed.
- Opened callbacks with a non-zero result: the caller never passes one.
- Time synchronisation results without an info record: ignored by the source as well.
- Calls that overlap in time: every locked method is one step, although some lock twice.
- The receiver side of A/V sync, the creation of the sync manager's memories and the printed form of the group: the group is a set of records, and the memory is handed out or taken back.
- One-way calls that arrive late: they reach the centre within the step that makes them, or not at all.
- Filters, plugins, parameters of the pipeline other than the ready tag, dump switches and the receiver engine.
- Null publisher listeners, and the cached control-centre callbacks beyond the result they produce.
- JSON text: trees are compared, not their printed form; a negative number in a list, for which the source's cast is undefined, is skipped.
- ToJson and FromJson of the two output records without a list are functions on values, since they have no loop; cJSON nodes are trees without sharing, and allocation does not fail.
- SHA-256 itself: any 32 bytes are a digest.
- `SetSize` and wrapped buffers: they let the size exceed the capacity, and the source then writes out of bounds.
- `EngineIdsAreUnique`: does not speak about runs that hand out more ids than the 32-bit range has, after which the counter wraps and no id is accepted.
- The rest of the framework: component and resource management, database, IPC marshalling, permissions, logging.
