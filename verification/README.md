# A verified model of udev-manager

udev-manager turns udev devices into Kubernetes device-plugin resources. Inside, it is a
chain of concurrent replicas: a monitor goroutine follows the kernel's device events, a
fan-out `Mux` distributes them, filtered slices, scatters and batch pools fold them into
maps, and resources broadcast instance health to watchers. This project models that chain in
Dafny and proves what its comments promise, or exactly when the code keeps the promise.

Check everything with `dafny verify dfyconfig.toml`.

## How it is built

- **The multiplexer** (`MuxProtocol`, `MuxSafety`, `MuxLiveness`, `MuxCancels`,
  `MuxIndependence`, `MuxTraces`, `MuxLoop`). `MuxProtocol` is a step system: any number of Submit, Subscribe and CancelFunc calls with
  program counters, Close, a writer-preferring lock, an input channel of any capacity (0 is
  a rendezvous) and the goroutine `run`. Runs are sequences of labels; theorems quantify over
  all of them. `MuxLoop` is `run` as code: its loops are proved to be legal runs of the
  protocol with the effect on every sink stated outright.
- **Snapshot plus deltas** (`Replication`, `Snapshots`, `SliceStream`). One model, with the
  whole mux underneath, covers the three places that hand a new sink a snapshot and then
  register it or the other way round: the udev monitor, the in-memory discovery and the slice
  goroutine.
- **Devices and folds** (`Udev`, `UdevCode`, `DiscoveryStream`, `Losses`, `SliceChain`,
  `SliceProgress`): the monitor's map against the kernel's, the overlap of enumeration and
  buffered events, filtered views, what lost events do, and a slice on top of a discovery as
  one state machine, which never gets stuck.
- **Resources** (`Resources`, `Watch`, `WatchOrder`, `WatchSchedules`, `WatchTraces`):
  instances, overrides, the Submit critical section, and ListAndWatch, with its channel of
  capacity two, interleaved with any number of Submits.
- **Batches** (`Batch`, `BatchCode`, `EndToEnd`, `ChainProgress`, `KubeletChain`): pool, seats
  and notifications at the grain of critical sections; `EndToEnd` joins kernel, monitor, mux,
  channel, batch goroutine and seats in one state machine, `ChainProgress` shows that it never
  gets stuck and drains, and `KubeletChain` continues it through the resource's broadcast to
  the lists the kubelet is sent.
- **Scatters** (`Scatter`, `ScatterRoutes`, `ScatterCode`): routes as a last-writer-wins fold,
  which routes and entries come to exist, and the code over shared resource objects.
- **Allocation** (`Naming`, `Allocation`, `NetBandwidth`): merging responses, environment
  names, instance ids and bandwidth shares.

## Assumptions, and where the code keeps less than it says

- A sink is subscribed once. It is closed twice exactly if `run` received two cancels of it
  (`MuxSafety.ClosedTwiceIff`, `MuxTraces.TwoCancelsCloseTwice`), because the unregister
  branch (`internal/mux/mux.go:326-329`) does not look whether the sink is registered.
- "After the CancelFunc returns, no further calls to sink.Submit will be made"
  (`internal/mux/mux.go:393`) holds when `run` answered the cancel. When the CancelFunc
  returned through `done` it holds exactly if the sink is no longer registered, or has
  everything that was accepted and no Submit past its check of `done` still has a receiver
  (`MuxCancels.TurnedAwayCancelIsFinalIff`); with accepted values outstanding it fails on
  every run to the exit (`MuxCancels.TurnedAwayCancelStillDelivers`).
- A mux that turned a Subscribe away leaves the sink open (`internal/mux/mux.go:399-400`):
  the sinks closed at exit are exactly the registered ones.
- `doc.go` says that Submit after Close times out and that Close must be called once; the code
  fails such a Submit at once and Close is idempotent. The model follows the code.
- Subscribers of a discovery agree with its state as long as none of its own Submits timed out
  or met a closed mux (`NoLoss`). With losses they agree, device by device, exactly under the
  condition of `Losses.LostEventShowsIff`. The unbuffered input is needed:
  `Losses.BufferedInputDuplicates`.
- A filtered view equals `State(filter)` exactly if no id is stale: a re-added device turned
  from a match into a non-match (`internal/udev/udev.go:324-326`,
  `internal/plugin/batch_partition.go:185-189`) and no later event settled it. A matching add
  settles it, and for a slice any removal; a batch ignores the removal of a device that no
  longer matches. The chain theorems admit such re-adds and say what follows.
- A slice hands out the CancelFunc before its replay is done (`internal/udev/udev.go:359-360`).
  A subscriber that cancels at once makes the replay panic: `SliceChain.SlicePanicsIff`.
- ListAndWatch loses nothing, but the ordering promised at `internal/plugin/resource.go:169-171`
  holds exactly under the condition of `WatchOrder.ReplayComesFirstIff`, and the send called
  non-blocking at line 177 blocks for ever exactly if two broadcasts come before it
  (`WatchOrder.ListAndWatchReturnsIff`), since nobody reads the channel yet. A shutdown of the
  resource that closes the channel before the replay makes it panic. A caller can exclude all
  of this by not submitting while a watch begins (`WatchSchedules.ReplayFirstWhenQuiet`).
- With one Submit at a time, which is how the scatter and the batch goroutine use a resource,
  broadcasts arrive in order; overlapping ones need not (`WatchSchedules.OverlappingSubmitsMaySwap`).
- A scatter acts on what a device provides when the event comes and remembers nothing else
  (`internal/plugin/scatter.go:42-127`). If the only provider of an entry is re-added without
  it, the entry stays advertised, also after the removal of the device
  (`Scatter.ChangedDeviceStaysAdvertised`); if one of several providers is removed, the entry of
  the others is forced (`Scatter.SharedEntryIsForced`). Until the next event about the entry it
  is wrong exactly then: `Scatter.EntryRightIff`.
- A refused registration is tried again with the next device of its template; what devices
  before that provided has no entry until an event is about it again
  (`ScatterRoutes.RoutedIff`, `ScatterRoutes.EntryIff`).
- The response of a batch keeps every variable exactly if members whose labels sanitise alike
  agree on it: `Allocation.VariablesSurviveIff`.
- `mbpsPerShare` is not validated (`cmd/udev-manager/main.go:347-361`): `NetBandwidth.PanicsIff`
  lists the inputs for which `NetBWMatcherInstances` panics.

## Model

| member | source | states |
|---|---|---|
| MuxProtocol.RunKeepsInv | internal/mux/mux.go:263-412 | the log, lock, call, sink, cancel and close invariants hold in every state any interleaving reaches |
| MuxSafety.SubmitReturnsNilIffAccepted | internal/mux/mux.go:355-381 | a Submit that returned returned nil exactly when its value was accepted, and each value is accepted at most once |
| MuxSafety.NothingEntersAfterDrain | internal/mux/mux.go:272-291 | from the drain on no step of any actor adds to what was accepted |
| MuxSafety.StreamIsSegment | internal/mux/mux.go:309-331 | every sink's received sequence is a contiguous segment of the accepted order starting at its registration, whatever errors sinks return |
| MuxSafety.UncancelledSinkGetsAll | internal/mux/mux.go:293-306 | a registered, uncancelled sink has everything accepted since its registration when `run` closes it |
| MuxSafety.NoAcceptedValueLost | internal/mux/mux.go:271-300 | at exit a value whose Submit returned nil was handed exactly once to every uncancelled sink registered before it |
| MuxSafety.ClosedSinkIsSilent | internal/mux/mux.go:99-107 | no later step of the mux submits to a sink it has closed |
| MuxSafety.AnsweredCancelIsFinal | internal/mux/mux.go:326-331 | once `run` answered a cancel its sink receives nothing more on any continuation |
| MuxIndependence.CancelTouchesOneSink | internal/mux/mux.go:326-331 | for every run from the moment `run` takes a cancel, its reply coming whenever it may, there is one without the cancel in which every other sink has the same record and every Submit and the accepted log the same history |
| MuxSafety.ClosedOnceAtExit | internal/mux/mux.go:302-306 | at exit the closed sinks are exactly those ever registered, each closed once unless several cancels of it were received |
| MuxSafety.ClosedTwiceIff | internal/mux/mux.go:326-329 | in every reachable state a sink has been closed more than once if and only if `run` received more than one cancel of it |
| MuxSafety.NobodyStranded | internal/mux/mux.go:321-331 | a caller waits for a reply exactly when `run` is about to send that reply |
| MuxCancels.TurnedAwayCancelIsFinalIff | internal/mux/mux.go:393-410 | a cancel that returned through `done` is final on every continuation if and only if its sink is unregistered, or has everything accepted and no Submit can still add to that |
| MuxCancels.SettledSinkIsSilent | internal/mux/mux.go:403-411 | on a closed mux a settled sink receives nothing on any continuation |
| MuxCancels.SomeRunDelivers | internal/mux/mux.go:271-300 | otherwise a run is constructed on which the sink receives more |
| MuxCancels.TurnedAwayCancelStillDelivers | internal/mux/mux.go:408-410 | with accepted values outstanding the sink receives them on every run to the exit |
| MuxLiveness.NoDeadlock | internal/mux/mux.go:270-337 | after Close some non-entering step is enabled until `run` has exited and every call has returned |
| MuxLiveness.StepShrinks | internal/mux/mux.go:270-337 | every step but the entry of a new call decreases a lexicographic measure |
| MuxLiveness.ShutdownTerminates | internal/mux/mux.go:348-353 | after Close every schedule without new callers and with non-blocking sinks reaches the exit with all calls returned |
| MuxTraces.CancelThroughDoneIsNotFinal | internal/mux/mux.go:388-393 | a run on which a sink receives a value after its CancelFunc returned |
| MuxTraces.TwoCancelsCloseTwice | internal/mux/mux.go:326-331 | a run on which two calls of one CancelFunc close the sink twice |
| MuxLoop.Mux.FanOutValue | internal/mux/mux.go:311-319 | every registered sink gets the value once, the others nothing, as a legal protocol run |
| MuxLoop.Mux.ReceiveInput | internal/mux/mux.go:311-319 | the value taken, from the buffer or straight from a waiting Submit when there is none, reaches every registered sink, as a legal protocol run back to the select |
| MuxLoop.Mux.ReceiveRegister | internal/mux/mux.go:321-324 | the sink is registered at the current place of the log and its caller answered |
| MuxLoop.Mux.ReceiveUnregister | internal/mux/mux.go:326-331 | one sink leaves and is closed, every other record is untouched, the caller is answered |
| MuxLoop.Mux.Turn | internal/mux/mux.go:308-336 | one turn of the select, whichever ready case it chooses, a rendezvous with a waiting Submit included, keeps the protocol state, has that case's effect, and leaves the loop for `done` only |
| MuxLoop.Mux.ReadyIffEnabled | internal/mux/mux.go:308-336 | a case of the select is ready exactly when the protocol lets `run` receive what it receives |
| MuxLoop.Mux.Shutdown | internal/mux/mux.go:271-307 | every registered sink gets the whole buffer in order and is then closed once; input and outputs end empty |
| Replication.MovesKeepRInv | internal/udev/udev.go:414-474 | state, logs, snapshots and registrations stay consistent under every interleaving of the owner with the mux |
| Snapshots.SnapshotPlusDeltas | internal/udev/udev.go:458-470 | a subscriber's log is the state at its registration plus exactly the events accepted since, and folds to the state at the last delivered event |
| Snapshots.CaughtUpWhenIdle | internal/udev/udev.go:420-444 | with owner and mux idle every registered sink's fold is the owner's state |
| Snapshots.PublishedEventsAllowed | internal/udev/udev.go:432-444 | every accepted event was one its state allowed, such as a removal of a known device |
| Snapshots.ReplayPanicsIff | internal/udev/udev.go:340-360 | an owner that registers first panics on its replay if and only if the sink was cancelled or closed at shutdown before it |
| Losses.LostEventShowsIff | internal/udev/udev.go:419-444 | whatever Submits were lost, an idle subscriber agrees with the state about a device if and only if nothing was published about it since its Init, or the last such event was accepted, or it does to the device what the last accepted one did, or what the Init had if there was none |
| Losses.BufferedInputDuplicates | internal/mux/mux.go:223-229 | with an input buffer of any size a new sink sees any event in its snapshot and again as an event |
| Losses.TimeoutLosesEvent | internal/udev/udev.go:426-431 | a run on which a timed-out Submit leaves a new device out of what an idle subscriber has |
| SliceChain.PublicationBeforeSubscribers | internal/udev/udev.go:294-369 | with discovery, event channel and slice together: on an open source the slice has published before its first subscriber comes |
| SliceChain.SubscriberSeesPublishedSnapshots | internal/udev/udev.go:340-360 | on an open source a slice subscriber sees the published snapshot current at registration and then every later one in order |
| SliceChain.PublishedSnapshotsAreViews | internal/udev/udev.go:314-338 | every published snapshot is the filtered view after part of what the discovery sent, the Init included |
| SliceChain.SubscriberHasStateIff | internal/udev/udev.go:294-369 | drained, the last snapshot of every slice subscriber is `State(filter)` of the discovery if and only if no id is stale |
| SliceChain.SlicePanicsIff | internal/udev/udev.go:340-360 | the slice panics on a replay if and only if the subscriber's cancel was received before it |
| SliceProgress.SliceNeverStuck | internal/udev/udev.go:294-369 | while an event is on its way to an open slice or a snapshot on its way to a subscriber, something can move, unless a replay is about to panic |
| SliceProgress.EveryScheduleRests | internal/udev/udev.go:294-369 | every schedule without new events and callers that keeps moving until source and slice are at rest brings them there |
| SliceStream.CancelBeforeReplayPanics | internal/udev/udev.go:359-360 | a run on which a subscriber cancels at once and the replay meets a closed channel |
| SliceStream.OpenBeforeInitSeesStart | internal/udev/udev.go:365-366 | without an Init first, as with a closed source, a subscriber is handed the state before it |
| Listings.ListValues | internal/udev/udev.go:371-378 | the append loop over a map yields each value exactly once |
| Udev.InitRestoresState | internal/udev/discovery.go:37-41 | a consumer starting from an Init that lists a map has that map |
| Udev.SliceFromInitIsStateIff | internal/udev/udev.go:310-338 | from its Init on a slice shows `State(filter)` after every event if and only if no re-add turns a match into a non-match |
| Udev.ViewIsSelectionIff | internal/udev/udev.go:324-334 | after a stream a filtered view is the matching part of the map if and only if every id that stopped matching on a re-add was settled by a later event |
| DiscoveryStream.FollowerIsStateIff | internal/udev/udev.go:446-457 | an idle subscriber's filtered fold is `State(filter)` if and only if nothing it was sent left an id stale |
| Udev.PublishedEventIsTheChange | internal/udev/udev.go:419-444 | for add and online the device is published and known from then on, for remove and offline the known record is published, if there is one, and forgotten, any other action does nothing; what is published is exactly the change of the map, and its ids follow the kernel's |
| Udev.OverlappingEnumerationConverges | internal/udev/udev.go:385-445 | if each id is sampled at its own instant and the log replayed from socket-open, the monitor has the kernel's ids once all instants are passed |
| Udev.ReplayBehindSampleDiffers | internal/udev/udev.go:393-412 | before that point the two may differ |
| UdevCode.Monitor.Enumerate | internal/udev/udev.go:401-412 | every listed id has the last device listed under it, nil ones skipped, every other id is as before |
| UdevCode.Monitor.HandleUevent | internal/udev/udev.go:417-445 | the same of the code, action by action; a removal carries the known device |
| UdevCode.Monitor.InitEvent | internal/udev/udev.go:458-465 | the Init handed out rebuilds the state |
| UdevCode.FilterState | internal/udev/udev.go:448-457 | the loop computes the matching part of the map |
| UdevCode.Slice.Handle | internal/udev/udev.go:314-338 | the view follows its fold, taking up the last matching device of every id an Init lists; it publishes a listing of itself for Init, a matching Added or a tracked Removed, and is otherwise unchanged |
| UdevCode.FakeDiscovery.Emit | internal/udev/fake.go:177-191 | subscribers stay in sync exactly when the delivered event describes the change made |
| UdevCode.FakeDiscovery.Subscribe | internal/udev/fake.go:193-212 | the new sink starts in sync and no other stream changes |
| UdevCode.FakeDiscovery.AddDevice | internal/udev/fake.go:168-175 | existing subscribers stay in sync only if nothing changed |
| Resources.OverriddenContents | internal/plugin/resource.go:131-143 | Submit never drops an id, overrides exactly the named entries with the given health, keeps the others |
| Resources.HealthIs | internal/plugin/resource.go:86-91 | an entry is healthy exactly if it is not forced and its instance is: a seat while the pool is not empty, a partition always, a share while its interface is up |
| Resources.RawActsHealthy | internal/plugin/resource.go:77-91 | after any Submits a map that began with raw instances and one that began with healthy overrides of them have the same ids with the same health, whatever the pool |
| Resources.Resource.Submit | internal/plugin/resource.go:131-151 | the map is the fold of the overwritten entries, overrides never nest, the snapshot lists the new map |
| Watch.NoUpdateLost | internal/plugin/resource.go:131-189 | on every interleaving a watcher's replay holds all changes made before its snapshot and every later accepted one is due to it |
| Watch.WatcherHasEverythingWhenIdle | internal/plugin/resource.go:153-189 | with the broadcast idle a watcher has received every accepted update its snapshot lacks |
| Watch.WatcherHasEverythingAtExit | internal/plugin/resource.go:191-197 | so has, when the broadcast has shut down, every watcher that was not cancelled |
| Watch.BroadcastsInOrder | internal/plugin/resource.go:140-142 | if Submits do not overlap every watcher receives broadcasts in the order of the changes |
| Watch.WatcherConverges | internal/plugin/resource.go:153-189 | then, with the broadcast idle, the last thing a watcher was sent is the current state unless its replay came behind a broadcast |
| WatchOrder.ReplayComesFirstIff | internal/plugin/resource.go:169-178 | the replay comes before any broadcast on every continuation if and only if none can reach the watcher any more: it is unregistered, or not due in the fan-out under way while that is wedged or the resource is closed with no Submit left |
| WatchOrder.ListAndWatchReturnsIff | internal/plugin/resource.go:177-178 | ListAndWatch can return if and only if fewer than two broadcasts came before its replay and its channel is open |
| WatchOrder.ReplayPanicsIff | internal/plugin/resource.go:177-178 | the replay panics if and only if the resource's shutdown has closed the watcher's channel |
| WatchSchedules.ReplayFirstWhenQuiet | internal/plugin/resource.go:169-178 | with every Submit returned and the broadcast idle when a watch begins, and none before its replay, the first thing in the channel is the state at that time on every continuation |
| WatchSchedules.ConvergesWhenReplayFirst | internal/plugin/resource.go:153-189 | a watcher whose channel begins with its replay ends with the current state, without exception |
| WatchSchedules.OverlappingSubmitsMaySwap | internal/plugin/resource.go:140-142 | any two overlapping Submits on an open resource without a clogged watcher can be broadcast in either order |
| WatchTraces.OverlappingSubmitsReorder | internal/plugin/resource.go:140-142 | a run from the start on which the older of two changes is broadcast last |
| WatchTraces.ReplayMayComeLate | internal/plugin/resource.go:169-178 | a run on which the replay arrives behind a newer state |
| WatchTraces.ReplayMayBlockForEver | internal/plugin/resource.go:177-178 | a run after which, on an open resource, no continuation lets ListAndWatch return |
| Batch.NeverHealthyWhileEmpty | internal/plugin/batch_partition.go:25-52 | at every atomic step a healthy seat means a non-empty pool; parts and labels have equal keys, overrides do not nest |
| Batch.HealthExactWhenIdle | internal/plugin/batch_partition.go:82 | between events every seat's health is exactly whether the pool is non-empty |
| Batch.StepKeepsInv | internal/plugin/batch_partition.go:163-213 | every micro-step, pool change or notification, keeps the batch invariant |
| Batch.StepsHandleEvent | internal/plugin/batch_partition.go:170-212 | the micro-steps of one event add up to handling it in one go |
| Batch.PoolIff | internal/plugin/batch_partition.go:93-116 | after any stream the pool holds block partitions whose name the matcher accepts and nothing else, labelled by group 1 or the whole match, and exactly the ids under which one was added and none removed since |
| Batch.LastAddIsPooled | internal/plugin/batch_partition.go:170-206 | such a device that was the last added under its id and has not been removed is in the pool as it came, under its label |
| Batch.PoolFollowsIff | internal/plugin/batch_partition.go:185-206 | the pool stays the matching part of the device map through an event if and only if that does not turn a match into a non-match |
| Batch.SpuriousIff | internal/plugin/batch_partition.go:172-211 | a notification without a transition comes only from an Init on a non-empty pool or a matching removal on an empty one |
| Batch.AlternatesIffNoneSpurious | internal/plugin/batch_partition.go:170-212 | notifications strictly alternate if and only if no event is spurious, one per transition |
| Batch.WellFormedStreamsAlternate | internal/plugin/batch_partition.go:170-212 | on every stream a discovery sends they alternate and the last one tells whether something matches |
| BatchCode.PartitionPool.Allocate | internal/plugin/batch_partition.go:54-71 | one device per member of one pool state; every variable of every member survives if and only if colliding labels agree on it, and always when labels stay apart |
| BatchCode.MakeSeats | internal/plugin/batch_partition.go:135-144 | count seats with pairwise distinct ids, the decimals from 0 on |
| BatchCode.SeatIdsDistinct | internal/plugin/batch_partition.go:139 | different indices give different seat ids |
| BatchCode.BatchScatter.HandleEvent | internal/plugin/batch_partition.go:170-212 | pool and seats follow the fold, the pool holds only devices the matcher accepts, each under its label, the notification is the one the edge demands, and health is exact afterwards |
| EndToEnd.EveryUeventIsAStep | internal/udev/udev.go:416-445 | whatever the kernel reports, the monitor between events can take it: no uevent is excluded |
| ChainProgress.NeverStuck | internal/plugin/batch_partition.go:157-213 | in every reachable state, while an event is on its way to the batch or the batch is not done with one, some part of the chain can move without a new uevent, caller or Close, unless the mux has exited |
| ChainProgress.EveryScheduleDrains | internal/plugin/batch_partition.go:163-213 | every schedule without new uevents and callers that keeps moving until the chain is drained does drain it, whatever the order of steps |
| EndToEnd.NeverHealthyOnNothing | internal/plugin/batch_partition.go:163-213 | in every reachable state of the whole chain, over all uevents, a healthy seat means a non-empty pool |
| EndToEnd.SeatsTellTheTruthIff | internal/plugin/batch_partition.go:163-213 | drained and without a lost Submit, the pool is the matching part of the state if and only if no id is stale, and every seat is healthy exactly when some live device matches if and only if one does or no id is stale |
| EndToEnd.SeatsFollowTheKernel | internal/udev/udev.go:385-474 | the same for the devices the kernel has, from an enumeration overlapping the event log on |
| KubeletChain.KubeletToldTheTruth | internal/plugin/plugin.go:98-117 | down to the kubelet: drained and without a lost Submit, the last list sent to a watcher names exactly the seats and, at whatever moment after its sending it is read, reports all of them healthy exactly when some live device matches or some id is stale, unless the replay came behind a broadcast |
| KubeletChain.PoolSinceSent | internal/plugin/batch_partition.go:170-212 | the pool does not turn empty or non-empty behind the last list of a settled watcher: it is what it was at any moment since that list was sent |
| KubeletChain.WatcherToldSeats | internal/plugin/resource.go:153-189 | with the broadcast at rest the last thing a watcher was sent is the current instance map, a late replay excepted |
| Scatter.LastWriterWins | internal/plugin/scatter.go:42-127 | an entry of a route exists if it did or an event named it, and is forced unhealthy exactly if the last such event was a removal |
| Scatter.IdsNeverDropped | internal/plugin/scatter.go:66-127 | no event drops a route or an id |
| Scatter.EntryOfNewRoute | internal/plugin/scatter.go:77-89 | a template without a route gets one exactly if the device has it, has instances and the registration succeeds; the route holds the device's raw instances |
| ScatterRoutes.NewTemplateIsTried | internal/plugin/scatter.go:66-89 | the registration is attempted exactly for a template without a route, and no other add registers or routes anything |
| ScatterRoutes.RoutedIff | internal/plugin/scatter.go:42-150 | for every stream and registry: a template has a route exactly if some device with it, and with instances, came when the registry would accept |
| ScatterRoutes.EntryIff | internal/plugin/scatter.go:42-150 | for every stream and registry: an entry exists exactly if some event was about it while, or by which, its template got a route |
| ScatterRoutes.OfferedIsRouted | internal/plugin/scatter.go:42-150 | with a registry that accepts, a template has a route exactly if some Init or Added device has it and instances |
| ScatterRoutes.LiveHasEntry | internal/plugin/scatter.go:42-150 | with a registry that accepts, whatever a live device provides has an entry |
| ScatterRoutes.AdvertisedIffLive | internal/plugin/scatter.go:42-150 | with a registry that accepts, for every stream a discovery sends: the un-forced entries are exactly what live devices provide, but for those whose history has left them wrong |
| Scatter.EntryRightIff | internal/plugin/scatter.go:42-127 | for every stream a discovery sends behind its Init, an entry is un-forced exactly when some live device provides it if and only if the history of its providers has not left it wrong: the only one re-added without it, or one of several removed, and no event about the entry since |
| Scatter.ChangedDeviceStaysAdvertised | internal/plugin/scatter.go:66-75 | for any device re-added with other instances and then removed, its old entry is advertised with no device live |
| Scatter.SharedEntryIsForced | internal/plugin/scatter.go:116-123 | for any two devices that provide one entry, removing one forces it though the other is live |
| Scatter.ForcedExactlyWhenGone | internal/plugin/scatter.go:42-127 | with live devices on distinct entries and re-added ones providing what they provided before, every entry is un-forced exactly when its device is live, whichever registrations failed |
| ScatterCode.Router.HandleEvent | internal/plugin/scatter.go:137-150 | the shared resource objects follow the fold event by event |
| ScatterCode.Router.Added | internal/plugin/scatter.go:42-90 | an added device changes the routes as its template and instances say, a new template is registered and routed exactly if that succeeds, nil and unmatched devices change nothing |
| ScatterCode.Router.Removed | internal/plugin/scatter.go:92-127 | a removed device only forces entries of the route its template names |
| ScatterCode.Unpack | internal/plugin/scatter.go:129-135 | the filled slice has the same instances in the same order |
| Allocation.MergeAssociates | internal/plugin/plugin.go:128-154 | merging responses is associative |
| Allocation.MergeInParts | internal/plugin/plugin.go:128-154 | merging a concatenation is merging the merges |
| Allocation.MergeResponses | internal/plugin/plugin.go:128-154 | the nested loops compute the one-shot merge |
| Allocation.MergeCombines | internal/plugin/plugin.go:128-154 | a merged response has the devices and mounts of all responses behind one another in order and, for each variable and annotation, the value of the last that has it; nil responses add nothing |
| Allocation.AllocateContainer | internal/plugin/plugin.go:163-177 | a container fails exactly if some id is unknown or its instance fails, with the error of the first such id; else its response merges what the instance of each id gave, in request order |
| Allocation.Allocate | internal/plugin/plugin.go:156-183 | success exactly if every id of every container is known and its instance allocates, with one such response per container; else NotFound or Internal of the first id of the first container that fails |
| Allocation.PartitionVariables | internal/plugin/partition.go:73-90 | a partition's response holds each variable it has under its own name and nothing else |
| Allocation.PlainContainerPath | internal/plugin/partition.go:65 | with a domain and a label of one plain part each the path is /dev/allocated/domain/part/label |
| Allocation.ContainerPathIsClean | internal/plugin/partition.go:65 | with any others it is an absolute path of plain parts, which cleaning leaves as it is |
| Allocation.NamesOverlapIff | internal/plugin/partition.go:73-75 | the variables of two partitions share a name exactly when their labels sanitise alike |
| Allocation.BatchDevices | internal/plugin/batch_partition.go:66-70 | a batch response has one device per member, in snapshot order, each handing that member's own node to its own container path |
| Allocation.BatchKeepsEveryVariable | internal/plugin/batch_partition.go:66-70 | with pairwise distinct sanitised labels every variable of every member is in the response |
| Allocation.VariablesSurviveIff | internal/plugin/batch_partition.go:66-70 | every variable of every member is in the response with its value if and only if members whose labels sanitise alike agree on each variable both have |
| Allocation.PathsSurviveIff | internal/plugin/batch_partition.go:66-70 | every member's path variable survives if and only if labels with different cleaned container paths never sanitise alike |
| Allocation.AllocatePartitionDevice | internal/plugin/partition.go:62-93 | one device, the partition's own node at the path its variable names, read-write; the variables of path, disk id, model and serial number by name, with their sources and fallbacks, and nothing else |
| Naming.EnvNamesEqualIff | internal/plugin/partition.go:50-75 | two variable names are equal exactly for the same variable of labels that sanitise alike, because no suffix ends another |
| Naming.SanitizedAt | internal/plugin/partition.go:50-53 | character by character, dots and dashes become underscores, a letter its capital, all else stays |
| Naming.VariableNamed | internal/plugin/partition.go:73-75 | a variable is called by sanitised domain, PART, sanitised label and its own name |
| Naming.BandwidthIdRoundTrip | internal/plugin/net_bw.go:21-23 | interface and index can be read back from an id |
| Naming.DecimalRoundTrip | internal/plugin/batch_partition.go:139 | a decimal reads back as its number |
| NetBandwidth.BandwidthInstances | internal/plugin/net_bw.go:72-113 | only net devices with a name the matcher accepts and a numeric speed have instances: exactly the whole shares of the speed, in order; a panic exactly for a zero share size and for a wrapped 64-bit quotient that is negative or above the runtime's capacity limit |
| NetBandwidth.SharesFill | internal/plugin/net_bw.go:97 | shares never oversubscribe the speed and leave less than one share over |
| NetBandwidth.PanicsIff | internal/plugin/net_bw.go:97-102 | the panicking inputs in terms of speed and share size, for all 64-bit values and any capacity limit |
| NetBandwidth.ShareIdsDistinct | internal/plugin/net_bw.go:102-109 | ids of all shares of all interfaces are pairwise distinct |

## Left out

- The early return of ListAndWatch on a closed resource (internal/plugin/resource.go:160-165): it hands out a closed channel and touches nothing else. A watch that passed this check before the close is part of the model.
- gRPC servers, sockets, kubelet registration, fsnotify and probing: foreign input and output; `registry.Add` is an oracle that may fail.
- libudev and live sysfs reads: a device is an immutable value; lookups along the parent chain are part of it.
- Reconnecting to udev, which does not enumerate again (internal/udev/udev.go:475-485).
- Regular expressions: a matcher is an uninterpreted function from a name to its groups.
- Wall-clock time: the submit timer may fire at any moment while a Submit waits.
- Templaters and mappers of a scatter: a plan is a pair of arbitrary functions, so that the theorems hold for partitions and interfaces alike; NetBandwidth models the mapper of bandwidth shares.
- Filter combinators, ThenSink, FilterSink, IsNil: single-expression laws.
- RDMA instances: the same shape as bandwidth without the arithmetic.
- NUMA hints, logging texts, YAML configuration.
- MuxLiveness.ShutdownTerminates: assumes sinks whose Submit returns and no new callers after Close, because a full channel nobody reads blocks `run` for good.
- MuxLoop.Mux.Shutdown: is the code of one goroutine run without interference; interleavings with the others are the subject of MuxProtocol.
- The unbounded `for { select }` around the turns of `run`: each turn is a method of MuxLoop.Mux, and which turn comes next, with what the other goroutines do in between, is the choice of labels in MuxProtocol.
- UdevCode.FakeDiscovery.Emit: each method is one step because the write lock is held throughout; the mux below it is the subject of Snapshots.
- Naming.EnvNamesEqualIff: upper-casing is that of ASCII letters.
- Lost Submits of a slice: SliceChain assumes that none of the slice's own Submits is lost where it compares with the discovery.
- SliceChain.SubscriberHasStateIff: compares maps; the slice handed to a subscriber lists the map in any order (UdevCode.Slice.Handle).
