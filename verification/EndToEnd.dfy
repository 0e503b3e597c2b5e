// The whole chain for a batch resource: kernel, monitor, mux, event channel, batch
// goroutine, seats. One state machine, in which every part moves on its own.
module EndToEnd {
  import opened Batch
  import opened DiscoveryStream
  import opened Listings
  import opened MuxProtocol
  import opened Replication
  import opened Resources
  import opened Snapshots
  import opened Udev

  // Capacity of the channel behind the subscription of a batch.
  const CHANNEL_CAPACITY := 1

  // `log` is what the monitor has read from its socket, `taken` counts the events the batch
  // goroutine has received on the channel behind `sink`.
  datatype Chain = Chain(
    repl: Repl<DeviceMap, Event>,
    log: seq<Uevent>,
    taken: nat,
    batch: BatchState)

  datatype Act =
    | Kernel(call: nat, u: Uevent)
    | Inside(v: Move<Event>)
    | Hear(devs: seq<Device>)
    | Work

  // The enumeration is done; the batch has not subscribed yet.
  function Boot(enumerated: DeviceMap, ids: seq<string>): Chain {
    Chain(Start(SnapshotFirst, 0, enumerated), [], 0, Fresh(ids))
  }

  ghost predicate CanAct(mt: Matcher, sink: nat, c: Chain, a: Act) {
    match a
    case Kernel(call, u) =>
      && c.repl.owner.Free?
      && (Publishes(c.repl.state, u).Some? ==>
            CanMove(DiscoveryRules(), c.repl, Publish(call, Publishes(c.repl.state, u).value)))
    case Inside(v) =>
      && !v.Publish?
      && CanMove(DiscoveryRules(), c.repl, v)
      // The sink's Submit blocks while the channel is full.
      && (v.Inner? && v.l.Deliver? && v.l.sink == sink && sink in c.repl.logs ==>
            |c.repl.logs[sink]| - c.taken < CHANNEL_CAPACITY)
    case Hear(devs) =>
      && c.batch.pc.Idle?
      && sink in c.repl.logs && c.taken < |c.repl.logs[sink]|
      && (c.repl.logs[sink][c.taken].Snap? ==> Lists(devs, c.repl.logs[sink][c.taken].x))
    case Work => !c.batch.pc.Idle?
  }

  ghost function Act1(mt: Matcher, ids: seq<string>, sink: nat, c: Chain, a: Act): Chain
    requires CanAct(mt, sink, c, a)
  {
    match a
    case Kernel(call, u) =>
      var c' := c.(log := c.log + [u]);
      if Publishes(c.repl.state, u).Some?
      then c'.(repl := Move1(DiscoveryRules(), c.repl, Publish(call, Publishes(c.repl.state, u).value)))
      else c'
    case Inside(v) => c.(repl := Move1(DiscoveryRules(), c.repl, v))
    case Hear(devs) =>
      var e := match c.repl.logs[sink][c.taken] case Snap(_) => Init(devs) case Ev(e) => e;
      c.(taken := c.taken + 1, batch := Receive(c.batch, e))
    case Work => c.(batch := Step(mt, ids, c.batch))
  }

  ghost predicate Acts(mt: Matcher, ids: seq<string>, sink: nat, c: Chain, acts: seq<Act>)
    decreases |acts|
  {
    acts == [] || (CanAct(mt, sink, c, acts[0]) && Acts(mt, ids, sink, Act1(mt, ids, sink, c, acts[0]), acts[1..]))
  }

  ghost function Outcome(mt: Matcher, ids: seq<string>, sink: nat, c: Chain, acts: seq<Act>): Chain
    requires Acts(mt, ids, sink, c, acts)
    decreases |acts|
  {
    if acts == [] then c else Outcome(mt, ids, sink, Act1(mt, ids, sink, c, acts[0]), acts[1..])
  }

  // ---- the invariant ----

  ghost predicate FeedInv(sink: nat, c: Chain) {
    if sink in c.repl.logs then c.taken <= |c.repl.logs[sink]| else c.taken == 0
  }

  // What the batch has been told so far.
  ghost function Told(sink: nat, c: Chain): seq<Item<DeviceMap, Event>>
    requires FeedInv(sink, c)
  {
    if sink in c.repl.logs then c.repl.logs[sink][..c.taken] else []
  }

  // Once its pending steps are done, the pool has followed what the batch was told.
  ghost predicate PoolInv(mt: Matcher, ids: seq<string>, sink: nat, c: Chain)
    requires FeedInv(sink, c)
  {
    Finish(mt, ids, c.batch).pool.parts == FollowLog(Matches(mt), Matches(mt), Told(sink, c))
  }

  ghost predicate KernelInv(c: Chain) {
    && Keyed(c.repl.base) && Keyed(c.repl.state)
    && c.repl.state == MonitorAt(c.repl.base, c.log)
    && forall s | s in c.repl.snaps :: Keyed(c.repl.snaps[s])
  }

  ghost predicate ChainInv(mt: Matcher, ids: seq<string>, sink: nat, c: Chain) {
    && c.repl.order.SnapshotFirst?
    && RInv(DiscoveryRules(), c.repl)
    && BatchInv(mt, ids, c.batch)
    && FeedInv(sink, c)
    && KernelInv(c)
    && PoolInv(mt, ids, sink, c)
  }

  lemma BootInv(mt: Matcher, ids: seq<string>, sink: nat, enumerated: DeviceMap)
    requires Keyed(enumerated)
    ensures ChainInv(mt, ids, sink, Boot(enumerated, ids))
  {
    StartEstablishesRInv(DiscoveryRules(), SnapshotFirst, enumerated);
    FreshInv(mt, ids);
  }

  // The move of the replication protocol an act amounts to, if any.
  function MoveOf(c: Chain, a: Act): Option<Move<Event>> {
    match a
    case Kernel(call, u) =>
      (match Publishes(c.repl.state, u) case None => None case Some(e) => Some(Publish(call, e)))
    case Inside(v) => Some(v)
    case _ => None
  }

  lemma ReplKept(mt: Matcher, ids: seq<string>, sink: nat, c: Chain, a: Act)
    requires RInv(DiscoveryRules(), c.repl) && CanAct(mt, sink, c, a)
    ensures RInv(DiscoveryRules(), Act1(mt, ids, sink, c, a).repl)
  {
    if MoveOf(c, a).Some? {
      MoveKeepsRInv(DiscoveryRules(), c.repl, MoveOf(c, a).value);
    }
  }

  lemma KernelKept(mt: Matcher, ids: seq<string>, sink: nat, c: Chain, a: Act)
    requires KernelInv(c) && CanAct(mt, sink, c, a)
    ensures KernelInv(Act1(mt, ids, sink, c, a))
  {
    match a
    case Kernel(call, u) =>
      UeventRead(mt, ids, sink, c, call, u);
      KernelKeptByUevent(c, u, Act1(mt, ids, sink, c, Kernel(call, u)));
    case Inside(v) => KernelKeptInside(mt, c.repl, v);
    case Hear(_) =>
    case Work =>
  }

  lemma UeventRead(mt: Matcher, ids: seq<string>, sink: nat, c: Chain, call: nat, u: Uevent)
    requires CanAct(mt, sink, c, Kernel(call, u))
    ensures var c' := Act1(mt, ids, sink, c, Kernel(call, u));
            && c'.log == c.log + [u] && c'.repl.base == c.repl.base && c'.repl.snaps == c.repl.snaps
            && c'.repl.state == match Publishes(c.repl.state, u) case None => c.repl.state
                                                                 case Some(e) => ApplyEvent(c.repl.state, e)
  {
  }

  lemma KernelKeptByUevent(c: Chain, u: Uevent, c': Chain)
    requires KernelInv(c) && c'.log == c.log + [u] && c'.repl.base == c.repl.base && c'.repl.snaps == c.repl.snaps
    requires c'.repl.state == match Publishes(c.repl.state, u) case None => c.repl.state
                                                               case Some(e) => ApplyEvent(c.repl.state, e)
    ensures KernelInv(c')
  {
    PublishedEventIsTheChange(c.repl.state, u);
    assert c'.log[..|c.log|] == c.log;
  }

  lemma KernelKeptInside(mt: Matcher, p: Repl<DeviceMap, Event>, v: Move<Event>)
    requires CanMove(DiscoveryRules(), p, v) && !v.Publish?
    requires Keyed(p.state) && forall s | s in p.snaps :: Keyed(p.snaps[s])
    ensures var p' := Move1(DiscoveryRules(), p, v);
            && p'.base == p.base && p'.state == p.state && forall s | s in p'.snaps :: Keyed(p'.snaps[s])
  {
  }

  lemma BatchKept(mt: Matcher, ids: seq<string>, sink: nat, c: Chain, a: Act)
    requires BatchInv(mt, ids, c.batch) && CanAct(mt, sink, c, a)
    ensures BatchInv(mt, ids, Act1(mt, ids, sink, c, a).batch)
  {
    match a
    case Hear(devs) =>
      var item := c.repl.logs[sink][c.taken];
      ReceiveKeepsInv(mt, ids, c.batch, if item.Snap? then Init(devs) else item.e);
    case Work => Batch.StepKeepsInv(mt, ids, c.batch);
    case _ =>
  }

  // A sink's log only grows.
  lemma LogGrowsAt(mt: Matcher, sink: nat, p: Repl<DeviceMap, Event>, v: Move<Event>)
    requires p.order.SnapshotFirst? && OwnerInv(p) && CanMove(DiscoveryRules(), p, v) && sink in p.logs
    ensures sink in Move1(DiscoveryRules(), p, v).logs
    ensures p.logs[sink] <= Move1(DiscoveryRules(), p, v).logs[sink]
    ensures Move1(DiscoveryRules(), p, v).order == p.order
  {
  }

  // The pool takes up matching devices and lets go of removed ones that match.
  lemma PoolFollowsEvent(mt: Matcher, p: Pool, e: Event)
    requires PoolOk(mt, p)
    ensures PoolStep(mt, p, e).parts == ViewStep(Matches(mt), Matches(mt), p.parts, e)
  {
    if e.Init? {
      AddEachOk(mt, p, e.devices);
    }
  }

  lemma SnapshotTold(mt: Matcher, ids: seq<string>, b: BatchState, x: DeviceMap, devs: seq<Device>)
    requires BatchInv(mt, ids, b) && b.pc.Idle? && b.pool.parts == map[] && Keyed(x) && Lists(devs, x)
    ensures Finish(mt, ids, Receive(b, Init(devs))).pool.parts == Matching(Matches(mt), x)
  {
    StepsHandleEvent(mt, ids, b, Init(devs));
    PoolFromInit(mt, x, devs);
    EmptyPool(mt, b.pool);
  }

  lemma EventTold(mt: Matcher, ids: seq<string>, b: BatchState, e: Event)
    requires BatchInv(mt, ids, b) && b.pc.Idle?
    ensures Finish(mt, ids, Receive(b, e)).pool.parts == ViewStep(Matches(mt), Matches(mt), b.pool.parts, e)
  {
    StepsHandleEvent(mt, ids, b, e);
    PoolFollowsEvent(mt, b.pool, e);
  }

  lemma OneMoreItem(f: Device -> bool, g: Device -> bool, log: seq<Item<DeviceMap, Event>>, k: nat)
    requires k < |log|
    ensures FollowLog(f, g, log[..k + 1]) ==
            match log[k] case Snap(x) => Matching(f, x) case Ev(e) => ViewStep(f, g, FollowLog(f, g, log[..k]), e)
  {
    assert log[..k + 1][..k] == log[..k];
  }

  // The events received so far determine the pool, whatever is still pending.
  lemma HearKeepsPool(mt: Matcher, ids: seq<string>, sink: nat, c: Chain, devs: seq<Device>)
    requires c.repl.order.SnapshotFirst? && (sink in c.repl.mux.subs ==> LogInv1(c.repl, sink)) && OwnerInv(c.repl)
    requires BatchInv(mt, ids, c.batch) && FeedInv(sink, c) && KernelInv(c) && PoolInv(mt, ids, sink, c)
    requires CanAct(mt, sink, c, Hear(devs))
    ensures FeedInv(sink, Act1(mt, ids, sink, c, Hear(devs)))
    ensures PoolInv(mt, ids, sink, Act1(mt, ids, sink, c, Hear(devs)))
  {
    SnapshotIsFirst(sink, c);
    OneMoreItem(Matches(mt), Matches(mt), c.repl.logs[sink], c.taken);
    assert Finish(mt, ids, c.batch) == c.batch;
    if c.taken == 0 {
      SnapshotTold(mt, ids, c.batch, c.repl.logs[sink][0].x, devs);
    } else {
      EventTold(mt, ids, c.batch, c.repl.logs[sink][c.taken].e);
    }
  }

  // The stream of the batch is a snapshot and then events.
  lemma SnapshotIsFirst(sink: nat, c: Chain)
    requires KernelInv(c) && OwnerInv(c.repl) && c.repl.order.SnapshotFirst? && sink in c.repl.logs
    requires sink in c.repl.mux.subs ==> LogInv1(c.repl, sink)
    ensures c.repl.logs[sink] != [] && c.repl.logs[sink][0].Snap? && Keyed(c.repl.logs[sink][0].x)
    ensures forall i | 1 <= i < |c.repl.logs[sink]| :: c.repl.logs[sink][i].Ev?
  {
    assert sink in c.repl.mux.subs;
  }

  lemma EmptyPool(mt: Matcher, p: Pool)
    requires PoolOk(mt, p) && p.parts == map[]
    ensures p == Pool(map[], map[])
  {
    assert p.labels.Keys == {};
  }

  lemma PoolKept(mt: Matcher, ids: seq<string>, sink: nat, c: Chain, a: Act)
    requires ChainInv(mt, ids, sink, c) && CanAct(mt, sink, c, a)
    ensures FeedInv(sink, Act1(mt, ids, sink, c, a)) && PoolInv(mt, ids, sink, Act1(mt, ids, sink, c, a))
  {
    if a.Hear? {
      HearKeepsPool(mt, ids, sink, c, a.devs);
    } else if MoveOf(c, a).Some? {
      MoveKeepsPool(mt, ids, sink, c, MoveOf(c, a).value, Act1(mt, ids, sink, c, a));
    }
  }

  // Whatever the rest of the system does, what was told stays told.
  lemma MoveKeepsPool(mt: Matcher, ids: seq<string>, sink: nat, c: Chain, v: Move<Event>, c': Chain)
    requires c.repl.order.SnapshotFirst? && OwnerInv(c.repl) && CanMove(DiscoveryRules(), c.repl, v)
    requires FeedInv(sink, c) && PoolInv(mt, ids, sink, c)
    requires c'.repl == Move1(DiscoveryRules(), c.repl, v) && c'.taken == c.taken && c'.batch == c.batch
    ensures FeedInv(sink, c') && PoolInv(mt, ids, sink, c')
  {
    if sink in c.repl.logs {
      LogGrowsAt(mt, sink, c.repl, v);
      assert c'.repl.logs[sink][..c.taken] == c.repl.logs[sink][..c.taken];
    }
  }

  lemma FeedKept(mt: Matcher, ids: seq<string>, sink: nat, c: Chain, a: Act)
    requires FeedInv(sink, c) && c.repl.order.SnapshotFirst? && OwnerInv(c.repl) && CanAct(mt, sink, c, a)
    ensures FeedInv(sink, Act1(mt, ids, sink, c, a)) && Act1(mt, ids, sink, c, a).repl.order.SnapshotFirst?
  {
    if MoveOf(c, a).Some? && sink in c.repl.logs {
      LogGrowsAt(mt, sink, c.repl, MoveOf(c, a).value);
    }
  }

  lemma ActKeepsInv(mt: Matcher, ids: seq<string>, sink: nat, c: Chain, a: Act)
    requires ChainInv(mt, ids, sink, c) && CanAct(mt, sink, c, a)
    ensures ChainInv(mt, ids, sink, Act1(mt, ids, sink, c, a))
  {
    ReplKept(mt, ids, sink, c, a);
    KernelKept(mt, ids, sink, c, a);
    BatchKept(mt, ids, sink, c, a);
    FeedKept(mt, ids, sink, c, a);
    PoolKept(mt, ids, sink, c, a);
  }

  lemma {:induction false} ActsKeepInv(mt: Matcher, ids: seq<string>, sink: nat, c: Chain, acts: seq<Act>)
    requires ChainInv(mt, ids, sink, c) && Acts(mt, ids, sink, c, acts)
    ensures ChainInv(mt, ids, sink, Outcome(mt, ids, sink, c, acts))
    decreases |acts|
  {
    if acts != [] {
      ActKeepsInv(mt, ids, sink, c, acts[0]);
      ActsKeepInv(mt, ids, sink, Act1(mt, ids, sink, c, acts[0]), acts[1..]);
    }
  }

  // ---- the results ----

  ghost predicate ChainReached(
      mt: Matcher, ids: seq<string>, sink: nat, enumerated: DeviceMap, acts: seq<Act>, c: Chain)
  {
    Keyed(enumerated) &&
    Acts(mt, ids, sink, Boot(enumerated, ids), acts) && c == Outcome(mt, ids, sink, Boot(enumerated, ids), acts)
  }

  // Nothing is on its way: the monitor waits, the mux is at its select, the channel is
  // empty and the batch goroutine waits.
  ghost predicate Drained(sink: nat, c: Chain) {
    && c.repl.owner.Free? && c.repl.mux.phase.Select?
    && sink in c.repl.logs && c.taken == |c.repl.logs[sink]|
    && c.batch.pc.Idle?
  }

  // Whatever is in flight, a healthy seat means the pool holds a partition; the seats are
  // always the same.
  lemma NeverHealthyOnNothing(
      mt: Matcher, ids: seq<string>, sink: nat, enumerated: DeviceMap, acts: seq<Act>, c: Chain, id: string)
    requires ChainReached(mt, ids, sink, enumerated, acts, c) && id in ids
    ensures id in c.batch.seats
    ensures SeatHealth(c.batch, id).Healthy? ==> c.batch.pool.parts != map[]
  {
    ReachedChain(mt, ids, sink, enumerated, acts, c);
    NeverHealthyWhileEmpty(mt, ids, c.batch, id);
  }

  // Every uevent is a step of the chain: the monitor may publish whatever it makes of it.
  lemma EveryUeventIsAStep(
      mt: Matcher, ids: seq<string>, sink: nat, enumerated: DeviceMap, acts: seq<Act>, c: Chain, call: nat, u: Uevent)
    requires ChainReached(mt, ids, sink, enumerated, acts, c)
    requires c.repl.owner.Free? && call !in c.repl.mux.calls
    ensures CanAct(mt, sink, c, Kernel(call, u))
  {
    ReachedChain(mt, ids, sink, enumerated, acts, c);
    EveryUeventAllowed(c.repl.state, u);
  }

  lemma ReachedChain(
      mt: Matcher, ids: seq<string>, sink: nat, enumerated: DeviceMap, acts: seq<Act>, c: Chain)
    requires ChainReached(mt, ids, sink, enumerated, acts, c)
    ensures ChainInv(mt, ids, sink, c) && c.repl.base == enumerated
  {
    BootInv(mt, ids, sink, enumerated);
    ActsKeepInv(mt, ids, sink, Boot(enumerated, ids), acts);
    BaseKept(mt, ids, sink, Boot(enumerated, ids), acts);
  }

  lemma PoolWhenDrained(mt: Matcher, ids: seq<string>, sink: nat, c: Chain)
    requires FeedInv(sink, c) && PoolInv(mt, ids, sink, c) && Drained(sink, c)
    ensures c.batch.pool.parts == FollowLog(Matches(mt), Matches(mt), c.repl.logs[sink])
  {
    assert c.repl.logs[sink][..c.taken] == c.repl.logs[sink];
    assert Finish(mt, ids, c.batch) == c.batch;
  }

  // No re-add the batch was told of has turned a match into a non-match for good.
  ghost predicate NothingStale(mt: Matcher, sink: nat, c: Chain)
    requires sink in c.repl.snaps && sink in c.repl.mux.subs
  {
    SentNothingStale(Matches(mt), Matches(mt), c.repl, sink)
  }

  // Some device the monitor has matches.
  ghost predicate SomeMatch(mt: Matcher, m: DeviceMap) {
    exists dev :: dev in m && Selected(mt, m[dev])
  }

  lemma SomeMatchIs(mt: Matcher, m: DeviceMap)
    ensures SomeMatch(mt, m) <==> Matching(Matches(mt), m) != map[]
  {
    forall dev | dev in m
      ensures dev in Matching(Matches(mt), m) <==> Selected(mt, m[dev])
    {
      LabelledIffSelected(mt, m[dev]);
    }
    if Matching(Matches(mt), m) != map[] {
      var dev :| dev in Matching(Matches(mt), m);
    }
  }

  lemma PoolDrained(mt: Matcher, ids: seq<string>, sink: nat, c: Chain)
    requires ChainInv(mt, ids, sink, c) && NoLoss(c.repl.mux) && sink in c.repl.mux.outputs && Drained(sink, c)
    ensures sink in c.repl.snaps && sink in c.repl.mux.subs
    ensures c.batch.pool.parts == Matching(Matches(mt), c.repl.state) <==> NothingStale(mt, sink, c)
    ensures c.batch.pool.parts != map[] <==> SomeMatch(mt, c.repl.state) || !NothingStale(mt, sink, c)
  {
    var f := Matches(mt);
    assert StreamInv(c.repl.mux, sink) && LogInv1(c.repl, sink);
    PoolWhenDrained(mt, ids, sink, c);
    FollowerIsStateIff(f, f, c.repl, sink);
    SomeMatchIs(mt, c.repl.state);
    if id :| id in Matching(f, c.repl.state) {
      MatchingIsFollowed(f, f, c.repl, sink, id);
    }
    if !NothingStale(mt, sink, c) {
      var id := StaleIsFollowed(f, f, c.repl, sink);
    }
  }

  // When everything is drained and no Submit was lost, the pool is the matching part of the
  // monitor's map if and only if nothing is stale, and every seat is healthy exactly when
  // some device the monitor has matches if and only if one does or nothing is stale.
  lemma SeatsTellTheTruthIff(
      mt: Matcher, ids: seq<string>, sink: nat, enumerated: DeviceMap, acts: seq<Act>, c: Chain, id: string)
    requires ChainReached(mt, ids, sink, enumerated, acts, c)
    requires NoLoss(c.repl.mux) && sink in c.repl.mux.outputs && Drained(sink, c) && id in ids
    ensures sink in c.repl.snaps && sink in c.repl.mux.subs && id in c.batch.seats
    ensures c.batch.pool.parts == Matching(Matches(mt), c.repl.state) <==> NothingStale(mt, sink, c)
    ensures (SeatHealth(c.batch, id).Healthy? <==> SomeMatch(mt, c.repl.state))
       <==> SomeMatch(mt, c.repl.state) || NothingStale(mt, sink, c)
  {
    ReachedChain(mt, ids, sink, enumerated, acts, c);
    HealthExactWhenIdle(mt, ids, c.batch, id);
    PoolDrained(mt, ids, sink, c);
  }

  // The kernel has a device that matches, as the monitor knows it.
  ghost predicate KernelHasMatch(mt: Matcher, kernel: set<string>, m: DeviceMap) {
    exists dev :: dev in kernel && dev in m && Selected(mt, m[dev])
  }

  lemma SameMatches(mt: Matcher, kernel: set<string>, m: DeviceMap)
    requires m.Keys == kernel
    ensures KernelHasMatch(mt, kernel, m) <==> SomeMatch(mt, m)
  {
    if dev :| dev in m && Selected(mt, m[dev]) {
      assert dev in kernel;
    }
  }

  lemma StateIsTheKernels(c: Chain, present: set<string>, at: string -> nat)
    requires KernelInv(c) && SampledAt(present, c.log, at, c.repl.base)
    ensures c.repl.state.Keys == KernelAt(present, c.log)
  {
    OverlappingEnumerationConverges(present, c.log, at, c.repl.base, |c.log|);
    assert c.log[..|c.log|] == c.log;
  }

  // From the kernel to the seats: with every sampling instant of the enumeration passed,
  // the devices the seats vouch for are the kernel's.
  lemma SeatsFollowTheKernel(
      mt: Matcher, ids: seq<string>, sink: nat, enumerated: DeviceMap, acts: seq<Act>, c: Chain, id: string,
      present: set<string>, at: string -> nat)
    requires ChainReached(mt, ids, sink, enumerated, acts, c)
    requires NoLoss(c.repl.mux) && sink in c.repl.mux.outputs && Drained(sink, c) && id in ids
    requires SampledAt(present, c.log, at, enumerated)
    ensures sink in c.repl.snaps && sink in c.repl.mux.subs && id in c.batch.seats
    ensures c.repl.state.Keys == KernelAt(present, c.log)
    ensures var there := KernelHasMatch(mt, KernelAt(present, c.log), c.repl.state);
            (SeatHealth(c.batch, id).Healthy? <==> there) <==> there || NothingStale(mt, sink, c)
  {
    SeatsTellTheTruthIff(mt, ids, sink, enumerated, acts, c, id);
    ReachedChain(mt, ids, sink, enumerated, acts, c);
    StateIsTheKernels(c, present, at);
    SameMatches(mt, KernelAt(present, c.log), c.repl.state);
  }

  lemma {:induction false} BaseKept(mt: Matcher, ids: seq<string>, sink: nat, c: Chain, acts: seq<Act>)
    requires Acts(mt, ids, sink, c, acts)
    ensures Outcome(mt, ids, sink, c, acts).repl.base == c.repl.base
    decreases |acts|
  {
    if acts != [] {
      BaseKept(mt, ids, sink, Act1(mt, ids, sink, c, acts[0]), acts[1..]);
    }
  }
}
