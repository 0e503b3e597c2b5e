// A slice on top of a discovery (makeSlice in internal/udev/udev.go): source, event channel,
// slice goroutine and its subscribers as one state machine. The event channel is unbuffered,
// so the source hands over an event exactly when the slice goroutine takes it.
module SliceChain {
  import opened DiscoveryStream
  import opened Listings
  import opened MuxProtocol
  import opened Replication
  import opened SliceStream
  import opened Snapshots
  import opened Udev

  // `gone`: the source was closed before makeSlice subscribed, and handed over nothing.
  datatype Chain = Chain(src: Repl<DeviceMap, Event>, slice: Repl<DeviceMap, DeviceMap>, gone: bool)

  datatype Act =
    | Source(v: Move<Event>)
    | Begin(devs: seq<Device>, call: nat)
    | Feed(call: nat)
    | SourceGone
    | Slice(w: Move<DeviceMap>)

  function Boot(base: DeviceMap): Chain {
    Chain(Start(SnapshotFirst, 0, base), Start(RegisterFirst, 0, map[]), false)
  }

  // What the slice goroutine publishes for an event: Init, a matching Added, a tracked Removed.
  predicate PublishesFor(f: Device -> bool, m: DeviceMap, e: Event) {
    match e
    case Init(_) => true
    case Added(d) => f(d)
    case Removed(d) => d.id in m
  }

  // makeSlice has returned: its subscription was answered, or the source was closed.
  predicate Usable(feed: nat, c: Chain) {
    c.gone || (feed in c.src.mux.subs && c.src.owner != Opening(feed))
  }

  // The slice goroutine is at its select.
  predicate AtSelect(c: Chain) {
    c.slice.owner.Free? && !c.slice.mux.done
  }

  // The goroutine takes an event and, if it publishes, is on its way into Submit.
  predicate CanTake(f: Device -> bool, c: Chain, e: Event, call: nat) {
    AtSelect(c) &&
    (PublishesFor(f, c.slice.state, e) ==>
       CanMove(SliceRules(), c.slice, Publish(call, SliceStep(f, c.slice.state, e))))
  }

  function Take(f: Device -> bool, c: Chain, e: Event, call: nat): Repl<DeviceMap, DeviceMap>
    requires CanTake(f, c, e, call)
  {
    if PublishesFor(f, c.slice.state, e)
    then Move1(SliceRules(), c.slice, Publish(call, SliceStep(f, c.slice.state, e)))
    else c.slice
  }

  ghost predicate CanAct(f: Device -> bool, feed: nat, c: Chain, a: Act) {
    match a
    case Source(v) =>
      && CanMove(DiscoveryRules(), c.src, v) && v != Open(feed)
      && (v.Inner? ==> v.l != Deliver(feed, false) && v.l != Deliver(feed, true))
    case Begin(devs, call) =>
      && CanMove(DiscoveryRules(), c.src, Open(feed)) && Lists(devs, c.src.state) && !c.gone
      && CanTake(f, c, Init(devs), call)
    case Feed(call) =>
      && CanMove(DiscoveryRules(), c.src, Inner(Deliver(feed, false)))
      && CanTake(f, c, c.src.mux.phase.msg.value, call)
    case SourceGone => c.src.mux.done && feed !in c.src.mux.subs
    // The goroutine serves subscribers at its select, once makeSlice has returned the slice,
    // and closes its mux when the event channel is closed.
    case Slice(v) =>
      && !v.Publish? && CanMove(SliceRules(), c.slice, v)
      && (v.Open? ==> Usable(feed, c) && AtSelect(c))
      && (v == Inner(Close) ==>
            AtSelect(c) && feed in c.src.mux.subs && c.src.mux.subs[feed].closes > 0)
  }

  ghost function Act1(f: Device -> bool, feed: nat, c: Chain, a: Act): Chain
    requires CanAct(f, feed, c, a)
  {
    match a
    case Source(v) => c.(src := Move1(DiscoveryRules(), c.src, v))
    case Begin(devs, call) =>
      c.(src := Move1(DiscoveryRules(), c.src, Open(feed)), slice := Take(f, c, Init(devs), call))
    case Feed(call) =>
      c.(src := Move1(DiscoveryRules(), c.src, Inner(Deliver(feed, false))),
      slice := Take(f, c, c.src.mux.phase.msg.value, call))
    case SourceGone => c.(gone := true)
    case Slice(v) => c.(slice := Move1(SliceRules(), c.slice, v))
  }

  ghost predicate Acts(f: Device -> bool, feed: nat, c: Chain, acts: seq<Act>)
    decreases |acts|
  {
    acts == [] || (CanAct(f, feed, c, acts[0]) && Acts(f, feed, Act1(f, feed, c, acts[0]), acts[1..]))
  }

  ghost function Outcome(f: Device -> bool, feed: nat, c: Chain, acts: seq<Act>): Chain
    requires Acts(f, feed, c, acts)
    decreases |acts|
  {
    if acts == [] then c else Outcome(f, feed, Act1(f, feed, c, acts[0]), acts[1..])
  }

  // ---- the invariant ----

  // What the slice goroutine has been told.
  function Told(feed: nat, p: Repl<DeviceMap, Event>): seq<Item<DeviceMap, Event>> {
    if feed in p.logs then p.logs[feed] else []
  }

  // The slice's map has followed what it was told.
  ghost predicate ViewInv(f: Device -> bool, feed: nat, c: Chain) {
    c.slice.state == FollowLog(f, Any(), Told(feed, c.src))
  }

  // Every published snapshot is the view after part of what the slice was told, the Init
  // included.
  ghost predicate IsView(f: Device -> bool, log: seq<Item<DeviceMap, Event>>, m: DeviceMap) {
    exists k :: 1 <= k <= |log| && m == FollowLog(f, Any(), log[..k])
  }

  ghost predicate PublishedInv(f: Device -> bool, feed: nat, c: Chain) {
    forall i | i in c.slice.mux.calls :: IsView(f, Told(feed, c.src), c.slice.mux.calls[i].value)
  }

  // No subscriber before the Init, and nothing published before it either.
  ghost predicate InitInv(feed: nat, c: Chain) {
    && (feed !in c.src.mux.subs ==> c.slice.mux.calls == map[] && (!c.gone ==> c.slice.mux.subs == map[]))
    && (feed in c.src.mux.subs && !c.gone ==> c.slice.mux.calls != map[])
    && (feed in c.src.mux.subs && !c.gone && NoLoss(c.slice.mux) ==> PastInit(c.slice))
  }

  ghost predicate SourceInv(feed: nat, p: Repl<DeviceMap, Event>) {
    p.order.SnapshotFirst? && RInv(DiscoveryRules(), p) && Keyed(p.state)
  }

  ghost predicate ChainInv(f: Device -> bool, feed: nat, c: Chain) {
    && SourceInv(feed, c.src)
    && c.slice.order.RegisterFirst? && RInv(SliceRules(), c.slice)
    && ViewInv(f, feed, c)
    && PublishedInv(f, feed, c)
    && InitInv(feed, c)
    && (c.slice.owner.Opening? ==> !c.slice.mux.done)
  }

  lemma BootInv(f: Device -> bool, feed: nat, base: DeviceMap)
    requires Keyed(base)
    ensures ChainInv(f, feed, Boot(base))
  {
    StartEstablishesRInv(DiscoveryRules(), SnapshotFirst, base);
    StartEstablishesRInv(SliceRules(), RegisterFirst, map[]);
  }

  lemma SourceKept(feed: nat, p: Repl<DeviceMap, Event>, v: Move<Event>)
    requires SourceInv(feed, p) && CanMove(DiscoveryRules(), p, v)
    ensures SourceInv(feed, Move1(DiscoveryRules(), p, v))
  {
    MoveKeepsRInv(DiscoveryRules(), p, v);
    OwnerStateKeyed(p, v);
  }

  lemma OwnerStateKeyed(p: Repl<DeviceMap, Event>, v: Move<Event>)
    requires Keyed(p.state) && CanMove(DiscoveryRules(), p, v)
    ensures Keyed(Move1(DiscoveryRules(), p, v).state) && Move1(DiscoveryRules(), p, v).order == p.order
  {
  }

  // What the slice is told changes by the moves it takes part in only.
  lemma ToldByOthers(feed: nat, p: Repl<DeviceMap, Event>, v: Move<Event>)
    requires p.order.SnapshotFirst? && CanMove(DiscoveryRules(), p, v) && v != Open(feed)
    requires v.Inner? ==> v.l != Deliver(feed, false) && v.l != Deliver(feed, true)
    ensures Told(feed, Move1(DiscoveryRules(), p, v)) == Told(feed, p)
  {
  }

  lemma SubsByOthers(feed: nat, p: Repl<DeviceMap, Event>, v: Move<Event>)
    requires CanMove(DiscoveryRules(), p, v)
    ensures feed in Move1(DiscoveryRules(), p, v).mux.subs <==> feed in p.mux.subs || v == Open(feed)
  {
    if v.Inner? {
      SubsInside(p.mux, v.l);
    }
  }

  lemma ToldInit(feed: nat, p: Repl<DeviceMap, Event>)
    requires p.order.SnapshotFirst? && OwnerInv(p) && CanMove(DiscoveryRules(), p, Open(feed))
    ensures Told(feed, p) == [] && Told(feed, Move1(DiscoveryRules(), p, Open(feed))) == [Snap(p.state)]
  {
    assert feed !in p.logs.Keys;
  }

  lemma ToldEvent(feed: nat, p: Repl<DeviceMap, Event>)
    requires CanMove(DiscoveryRules(), p, Inner(Deliver(feed, false)))
    ensures Told(feed, Move1(DiscoveryRules(), p, Inner(Deliver(feed, false)))) ==
            Told(feed, p) + [Ev(p.mux.phase.msg.value)]
  {
  }

  lemma FollowSnoc(f: Device -> bool, log: seq<Item<DeviceMap, Event>>, e: Event)
    ensures FollowLog(f, Any(), log + [Ev(e)]) == SliceStep(f, FollowLog(f, Any(), log), e)
  {
    assert (log + [Ev(e)])[..|log|] == log;
  }

  lemma StillView(f: Device -> bool, log: seq<Item<DeviceMap, Event>>, item: Item<DeviceMap, Event>, m: DeviceMap)
    requires IsView(f, log, m)
    ensures IsView(f, log + [item], m)
  {
    var k :| 1 <= k <= |log| && m == FollowLog(f, Any(), log[..k]);
    assert (log + [item])[..k] == log[..k];
  }

  lemma WholeIsView(f: Device -> bool, log: seq<Item<DeviceMap, Event>>)
    requires log != []
    ensures IsView(f, log, FollowLog(f, Any(), log))
  {
    assert log[..|log|] == log;
  }

  // The slice's part of taking an event.
  lemma TakeKeeps(f: Device -> bool, c: Chain, e: Event, call: nat)
    requires RInv(SliceRules(), c.slice) && CanTake(f, c, e, call)
    ensures RInv(SliceRules(), Take(f, c, e, call)) && Take(f, c, e, call).order == c.slice.order
    ensures Take(f, c, e, call).state == SliceStep(f, c.slice.state, e)
    ensures Take(f, c, e, call).mux.subs == c.slice.mux.subs
    ensures Take(f, c, e, call).mux.calls ==
            if PublishesFor(f, c.slice.state, e)
            then c.slice.mux.calls[call := Call(SliceStep(f, c.slice.state, e), Arrived)]
            else c.slice.mux.calls
  {
    if PublishesFor(f, c.slice.state, e) {
      MoveKeepsRInv(SliceRules(), c.slice, Publish(call, SliceStep(f, c.slice.state, e)));
    }
  }

  lemma BeginKeeps(f: Device -> bool, feed: nat, c: Chain, devs: seq<Device>, call: nat)
    requires ChainInv(f, feed, c) && CanAct(f, feed, c, Begin(devs, call))
    ensures ChainInv(f, feed, Act1(f, feed, c, Begin(devs, call)))
  {
    SourceKept(feed, c.src, Open(feed));
    ToldInit(feed, c.src);
    SubsByOthers(feed, c.src, Open(feed));
    TakeKeeps(f, c, Init(devs), call);
    BeginTakes(f, feed, c, devs, call, Move1(DiscoveryRules(), c.src, Open(feed)));
  }

  // The slice's part of the Init, whatever the source has become.
  lemma BeginTakes(
      f: Device -> bool, feed: nat, c: Chain, devs: seq<Device>, call: nat, src': Repl<DeviceMap, Event>)
    requires CanTake(f, c, Init(devs), call) && Lists(devs, c.src.state) && Keyed(c.src.state)
    requires ViewInv(f, feed, c) && Told(feed, c.src) == [] && Told(feed, src') == [Snap(c.src.state)]
    requires c.slice.mux.calls == map[] && c.slice.mux.subs == map[] && feed in src'.mux.subs
    requires Take(f, c, Init(devs), call).mux.calls ==
      map[call := Call(SliceStep(f, c.slice.state, Init(devs)), Arrived)]
    requires Take(f, c, Init(devs), call).mux.subs == map[]
    requires Take(f, c, Init(devs), call).state == SliceStep(f, c.slice.state, Init(devs))
    ensures var c' := Chain(src', Take(f, c, Init(devs), call), c.gone);
            ViewInv(f, feed, c') && PublishedInv(f, feed, c') && InitInv(feed, c')
  {
    InitRestoresSelection(f, devs, c.src.state);
    WholeIsView(f, [Snap(c.src.state)]);
  }

  lemma FeedFromFanOut(f: Device -> bool, feed: nat, c: Chain, call: nat)
    requires CanAct(f, feed, c, Feed(call))
    ensures c.src.mux.phase.FanOut? && feed in c.src.mux.subs && CanTake(f, c, c.src.mux.phase.msg.value, call)
  {
  }

  lemma FeedKeeps(f: Device -> bool, feed: nat, c: Chain, call: nat)
    requires ChainInv(f, feed, c) && CanAct(f, feed, c, Feed(call))
    ensures ChainInv(f, feed, Act1(f, feed, c, Feed(call)))
  {
    FeedFromFanOut(f, feed, c, call);
    var e := c.src.mux.phase.msg.value;
    SourceKept(feed, c.src, Inner(Deliver(feed, false)));
    SubsByOthers(feed, c.src, Inner(Deliver(feed, false)));
    ToldEvent(feed, c.src);
    TakeKeeps(f, c, e, call);
    var src' := Move1(DiscoveryRules(), c.src, Inner(Deliver(feed, false)));
    FeedTakes(f, feed, c, e, call, src');
  }

  // The slice's part of an event, whatever the source has become.
  lemma FeedTakes(f: Device -> bool, feed: nat, c: Chain, e: Event, call: nat, src': Repl<DeviceMap, Event>)
    requires CanTake(f, c, e, call) && ViewInv(f, feed, c) && PublishedInv(f, feed, c) && InitInv(feed, c)
    requires Told(feed, src') == Told(feed, c.src) + [Ev(e)]
    requires feed in c.src.mux.subs && feed in src'.mux.subs
    requires Take(f, c, e, call).state == SliceStep(f, c.slice.state, e)
    ensures var c' := Chain(src', Take(f, c, e, call), c.gone);
            ViewInv(f, feed, c') && PublishedInv(f, feed, c') && InitInv(feed, c')
  {
    FollowSnoc(f, Told(feed, c.src), e);
    FeedPublishes(f, feed, c, e, call);
    if !c.gone && NoLoss(Take(f, c, e, call).mux) {
      FeedPastInit(f, c, e, call);
    }
    if !c.gone {
      StillCalls(f, c, e, call);
    }
  }

  lemma StillCalls(f: Device -> bool, c: Chain, e: Event, call: nat)
    requires CanTake(f, c, e, call) && c.slice.mux.calls != map[]
    ensures Take(f, c, e, call).mux.calls != map[]
  {
    var i :| i in c.slice.mux.calls;
    assert i in Take(f, c, e, call).mux.calls;
  }

  lemma FeedPublishes(f: Device -> bool, feed: nat, c: Chain, e: Event, call: nat)
    requires ViewInv(f, feed, c) && PublishedInv(f, feed, c) && CanTake(f, c, e, call)
    ensures forall i | i in Take(f, c, e, call).mux.calls ::
              IsView(f, Told(feed, c.src) + [Ev(e)], Take(f, c, e, call).mux.calls[i].value)
  {
    var now, log := Take(f, c, e, call), Told(feed, c.src);
    FollowSnoc(f, log, e);
    WholeIsView(f, log + [Ev(e)]);
    forall i | i in now.mux.calls
      ensures IsView(f, log + [Ev(e)], now.mux.calls[i].value)
    {
      if i in c.slice.mux.calls {
        StillView(f, log, Ev(e), c.slice.mux.calls[i].value);
      }
    }
  }

  lemma FeedPastInit(f: Device -> bool, c: Chain, e: Event, call: nat)
    requires CanTake(f, c, e, call) && NoLoss(Take(f, c, e, call).mux)
    requires c.slice.mux.calls != map[] && (NoLoss(c.slice.mux) ==> PastInit(c.slice))
    ensures PastInit(Take(f, c, e, call)) && Take(f, c, e, call).mux.calls != map[]
  {
    if PublishesFor(f, c.slice.state, e) {
      var v := SliceStep(f, c.slice.state, e);
      NoLossBefore(SliceRules(), c.slice, Publish(call, v));
      assert call in Take(f, c, e, call).mux.calls;
    }
  }

  lemma SliceKeeps(f: Device -> bool, feed: nat, c: Chain, v: Move<DeviceMap>)
    requires ChainInv(f, feed, c) && CanAct(f, feed, c, Slice(v))
    ensures ChainInv(f, feed, Act1(f, feed, c, Slice(v)))
  {
    MoveKeepsRInv(SliceRules(), c.slice, v);
    SliceMoves(c.slice, v);
    OpenSliceStays(c.slice, v);
    if feed in c.src.mux.subs && !c.gone && NoLoss(Move1(SliceRules(), c.slice, v).mux) {
      NoLossBefore(SliceRules(), c.slice, v);
      PastInitStays(c.slice, v);
    }
  }

  // Only the goroutine itself closes the slice's mux, and not while it opens a subscription.
  lemma OpenSliceStays(p: Repl<DeviceMap, DeviceMap>, v: Move<DeviceMap>)
    requires CanMove(SliceRules(), p, v) && !v.Publish? && (v.Open? ==> !p.mux.done)
    requires p.owner.Opening? ==> !p.mux.done && v != Inner(Close)
    ensures Move1(SliceRules(), p, v).owner.Opening? ==> !Move1(SliceRules(), p, v).mux.done
  {
    if v.Inner? && v.l != Close {
      DoneKept(p.mux, v.l);
    }
  }

  // Moves other than a publication leave the view and the published values alone, and only
  // Open brings in a subscriber.
  lemma SliceMoves(p: Repl<DeviceMap, DeviceMap>, v: Move<DeviceMap>)
    requires CanMove(SliceRules(), p, v) && !v.Publish?
    ensures var p' := Move1(SliceRules(), p, v);
            && p'.state == p.state && p'.order == p.order && p'.mux.calls.Keys == p.mux.calls.Keys
            && (forall i | i in p.mux.calls :: p'.mux.calls[i].value == p.mux.calls[i].value)
            && (!v.Open? ==> p'.mux.subs.Keys == p.mux.subs.Keys)
  {
    if v.Inner? {
      CallsInside(p.mux, v.l);
      SubsInside(p.mux, v.l);
    }
  }

  lemma SourceMoveKeeps(f: Device -> bool, feed: nat, c: Chain, v: Move<Event>)
    requires ChainInv(f, feed, c) && CanAct(f, feed, c, Source(v))
    ensures ChainInv(f, feed, Act1(f, feed, c, Source(v)))
  {
    SourceKept(feed, c.src, v);
    ToldByOthers(feed, c.src, v);
    SubsByOthers(feed, c.src, v);
  }

  lemma ActKeepsInv(f: Device -> bool, feed: nat, c: Chain, a: Act)
    requires ChainInv(f, feed, c) && CanAct(f, feed, c, a)
    ensures ChainInv(f, feed, Act1(f, feed, c, a))
  {
    match a
    case Source(v) => SourceMoveKeeps(f, feed, c, v);
    case Begin(devs, call) => BeginKeeps(f, feed, c, devs, call);
    case Feed(call) => FeedKeeps(f, feed, c, call);
    case SourceGone =>
    case Slice(v) => SliceKeeps(f, feed, c, v);
  }

  lemma {:induction false} ActsKeepInv(f: Device -> bool, feed: nat, c: Chain, acts: seq<Act>)
    requires ChainInv(f, feed, c) && Acts(f, feed, c, acts)
    ensures ChainInv(f, feed, Outcome(f, feed, c, acts))
    decreases |acts|
  {
    if acts != [] {
      ActKeepsInv(f, feed, c, acts[0]);
      ActsKeepInv(f, feed, Act1(f, feed, c, acts[0]), acts[1..]);
    }
  }

  // ---- the results ----

  ghost predicate ChainReached(f: Device -> bool, feed: nat, base: DeviceMap, acts: seq<Act>, c: Chain) {
    Keyed(base) && Acts(f, feed, Boot(base), acts) && c == Outcome(f, feed, Boot(base), acts)
  }

  lemma ReachedChain(f: Device -> bool, feed: nat, base: DeviceMap, acts: seq<Act>, c: Chain)
    requires ChainReached(f, feed, base, acts, c)
    ensures ChainInv(f, feed, c)
  {
    BootInv(f, feed, base);
    ActsKeepInv(f, feed, Boot(base), acts);
  }

  // On a source that was open, the slice has published before its first subscriber comes.
  lemma PublicationBeforeSubscribers(f: Device -> bool, feed: nat, base: DeviceMap, acts: seq<Act>, c: Chain)
    requires ChainReached(f, feed, base, acts, c) && !c.gone && c.slice.mux.subs != map[]
    ensures feed in c.src.mux.subs && c.slice.mux.calls != map[]
  {
    ReachedChain(f, feed, base, acts, c);
  }

  // On a source that was open a subscriber sees the published snapshot current at its
  // registration and then every later one in publishing order.
  lemma SubscriberSeesPublishedSnapshots(
      f: Device -> bool, feed: nat, base: DeviceMap, acts: seq<Act>, c: Chain, s: nat)
    requires ChainReached(f, feed, base, acts, c) && !c.gone && NoLoss(c.slice.mux)
    requires s in c.slice.snaps && s in c.slice.mux.subs && Registered(c.slice.mux.subs[s].pc)
    ensures SeesPublished(c.slice, s)
  {
    ReachedChain(f, feed, base, acts, c);
    PastInitWithSubscriber(feed, c, s);
    PublishedSnapshotsSeen(c.slice, s);
  }

  // Every published snapshot is the slice's view after part of what the discovery sent it,
  // the Init included.
  lemma PublishedSnapshotsAreViews(f: Device -> bool, feed: nat, base: DeviceMap, acts: seq<Act>, c: Chain, i: nat)
    requires ChainReached(f, feed, base, acts, c) && i < |c.slice.mux.accepted|
    ensures IsView(f, Told(feed, c.src), c.slice.mux.accepted[i].value)
  {
    ReachedChain(f, feed, base, acts, c);
    AcceptedIsView(f, feed, c, i);
  }

  lemma PastInitWithSubscriber(feed: nat, c: Chain, s: nat)
    requires InitInv(feed, c) && !c.gone && NoLoss(c.slice.mux) && s in c.slice.mux.subs
    ensures PastInit(c.slice)
  {
  }

  lemma AcceptedIsView(f: Device -> bool, feed: nat, c: Chain, i: nat)
    requires CallInv(c.slice.mux) && PublishedInv(f, feed, c) && i < |c.slice.mux.accepted|
    ensures IsView(f, Told(feed, c.src), c.slice.mux.accepted[i].value)
  {
    assert c.slice.mux.accepted[i].call in c.slice.mux.calls;
  }

  // The slice panics on a replay exactly if the subscriber used its cancel before it.
  lemma SlicePanicsIff(f: Device -> bool, feed: nat, base: DeviceMap, acts: seq<Act>, c: Chain, s: nat)
    requires ChainReached(f, feed, base, acts, c) && c.slice.owner == Opening(s) && SubAt(c.slice.mux, s, Answered)
    ensures ReplayPanics(c.slice) <==> WasCancelled(c.slice.mux, s)
  {
    ReachedChain(f, feed, base, acts, c);
    ClosedBeforeReplay(c.slice, s);
    OpenIsNotClosing(c.slice.mux);
  }

  lemma OpenIsNotClosing(m: Mux<DeviceMap>)
    requires LockInv(m) && !m.done
    ensures !m.phase.CloseAll? && !m.phase.Exited?
  {
  }

  // With source and slice idle and no Submit lost, the last snapshot every subscriber has is
  // `State(filter)` of the discovery if and only if nothing the slice was told left an id
  // stale.
  lemma SubscriberHasStateIff(f: Device -> bool, feed: nat, base: DeviceMap, acts: seq<Act>, c: Chain, s: nat)
    requires ChainReached(f, feed, base, acts, c) && NoLoss(c.src.mux) && NoLoss(c.slice.mux)
    requires c.src.owner.Free? && c.src.mux.phase.Select? && feed in c.src.mux.outputs && feed in c.src.snaps
    requires c.slice.owner.Free? && c.slice.mux.phase.Select? && s in c.slice.mux.outputs
    ensures s in c.slice.logs && feed in c.src.mux.subs
    ensures View(SliceRules(), map[], c.slice.logs[s]) == Matching(f, c.src.state) <==>
            SentNothingStale(f, Any(), c.src, feed)
  {
    ReachedChain(f, feed, base, acts, c);
    FollowerIsStateIff(f, Any(), c.src, feed);
    SubscriberHasView(c.slice, s);
  }

  lemma SubscriberHasView(p: Repl<DeviceMap, DeviceMap>, s: nat)
    requires RInv(SliceRules(), p) && NoLoss(p.mux) && p.owner.Free? && p.mux.phase.Select? && s in p.mux.outputs
    ensures s in p.logs && View(SliceRules(), map[], p.logs[s]) == p.state
  {
    assert StreamInv(p.mux, s) && LogInv1(p, s) && SnapInv(SliceRules(), p, s);
    CaughtUp(SliceRules(), p, s, map[]);
  }
}
