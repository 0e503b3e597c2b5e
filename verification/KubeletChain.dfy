// The chain of EndToEnd continued to the kubelet: the batch goroutine submits to a resource
// whose broadcast any number of ListAndWatch calls follow (internal/plugin/resource.go). The
// goroutine stays in Submit until its broadcast was accepted or given up.
module KubeletChain {
  import opened Batch
  import E = EndToEnd
  import opened Listings
  import opened MuxProtocol
  import opened Replication
  import opened Resources
  import opened Udev
  import W = Watch

  datatype Node = Node(chain: E.Chain, res: W.ResourceState)

  datatype Act =
    | Upstream(a: E.Act)
    | Notify
    | Downstream(b: W.Act)

  function Boot(enumerated: DeviceMap, ids: seq<string>): Node {
    Node(E.Boot(enumerated, ids), W.New(Fresh(ids).seats))
  }

  // The goroutine has returned from its last Submit.
  ghost predicate Returned(r: W.ResourceState) {
    forall c | c in r.mux.calls :: r.mux.calls[c].pc.Returned?
  }

  function Notice(ids: seq<string>, h: Health): W.Act {
    W.Update(Change(SeatList(ids), h))
  }

  ghost predicate CanAct(mt: Matcher, ids: seq<string>, sink: nat, n: Node, a: Act) {
    match a
    case Upstream(u) =>
      && E.CanAct(mt, sink, n.chain, u)
      && (u.Hear? || u.Work? ==> Returned(n.res))
      && (u.Work? ==> !n.chain.batch.pc.Notify?)
    case Notify =>
      n.chain.batch.pc.Notify? && Returned(n.res) && W.CanAct(n.res, Notice(ids, n.chain.batch.pc.h))
    case Downstream(d) => !d.Update? && W.CanAct(n.res, d)
  }

  ghost function Act1(mt: Matcher, ids: seq<string>, sink: nat, n: Node, a: Act): Node
    requires CanAct(mt, ids, sink, n, a)
  {
    match a
    case Upstream(u) => n.(chain := E.Act1(mt, ids, sink, n.chain, u))
    // The locked section of Submit: the seats change and the snapshot is on its way.
    case Notify =>
      Node(E.Act1(mt, ids, sink, n.chain, E.Work), W.Act1(n.res, Notice(ids, n.chain.batch.pc.h)))
    case Downstream(d) => n.(res := W.Act1(n.res, d))
  }

  ghost predicate Acts(mt: Matcher, ids: seq<string>, sink: nat, n: Node, acts: seq<Act>)
    decreases |acts|
  {
    acts == [] ||
    (CanAct(mt, ids, sink, n, acts[0]) && Acts(mt, ids, sink, Act1(mt, ids, sink, n, acts[0]), acts[1..]))
  }

  ghost function Outcome(mt: Matcher, ids: seq<string>, sink: nat, n: Node, acts: seq<Act>): Node
    requires Acts(mt, ids, sink, n, acts)
    decreases |acts|
  {
    if acts == [] then n else Outcome(mt, ids, sink, Act1(mt, ids, sink, n, acts[0]), acts[1..])
  }

  // ---- the invariant ----

  // What the resource holds now.
  ghost predicate SeatsAre(r: W.ResourceState, seats: InstanceMap) {
    r.hist != [] && r.hist[|r.hist| - 1] == seats
  }

  ghost predicate NodeInv(mt: Matcher, ids: seq<string>, sink: nat, n: Node) {
    && E.ChainInv(mt, ids, sink, n.chain)
    && W.WInv(n.res) && W.InOrder(n.res)
    && SeatsAre(n.res, n.chain.batch.seats)
  }

  lemma BootInv(mt: Matcher, ids: seq<string>, sink: nat, enumerated: DeviceMap)
    requires Keyed(enumerated)
    ensures NodeInv(mt, ids, sink, Boot(enumerated, ids))
  {
    E.BootInv(mt, ids, sink, enumerated);
    W.NewInv(Fresh(ids).seats);
  }

  // Only the notification changes the seats.
  lemma SeatsKept(mt: Matcher, ids: seq<string>, sink: nat, c: E.Chain, u: E.Act)
    requires E.CanAct(mt, sink, c, u) && (u.Work? ==> !c.batch.pc.Notify?)
    ensures E.Act1(mt, ids, sink, c, u).batch.seats == c.batch.seats
  {
  }

  lemma HistoryStays(r: W.ResourceState, d: W.Act)
    requires W.CanAct(r, d) && !d.Update?
    ensures W.Act1(r, d).hist == r.hist
  {
  }

  lemma NotifiedAlike(mt: Matcher, ids: seq<string>, sink: nat, n: Node)
    requires CanAct(mt, ids, sink, n, Act.Notify) && SeatsAre(n.res, n.chain.batch.seats)
    ensures var n' := Act1(mt, ids, sink, n, Act.Notify); SeatsAre(n'.res, n'.chain.batch.seats)
  {
  }

  lemma ResourceKept(r: W.ResourceState, d: W.Act)
    requires W.WInv(r) && W.InOrder(r) && W.CanAct(r, d) && (d.Update? ==> Returned(r))
    ensures W.WInv(W.Act1(r, d)) && W.InOrder(W.Act1(r, d))
  {
    W.ActKeepsInv(r, d);
    W.InOrderKept(r, d);
  }

  lemma ActKeepsInv(mt: Matcher, ids: seq<string>, sink: nat, n: Node, a: Act)
    requires NodeInv(mt, ids, sink, n) && CanAct(mt, ids, sink, n, a)
    ensures NodeInv(mt, ids, sink, Act1(mt, ids, sink, n, a))
  {
    match a
    case Upstream(u) =>
      E.ActKeepsInv(mt, ids, sink, n.chain, u);
      SeatsKept(mt, ids, sink, n.chain, u);
    case Notify =>
      E.ActKeepsInv(mt, ids, sink, n.chain, E.Work);
      ResourceKept(n.res, Notice(ids, n.chain.batch.pc.h));
      NotifiedAlike(mt, ids, sink, n);
    case Downstream(d) =>
      ResourceKept(n.res, d);
      HistoryStays(n.res, d);
  }

  lemma {:induction false} ActsKeepInv(mt: Matcher, ids: seq<string>, sink: nat, n: Node, acts: seq<Act>)
    requires NodeInv(mt, ids, sink, n) && Acts(mt, ids, sink, n, acts)
    ensures NodeInv(mt, ids, sink, Outcome(mt, ids, sink, n, acts))
    decreases |acts|
  {
    if acts != [] {
      ActKeepsInv(mt, ids, sink, n, acts[0]);
      ActsKeepInv(mt, ids, sink, Act1(mt, ids, sink, n, acts[0]), acts[1..]);
    }
  }

  // ---- the results ----

  ghost predicate NodeReached(
      mt: Matcher, ids: seq<string>, sink: nat, enumerated: DeviceMap, acts: seq<Act>, n: Node)
  {
    Keyed(enumerated) &&
    Acts(mt, ids, sink, Boot(enumerated, ids), acts) && n == Outcome(mt, ids, sink, Boot(enumerated, ids), acts)
  }

  lemma ReachedNode(mt: Matcher, ids: seq<string>, sink: nat, enumerated: DeviceMap, acts: seq<Act>, n: Node)
    requires NodeReached(mt, ids, sink, enumerated, acts, n)
    ensures NodeInv(mt, ids, sink, n)
  {
    BootInv(mt, ids, sink, enumerated);
    ActsKeepInv(mt, ids, sink, Boot(enumerated, ids), acts);
  }

  // The broadcast has been accepted, delivered and come to rest.
  ghost predicate Settled(r: W.ResourceState, w: nat) {
    && W.AllBroadcast(r) && r.mux.phase.Select?
    && w in r.watchers && r.watchers[w].Watching? && w in r.mux.outputs
  }

  // The last thing in a channel, which is no late replay.
  ghost predicate LastTold(channel: seq<W.Seen>, s: InstanceMap) {
    && channel != []
    && var last := channel[|channel| - 1];
       last.s == s && (last.Replayed? ==> W.Broadcasts(channel) == [])
  }

  ghost predicate LateReplay(channel: seq<W.Seen>) {
    channel != [] && channel[|channel| - 1].Replayed? && W.Broadcasts(channel) != []
  }

  lemma AllReceived(r: W.ResourceState, w: nat)
    requires W.WInv(r) && Settled(r, w)
    ensures w in r.mux.subs && Registered(r.mux.subs[w].pc) && w in r.seenAt && w in r.channels
    ensures r.mux.subs[w].start + |r.mux.subs[w].received| == |r.mux.accepted|
    ensures W.ChannelOk(r, w) && W.NothingMissed(r, w)
  {
    assert StreamInv(r.mux, w) && W.ChannelOk(r, w) && W.NothingMissed(r, w);
    assert |r.mux.accepted[r.mux.handed..]| == 0;
  }

  // The last thing every watcher was sent are the resource's instances as they are, unless
  // its replay came behind a broadcast.
  lemma WatcherToldSeats(r: W.ResourceState, w: nat, seats: InstanceMap)
    requires W.WInv(r) && W.InOrder(r) && SeatsAre(r, seats) && Settled(r, w)
    ensures w in r.channels && (LateReplay(r.channels[w]) || LastTold(r.channels[w], seats))
  {
    AllReceived(r, w);
    W.ConvergedChannel(r, w);
    assert r.hist[|r.hist| - 1] == W.StateAfter(r, |r.changes|);
  }

  // Every instance in a list has the health it should have, the pool being as it is.
  ghost predicate ListIsTrue(ids: seq<string>, s: InstanceMap, poolEmpty: bool, healthy: bool) {
    && (forall id :: id in s <==> id in ids)
    && forall id | id in s :: HealthOf(s[id], poolEmpty).Healthy? <==> healthy
  }

  lemma SeatsAreTrue(mt: Matcher, ids: seq<string>, b: BatchState)
    requires BatchInv(mt, ids, b) && b.pc.Idle?
    ensures ListIsTrue(ids, b.seats, b.pool.parts == map[], b.pool.parts != map[])
  {
    forall id | id in b.seats
      ensures HealthOf(b.seats[id], b.pool.parts == map[]).Healthy? <==> b.pool.parts != map[]
    {
      HealthExactWhenIdle(mt, ids, b, id);
    }
  }

  // ---- when a list is read ----

  // What later steps keep of a resource and one of its watchers.
  ghost predicate GoesOn(r: W.ResourceState, r': W.ResourceState, w: nat) {
    && |r.hist| <= |r'.hist|
    && (w in r.seenAt ==> w in r'.seenAt && r'.seenAt[w] == r.seenAt[w])
    && (w in r.mux.subs ==> w in r'.mux.subs && r.mux.subs[w].received <= r'.mux.subs[w].received)
  }

  lemma WatchGoesOn(r: W.ResourceState, d: W.Act, w: nat)
    requires W.WatchersOk(r) && W.CanAct(r, d)
    ensures GoesOn(r, W.Act1(r, d), w)
  {
    if d.Inner? && w in r.mux.subs && !(d.l.Deliver? && d.l.sink == w) {
      RecordKept(r.mux, d.l, w);
    }
  }

  lemma NodeGoesOn(mt: Matcher, ids: seq<string>, sink: nat, n: Node, a: Act, w: nat)
    requires NodeInv(mt, ids, sink, n) && CanAct(mt, ids, sink, n, a)
    ensures GoesOn(n.res, Act1(mt, ids, sink, n, a).res, w)
  {
    match a
    case Upstream(_) =>
    case Notify => WatchGoesOn(n.res, Notice(ids, n.chain.batch.pc.h), w);
    case Downstream(d) => WatchGoesOn(n.res, d, w);
  }

  lemma {:induction false} RunGoesOn(mt: Matcher, ids: seq<string>, sink: nat, n: Node, acts: seq<Act>, w: nat)
    requires NodeInv(mt, ids, sink, n) && Acts(mt, ids, sink, n, acts)
    ensures GoesOn(n.res, Outcome(mt, ids, sink, n, acts).res, w)
    decreases |acts|
  {
    if acts != [] {
      NodeGoesOn(mt, ids, sink, n, acts[0], w);
      ActKeepsInv(mt, ids, sink, n, acts[0]);
      RunGoesOn(mt, ids, sink, Act1(mt, ids, sink, n, acts[0]), acts[1..], w);
    }
  }

  // What a watcher has received was changed before.
  lemma ReceivedChanges(r: W.ResourceState, w: nat, i: nat)
    requires CallInv(r.mux) && SinkInv(r.mux) && W.CallsAreUpdates(r) && w in r.mux.subs && i < |r.mux.subs[w].received|
    ensures r.mux.subs[w].received[i].call < |r.hist|
  {
    W.DeliveredInPlace(r.mux, w, r.mux.subs[w].start + i);
    assert r.mux.accepted[r.mux.subs[w].start + i].call in r.mux.calls;
  }

  lemma SameChannelSameStream(r: W.ResourceState, r': W.ResourceState, w: nat)
    requires w in r.watchers && w in r.channels && w in r.mux.subs && W.ChannelOk(r, w) && GoesOn(r, r', w)
    requires w in r'.watchers && w in r'.channels && w in r'.mux.subs && W.ChannelOk(r', w)
    requires r.channels[w] == r'.channels[w]
    ensures r.mux.subs[w].received == r'.mux.subs[w].received
    ensures r'.watchers[w].Watching? ==> w in r.seenAt && w in r'.seenAt && r'.seenAt[w] == r.seenAt[w] < |r.hist|
  {
    assert |Values(r.mux.subs[w].received)| == |Values(r'.mux.subs[w].received)|;
  }

  // The last change is in the watcher's channel, or was there from the beginning.
  ghost predicate LastChangeIsThere(r: W.ResourceState, w: nat)
    requires w in r.mux.subs && w in r.seenAt
  {
    var got := r.mux.subs[w].received;
    if got == [] then r.seenAt[w] == |r.hist| - 1 else got[|got| - 1].call == |r.hist| - 1
  }

  lemma SettledHasLastChange(r: W.ResourceState, w: nat)
    requires W.WInv(r) && W.InOrder(r) && Settled(r, w)
    ensures w in r.mux.subs && w in r.seenAt && w in r.channels
    ensures LastChangeIsThere(r, w) && W.ChannelOk(r, w)
  {
    AllReceived(r, w);
    if r.mux.subs[w].received == [] {
      W.SilentWatcherIsCurrent(r, w);
    } else {
      W.LastReceived(r, w);
    }
  }

  lemma NoChangeBetween(r: W.ResourceState, r': W.ResourceState, w: nat)
    requires CallInv(r.mux) && SinkInv(r.mux) && W.CallsAreUpdates(r) && GoesOn(r, r', w)
    requires w in r.watchers && w in r.channels && w in r.mux.subs && W.ChannelOk(r, w)
    requires w in r'.watchers && w in r'.channels && w in r'.mux.subs && W.ChannelOk(r', w)
    requires r.channels[w] == r'.channels[w]
    requires r'.watchers[w].Watching? && w in r'.seenAt && LastChangeIsThere(r', w)
    ensures |r.hist| == |r'.hist|
  {
    SameChannelSameStream(r, r', w);
    var got := r.mux.subs[w].received;
    if got != [] {
      ReceivedChanges(r, w, |got| - 1);
    }
  }

  // So nothing has changed since a settled watcher's last item stood in its channel.
  lemma NoChangeSince(r: W.ResourceState, r': W.ResourceState, w: nat)
    requires W.WInv(r) && W.WInv(r') && W.InOrder(r') && Settled(r', w) && GoesOn(r, r', w)
    requires w in r.channels && w in r'.channels && r.channels[w] == r'.channels[w]
    ensures |r.hist| == |r'.hist|
  {
    assert W.ChannelOk(r, w);
    SettledHasLastChange(r', w);
    NoChangeBetween(r, r', w);
  }

  // A pool that was as said, and has turned since only with a notification ahead.
  ghost predicate TurnsWithNotice(wasEmpty: bool, b: BatchState) {
    || (b.pool.parts == map[] <==> wasEmpty)
    || b.pc.Notify?
    || (b.pc.Adding? && b.pool.parts != map[])
  }

  lemma QuietStep(mt: Matcher, ids: seq<string>, wasEmpty: bool, b: BatchState)
    requires BatchInv(mt, ids, b) && !b.pc.Idle? && !b.pc.Notify? && TurnsWithNotice(wasEmpty, b)
    ensures TurnsWithNotice(wasEmpty, Step(mt, ids, b))
  {
  }

  lemma QuietUpstream(mt: Matcher, ids: seq<string>, sink: nat, wasEmpty: bool, c: E.Chain, u: E.Act)
    requires BatchInv(mt, ids, c.batch) && E.CanAct(mt, sink, c, u) && (u.Work? ==> !c.batch.pc.Notify?)
    requires TurnsWithNotice(wasEmpty, c.batch)
    ensures TurnsWithNotice(wasEmpty, E.Act1(mt, ids, sink, c, u).batch)
  {
    match u
    case Work => QuietStep(mt, ids, wasEmpty, c.batch);
    case Hear(_) =>
    case _ => assert E.Act1(mt, ids, sink, c, u).batch == c.batch;
  }

  // A pool turns empty or non-empty with a change of the resource, or has one ahead.
  lemma {:induction false} QuietRun(mt: Matcher, ids: seq<string>, sink: nat, wasEmpty: bool, n: Node, acts: seq<Act>)
    requires NodeInv(mt, ids, sink, n) && Acts(mt, ids, sink, n, acts)
    requires TurnsWithNotice(wasEmpty, n.chain.batch)
    requires |Outcome(mt, ids, sink, n, acts).res.hist| == |n.res.hist|
    ensures TurnsWithNotice(wasEmpty, Outcome(mt, ids, sink, n, acts).chain.batch)
    decreases |acts|
  {
    if acts != [] {
      var n' := Act1(mt, ids, sink, n, acts[0]);
      NodeGoesOn(mt, ids, sink, n, acts[0], 0);
      ActKeepsInv(mt, ids, sink, n, acts[0]);
      RunGoesOn(mt, ids, sink, n', acts[1..], 0);
      if acts[0].Upstream? {
        QuietUpstream(mt, ids, sink, wasEmpty, n.chain, acts[0].a);
      }
      QuietRun(mt, ids, sink, wasEmpty, n', acts[1..]);
    }
  }

  // So the pool is what it was when the list was put into the channel.
  lemma PoolSinceSent(mt: Matcher, ids: seq<string>, sink: nat, n: Node, acts: seq<Act>, w: nat)
    requires NodeInv(mt, ids, sink, n) && Acts(mt, ids, sink, n, acts)
    requires var end := Outcome(mt, ids, sink, n, acts);
             && Settled(end.res, w) && end.chain.batch.pc.Idle?
             && w in n.res.channels && w in end.res.channels && n.res.channels[w] == end.res.channels[w]
    ensures n.chain.batch.pool.parts == map[] <==> Outcome(mt, ids, sink, n, acts).chain.batch.pool.parts == map[]
  {
    ActsKeepInv(mt, ids, sink, n, acts);
    RunGoesOn(mt, ids, sink, n, acts, w);
    NoChangeSince(n.res, Outcome(mt, ids, sink, n, acts).res, w);
    QuietRun(mt, ids, sink, n.chain.batch.pool.parts == map[], n, acts);
  }

  // From the kernel's events to the kubelet. With everything drained and no Submit lost, the
  // last list a watcher was sent names exactly the seats. Whenever the plugin server asked the
  // listed instances for their health, at once or any time later, it reported all of them
  // healthy exactly if some device the monitor has matches or some id is stale. Only a watcher
  // whose replay came behind a broadcast may have been told something else.
  lemma KubeletToldTheTruth(
      mt: Matcher, ids: seq<string>, sink: nat, enumerated: DeviceMap, acts: seq<Act>, read: Node, later: seq<Act>,
      n: Node, w: nat)
    requires NodeReached(mt, ids, sink, enumerated, acts, read)
    requires Acts(mt, ids, sink, read, later) && n == Outcome(mt, ids, sink, read, later)
    requires NoLoss(n.chain.repl.mux) && sink in n.chain.repl.mux.outputs && E.Drained(sink, n.chain)
    requires Settled(n.res, w) && w in n.res.channels && !LateReplay(n.res.channels[w])
    requires w in read.res.channels && read.res.channels[w] == n.res.channels[w]
    ensures sink in n.chain.repl.snaps && sink in n.chain.repl.mux.subs
    ensures n.res.channels[w] != []
    ensures var told := n.res.channels[w][|n.res.channels[w]| - 1].s;
            ListIsTrue(ids, told, read.chain.batch.pool.parts == map[],
                       E.SomeMatch(mt, n.chain.repl.state) || !E.NothingStale(mt, sink, n.chain))
  {
    ReachedNode(mt, ids, sink, enumerated, acts, read);
    ActsKeepInv(mt, ids, sink, read, later);
    WatcherToldSeats(n.res, w, n.chain.batch.seats);
    E.PoolDrained(mt, ids, sink, n.chain);
    SeatsAreTrue(mt, ids, n.chain.batch);
    PoolSinceSent(mt, ids, sink, read, later, w);
  }
}
