// The batch resource of internal/plugin/batch_partition.go: a pool of matching partitions,
// seats that share it, and health notifications on its edges. The goroutine is modelled at
// the grain at which others can look: every pool change and every notification is a step.
module Batch {
  import opened Listings
  import opened Resources
  import opened Udev

  // FindStringSubmatch: the match and its groups, or nothing.
  type Matcher = string -> seq<string>

  const BLOCK_SUBSYSTEM := "block"
  const DEVTYPE_PARTITION := "partition"
  const PROPERTY_PARTNAME := "PARTNAME"

  // The label of a matching partition: group 1 if there is one, else the whole match.
  function MatchLabel(mt: Matcher, d: Device): Option<string> {
    if d.subsystem != BLOCK_SUBSYSTEM || d.devType != DEVTYPE_PARTITION || PROPERTY_PARTNAME !in d.properties then None
    else
      var groups := mt(d.properties[PROPERTY_PARTNAME]);
      if |groups| == 0 then None else if |groups| > 1 then Some(groups[1]) else Some(groups[0])
  }

  function Matches(mt: Matcher): Device -> bool {
    (d: Device) => MatchLabel(mt, d).Some?
  }

  // What a device has to be for a batch: a block partition whose name the matcher accepts.
  ghost predicate Selected(mt: Matcher, d: Device) {
    d.subsystem == "block" && d.devType == "partition" && "PARTNAME" in d.properties &&
    mt(d.properties["PARTNAME"]) != []
  }

  // Such a device has its label, and no other has one.
  lemma LabelledIffSelected(mt: Matcher, d: Device)
    ensures MatchLabel(mt, d).Some? <==> Selected(mt, d)
    ensures Selected(mt, d) ==>
              var groups := mt(d.properties["PARTNAME"]);
              && (|groups| > 1 ==> MatchLabel(mt, d) == Some(groups[1]))
              && (|groups| == 1 ==> MatchLabel(mt, d) == Some(groups[0]))
  {
  }

  datatype Pool = Pool(parts: DeviceMap, labels: map<string, string>)

  function Add(mt: Matcher, p: Pool, d: Device): Pool {
    match MatchLabel(mt, d)
    case None => p
    case Some(tag) => Pool(p.parts[d.id := d], p.labels[d.id := tag])
  }

  function AddEach(mt: Matcher, p: Pool, devs: seq<Device>): Pool {
    if devs == [] then p else Add(mt, AddEach(mt, p, devs[..|devs| - 1]), devs[|devs| - 1])
  }

  function Remove(mt: Matcher, p: Pool, d: Device): Pool {
    if MatchLabel(mt, d).Some? then Pool(p.parts - {d.id}, p.labels - {d.id}) else p
  }

  function PoolStep(mt: Matcher, p: Pool, e: Event): Pool {
    match e
    case Init(devs) => AddEach(mt, p, devs)
    case Added(d) => Add(mt, p, d)
    case Removed(d) => Remove(mt, p, d)
  }

  // The notification an event causes, if any.
  function Fires(mt: Matcher, p: Pool, e: Event): Option<Health> {
    match e
    case Init(_) => if PoolStep(mt, p, e).parts != map[] then Some(Healthy) else None
    case Added(d) => if MatchLabel(mt, d).Some? && p.parts == map[] then Some(Healthy) else None
    case Removed(d) =>
      if MatchLabel(mt, d).Some? && PoolStep(mt, p, e).parts == map[] then Some(Unhealthy) else None
  }

  // The label of each pool member is the one its name matched to.
  ghost predicate PoolOk(mt: Matcher, p: Pool) {
    && Keyed(p.parts)
    && p.labels.Keys == p.parts.Keys
    && forall id | id in p.parts :: MatchLabel(mt, p.parts[id]) == Some(p.labels[id])
  }

  lemma {:induction false} AddEachOk(mt: Matcher, p: Pool, devs: seq<Device>)
    requires PoolOk(mt, p)
    ensures PoolOk(mt, AddEach(mt, p, devs))
    ensures AddEach(mt, p, devs).parts == AddMatching(Matches(mt), p.parts, devs)
  {
    if devs != [] {
      AddEachOk(mt, p, devs[..|devs| - 1]);
    }
  }

  lemma PoolStepOk(mt: Matcher, p: Pool, e: Event)
    requires PoolOk(mt, p)
    ensures PoolOk(mt, PoolStep(mt, p, e))
  {
    if e.Init? {
      AddEachOk(mt, p, e.devices);
    }
  }

  // ---- the goroutine, step by step ----

  datatype Pc = Idle | Adding(devs: seq<Device>) | Got(e: Event) | Notify(h: Health)

  datatype BatchState = BatchState(pool: Pool, seats: InstanceMap, pc: Pc)

  function SeatList(ids: seq<string>): (seats: seq<Instance>)
    ensures |seats| == |ids|
  {
    seq(|ids|, i requires 0 <= i < |ids| => Seat(ids[i]))
  }

  function Fresh(ids: seq<string>): BatchState {
    BatchState(Pool(map[], map[]), map id | id in ids :: Seat(id), Idle)
  }

  function Receive(b: BatchState, e: Event): BatchState {
    b.(pc := if e.Init? then Adding(e.devices) else Got(e))
  }

  function Step(mt: Matcher, ids: seq<string>, b: BatchState): BatchState
    requires !b.pc.Idle?
  {
    match b.pc
    case Adding(devs) =>
      if devs == [] then b.(pc := if b.pool.parts != map[] then Notify(Healthy) else Idle)
      else b.(pool := Add(mt, b.pool, devs[0]), pc := Adding(devs[1..]))
    case Got(e) =>
      b.(pool := PoolStep(mt, b.pool, e), pc := match Fires(mt, b.pool, e) case None => Idle case Some(h) => Notify(h))
    case Notify(h) => b.(seats := Overridden(b.seats, SeatList(ids), h), pc := Idle)
  }

  function SeatHealth(b: BatchState, id: string): Health
    requires id in b.seats
  {
    HealthOf(b.seats[id], b.pool.parts == map[])
  }

  ghost predicate Forced(b: BatchState) {
    exists id :: id in b.seats && b.seats[id] == Override(Seat(id), Unhealthy)
  }

  ghost predicate BatchInv(mt: Matcher, ids: seq<string>, b: BatchState) {
    && PoolOk(mt, b.pool)
    && (forall id :: id in b.seats <==> id in ids)
    && (forall id | id in b.seats :: b.seats[id] == Seat(id) || exists h :: b.seats[id] == Override(Seat(id), h))
    && (match b.pc
        case Idle => b.pool.parts != map[] ==> !Forced(b)
        case Got(e) => !e.Init? && (b.pool.parts != map[] ==> !Forced(b))
        case Adding(_) => true
        case Notify(h) => h.Healthy? <==> b.pool.parts != map[])
  }

  lemma FreshInv(mt: Matcher, ids: seq<string>)
    ensures BatchInv(mt, ids, Fresh(ids))
  {
  }

  lemma ReceiveKeepsInv(mt: Matcher, ids: seq<string>, b: BatchState, e: Event)
    requires BatchInv(mt, ids, b) && b.pc.Idle?
    ensures BatchInv(mt, ids, Receive(b, e))
  {
    assert Forced(Receive(b, e)) ==> Forced(b);
  }

  // Every seat is overridden with the notified health, none is added, none nested.
  lemma NotifiedSeats(ids: seq<string>, seats: InstanceMap, h: Health)
    requires forall id :: id in seats <==> id in ids
    ensures Overridden(seats, SeatList(ids), h) == map id | id in seats :: Override(Seat(id), h)
  {
    var all := SeatList(ids);
    OverriddenContents(seats, all, h);
    forall id | id in seats
      ensures id in Overridden(seats, all, h) && Overridden(seats, all, h)[id] == Override(Seat(id), h)
    {
      var i :| 0 <= i < |ids| && ids[i] == id;
      assert all[i] in all && InstanceId(all[i]) == id;
    }
    assert forall x | x in all :: InstanceId(x) in ids;
  }

  lemma StepKeepsInv(mt: Matcher, ids: seq<string>, b: BatchState)
    requires BatchInv(mt, ids, b) && !b.pc.Idle?
    ensures BatchInv(mt, ids, Step(mt, ids, b))
  {
    var b' := Step(mt, ids, b);
    match b.pc
    case Adding(devs) => assert b'.pc.Idle? ==> b'.pool.parts == map[];
    case Got(e) =>
      PoolStepOk(mt, b.pool, e);
      FlipFires(mt, b.pool, e);
      FiresTruly(mt, b.pool, e);
      assert Forced(b') ==> Forced(b);
    case Notify(h) =>
      NotifiedSeats(ids, b.seats, h);
      assert Forced(b') ==> h.Unhealthy?;
  }

  lemma SeatHealthIs(mt: Matcher, ids: seq<string>, b: BatchState, id: string)
    requires BatchInv(mt, ids, b) && id in ids
    ensures id in b.seats
    ensures SeatHealth(b, id).Healthy? <==> b.pool.parts != map[] && b.seats[id] != Override(Seat(id), Unhealthy)
  {
    if b.seats[id] != Seat(id) {
      var h :| b.seats[id] == Override(Seat(id), h);
      HealthyOverrideIsTransparent(Seat(id), b.pool.parts == map[]);
    }
  }

  // At every atomic step, so also between a pool change and its notification, no seat
  // reports healthy while the pool is empty; the seat ids and the shape of their overrides
  // never change, and the two maps of the pool have the same keys.
  lemma NeverHealthyWhileEmpty(mt: Matcher, ids: seq<string>, b: BatchState, id: string)
    requires BatchInv(mt, ids, b) && id in ids
    ensures id in b.seats
    ensures SeatHealth(b, id).Healthy? ==> b.pool.parts != map[]
    ensures Raw(b.seats[id]) || Raw(b.seats[id].inner)
    ensures b.pool.labels.Keys == b.pool.parts.Keys
  {
    SeatHealthIs(mt, ids, b, id);
  }

  // Between events the health of every seat is exactly "the pool is not empty".
  lemma HealthExactWhenIdle(mt: Matcher, ids: seq<string>, b: BatchState, id: string)
    requires BatchInv(mt, ids, b) && b.pc.Idle? && id in ids
    ensures id in b.seats && (SeatHealth(b, id).Healthy? <==> b.pool.parts != map[])
  {
    SeatHealthIs(mt, ids, b, id);
    if b.seats[id] == Override(Seat(id), Unhealthy) {
      assert Forced(b);
    }
  }

  // ---- one event at a time ----

  function Finish(mt: Matcher, ids: seq<string>, b: BatchState): BatchState
    decreases match b.pc case Idle => 0 case Notify(_) => 1 case Got(_) => 2 case Adding(devs) => 2 + |devs|
  {
    if b.pc.Idle? then b else Finish(mt, ids, Step(mt, ids, b))
  }

  function Handle(mt: Matcher, ids: seq<string>, b: BatchState, e: Event): BatchState {
    BatchState(PoolStep(mt, b.pool, e),
          match Fires(mt, b.pool, e) case None => b.seats case Some(h) => Overridden(b.seats, SeatList(ids), h),
          Idle)
  }

  lemma {:induction false} AddEachFirst(mt: Matcher, p: Pool, devs: seq<Device>)
    requires devs != []
    ensures AddEach(mt, p, devs) == AddEach(mt, Add(mt, p, devs[0]), devs[1..])
    decreases |devs|
  {
    if |devs| == 1 {
      assert devs[..0] == [] && devs[1..] == [];
      assert AddEach(mt, p, devs) == Add(mt, AddEach(mt, p, devs[..0]), devs[0]);
    } else {
      var n := |devs| - 1;
      AddEachFirst(mt, p, devs[..n]);
      assert devs[..n][1..] == devs[1..][..n - 1];
    }
  }

  lemma {:induction false} FinishAdding(mt: Matcher, ids: seq<string>, b: BatchState)
    requires b.pc.Adding?
    ensures Finish(mt, ids, b) ==
            var p := AddEach(mt, b.pool, b.pc.devs);
            BatchState(p, if p.parts != map[] then Overridden(b.seats, SeatList(ids), Healthy) else b.seats, Idle)
    decreases |b.pc.devs|
  {
    var b' := Step(mt, ids, b);
    assert Finish(mt, ids, b) == Finish(mt, ids, b');
    if b.pc.devs == [] {
      if b'.pc.Notify? {
        assert Finish(mt, ids, b') == Finish(mt, ids, Step(mt, ids, b'));
      }
    } else {
      AddEachFirst(mt, b.pool, b.pc.devs);
      FinishAdding(mt, ids, b');
    }
  }

  // Taking an event and running the steps to the end is handling it in one go.
  lemma StepsHandleEvent(mt: Matcher, ids: seq<string>, b: BatchState, e: Event)
    requires b.pc.Idle?
    ensures Finish(mt, ids, Receive(b, e)) == Handle(mt, ids, b, e)
  {
    var r := Receive(b, e);
    if e.Init? {
      FinishAdding(mt, ids, r);
    } else {
      var r' := Step(mt, ids, r);
      assert Finish(mt, ids, r) == Finish(mt, ids, r');
      if r'.pc.Notify? {
        assert Finish(mt, ids, r') == Finish(mt, ids, Step(mt, ids, r'));
      }
    }
  }

  // ---- the pool is the matching part of the device map ----

  // An event a discovery may send: a removal names the known device, and a re-added device
  // does not turn from a match into a non-match.
  predicate Regular(f: Device -> bool, m: DeviceMap, e: Event) {
    KnownDelta(m, e) && !Unmatches(f, m, e)
  }

  // The pool stays the matching part of the map through a change exactly if that does not
  // turn a match into a non-match: the old device would stay in the pool.
  lemma PoolFollowsIff(mt: Matcher, m: DeviceMap, p: Pool, e: Event)
    requires PoolOk(mt, p) && p.parts == Matching(Matches(mt), m) && KnownDelta(m, e)
    ensures PoolStep(mt, p, e).parts == Matching(Matches(mt), ApplyEvent(m, e)) <==> !Unmatches(Matches(mt), m, e)
  {
    var f := Matches(mt);
    SelectStep(f, m, e);
    if e.Removed? && !f(e.dev) {
      assert e.dev.id !in p.parts;
      assert p.parts - {e.dev.id} == p.parts;
    }
  }

  lemma PoolFromInit(mt: Matcher, m: DeviceMap, devs: seq<Device>)
    requires Keyed(m) && Lists(devs, m)
    ensures PoolStep(mt, Pool(map[], map[]), Init(devs)).parts == Matching(Matches(mt), m)
  {
    AddEachOk(mt, Pool(map[], map[]), devs);
    InitRestoresSelection(Matches(mt), devs, m);
  }

  // ---- notifications ----

  function PoolAfter(mt: Matcher, evs: seq<Event>): Pool {
    if evs == [] then Pool(map[], map[])
    else PoolStep(mt, PoolAfter(mt, evs[..|evs| - 1]), evs[|evs| - 1])
  }

  // The n-th event adds the device.
  ghost predicate AddsAt(evs: seq<Event>, n: int, d: Device) {
    0 <= n < |evs| && (evs[n] == Added(d) || (evs[n].Init? && d in evs[n].devices))
  }

  // An event from the n-th on removes a selected device of this id.
  ghost predicate RemovedSince(mt: Matcher, evs: seq<Event>, n: int, id: string) {
    exists k :: 0 <= k < |evs| && n <= k && evs[k].Removed? && evs[k].dev.id == id && Selected(mt, evs[k].dev)
  }

  ghost predicate PutAt(mt: Matcher, evs: seq<Event>, n: int, id: string) {
    (exists d :: AddsAt(evs, n, d) && d.id == id && Selected(mt, d)) && !RemovedSince(mt, evs, n + 1, id)
  }

  // Everything in a pool is selected, under its id, with group 1 of its name as its label if
  // the matcher has groups, else the whole match.
  ghost predicate HoldsSelected(mt: Matcher, p: Pool) {
    && p.labels.Keys == p.parts.Keys
    && forall id | id in p.parts ::
         && p.parts[id].id == id && Selected(mt, p.parts[id])
         && var groups := mt(p.parts[id].properties["PARTNAME"]);
            p.labels[id] == if |groups| > 1 then groups[1] else groups[0]
  }

  lemma PoolOkIffSelected(mt: Matcher, p: Pool)
    ensures PoolOk(mt, p) <==> HoldsSelected(mt, p)
  {
    forall id | id in p.parts
      ensures MatchLabel(mt, p.parts[id]).Some? <==> Selected(mt, p.parts[id])
    {
      LabelledIffSelected(mt, p.parts[id]);
    }
  }

  // After any stream the pool holds selected devices only, and exactly the ids under which
  // some selected device was added and none removed since.
  lemma PoolIff(mt: Matcher, evs: seq<Event>, id: string)
    ensures HoldsSelected(mt, PoolAfter(mt, evs))
    ensures id in PoolAfter(mt, evs).parts <==> exists n :: PutAt(mt, evs, n, id)
  {
    PoolAfterOk(mt, evs);
    PoolOkIffSelected(mt, PoolAfter(mt, evs));
    PoolIds(mt, evs, id);
  }

  lemma {:induction false} PoolIds(mt: Matcher, evs: seq<Event>, id: string)
    ensures id in PoolAfter(mt, evs).parts <==> exists n :: PutAt(mt, evs, n, id)
    decreases |evs|
  {
    if evs != [] {
      var n := |evs| - 1;
      PoolIds(mt, evs[..n], id);
      PutSnoc(mt, evs, id);
      PoolAfterOne(mt, PoolAfter(mt, evs[..n]), evs[n], id);
    }
  }

  lemma PutSnoc(mt: Matcher, evs: seq<Event>, id: string)
    requires evs != []
    ensures var n := |evs| - 1;
            (exists k :: PutAt(mt, evs, k, id)) <==>
            PutAt(mt, evs, n, id) || ((exists k :: PutAt(mt, evs[..n], k, id)) && !RemovedSince(mt, evs, n, id))
  {
    var n := |evs| - 1;
    forall k | 0 <= k < n
      ensures PutAt(mt, evs, k, id) <==> PutAt(mt, evs[..n], k, id) && !RemovedSince(mt, evs, n, id)
    {
      assert forall d :: AddsAt(evs, k, d) <==> AddsAt(evs[..n], k, d);
      assert RemovedSince(mt, evs, k + 1, id)
             <==> RemovedSince(mt, evs[..n], k + 1, id) || RemovedSince(mt, evs, n, id);
    }
  }

  // One event adds the ids of its selected devices, or drops that of the one it removes.
  lemma PoolAfterOne(mt: Matcher, p: Pool, e: Event, id: string)
    ensures id in PoolStep(mt, p, e).parts
       <==> (exists d :: AddsAt([e], 0, d) && d.id == id && Selected(mt, d)) ||
            (id in p.parts && !RemovedSince(mt, [e], 0, id))
  {
    match e
    case Init(devs) => AddEachIds(mt, p, devs, id);
    case Added(d) => LabelledIffSelected(mt, d);
    case Removed(d) =>
      LabelledIffSelected(mt, d);
      assert [e][0] == e;
  }

  lemma {:induction false} AddEachIds(mt: Matcher, p: Pool, devs: seq<Device>, id: string)
    ensures id in AddEach(mt, p, devs).parts
       <==> id in p.parts || exists d :: d in devs && d.id == id && Selected(mt, d)
  {
    if devs != [] {
      var n := |devs| - 1;
      AddEachIds(mt, p, devs[..n], id);
      LabelledIffSelected(mt, devs[n]);
      assert devs == devs[..n] + [devs[n]];
    }
  }

  // A selected device that was the last to be added under its id, and has not been removed,
  // is in the pool as it came, under group 1 of its name if the matcher has groups, else under
  // the whole match.
  lemma {:induction false} LastAddIsPooled(mt: Matcher, evs: seq<Event>, n: nat, d: Device)
    requires AddsAt(evs, n, d) && Selected(mt, d) && !RemovedSince(mt, evs, n + 1, d.id)
    requires forall k, other | n <= k && AddsAt(evs, k, other) && other.id == d.id :: other == d
    ensures var p, groups := PoolAfter(mt, evs), mt(d.properties["PARTNAME"]);
            && d.id in p.parts && p.parts[d.id] == d
            && d.id in p.labels && p.labels[d.id] == if |groups| > 1 then groups[1] else groups[0]
    decreases |evs|
  {
    var last := |evs| - 1;
    var p := PoolAfter(mt, evs[..last]);
    LabelledIffSelected(mt, d);
    if evs[last].Init? {
      assert forall other | other in evs[last].devices :: AddsAt(evs, last, other);
      OneDeviceAdded(mt, p, evs[last].devices, d);
    }
    if n < last {
      assert forall k, other | n <= k < last :: AddsAt(evs[..last], k, other) ==> AddsAt(evs, k, other);
      assert RemovedSince(mt, evs[..last], n + 1, d.id) ==> RemovedSince(mt, evs, n + 1, d.id);
      LastAddIsPooled(mt, evs[..last], n, d);
      match evs[last]
      case Init(_) =>
      case Added(other) => assert AddsAt(evs, last, other);
      case Removed(other) => LabelledIffSelected(mt, other);
    }
  }

  // The pool has the device under its label.
  ghost predicate Has(mt: Matcher, p: Pool, d: Device) {
    d.id in p.parts && p.parts[d.id] == d && d.id in p.labels && Some(p.labels[d.id]) == MatchLabel(mt, d)
  }

  lemma {:induction false} OneDeviceAdded(mt: Matcher, p: Pool, devs: seq<Device>, d: Device)
    requires MatchLabel(mt, d).Some? && forall other | other in devs && other.id == d.id :: other == d
    ensures d in devs || Has(mt, p, d) ==> Has(mt, AddEach(mt, p, devs), d)
  {
    if devs != [] {
      var n := |devs| - 1;
      assert devs == devs[..n] + [devs[n]];
      assert devs[n] in devs && forall other | other in devs[..n] :: other in devs;
      OneDeviceAdded(mt, p, devs[..n], d);
    }
  }

  // All notifications a stream causes, in order.
  function Notifications(mt: Matcher, evs: seq<Event>): seq<Health> {
    if evs == [] then []
    else
      var n := |evs| - 1;
      Notifications(mt, evs[..n]) +
      match Fires(mt, PoolAfter(mt, evs[..n]), evs[n]) case None => [] case Some(h) => [h]
  }

  predicate EmptyFlips(mt: Matcher, p: Pool, e: Event) {
    (p.parts == map[]) != (PoolStep(mt, p, e).parts == map[])
  }

  // How often the matching set became empty or stopped being empty.
  function Flips(mt: Matcher, evs: seq<Event>): nat {
    if evs == [] then 0
    else
      var n := |evs| - 1;
      Flips(mt, evs[..n]) + if EmptyFlips(mt, PoolAfter(mt, evs[..n]), evs[n]) then 1 else 0
  }

  // A notification without a transition.
  predicate Spurious(mt: Matcher, p: Pool, e: Event) {
    Fires(mt, p, e).Some? && !EmptyFlips(mt, p, e)
  }

  // Only two kinds of event cause one: an Init when the pool is not empty, and the removal
  // of a matching device when it is.
  lemma SpuriousIff(mt: Matcher, p: Pool, e: Event)
    requires PoolOk(mt, p)
    ensures Spurious(mt, p, e) <==>
            (e.Init? && p.parts != map[]) || (e.Removed? && Selected(mt, e.dev) && p.parts == map[])
  {
    if !e.Init? {
      LabelledIffSelected(mt, e.dev);
    }
    if e.Init? {
      AddEachGrows(mt, p, e.devices);
    } else if e.Added? && MatchLabel(mt, e.dev).Some? {
      assert e.dev.id in Add(mt, p, e.dev).parts;
    }
  }

  lemma {:induction false} AddEachGrows(mt: Matcher, p: Pool, devs: seq<Device>)
    ensures p.parts.Keys <= AddEach(mt, p, devs).parts.Keys
  {
    if devs != [] {
      AddEachGrows(mt, p, devs[..|devs| - 1]);
    }
  }

  // A transition is always notified, with the health it leads to.
  lemma FlipFires(mt: Matcher, p: Pool, e: Event)
    requires PoolOk(mt, p)
    ensures EmptyFlips(mt, p, e) ==>
              Fires(mt, p, e) == Some(if PoolStep(mt, p, e).parts == map[] then Unhealthy else Healthy)
  {
    if e.Init? {
      AddEachGrows(mt, p, e.devices);
    } else if e.Added? && MatchLabel(mt, e.dev).Some? {
      assert e.dev.id in Add(mt, p, e.dev).parts;
    }
  }

  // A notification always says what the pool has become.
  lemma FiresTruly(mt: Matcher, p: Pool, e: Event)
    ensures Fires(mt, p, e).Some? ==> (Fires(mt, p, e).value.Healthy? <==> PoolStep(mt, p, e).parts != map[])
  {
    if e.Added? && MatchLabel(mt, e.dev).Some? {
      assert e.dev.id in Add(mt, p, e.dev).parts;
    }
  }

  ghost predicate Alternates(hs: seq<Health>) {
    forall i | 0 <= i < |hs| :: hs[i] == if i % 2 == 0 then Healthy else Unhealthy
  }

  lemma AlternatesSnoc(hs: seq<Health>, h: Health)
    ensures Alternates(hs + [h]) <==> Alternates(hs) && h == if |hs| % 2 == 0 then Healthy else Unhealthy
  {
    assert forall i | 0 <= i < |hs| :: (hs + [h])[i] == hs[i];
    assert (hs + [h])[|hs|] == h;
  }

  ghost predicate NoneSpurious(mt: Matcher, evs: seq<Event>) {
    forall n | 0 <= n < |evs| :: !Spurious(mt, PoolAfter(mt, evs[..n]), evs[n])
  }

  lemma {:induction false} PoolAfterOk(mt: Matcher, evs: seq<Event>)
    ensures PoolOk(mt, PoolAfter(mt, evs))
  {
    if evs != [] {
      PoolAfterOk(mt, evs[..|evs| - 1]);
      PoolStepOk(mt, PoolAfter(mt, evs[..|evs| - 1]), evs[|evs| - 1]);
    }
  }

  // The bookkeeping of one event: what it fires, and whether emptiness flips.
  lemma OneMoreNotification(
      before: seq<Health>, fires: Option<Health>, wasEmpty: bool, isEmpty: bool, clean: bool, flips: nat)
    requires Alternates(before) <==> clean
    requires clean ==> |before| == flips && (|before| % 2 == 1 <==> !wasEmpty)
    requires wasEmpty != isEmpty ==> fires.Some?
    requires fires.Some? ==> (fires.value.Healthy? <==> !isEmpty)
    ensures var now := before + match fires { case None => [] case Some(h) => [h] };
            var stillClean := clean && !(fires.Some? && wasEmpty == isEmpty);
            && (Alternates(now) <==> stillClean)
            && (stillClean ==> |now| == flips + if wasEmpty != isEmpty then 1 else 0)
            && (stillClean ==> (|now| % 2 == 1 <==> !isEmpty))
  {
    if fires.Some? {
      AlternatesSnoc(before, fires.value);
    } else {
      assert before + [] == before;
    }
  }

  // The notifications of a stream strictly alternate Healthy, Unhealthy, ... exactly when
  // none of its events is spurious; there is then one for each transition, and the last
  // one says whether the pool is empty.
  lemma {:induction false} AlternatesIffNoneSpurious(mt: Matcher, evs: seq<Event>)
    ensures Alternates(Notifications(mt, evs)) <==> NoneSpurious(mt, evs)
    ensures NoneSpurious(mt, evs) ==> |Notifications(mt, evs)| == Flips(mt, evs)
    ensures NoneSpurious(mt, evs) ==> (|Notifications(mt, evs)| % 2 == 1 <==> PoolAfter(mt, evs).parts != map[])
  {
    if evs != [] {
      var n := |evs| - 1;
      var p := PoolAfter(mt, evs[..n]);
      AlternatesIffNoneSpurious(mt, evs[..n]);
      PoolAfterOk(mt, evs[..n]);
      FlipFires(mt, p, evs[n]);
      FiresTruly(mt, p, evs[n]);
      NoneSpuriousSnoc(mt, evs);
      OneMoreNotification(
        Notifications(mt, evs[..n]), Fires(mt, p, evs[n]), p.parts == map[], PoolAfter(mt, evs).parts == map[],
        NoneSpurious(mt, evs[..n]), Flips(mt, evs[..n]));
    }
  }

  lemma NoneSpuriousSnoc(mt: Matcher, evs: seq<Event>)
    requires evs != []
    ensures var n := |evs| - 1;
            NoneSpurious(mt, evs) <==> NoneSpurious(mt, evs[..n]) && !Spurious(mt, PoolAfter(mt, evs[..n]), evs[n])
  {
    var n := |evs| - 1;
    assert forall k | 0 <= k <= n :: evs[..n][..k] == evs[..k];
  }

  // A stream as a discovery sends it: one leading Init that lists a map, then regular events.
  ghost predicate WellFormed(mt: Matcher, m: DeviceMap, evs: seq<Event>) {
    && Keyed(m)
    && evs != [] && evs[0].Init? && Lists(evs[0].devices, m)
    && forall n | 1 <= n < |evs| :: Regular(Matches(mt), Fold(map[], evs[..n]), evs[n])
  }

  lemma OneMore(mt: Matcher, evs: seq<Event>, n: nat)
    requires n < |evs|
    ensures PoolAfter(mt, evs[..n + 1]) == PoolStep(mt, PoolAfter(mt, evs[..n]), evs[n])
    ensures Fold(map[], evs[..n + 1]) == ApplyEvent(Fold(map[], evs[..n]), evs[n])
  {
    assert evs[..n + 1][..n] == evs[..n];
  }

  lemma {:induction false} WellFormedPool(mt: Matcher, m: DeviceMap, evs: seq<Event>, n: nat)
    requires WellFormed(mt, m, evs) && 1 <= n <= |evs|
    ensures PoolAfter(mt, evs[..n]).parts == Matching(Matches(mt), Fold(map[], evs[..n]))
  {
    OneMore(mt, evs, n - 1);
    if n == 1 {
      assert evs[..0] == [];
      InitRestoresState(evs[0].devices, m);
      PoolFromInit(mt, m, evs[0].devices);
    } else {
      WellFormedPool(mt, m, evs, n - 1);
      PoolAfterOk(mt, evs[..n - 1]);
      PoolFollowsIff(mt, Fold(map[], evs[..n - 1]), PoolAfter(mt, evs[..n - 1]), evs[n - 1]);
    }
  }

  // On every well-formed stream the notifications alternate, one per transition of the
  // matching set.
  lemma WellFormedStreamsAlternate(mt: Matcher, m: DeviceMap, evs: seq<Event>)
    requires WellFormed(mt, m, evs)
    ensures Alternates(Notifications(mt, evs)) && |Notifications(mt, evs)| == Flips(mt, evs)
    ensures |Notifications(mt, evs)| % 2 == 1 <==> Matching(Matches(mt), Fold(map[], evs)) != map[]
  {
    forall n | 0 <= n < |evs|
      ensures !Spurious(mt, PoolAfter(mt, evs[..n]), evs[n])
    {
      PoolAfterOk(mt, evs[..n]);
      SpuriousIff(mt, PoolAfter(mt, evs[..n]), evs[n]);
      if n == 0 {
        assert evs[..0] == [];
      } else {
        WellFormedPool(mt, m, evs, n);
        if evs[n].Removed? && Selected(mt, evs[n].dev) {
          LabelledIffSelected(mt, evs[n].dev);
          assert evs[n].dev.id in Matching(Matches(mt), Fold(map[], evs[..n]));
        }
      }
    }
    AlternatesIffNoneSpurious(mt, evs);
    WellFormedPool(mt, m, evs, |evs|);
    assert evs[..|evs|] == evs;
  }
}
