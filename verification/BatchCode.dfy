// The pool, the seats and the event loop of internal/plugin/batch_partition.go as code.
module BatchCode {
  import opened Allocation
  import opened Batch
  import opened Listings
  import opened Naming
  import opened Resources
  import opened Udev

  // batchPartitionPool; each method is one critical section.
  class PartitionPool {
    const domain: string
    var parts: DeviceMap
    var labels: map<string, string>

    ghost function View(): Pool
      reads this
    {
      Pool(parts, labels)
    }

    constructor (domain: string)
      ensures View() == Pool(map[], map[]) && this.domain == domain
    {
      this.domain := domain;
      parts, labels := map[], map[];
    }

    method Health() returns (h: Health)
      ensures h.Healthy? <==> parts != map[]
    {
      h := if |parts| == 0 then Unhealthy else Healthy;
    }

    method Empty() returns (empty: bool)
      ensures empty <==> parts == map[]
    {
      empty := |parts| == 0;
    }

    method Insert(dev: Device, tag: string)
      modifies this
      ensures View() == Pool(old(parts)[dev.id := dev], old(labels)[dev.id := tag])
    {
      parts := parts[dev.id := dev];
      labels := labels[dev.id := tag];
    }

    method Delete(id: string)
      modifies this
      ensures View() == Pool(old(parts) - {id}, old(labels) - {id})
    {
      parts := parts - {id};
      labels := labels - {id};
    }

    // The part of allocate that holds the lock.
    method Members() returns (snapshot: seq<Member>)
      requires Keyed(parts) && labels.Keys == parts.Keys
      ensures ListsMembers(View(), snapshot) && |snapshot| == |parts|
    {
      var devs := ListValues(DeviceId, parts);
      ListingLength(DeviceId, devs, parts);
      snapshot := [];
      for i := 0 to |devs|
        invariant |snapshot| == i
        invariant forall k | 0 <= k < i :: snapshot[k] == Member(devs[k], labels[devs[k].id])
      {
        snapshot := snapshot + [Member(devs[i], labels[devs[i].id])];
      }
      SnapshotListsMembers(View(), devs, snapshot);
    }

    // One device spec per member of the pool as it is now; no member's variables are lost
    // exactly if members whose labels sanitise alike agree, so if no two labels do.
    method Allocate() returns (response: Response, ghost members: seq<Member>)
      requires Keyed(parts) && labels.Keys == parts.Keys
      ensures ListsMembers(View(), members)
      ensures response == BatchResponse(domain, members)
      ensures |response.devices| == |members| == |parts|
      ensures forall i | 0 <= i < |members| :: Hands(response.devices[i], members[i].dev, domain, members[i].tag)
      ensures AllKept(domain, members) <==> forall v: Variable :: OneValue(domain, members, v)
      ensures DistinctLabels(members) ==> AllKept(domain, members)
    {
      var snapshot := Members();
      var responses := AllocateEach(domain, snapshot);
      response := MergeResponses(responses);
      members := snapshot;
      BatchDevices(domain, members);
      VariablesSurviveIff(domain, members);
      if DistinctLabels(members) {
        BatchKeepsEveryVariable(domain, members);
      }
    }
  }

  method AllocateMember(domain: string, m: Member) returns (response: Response)
    ensures response == PartitionResponse(m.dev, domain, m.tag)
  {
    response := AllocatePartitionDevice(m.dev, domain, m.tag);
  }

  method AllocateEach(domain: string, members: seq<Member>) returns (responses: seq<Option<Response>>)
    ensures responses == MemberResponses(domain, members)
  {
    responses := [];
    for i := 0 to |members|
      invariant responses == MemberResponses(domain, members[..i])
    {
      var r := AllocateMember(domain, members[i]);
      MemberResponsesSnoc(domain, members[..i], members[i]);
      PrefixSnoc(members, i);
      responses := responses + [Some(r)];
    }
    assert members[..|members|] == members;
  }

  lemma MemberResponsesSnoc(domain: string, members: seq<Member>, last: Member)
    ensures MemberResponses(domain, members + [last]) ==
            MemberResponses(domain, members) + [Some(PartitionResponse(last.dev, domain, last.tag))]
  {
  }

  // Every pool member once, with its label.
  ghost predicate ListsMembers(p: Pool, members: seq<Member>) {
    && (forall i | 0 <= i < |members| ::
          var d := members[i].dev;
          d.id in p.parts && p.parts[d.id] == d && d.id in p.labels && members[i].tag == p.labels[d.id])
    && (forall id | id in p.parts :: exists i :: 0 <= i < |members| && members[i].dev == p.parts[id])
    && (forall i, j | 0 <= i < j < |members| :: members[i].dev != members[j].dev)
  }

  lemma SnapshotListsMembers(p: Pool, devs: seq<Device>, members: seq<Member>)
    requires ListsBy(DeviceId, devs, p.parts) && p.labels.Keys == p.parts.Keys && |members| == |devs|
    requires forall k | 0 <= k < |devs| :: devs[k].id in p.labels && members[k] == Member(devs[k], p.labels[devs[k].id])
    ensures ListsMembers(p, members)
  {
    forall id | id in p.parts
      ensures exists i :: 0 <= i < |members| && members[i].dev == p.parts[id]
    {
      var i :| 0 <= i < |devs| && devs[i] == p.parts[id];
      assert members[i].dev == p.parts[id];
    }
  }

  function SeatIds(count: nat): (ids: seq<string>)
    ensures |ids| == count
  {
    seq(count, i requires 0 <= i => Decimal(i))
  }

  // Different seats have different ids.
  lemma SeatIdsDistinct(count: nat, i: nat, j: nat)
    requires i < count && j < count
    ensures SeatIds(count)[i] == SeatIds(count)[j] <==> i == j
  {
    if i != j {
      DecimalsDistinct(i, j);
    }
  }

  function SeatMap(ids: seq<string>): InstanceMap {
    map id | id in ids :: Seat(id)
  }

  lemma SeatMapSnoc(ids: seq<string>, id: string)
    ensures SeatMap(ids + [id]) == SeatMap(ids)[id := Seat(id)]
    ensures id !in ids ==> |SeatMap(ids)[id := Seat(id)]| == |SeatMap(ids)| + 1
  {
  }

  lemma NewSeatId(ids: seq<string>)
    requires ids == SeatIds(|ids|)
    ensures Decimal(|ids|) !in ids && ids + [Decimal(|ids|)] == SeatIds(|ids| + 1)
  {
    var n := |ids|;
    forall k | 0 <= k < n
      ensures ids[k] != Decimal(n)
    {
      DecimalsDistinct(k, n);
    }
    SeatIdsSnoc(n);
  }

  lemma DecimalsDistinct(i: nat, j: nat)
    requires i != j
    ensures Decimal(i) != Decimal(j)
  {
    DecimalRoundTrip(i);
    DecimalRoundTrip(j);
  }

  lemma SeatIdsSnoc(n: nat)
    ensures SeatIds(n + 1) == SeatIds(n) + [Decimal(n)]
  {
  }

  method MakeSeats(count: nat) returns (instanceMap: InstanceMap, seats: seq<Instance>)
    ensures seats == SeatList(SeatIds(count))
    ensures instanceMap == SeatMap(SeatIds(count)) && |instanceMap| == count
    ensures forall i | 0 <= i < count ::
              seats[i] == Seat(Decimal(i)) && Decimal(i) in instanceMap && instanceMap[Decimal(i)] == seats[i]
  {
    instanceMap, seats := map[], [];
    ghost var ids := [];
    for i := 0 to count
      invariant ids == SeatIds(i) && seats == SeatList(ids)
      invariant instanceMap == SeatMap(ids) && |instanceMap| == i
    {
      var seat := Seat(Decimal(i));
      NewSeatId(ids);
      SeatMapSnoc(ids, seat.id);
      SeatListSnoc(ids, seat.id);
      ids := ids + [seat.id];
      instanceMap := instanceMap[seat.id := seat];
      seats := seats + [seat];
    }
  }

  lemma SeatListSnoc(ids: seq<string>, id: string)
    ensures SeatList(ids + [id]) == SeatList(ids) + [Seat(id)]
  {
  }

  // matchBatchPartitionDevice: nil for a nil device, one that is no partition or has no
  // name, and a name without a match.
  method MatchDevice(mt: Matcher, dev: Option<Device>) returns (matched: Option<(string, string)>)
    ensures matched == match dev
                       case None => None
                       case Some(d) => if MatchLabel(mt, d).None? then None else Some((d.id, MatchLabel(mt, d).value))
    ensures matched.Some? <==> dev.Some? && Selected(mt, dev.value)
  {
    if dev.None? {
      return None;
    }
    var d := dev.value;
    if d.subsystem != BLOCK_SUBSYSTEM || d.devType != DEVTYPE_PARTITION || PROPERTY_PARTNAME !in d.properties {
      return None;
    }
    var matches := mt(d.properties[PROPERTY_PARTNAME]);
    if |matches| == 0 {
      return None;
    }
    var tag := matches[0];
    if |matches| > 1 {
      tag := matches[1];
    }
    return Some((d.id, tag));
  }

  class BatchScatter {
    const matcher: Matcher
    const pool: PartitionPool
    const res: Resource
    const ids: seq<string>
    const seats: seq<Instance>

    // The state of Batch this code is in between two events.
    ghost function View(): BatchState
      reads this, pool, res
    {
      BatchState(pool.View(), res.instances, Idle)
    }

    ghost predicate Valid()
      reads this, pool, res
    {
      seats == SeatList(ids) && res.Valid() && BatchInv(matcher, ids, View())
    }

    // count seats with ids "0", "1", ..., all sharing one empty pool.
    constructor (domain: string, name: string, matcher: Matcher, count: nat)
      ensures Valid() && fresh(pool) && fresh(res)
      ensures View() == Fresh(ids) && ids == SeatIds(count)
      ensures |res.instances| == count
      ensures res.template == Template(domain, "batch-" + name) && this.matcher == matcher
    {
      var p := new PartitionPool(domain);
      var instanceMap, list := MakeSeats(count);
      var r := new Resource(Template(domain, "batch-" + name), instanceMap);
      this.matcher := matcher;
      pool := p;
      res := r;
      ids := SeatIds(count);
      seats := list;
      new;
      FreshInv(matcher, ids);
    }

    // The first loop of an Init: nothing is notified yet.
    method AddMatchingDevices(devs: seq<Device>)
      modifies pool
      ensures pool.View() == AddEach(matcher, old(pool.View()), devs)
    {
      for i := 0 to |devs|
        invariant pool.View() == AddEach(matcher, old(pool.View()), devs[..i])
      {
        assert devs[..i + 1][..i] == devs[..i];
        var matched := MatchDevice(matcher, Some(devs[i]));
        if matched.Some? {
          pool.Insert(devs[i], matched.value.1);
        }
      }
      assert devs[..|devs|] == devs;
    }

    // One event of the stream: the pool follows it, the seats are notified on its edge, and
    // afterwards every seat is healthy exactly if the pool is not empty.
    method HandleEvent(e: Event) returns (notified: Option<Health>)
      requires Valid()
      modifies pool, res
      ensures Valid() && View() == Handle(matcher, ids, old(View()), e)
      ensures notified == Fires(matcher, old(pool.View()), e)
      ensures HoldsSelected(matcher, pool.View())
      ensures e.Added? && Selected(matcher, e.dev) ==> e.dev.id in pool.parts && pool.parts[e.dev.id] == e.dev
      ensures forall id | id in ids :: id in res.instances &&
                (HealthOf(res.instances[id], pool.parts == map[]).Healthy? <==> pool.parts != map[])
    {
      notified := None;
      match e {
        case Init(devs) =>
          AddMatchingDevices(devs);
          var empty := pool.Empty();
          if !empty {
            notified := Some(Healthy);
          }
        case Added(d) =>
          var matched := MatchDevice(matcher, Some(d));
          if matched.Some? {
            var wasEmpty := pool.Empty();
            pool.Insert(d, matched.value.1);
            if wasEmpty {
              notified := Some(Healthy);
            }
          }
        case Removed(d) =>
          var matched := MatchDevice(matcher, Some(d));
          if matched.Some? {
            pool.Delete(matched.value.0);
            var empty := pool.Empty();
            if empty {
              notified := Some(Unhealthy);
            }
          }
      }
      if notified.Some? {
        var snapshot := res.Submit(seats, notified.value);
      }
      HandleKeepsInv(matcher, ids, old(View()), e);
      PoolOkIffSelected(matcher, pool.View());
      forall id | id in ids
        ensures id in res.instances &&
                (HealthOf(res.instances[id], pool.parts == map[]).Healthy? <==> pool.parts != map[])
      {
        HealthExactWhenIdle(matcher, ids, View(), id);
      }
    }
  }

  // Handling an event in one go keeps the invariant of the step-by-step goroutine.
  lemma HandleKeepsInv(mt: Matcher, ids: seq<string>, b: BatchState, e: Event)
    requires BatchInv(mt, ids, b) && b.pc.Idle?
    ensures BatchInv(mt, ids, Handle(mt, ids, b, e))
  {
    ReceiveKeepsInv(mt, ids, b, e);
    StepsHandleEvent(mt, ids, b, e);
    FinishKeepsInv(mt, ids, Receive(b, e));
  }

  lemma {:induction false} FinishKeepsInv(mt: Matcher, ids: seq<string>, b: BatchState)
    requires BatchInv(mt, ids, b)
    ensures BatchInv(mt, ids, Finish(mt, ids, b))
    decreases match b.pc case Idle => 0 case Notify(_) => 1 case Got(_) => 2 case Adding(devs) => 2 + |devs|
  {
    if !b.pc.Idle? {
      StepKeepsInv(mt, ids, b);
      FinishKeepsInv(mt, ids, Step(mt, ids, b));
    }
  }
}
