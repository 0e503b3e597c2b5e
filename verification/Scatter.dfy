// Routing devices to resources (internal/plugin/scatter.go): what a stream of events makes
// of the routes, and the code that does it.
module Scatter {
  import opened Listings
  import opened Resources
  import opened Udev

  // The pure part of a scatter: a device may have a template, and instances. A nil template
  // and an error both mean that the event is skipped.
  datatype Plan = Plan(templater: Device -> Option<Template>, mapper: Device -> Option<seq<Instance>>)

  // `attempts` counts the calls of registry.Add; the k-th succeeds if the oracle says so.
  datatype Routing = Routing(routes: map<Template, InstanceMap>, attempts: nat)

  type Registry = nat -> bool

  ghost predicate PlanOk(plan: Plan) {
    forall d: Device | plan.mapper(d).Some? :: forall i | i in plan.mapper(d).value :: Raw(i)
  }

  function RawMap(instances: seq<Instance>): InstanceMap {
    if instances == [] then map[]
    else
      var last := instances[|instances| - 1];
      RawMap(instances[..|instances| - 1])[InstanceId(last) := last]
  }

  function AddDevice(plan: Plan, reg: Registry, s: Routing, d: Device): Routing {
    match plan.templater(d)
    case None => s
    case Some(t) =>
      match plan.mapper(d)
      case None => s
      case Some(instances) =>
        if t in s.routes then s.(routes := s.routes[t := Overridden(s.routes[t], instances, Healthy)])
        else if reg(s.attempts) then Routing(s.routes[t := RawMap(instances)], s.attempts + 1)
        else s.(attempts := s.attempts + 1)
  }

  function RemoveDevice(plan: Plan, s: Routing, d: Device): Routing {
    match plan.templater(d)
    case None => s
    case Some(t) =>
      match plan.mapper(d)
      case None => s
      case Some(instances) =>
        if t in s.routes then s.(routes := s.routes[t := Overridden(s.routes[t], instances, Unhealthy)]) else s
  }

  function AddEach(plan: Plan, reg: Registry, s: Routing, devs: seq<Device>): Routing {
    if devs == [] then s else AddDevice(plan, reg, AddEach(plan, reg, s, devs[..|devs| - 1]), devs[|devs| - 1])
  }

  function Step(plan: Plan, reg: Registry, s: Routing, e: Event): Routing {
    match e
    case Init(devs) => AddEach(plan, reg, s, devs)
    case Added(d) => AddDevice(plan, reg, s, d)
    case Removed(d) => RemoveDevice(plan, s, d)
  }

  function Run(plan: Plan, reg: Registry, s: Routing, evs: seq<Event>): Routing {
    if evs == [] then s else Step(plan, reg, Run(plan, reg, s, evs[..|evs| - 1]), evs[|evs| - 1])
  }

  // ---- single entries ----

  // Device d provides instance id of template t.
  predicate Provides(plan: Plan, d: Device, t: Template, id: string) {
    plan.templater(d) == Some(t) && plan.mapper(d).Some? &&
    exists i :: i in plan.mapper(d).value && InstanceId(i) == id
  }

  // The entry is forced unhealthy, whatever its instance says.
  predicate Forced(i: Instance) {
    i.Override? && i.health.Unhealthy?
  }

  predicate HasEntry(s: Routing, t: Template, id: string) {
    t in s.routes && id in s.routes[t]
  }

  lemma {:induction false} RawMapContents(instances: seq<Instance>)
    ensures forall id :: id in RawMap(instances) <==> exists i :: i in instances && InstanceId(i) == id
    ensures forall id | id in RawMap(instances) ::
              RawMap(instances)[id] in instances && InstanceId(RawMap(instances)[id]) == id
  {
    if instances != [] {
      var n := |instances| - 1;
      RawMapContents(instances[..n]);
      assert instances == instances[..n] + [instances[n]];
      forall id
        ensures id in RawMap(instances) <==> exists i :: i in instances && InstanceId(i) == id
      {
        if i :| i in instances && InstanceId(i) == id {
          assert i in instances[..n] || i == instances[n];
        }
      }
    }
  }

  // What one device event does to one entry of an existing route.
  lemma EntryAfterChange(plan: Plan, reg: Registry, s: Routing, d: Device, h: Health, t: Template, id: string)
    requires t in s.routes
    ensures var s' := if h.Healthy? then AddDevice(plan, reg, s, d) else RemoveDevice(plan, s, d);
            && t in s'.routes
            && (HasEntry(s', t, id) <==> HasEntry(s, t, id) || Provides(plan, d, t, id))
            && (HasEntry(s', t, id) ==>
                  if Provides(plan, d, t, id) then s'.routes[t][id].Override? && s'.routes[t][id].health == h
                  else s'.routes[t][id] == s.routes[t][id])
  {
    if plan.templater(d) == Some(t) && plan.mapper(d).Some? {
      OverriddenContents(s.routes[t], plan.mapper(d).value, h);
    }
  }

  // A template without a route gets one exactly if the device has it, has instances and the
  // registration succeeds; the route holds the device's raw instances.
  lemma EntryOfNewRoute(plan: Plan, reg: Registry, s: Routing, d: Device, t: Template, id: string)
    requires PlanOk(plan) && t !in s.routes
    ensures var s' := AddDevice(plan, reg, s, d);
            && (t in s'.routes <==> plan.templater(d) == Some(t) && plan.mapper(d).Some? && reg(s.attempts))
            && (plan.templater(d) == Some(t) && plan.mapper(d).Some? ==> s'.attempts == s.attempts + 1)
            && (HasEntry(s', t, id) <==> t in s'.routes && Provides(plan, d, t, id))
            && (HasEntry(s', t, id) ==> Raw(s'.routes[t][id]))
  {
    if plan.templater(d) == Some(t) && plan.mapper(d).Some? {
      RawMapContents(plan.mapper(d).value);
    }
  }

  // ---- over whole streams ----

  // Routes and ids are never dropped.
  lemma {:induction false} IdsNeverDropped(plan: Plan, reg: Registry, s: Routing, evs: seq<Event>, t: Template,
      id: string)
    requires HasEntry(s, t, id)
    ensures HasEntry(Run(plan, reg, s, evs), t, id)
  {
    if evs != [] {
      var n := |evs| - 1;
      IdsNeverDropped(plan, reg, s, evs[..n], t, id);
      var before := Run(plan, reg, s, evs[..n]);
      match evs[n]
      case Init(devs) => EntryAfterInit(plan, reg, before, devs, t, id);
      case Added(d) => EntryAfterChange(plan, reg, before, d, Healthy, t, id);
      case Removed(d) => EntryAfterChange(plan, reg, before, d, Unhealthy, t, id);
    }
  }

  ghost predicate ProvidedByOne(plan: Plan, devs: seq<Device>, t: Template, id: string) {
    exists d :: d in devs && Provides(plan, d, t, id)
  }

  lemma {:induction false} EntryAfterInit(plan: Plan, reg: Registry, s: Routing, devs: seq<Device>, t: Template,
      id: string)
    requires t in s.routes
    ensures var s' := AddEach(plan, reg, s, devs);
            && t in s'.routes
            && (HasEntry(s', t, id) <==> HasEntry(s, t, id) || ProvidedByOne(plan, devs, t, id))
            && (HasEntry(s', t, id) ==>
                  if ProvidedByOne(plan, devs, t, id) then !Forced(s'.routes[t][id])
                  else s'.routes[t][id] == s.routes[t][id])
  {
    if devs != [] {
      var n := |devs| - 1;
      EntryAfterInit(plan, reg, s, devs[..n], t, id);
      EntryAfterChange(plan, reg, AddEach(plan, reg, s, devs[..n]), devs[n], Healthy, t, id);
      assert devs == devs[..n] + [devs[n]];
      assert ProvidedByOne(plan, devs, t, id)
             <==> ProvidedByOne(plan, devs[..n], t, id) || Provides(plan, devs[n], t, id);
    }
  }

  // The health the last event about an entry gave it, if there was one.
  ghost function LastWord(plan: Plan, evs: seq<Event>, t: Template, id: string): Option<Health> {
    if evs == [] then None
    else
      var n := |evs| - 1;
      match evs[n]
      case Init(devs) =>
        if ProvidedByOne(plan, devs, t, id) then Some(Healthy) else LastWord(plan, evs[..n], t, id)
      case Added(d) => if Provides(plan, d, t, id) then Some(Healthy) else LastWord(plan, evs[..n], t, id)
      case Removed(d) => if Provides(plan, d, t, id) then Some(Unhealthy) else LastWord(plan, evs[..n], t, id)
  }

  // Last writer wins: from any state on, an entry of a route exists if it did or if some
  // event was about it, and is forced unhealthy exactly if the last such event was a
  // removal. An initial raw instance counts as healthy.
  lemma {:induction false} LastWriterWins(plan: Plan, reg: Registry, s: Routing, evs: seq<Event>, t: Template,
      id: string)
    requires t in s.routes
    ensures var s' := Run(plan, reg, s, evs);
            && t in s'.routes
            && (HasEntry(s', t, id) <==> HasEntry(s, t, id) || LastWord(plan, evs, t, id).Some?)
            && (HasEntry(s', t, id) ==>
                  match LastWord(plan, evs, t, id)
                  case None => s'.routes[t][id] == s.routes[t][id]
                  case Some(h) => Forced(s'.routes[t][id]) <==> h.Unhealthy?)
  {
    if evs != [] {
      var n := |evs| - 1;
      LastWriterWins(plan, reg, s, evs[..n], t, id);
      var before := Run(plan, reg, s, evs[..n]);
      match evs[n]
      case Init(devs) => EntryAfterInit(plan, reg, before, devs, t, id);
      case Added(d) => EntryAfterChange(plan, reg, before, d, Healthy, t, id);
      case Removed(d) => EntryAfterChange(plan, reg, before, d, Unhealthy, t, id);
    }
  }

  // ---- live devices ----

  // Some live device provides the entry.
  ghost predicate Live(plan: Plan, m: DeviceMap, t: Template, id: string) {
    exists dev :: dev in m && Provides(plan, m[dev], t, id)
  }

  // Two live devices never provide the same entry.
  ghost predicate Distinct(plan: Plan, m: DeviceMap) {
    forall a, b, t, id | a in m && b in m && Provides(plan, m[a], t, id) && Provides(plan, m[b], t, id) :: a == b
  }

  // A re-added device still provides what it did.
  ghost predicate KeepsEntries(plan: Plan, m: DeviceMap, d: Device) {
    d.id in m ==> forall t, id | Provides(plan, m[d.id], t, id) :: Provides(plan, d, t, id)
  }

  // Entries are un-forced exactly when live.
  ghost predicate Truthful(plan: Plan, s: Routing, m: DeviceMap) {
    forall t, id | HasEntry(s, t, id) :: !Forced(s.routes[t][id]) <==> Live(plan, m, t, id)
  }

  lemma LiveAfterAdd(plan: Plan, m: DeviceMap, d: Device, t: Template, id: string)
    requires KeepsEntries(plan, m, d)
    ensures Live(plan, m[d.id := d], t, id) <==> Live(plan, m, t, id) || Provides(plan, d, t, id)
  {
    var m' := m[d.id := d];
    if Provides(plan, d, t, id) {
      assert d.id in m' && Provides(plan, m'[d.id], t, id);
    }
    if dev :| dev in m && Provides(plan, m[dev], t, id) {
      assert dev in m' && Provides(plan, m'[dev], t, id);
    }
  }

  lemma AddKeepsTruth(plan: Plan, reg: Registry, s: Routing, m: DeviceMap, d: Device)
    requires PlanOk(plan) && Truthful(plan, s, m) && KeepsEntries(plan, m, d)
    ensures Truthful(plan, AddDevice(plan, reg, s, d), m[d.id := d])
  {
    var s' := AddDevice(plan, reg, s, d);
    forall t, id | HasEntry(s', t, id)
      ensures !Forced(s'.routes[t][id]) <==> Live(plan, m[d.id := d], t, id)
    {
      LiveAfterAdd(plan, m, d, t, id);
      if t in s.routes {
        EntryAfterChange(plan, reg, s, d, Healthy, t, id);
      } else {
        EntryOfNewRoute(plan, reg, s, d, t, id);
      }
    }
  }

  // ---- where an entry is wrong ----

  // A live device other than this one provides the entry.
  ghost predicate LiveElsewhere(plan: Plan, m: DeviceMap, dev: string, t: Template, id: string) {
    exists other :: other in m && other != dev && Provides(plan, m[other], t, id)
  }

  ghost predicate OnlyProvider(plan: Plan, m: DeviceMap, dev: string, t: Template, id: string) {
    dev in m && Provides(plan, m[dev], t, id) && !LiveElsewhere(plan, m, dev, t, id)
  }

  // The entry, if there is one, is un-forced exactly when live.
  ghost predicate Right(plan: Plan, s: Routing, m: DeviceMap, t: Template, id: string) {
    HasEntry(s, t, id) ==> (!Forced(s.routes[t][id]) <==> Live(plan, m, t, id))
  }

  // The last provider of an entry is re-added and provides it no more, which no event is sent
  // about; or one of several providers is removed, which forces the entry of all. Every later
  // event about the entry decides anew.
  ghost predicate Wrong(plan: Plan, m: DeviceMap, evs: seq<Event>, t: Template, id: string) {
    evs != [] &&
    var before, e := Fold(m, evs[..|evs| - 1]), evs[|evs| - 1];
    var was := Wrong(plan, m, evs[..|evs| - 1], t, id);
    match e
    case Init(_) => was
    case Added(d) =>
      if Provides(plan, d, t, id) then false
      else if OnlyProvider(plan, before, d.id, t, id) then !was
      else was
    case Removed(d) => if Provides(plan, d, t, id) then LiveElsewhere(plan, before, d.id, t, id) else was
  }

  lemma LiveSplit(plan: Plan, m: DeviceMap, dev: string, t: Template, id: string)
    ensures Live(plan, m, t, id) <==>
            (dev in m && Provides(plan, m[dev], t, id)) || LiveElsewhere(plan, m, dev, t, id)
  {
  }

  lemma LiveAfterAdded(plan: Plan, m: DeviceMap, d: Device, t: Template, id: string)
    ensures Live(plan, m[d.id := d], t, id) <==> Provides(plan, d, t, id) || LiveElsewhere(plan, m, d.id, t, id)
  {
    var m' := m[d.id := d];
    LiveSplit(plan, m', d.id, t, id);
    if other :| other in m && other != d.id && Provides(plan, m[other], t, id) {
      assert other in m' && Provides(plan, m'[other], t, id);
    }
    if other :| other in m' && other != d.id && Provides(plan, m'[other], t, id) {
      assert other in m && Provides(plan, m[other], t, id);
    }
  }

  lemma LiveAfterRemoved(plan: Plan, m: DeviceMap, dev: string, t: Template, id: string)
    ensures Live(plan, m - {dev}, t, id) <==> LiveElsewhere(plan, m, dev, t, id)
  {
    var m' := m - {dev};
    if other :| other in m && other != dev && Provides(plan, m[other], t, id) {
      assert other in m' && Provides(plan, m'[other], t, id);
    }
    if other :| other in m' && Provides(plan, m'[other], t, id) {
      assert other in m && other != dev && Provides(plan, m[other], t, id);
    }
  }

  lemma AddedDecides(plan: Plan, reg: Registry, s: Routing, m: DeviceMap, d: Device, t: Template, id: string, was: bool)
    requires PlanOk(plan) && HasEntry(AddDevice(plan, reg, s, d), t, id)
    requires HasEntry(s, t, id) ==> (Right(plan, s, m, t, id) <==> !was)
    ensures Right(plan, AddDevice(plan, reg, s, d), m[d.id := d], t, id) <==>
            || Provides(plan, d, t, id)
            || (if OnlyProvider(plan, m, d.id, t, id) then was else !was)
  {
    LiveAfterAdded(plan, m, d, t, id);
    LiveSplit(plan, m, d.id, t, id);
    if t in s.routes {
      EntryAfterChange(plan, reg, s, d, Healthy, t, id);
    } else {
      EntryOfNewRoute(plan, reg, s, d, t, id);
    }
  }

  lemma RemovedDecides(
      plan: Plan, reg: Registry, s: Routing, m: DeviceMap, d: Device, t: Template, id: string, was: bool)
    requires d.id in m && m[d.id] == d && HasEntry(RemoveDevice(plan, s, d), t, id)
    requires HasEntry(s, t, id) ==> (Right(plan, s, m, t, id) <==> !was)
    ensures Right(plan, RemoveDevice(plan, s, d), m - {d.id}, t, id) <==>
            if Provides(plan, d, t, id) then !LiveElsewhere(plan, m, d.id, t, id) else !was
  {
    LiveAfterRemoved(plan, m, d.id, t, id);
    LiveSplit(plan, m, d.id, t, id);
    EntryAfterChange(plan, reg, s, d, Unhealthy, t, id);
  }

  // The routes after an Init and the events behind it.
  function RoutesAfter(plan: Plan, reg: Registry, devs: seq<Device>, evs: seq<Event>): Routing {
    Run(plan, reg, AddEach(plan, reg, Routing(map[], 0), devs), evs)
  }

  // Entry by entry, for every stream a discovery may send: from an Init that lists a map on,
  // an entry is un-forced exactly when some live device provides it if and only if the
  // history of its providers has not left it wrong.
  lemma {:induction false} EntryRightIff(
      plan: Plan, reg: Registry, m: DeviceMap, devs: seq<Device>, evs: seq<Event>, t: Template, id: string)
    requires PlanOk(plan) && Keyed(m) && Lists(devs, m) && KnownDeltas(m, evs)
    requires HasEntry(RoutesAfter(plan, reg, devs, evs), t, id)
    ensures Right(plan, RoutesAfter(plan, reg, devs, evs), Fold(m, evs), t, id) <==> !Wrong(plan, m, evs, t, id)
    decreases |evs|
  {
    if evs == [] {
      InitRestoresState(devs, m);
      InitTruthful(plan, reg, devs, m, |devs|);
      assert devs[..|devs|] == devs;
    } else {
      var n := |evs| - 1;
      assert forall k | 0 <= k < n :: evs[..n][..k] == evs[..k];
      var before, state := RoutesAfter(plan, reg, devs, evs[..n]), Fold(m, evs[..n]);
      var was := Wrong(plan, m, evs[..n], t, id);
      if HasEntry(before, t, id) {
        EntryRightIff(plan, reg, m, devs, evs[..n], t, id);
      }
      match evs[n]
      case Added(d) =>
        AddedDecides(plan, reg, before, state, d, t, id, was);
        NewEntryProvided(plan, reg, before, d, t, id);
      case Removed(d) =>
        RemovedDecides(plan, reg, before, state, d, t, id, was);
        EntryAfterRemoval(plan, reg, before, d, t, id);
    }
  }

  // An entry that was not there comes from the device that provides it.
  lemma NewEntryProvided(plan: Plan, reg: Registry, s: Routing, d: Device, t: Template, id: string)
    requires PlanOk(plan) && HasEntry(AddDevice(plan, reg, s, d), t, id)
    ensures HasEntry(s, t, id) || Provides(plan, d, t, id)
  {
    if t in s.routes {
      EntryAfterChange(plan, reg, s, d, Healthy, t, id);
    } else {
      EntryOfNewRoute(plan, reg, s, d, t, id);
    }
  }

  lemma EntryAfterRemoval(plan: Plan, reg: Registry, s: Routing, d: Device, t: Template, id: string)
    requires HasEntry(RemoveDevice(plan, s, d), t, id)
    ensures HasEntry(s, t, id) || Provides(plan, d, t, id)
  {
    EntryAfterChange(plan, reg, s, d, Unhealthy, t, id);
  }

  // A device that is re-added with other instances and then removed leaves its old entry
  // advertised for good: no device is live, and only an event about the entry could force it.
  lemma ChangedDeviceStaysAdvertised(plan: Plan, reg: Registry, d1: Device, d2: Device, t: Template, id: string)
    requires PlanOk(plan) && d1.id == d2.id && reg(0)
    requires Provides(plan, d1, t, id) && !Provides(plan, d2, t, id)
    ensures var s := RoutesAfter(plan, reg, [d1], [Added(d2), Removed(d2)]);
            && Fold(map[d1.id := d1], [Added(d2), Removed(d2)]) == map[]
            && HasEntry(s, t, id) && !Forced(s.routes[t][id])
  {
    var s0 := AddEach(plan, reg, Routing(map[], 0), [d1]);
    assert [d1][..0] == [];
    assert s0 == AddDevice(plan, reg, AddEach(plan, reg, Routing(map[], 0), [d1][..0]), d1);
    assert t in s0.routes;
    EntryOfNewRoute(plan, reg, Routing(map[], 0), d1, t, id);
    assert HasEntry(s0, t, id) && Raw(s0.routes[t][id]);
    var evs := [Added(d2), Removed(d2)];
    assert evs[..1] == [Added(d2)] && evs[..1][..0] == [];
    LastWriterWins(plan, reg, s0, evs, t, id);
    assert LastWord(plan, evs[..1], t, id) == LastWord(plan, evs[..1][..0], t, id);
    assert Fold(map[d1.id := d1], evs[..1]) == ApplyEvent(Fold(map[d1.id := d1], evs[..1][..0]), evs[0]);
  }

  // Of two devices that provide one entry, the removal of either forces it for both.
  lemma SharedEntryIsForced(plan: Plan, reg: Registry, d1: Device, d2: Device, t: Template, id: string)
    requires PlanOk(plan) && d1.id != d2.id && reg(0)
    requires Provides(plan, d1, t, id) && Provides(plan, d2, t, id)
    ensures var s, m := RoutesAfter(plan, reg, [d1, d2], [Removed(d1)]), map[d1.id := d1, d2.id := d2];
            HasEntry(s, t, id) && Forced(s.routes[t][id]) && Live(plan, Fold(m, [Removed(d1)]), t, id)
  {
    var s1 := AddEach(plan, reg, Routing(map[], 0), [d1]);
    assert [d1][..0] == [] && [d1, d2][..1] == [d1];
    assert s1 == AddDevice(plan, reg, AddEach(plan, reg, Routing(map[], 0), [d1][..0]), d1);
    EntryOfNewRoute(plan, reg, Routing(map[], 0), d1, t, id);
    var s2 := AddEach(plan, reg, Routing(map[], 0), [d1, d2]);
    assert s2 == AddDevice(plan, reg, s1, d2);
    EntryAfterChange(plan, reg, s1, d2, Healthy, t, id);
    var evs := [Removed(d1)];
    assert evs[..0] == [];
    LastWriterWins(plan, reg, s2, evs, t, id);
    var m := map[d1.id := d1, d2.id := d2];
    assert Fold(m, evs) == ApplyEvent(Fold(m, evs[..0]), evs[0]);
    assert d2.id in Fold(m, evs) && Provides(plan, Fold(m, evs)[d2.id], t, id);
  }

  // ---- devices that keep out of each other's way ----

  // An event a discovery may send to devices that keep out of each other's way.
  ghost predicate Orderly(plan: Plan, m: DeviceMap, e: Event) {
    match e
    case Init(_) => false
    case Added(d) => KeepsEntries(plan, m, d)
    case Removed(d) => Distinct(plan, m) && d.id in m && m[d.id] == d
  }

  lemma {:induction false} OrderlyNeverWrong(plan: Plan, m: DeviceMap, evs: seq<Event>, t: Template, id: string)
    requires forall n | 0 <= n < |evs| :: Orderly(plan, Fold(m, evs[..n]), evs[n])
    ensures !Wrong(plan, m, evs, t, id)
    decreases |evs|
  {
    if evs != [] {
      var n := |evs| - 1;
      assert forall k | 0 <= k < n :: evs[..n][..k] == evs[..k];
      OrderlyNeverWrong(plan, m, evs[..n], t, id);
      assert Orderly(plan, Fold(m, evs[..n]), evs[n]);
    }
  }

  // So, with every event behind the Init orderly in the state the stream describes, every
  // entry is un-forced exactly when its device is live, whichever registrations failed.
  lemma ForcedExactlyWhenGone(plan: Plan, reg: Registry, m: DeviceMap, devs: seq<Device>, evs: seq<Event>)
    requires PlanOk(plan) && Keyed(m) && Lists(devs, m)
    requires forall n | 0 <= n < |evs| :: Orderly(plan, Fold(m, evs[..n]), evs[n])
    ensures Truthful(plan, RoutesAfter(plan, reg, devs, evs), Fold(m, evs))
  {
    var s := RoutesAfter(plan, reg, devs, evs);
    forall t, id | HasEntry(s, t, id)
      ensures !Forced(s.routes[t][id]) <==> Live(plan, Fold(m, evs), t, id)
    {
      OrderlyNeverWrong(plan, m, evs, t, id);
      EntryRightIff(plan, reg, m, devs, evs, t, id);
    }
  }

  lemma {:induction false} InitTruthful(plan: Plan, reg: Registry, devs: seq<Device>, m: DeviceMap, n: nat)
    requires PlanOk(plan) && Keyed(m) && Lists(devs, m) && n <= |devs|
    ensures Truthful(plan, AddEach(plan, reg, Routing(map[], 0), devs[..n]), AddAll(map[], devs[..n]))
  {
    if n > 0 {
      InitTruthful(plan, reg, devs, m, n - 1);
      assert devs[..n][..n - 1] == devs[..n - 1];
      var d := devs[n - 1];
      NotAddedYet(devs, m, n - 1);
      AddKeepsTruth(plan, reg, AddEach(plan, reg, Routing(map[], 0), devs[..n - 1]), AddAll(map[], devs[..n - 1]), d);
    }
  }

  lemma NotAddedYet(devs: seq<Device>, m: DeviceMap, n: nat)
    requires Lists(devs, m) && n < |devs|
    ensures devs[n].id !in AddAll(map[], devs[..n])
  {
    AddAllContents(devs[..n]);
  }
}
