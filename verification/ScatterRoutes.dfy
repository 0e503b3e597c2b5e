// Which resources a scatter registers and which entries they get, over whole streams.
module ScatterRoutes {
  import opened Listings
  import opened Resources
  import opened Scatter
  import opened Udev

  // The device has this template, and instances.
  predicate Offers(plan: Plan, d: Device, t: Template) {
    plan.templater(d) == Some(t) && plan.mapper(d).Some?
  }

  // ---- one event ----

  // A template without a route is registered once more, and routed if that succeeds; any
  // other add registers nothing and routes nothing.
  lemma NewTemplateIsTried(plan: Plan, reg: Registry, s: Routing, d: Device, t: Template)
    ensures var s' := AddDevice(plan, reg, s, d);
            && (Offers(plan, d, t) && t !in s.routes ==>
                  s'.attempts == s.attempts + 1 && (t in s'.routes <==> reg(s.attempts)))
            && (Offers(plan, d, t) && t in s.routes ==> s'.attempts == s.attempts && s'.routes.Keys == s.routes.Keys)
            && (!Offers(plan, d, t) ==> (t in s'.routes <==> t in s.routes))
            && ((forall u :: !Offers(plan, d, u)) ==> s' == s)
  {
    assert plan.templater(d).Some? && plan.mapper(d).Some? ==> Offers(plan, d, plan.templater(d).value);
  }

  // A removal registers nothing and routes nothing.
  lemma RemovalRoutesNothing(plan: Plan, s: Routing, d: Device)
    ensures RemoveDevice(plan, s, d).routes.Keys == s.routes.Keys && RemoveDevice(plan, s, d).attempts == s.attempts
  {
  }

  // ---- an Init as the adds it stands for ----

  function Adds(devs: seq<Device>): seq<Event> {
    seq(|devs|, i requires 0 <= i < |devs| => Event.Added(devs[i]))
  }

  function Unrolled(evs: seq<Event>): seq<Event> {
    if evs == [] then []
    else
      var last := evs[|evs| - 1];
      Unrolled(evs[..|evs| - 1]) + if last.Init? then Adds(last.devices) else [last]
  }

  lemma {:induction false} RunInParts(plan: Plan, reg: Registry, s: Routing, a: seq<Event>, b: seq<Event>)
    ensures Run(plan, reg, s, a + b) == Run(plan, reg, Run(plan, reg, s, a), b)
    decreases |b|
  {
    if b == [] {
      assert a + b == a;
    } else {
      var n := |b| - 1;
      assert (a + b)[..|a| + n] == a + b[..n];
      RunInParts(plan, reg, s, a, b[..n]);
    }
  }

  lemma {:induction false} RunOfAdds(plan: Plan, reg: Registry, s: Routing, devs: seq<Device>)
    ensures Run(plan, reg, s, Adds(devs)) == AddEach(plan, reg, s, devs)
  {
    if devs != [] {
      var n := |devs| - 1;
      assert Adds(devs)[..n] == Adds(devs[..n]);
      RunOfAdds(plan, reg, s, devs[..n]);
    }
  }

  lemma {:induction false} UnrolledRun(plan: Plan, reg: Registry, s: Routing, evs: seq<Event>)
    ensures Run(plan, reg, s, Unrolled(evs)) == Run(plan, reg, s, evs)
    ensures forall e | e in Unrolled(evs) :: !e.Init?
  {
    if evs != [] {
      var n := |evs| - 1;
      UnrolledRun(plan, reg, s, evs[..n]);
      if evs[n].Init? {
        RunOfAdds(plan, reg, Run(plan, reg, s, evs[..n]), evs[n].devices);
        RunInParts(plan, reg, s, Unrolled(evs[..n]), Adds(evs[n].devices));
      } else {
        assert Unrolled(evs)[..|Unrolled(evs[..n])|] == Unrolled(evs[..n]);
      }
    }
  }

  // ---- which routes there are ----

  // The n-th event offers the template, and the registration it would make succeeds.
  ghost predicate RegistersAt(plan: Plan, reg: Registry, s: Routing, evs: seq<Event>, t: Template, n: int) {
    0 <= n < |evs| && evs[n].Added? && Offers(plan, evs[n].dev, t) && reg(Run(plan, reg, s, evs[..n]).attempts)
  }

  // A template has a route exactly if it had one or some device that offers it came when the
  // registry would accept: a refused registration is tried again with the next such device.
  lemma RoutedIff(plan: Plan, reg: Registry, s: Routing, evs: seq<Event>, t: Template)
    ensures t in Run(plan, reg, s, evs).routes
       <==> t in s.routes || exists n :: RegistersAt(plan, reg, s, Unrolled(evs), t, n)
  {
    UnrolledRun(plan, reg, s, evs);
    RoutedByChanges(plan, reg, s, Unrolled(evs), t);
  }

  lemma {:induction false} RoutedByChanges(plan: Plan, reg: Registry, s: Routing, evs: seq<Event>, t: Template)
    requires forall e | e in evs :: !e.Init?
    ensures t in Run(plan, reg, s, evs).routes <==> t in s.routes || exists n :: RegistersAt(plan, reg, s, evs, t, n)
    decreases |evs|
  {
    if evs != [] {
      var n := |evs| - 1;
      assert forall e | e in evs[..n] :: e in evs;
      assert evs[n] in evs;
      RoutedByChanges(plan, reg, s, evs[..n], t);
      RegistersSnoc(plan, reg, s, evs, t);
      var before := Run(plan, reg, s, evs[..n]);
      match evs[n]
      case Added(d) => NewTemplateIsTried(plan, reg, before, d, t);
      case Removed(d) => RemovalRoutesNothing(plan, before, d);
    }
  }

  lemma RegistersSnoc(plan: Plan, reg: Registry, s: Routing, evs: seq<Event>, t: Template)
    requires evs != []
    ensures var n := |evs| - 1;
            (exists k :: RegistersAt(plan, reg, s, evs, t, k)) <==>
            (exists k :: RegistersAt(plan, reg, s, evs[..n], t, k)) || RegistersAt(plan, reg, s, evs, t, n)
  {
    var n := |evs| - 1;
    forall k | 0 <= k < n
      ensures RegistersAt(plan, reg, s, evs, t, k) <==> RegistersAt(plan, reg, s, evs[..n], t, k)
    {
      assert evs[..n][..k] == evs[..k];
    }
  }

  // ---- which entries there are ----

  // The n-th event is about the entry, and its template has a route behind it.
  ghost predicate EntersAt(
      plan: Plan, reg: Registry, s: Routing, evs: seq<Event>, t: Template, id: string, n: int)
  {
    0 <= n < |evs| && !evs[n].Init? && Provides(plan, evs[n].dev, t, id) && t in Run(plan, reg, s, evs[..n + 1]).routes
  }

  // An entry exists exactly if it did or some event was about it while, or by which, its
  // template got a route.
  lemma EntryIff(plan: Plan, reg: Registry, s: Routing, evs: seq<Event>, t: Template, id: string)
    requires PlanOk(plan)
    ensures HasEntry(Run(plan, reg, s, evs), t, id)
       <==> HasEntry(s, t, id) || exists n :: EntersAt(plan, reg, s, Unrolled(evs), t, id, n)
  {
    UnrolledRun(plan, reg, s, evs);
    EntryByChanges(plan, reg, s, Unrolled(evs), t, id);
  }

  lemma EntryAfterOne(plan: Plan, reg: Registry, s: Routing, e: Event, t: Template, id: string)
    requires PlanOk(plan) && !e.Init?
    ensures var s' := Step(plan, reg, s, e);
            HasEntry(s', t, id) <==> HasEntry(s, t, id) || (Provides(plan, e.dev, t, id) && t in s'.routes)
  {
    if t in s.routes {
      EntryAfterChange(plan, reg, s, e.dev, if e.Added? then Healthy else Unhealthy, t, id);
    } else if e.Added? {
      EntryOfNewRoute(plan, reg, s, e.dev, t, id);
    } else {
      RemovalRoutesNothing(plan, s, e.dev);
    }
  }

  lemma {:induction false} EntryByChanges(
      plan: Plan, reg: Registry, s: Routing, evs: seq<Event>, t: Template, id: string)
    requires PlanOk(plan) && forall e | e in evs :: !e.Init?
    ensures HasEntry(Run(plan, reg, s, evs), t, id)
       <==> HasEntry(s, t, id) || exists n :: EntersAt(plan, reg, s, evs, t, id, n)
    decreases |evs|
  {
    if evs != [] {
      var n := |evs| - 1;
      assert forall e | e in evs[..n] :: e in evs;
      assert evs[n] in evs;
      EntryByChanges(plan, reg, s, evs[..n], t, id);
      EntersSnoc(plan, reg, s, evs, t, id);
      EntryAfterOne(plan, reg, Run(plan, reg, s, evs[..n]), evs[n], t, id);
      assert evs[..n + 1] == evs;
    }
  }

  lemma EntersSnoc(plan: Plan, reg: Registry, s: Routing, evs: seq<Event>, t: Template, id: string)
    requires evs != []
    ensures var n := |evs| - 1;
            (exists k :: EntersAt(plan, reg, s, evs, t, id, k)) <==>
            (exists k :: EntersAt(plan, reg, s, evs[..n], t, id, k)) || EntersAt(plan, reg, s, evs, t, id, n)
  {
    var n := |evs| - 1;
    forall k | 0 <= k < n
      ensures EntersAt(plan, reg, s, evs, t, id, k) <==> EntersAt(plan, reg, s, evs[..n], t, id, k)
    {
      assert evs[..n][..k + 1] == evs[..k + 1];
    }
  }

  // ---- a registry that accepts ----

  // Some Init or Added device has the template, and instances.
  ghost predicate Offered(plan: Plan, evs: seq<Event>, t: Template) {
    exists n, d :: BroughtAt(evs, n, d) && plan.templater(d) == Some(t) && plan.mapper(d).Some?
  }

  ghost predicate BroughtAt(evs: seq<Event>, n: int, d: Device) {
    0 <= n < |evs| && (evs[n] == Event.Added(d) || (evs[n].Init? && d in evs[n].devices))
  }

  ghost predicate Brought(evs: seq<Event>, d: Device) {
    exists n :: BroughtAt(evs, n, d)
  }

  lemma {:induction false} UnrolledBrings(evs: seq<Event>, d: Device)
    ensures Event.Added(d) in Unrolled(evs) <==> Brought(evs, d)
  {
    if evs != [] {
      var n := |evs| - 1;
      UnrolledBrings(evs[..n], d);
      assert forall k: int | k < n :: BroughtAt(evs, k, d) <==> BroughtAt(evs[..n], k, d);
      if BroughtAt(evs, n, d) {
        AddsHold(evs, d);
      }
    }
  }

  lemma AddsHold(evs: seq<Event>, d: Device)
    requires evs != [] && BroughtAt(evs, |evs| - 1, d)
    ensures Event.Added(d) in Unrolled(evs)
  {
    var last := evs[|evs| - 1];
    if last.Init? {
      var i :| 0 <= i < |last.devices| && last.devices[i] == d;
      assert Adds(last.devices)[i] == Event.Added(d);
    }
  }

  // With a registry that accepts, a template has a route exactly if it had one or some device
  // that came has it.
  lemma OfferedIsRouted(plan: Plan, reg: Registry, s: Routing, evs: seq<Event>, t: Template)
    requires forall k :: reg(k)
    ensures t in Run(plan, reg, s, evs).routes <==> t in s.routes || Offered(plan, evs, t)
  {
    RoutedIff(plan, reg, s, evs, t);
    var all := Unrolled(evs);
    if n :| RegistersAt(plan, reg, s, all, t, n) {
      assert all[n] in all;
      UnrolledBrings(evs, all[n].dev);
    }
    if n, d :| BroughtAt(evs, n, d) && plan.templater(d) == Some(t) && plan.mapper(d).Some? {
      UnrolledBrings(evs, d);
      var k :| 0 <= k < |all| && all[k] == Event.Added(d);
      assert RegistersAt(plan, reg, s, all, t, k);
    }
  }

  // Every entry such a device provides is there from then on.
  lemma OfferedHasEntry(plan: Plan, reg: Registry, s: Routing, evs: seq<Event>, d: Device, t: Template, id: string)
    requires PlanOk(plan) && (forall k :: reg(k)) && Provides(plan, d, t, id)
    requires Brought(evs, d)
    ensures HasEntry(Run(plan, reg, s, evs), t, id)
  {
    var all := Unrolled(evs);
    UnrolledBrings(evs, d);
    var k :| 0 <= k < |all| && all[k] == Event.Added(d);
    AddEnters(plan, reg, s, all, k, t, id);
    EntryIff(plan, reg, s, evs, t, id);
  }

  lemma AddEnters(plan: Plan, reg: Registry, s: Routing, evs: seq<Event>, k: nat, t: Template, id: string)
    requires k < |evs| && evs[k].Added? && Provides(plan, evs[k].dev, t, id) && forall n :: reg(n)
    ensures EntersAt(plan, reg, s, evs, t, id, k)
  {
    assert evs[..k + 1][..k] == evs[..k];
    NewTemplateIsTried(plan, reg, Run(plan, reg, s, evs[..k]), evs[k].dev, t);
  }

  // ---- what is advertised ----

  // Every device of the map a stream describes came with it.
  lemma {:induction false} LiveWasBrought(m: DeviceMap, devs: seq<Device>, evs: seq<Event>, dev: string)
    requires Lists(devs, m) && KnownDeltas(m, evs) && dev in Fold(m, evs)
    ensures Brought([Event.Init(devs)] + evs, Fold(m, evs)[dev])
    decreases |evs|
  {
    if evs == [] {
      assert BroughtAt([Event.Init(devs)] + evs, 0, m[dev]);
    } else {
      var n := |evs| - 1;
      assert forall k | 0 <= k < n :: evs[..n][..k] == evs[..k];
      if evs[n].Added? && evs[n].dev.id == dev {
        assert BroughtAt([Event.Init(devs)] + evs, n + 1, evs[n].dev);
      } else {
        LiveWasBrought(m, devs, evs[..n], dev);
        BroughtBefore(devs, evs, Fold(m, evs)[dev]);
      }
    }
  }

  lemma BroughtBefore(devs: seq<Device>, evs: seq<Event>, d: Device)
    requires evs != [] && Brought([Event.Init(devs)] + evs[..|evs| - 1], d)
    ensures Brought([Event.Init(devs)] + evs, d)
  {
    var before := [Event.Init(devs)] + evs[..|evs| - 1];
    var k :| BroughtAt(before, k, d);
    assert ([Event.Init(devs)] + evs)[k] == before[k];
    assert BroughtAt([Event.Init(devs)] + evs, k, d);
  }

  lemma RoutesAfterIsRun(plan: Plan, reg: Registry, devs: seq<Device>, evs: seq<Event>)
    ensures RoutesAfter(plan, reg, devs, evs) == Run(plan, reg, Routing(map[], 0), [Event.Init(devs)] + evs)
  {
    var first := [Event.Init(devs)];
    assert first[..0] == [];
    assert Run(plan, reg, Routing(map[], 0), first) == Step(plan, reg, Run(plan, reg, Routing(map[], 0), []), first[0]);
    RunInParts(plan, reg, Routing(map[], 0), first, evs);
  }

  // With a registry that accepts, whatever a live device provides has an entry.
  lemma LiveHasEntry(
      plan: Plan, reg: Registry, m: DeviceMap, devs: seq<Device>, evs: seq<Event>, t: Template, id: string)
    requires PlanOk(plan) && Lists(devs, m) && KnownDeltas(m, evs) && forall k :: reg(k)
    requires Live(plan, Fold(m, evs), t, id)
    ensures HasEntry(RoutesAfter(plan, reg, devs, evs), t, id)
  {
    var dev :| dev in Fold(m, evs) && Provides(plan, Fold(m, evs)[dev], t, id);
    LiveWasBrought(m, devs, evs, dev);
    RoutesAfterIsRun(plan, reg, devs, evs);
    OfferedHasEntry(plan, reg, Routing(map[], 0), [Event.Init(devs)] + evs, Fold(m, evs)[dev], t, id);
  }

  // The kubelet is offered the entry, unless its own instance says that it is unhealthy.
  ghost predicate Advertised(s: Routing, t: Template, id: string) {
    HasEntry(s, t, id) && !Forced(s.routes[t][id])
  }

  // No entry goes wrong before it exists.
  lemma {:induction false} NoEntryNotWrong(
      plan: Plan, reg: Registry, m: DeviceMap, devs: seq<Device>, evs: seq<Event>, t: Template, id: string)
    requires PlanOk(plan) && Lists(devs, m) && KnownDeltas(m, evs) && forall k :: reg(k)
    requires !HasEntry(RoutesAfter(plan, reg, devs, evs), t, id)
    ensures !Wrong(plan, m, evs, t, id)
    decreases |evs|
  {
    if evs != [] {
      var n := |evs| - 1;
      assert forall k | 0 <= k < n :: evs[..n][..k] == evs[..k];
      EntryAfterOne(plan, reg, RoutesAfter(plan, reg, devs, evs[..n]), evs[n], t, id);
      NoEntryNotWrong(plan, reg, m, devs, evs[..n], t, id);
      NotLiveBefore(plan, reg, m, devs, evs[..n], t, id);
    }
  }

  lemma NotLiveBefore(
      plan: Plan, reg: Registry, m: DeviceMap, devs: seq<Device>, evs: seq<Event>, t: Template, id: string)
    requires PlanOk(plan) && Lists(devs, m) && KnownDeltas(m, evs) && forall k :: reg(k)
    requires !HasEntry(RoutesAfter(plan, reg, devs, evs), t, id)
    ensures forall dev | dev in Fold(m, evs) :: !Provides(plan, Fold(m, evs)[dev], t, id)
  {
    if Live(plan, Fold(m, evs), t, id) {
      LiveHasEntry(plan, reg, m, devs, evs, t, id);
    }
  }

  // With a registry that accepts, for every stream a discovery may send behind its Init: what
  // is advertised is exactly what live devices provide, but for the entries gone wrong.
  lemma AdvertisedIffLive(
      plan: Plan, reg: Registry, m: DeviceMap, devs: seq<Device>, evs: seq<Event>, t: Template, id: string)
    requires PlanOk(plan) && Keyed(m) && Lists(devs, m) && KnownDeltas(m, evs) && forall k :: reg(k)
    ensures (Advertised(RoutesAfter(plan, reg, devs, evs), t, id) <==> Live(plan, Fold(m, evs), t, id))
       <==> !Wrong(plan, m, evs, t, id)
  {
    if HasEntry(RoutesAfter(plan, reg, devs, evs), t, id) {
      EntryRightIff(plan, reg, m, devs, evs, t, id);
    } else {
      NoEntryNotWrong(plan, reg, m, devs, evs, t, id);
      NotLiveBefore(plan, reg, m, devs, evs, t, id);
    }
  }
}
