// The code of internal/plugin/scatter.go: routes to shared resource objects, updated event
// by event, proved against the fold of module Scatter.
module ScatterCode {
  import opened Listings
  import opened Resources
  import opened Scatter
  import opened ScatterRoutes
  import opened Udev

  // The slice is allocated at its final length and filled element by element.
  method Unpack(instances: seq<Instance>) returns (result: seq<Instance>)
    ensures result == instances
  {
    var filled := new Instance[|instances|](_ => Seat(""));
    for i := 0 to |instances|
      invariant filled[..i] == instances[..i]
    {
      filled[i] := instances[i];
    }
    assert instances[..|instances|] == instances;
    return filled[..];
  }

  method InstanceMapOf(instances: seq<Instance>) returns (instanceMap: InstanceMap)
    requires forall i | i in instances :: Raw(i)
    ensures instanceMap == RawMap(instances) && KeyedBy(InstanceId, instanceMap) && Flat(instanceMap)
  {
    instanceMap := map[];
    for k := 0 to |instances|
      invariant instanceMap == RawMap(instances[..k])
    {
      assert instances[..k + 1][..k] == instances[..k];
      instanceMap := instanceMap[InstanceId(instances[k]) := instances[k]];
    }
    assert instances[..|instances|] == instances;
    RawMapContents(instances);
  }

  class Router {
    const plan: Plan
    // Whether the k-th registry.Add succeeds.
    const registry: Registry
    var routes: map<Template, Resource>
    var attempts: nat

    // No two templates share a resource.
    ghost predicate Valid()
      reads this, routes.Values
    {
      && PlanOk(plan)
      && (forall t | t in routes :: routes[t].template == t && routes[t].Valid())
    }

    ghost function View(): Routing
      reads this, routes.Values
    {
      Routing(map t | t in routes :: routes[t].instances, attempts)
    }

    constructor (plan: Plan, registry: Registry)
      requires PlanOk(plan)
      ensures Valid() && View() == Routing(map[], 0) && this.plan == plan && this.registry == registry
      ensures routes == map[]
    {
      this.plan := plan;
      this.registry := registry;
      routes, attempts := map[], 0;
    }

    // Submits to the one resource a template is routed to.
    method SubmitTo(t: Template, instances: seq<Instance>, h: Health)
      requires Valid() && t in routes && forall i | i in instances :: Raw(i)
      modifies routes[t]
      ensures Valid() && routes == old(routes)
      ensures View() == old(View()).(routes := old(View()).routes[t := Overridden(old(View()).routes[t], instances, h)])
    {
      var unpacked := Unpack(instances);
      var snapshot := routes[t].Submit(unpacked, h);
    }

    method Added(dev: Option<Device>)
      requires Valid()
      modifies this, routes.Values
      ensures Valid() && fresh(routes.Values - old(routes.Values))
      ensures View() == if dev.None? then old(View()) else AddDevice(plan, registry, old(View()), dev.value)
      ensures forall t | dev.Some? && Offers(plan, dev.value, t) && t !in old(routes) ::
                attempts == old(attempts) + 1 && (t in routes <==> registry(old(attempts)))
    {
      if dev.None? {
        return;
      }
      var template := plan.templater(dev.value);
      if template.None? {
        return;
      }
      var instances := plan.mapper(dev.value);
      if instances.None? {
        return;
      }
      var t := template.value;
      if t in routes {
        SubmitTo(t, instances.value, Healthy);
        return;
      }
      Create(t, instances.value);
    }

    // A new resource becomes a route only once it is registered.
    method Create(t: Template, instances: seq<Instance>)
      requires Valid() && t !in routes && forall i | i in instances :: Raw(i)
      modifies this
      ensures Valid() && fresh(routes.Values - old(routes.Values))
      ensures View().attempts == old(attempts) + 1 && (t in routes <==> registry(old(attempts)))
      ensures View().routes ==
              if registry(old(attempts)) then old(View()).routes[t := RawMap(instances)] else old(View()).routes
    {
      var instanceMap := InstanceMapOf(instances);
      var res := new Resource(t, instanceMap);
      var accepted := registry(attempts);
      attempts := attempts + 1;
      if accepted {
        routes := routes[t := res];
      }
    }

    method Removed(dev: Option<Device>)
      requires Valid()
      modifies routes.Values
      ensures Valid() && routes == old(routes)
      ensures View() == if dev.None? then old(View()) else RemoveDevice(plan, old(View()), dev.value)
    {
      if dev.None? {
        return;
      }
      var template := plan.templater(dev.value);
      if template.None? {
        return;
      }
      var instances := plan.mapper(dev.value);
      if instances.None? {
        return;
      }
      if template.value in routes {
        SubmitTo(template.value, instances.value, Unhealthy);
      }
    }

    // One turn of run.
    method HandleEvent(e: Event)
      requires Valid()
      modifies this, routes.Values
      ensures Valid() && fresh(routes.Values - old(routes.Values))
      ensures View() == Step(plan, registry, old(View()), e)
    {
      match e {
        case Init(devs) =>
          for k := 0 to |devs|
            invariant Valid() && fresh(routes.Values - old(routes.Values))
            invariant View() == AddEach(plan, registry, old(View()), devs[..k])
          {
            assert devs[..k + 1][..k] == devs[..k];
            Added(Some(devs[k]));
          }
          assert devs[..|devs|] == devs;
        case Added(d) => Added(Some(d));
        case Removed(d) => Removed(Some(d));
      }
    }
  }
}
