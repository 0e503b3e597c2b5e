// Instances, their health, and the resource that holds them (internal/plugin/resource.go).
module Resources {
  import opened Listings
  import opened Naming
  import opened Udev

  datatype Health = Healthy | Unhealthy

  // The kinds of instance; an Override wraps one and may force it unhealthy.
  datatype Instance =
    | Seat(id: string)
    | Partition(tag: string, part: Device)
    | Bandwidth(ifname: string, idx: nat, nic: Device)
    | Override(inner: Instance, health: Health)

  type InstanceMap = map<string, Instance>

  const SYSATTR_OPERSTATE := "operstate"

  function InstanceId(i: Instance): string {
    match i
    case Seat(id) => id
    case Partition(tag, _) => tag
    case Bandwidth(ifname, idx, _) => BandwidthId(ifname, idx)
    case Override(inner, _) => InstanceId(inner)
  }

  // A seat is as healthy as the pool it shares; a healthy override defers to its instance.
  function HealthOf(i: Instance, poolEmpty: bool): Health {
    match i
    case Seat(_) => if poolEmpty then Unhealthy else Healthy
    case Partition(_, _) => Healthy
    case Bandwidth(_, _, nic) =>
      if SYSATTR_OPERSTATE in nic.sysattrs && nic.sysattrs[SYSATTR_OPERSTATE] == "up" then Healthy else Unhealthy
    case Override(inner, h) => if h.Healthy? then HealthOf(inner, poolEmpty) else h
  }

  // A raw instance behaves like the same instance under a healthy override.
  lemma HealthyOverrideIsTransparent(i: Instance, poolEmpty: bool)
    ensures HealthOf(Override(i, Healthy), poolEmpty) == HealthOf(i, poolEmpty)
    ensures InstanceId(Override(i, Healthy)) == InstanceId(i)
  {
  }

  // An entry is healthy exactly if it is not forced and its instance is: a seat while the
  // pool is not empty, a partition always, a share while its interface is up.
  lemma HealthIs(i: Instance, h: Health, poolEmpty: bool)
    requires Raw(i)
    ensures HealthOf(Override(i, h), poolEmpty) == Healthy <==> h == Healthy && HealthOf(i, poolEmpty) == Healthy
    ensures i.Seat? ==> (HealthOf(i, poolEmpty) == Healthy <==> !poolEmpty)
    ensures i.Partition? ==> HealthOf(i, poolEmpty) == Healthy
    ensures i.Bandwidth? ==>
              (HealthOf(i, poolEmpty) == Healthy <==>
               "operstate" in i.nic.sysattrs && i.nic.sysattrs["operstate"] == "up")
  {
  }

  predicate Raw(i: Instance) {
    !i.Override?
  }

  // Overrides do not nest.
  ghost predicate Flat(m: InstanceMap) {
    forall id | id in m :: Raw(m[id]) || Raw(m[id].inner)
  }

  // The loop of Submit under the lock: each named entry is overwritten.
  function Overridden(m: InstanceMap, instances: seq<Instance>, h: Health): InstanceMap {
    if instances == [] then m
    else
      var last := instances[|instances| - 1];
      Overridden(m, instances[..|instances| - 1], h)[InstanceId(last) := Override(last, h)]
  }

  // Submit never drops an id; a named entry becomes an override of an instance of that id,
  // and every other entry stays.
  lemma {:induction false} OverriddenContents(m: InstanceMap, instances: seq<Instance>, h: Health)
    ensures Overridden(m, instances, h).Keys == m.Keys + (set i | i in instances :: InstanceId(i))
    ensures forall id | id in Overridden(m, instances, h) ::
              if exists i :: i in instances && InstanceId(i) == id
              then var now := Overridden(m, instances, h)[id];
                   now.Override? && now.health == h && now.inner in instances && InstanceId(now.inner) == id
              else id in m && Overridden(m, instances, h)[id] == m[id]
  {
    if instances != [] {
      var n := |instances| - 1;
      var last := instances[n];
      assert instances == instances[..n] + [last];
      OverriddenContents(m, instances[..n], h);
      var now := Overridden(m, instances, h);
      forall id | id in now
        ensures if exists i :: i in instances && InstanceId(i) == id
                then now[id].Override? && now[id].health == h && now[id].inner in instances &&
                  InstanceId(now[id].inner) == id
                else id in m && now[id] == m[id]
      {
        if id != InstanceId(last) {
          assert (exists i :: i in instances && InstanceId(i) == id) <==>
                 (exists i :: i in instances[..n] && InstanceId(i) == id);
        }
      }
    }
  }

  lemma OverriddenKeepsShape(m: InstanceMap, instances: seq<Instance>, h: Health)
    requires KeyedBy(InstanceId, m) && Flat(m) && forall i | i in instances :: Raw(i)
    ensures KeyedBy(InstanceId, Overridden(m, instances, h)) && Flat(Overridden(m, instances, h))
  {
    OverriddenContents(m, instances, h);
  }

  // One Submit: instances and their new health.
  datatype Change = Change(instances: seq<Instance>, health: Health)

  // The instance map after some changes.
  function Applied(initial: InstanceMap, changes: seq<Change>): InstanceMap {
    if changes == [] then initial
    else
      var last := changes[|changes| - 1];
      Overridden(Applied(initial, changes[..|changes| - 1]), last.instances, last.health)
  }

  // The map with every raw entry under a healthy override.
  function AllHealthy(m: InstanceMap): InstanceMap {
    map id | id in m :: if Raw(m[id]) then Override(m[id], Healthy) else m[id]
  }

  // An initial raw instance acts like a healthy override for ever: after any Submits both
  // maps have the same entries with the same health, whatever the pool.
  lemma RawActsHealthy(m: InstanceMap, changes: seq<Change>, id: string, poolEmpty: bool)
    ensures Applied(AllHealthy(m), changes).Keys == Applied(m, changes).Keys
    ensures id in Applied(m, changes) ==>
              var a, b := Applied(m, changes)[id], Applied(AllHealthy(m), changes)[id];
              HealthOf(a, poolEmpty) == HealthOf(b, poolEmpty) && InstanceId(a) == InstanceId(b)
  {
    EntriesAlike(m, changes);
  }

  ghost predicate Alike(a: InstanceMap, b: InstanceMap) {
    a.Keys == b.Keys && forall id | id in a :: b[id] == a[id] || b[id] == Override(a[id], Healthy)
  }

  lemma {:induction false} EntriesAlike(m: InstanceMap, changes: seq<Change>)
    ensures Alike(Applied(m, changes), Applied(AllHealthy(m), changes))
    decreases |changes|
  {
    if changes != [] {
      var n := |changes| - 1;
      EntriesAlike(m, changes[..n]);
      OverriddenAlike(
        Applied(m, changes[..n]), Applied(AllHealthy(m), changes[..n]), changes[n].instances, changes[n].health);
    }
  }

  lemma {:induction false} OverriddenAlike(a: InstanceMap, b: InstanceMap, instances: seq<Instance>, h: Health)
    requires Alike(a, b)
    ensures Alike(Overridden(a, instances, h), Overridden(b, instances, h))
    decreases |instances|
  {
    if instances != [] {
      OverriddenAlike(a, b, instances[..|instances| - 1], h);
    }
  }

  datatype Template = Template(domain: string, prefix: string)

  class Resource {
    const template: Template
    var instances: InstanceMap

    ghost predicate Valid()
      reads this
    {
      KeyedBy(InstanceId, instances) && Flat(instances)
    }

    constructor (template: Template, instances: InstanceMap)
      requires KeyedBy(InstanceId, instances) && Flat(instances)
      ensures Valid() && this.template == template && this.instances == instances
    {
      this.template := template;
      this.instances := instances;
    }

    // The critical section of Submit; `snapshot` is what it then broadcasts.
    method Submit(changed: seq<Instance>, h: Health) returns (snapshot: seq<Instance>)
      requires Valid() && forall i | i in changed :: Raw(i)
      modifies this`instances
      ensures Valid() && instances == Overridden(old(instances), changed, h)
      ensures ListsBy(InstanceId, snapshot, instances)
    {
      for k := 0 to |changed|
        invariant instances == Overridden(old(instances), changed[..k], h)
      {
        assert changed[..k + 1][..k] == changed[..k];
        instances := instances[InstanceId(changed[k]) := Override(changed[k], h)];
      }
      assert changed[..|changed|] == changed;
      OverriddenKeepsShape(old(instances), changed, h);
      snapshot := ListValues(InstanceId, instances);
    }

    // A copy: later submits do not show in it.
    method Instances() returns (snapshot: InstanceMap)
      ensures snapshot == instances
    {
      snapshot := map[];
      var todo := instances.Keys;
      while todo != {}
        invariant todo <= instances.Keys
        invariant snapshot == map k | k in instances && k !in todo :: instances[k]
        decreases todo
      {
        var k :| k in todo;
        snapshot := snapshot[k := instances[k]];
        todo := todo - {k};
      }
    }
  }
}
