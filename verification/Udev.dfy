// Devices, events and what consumers fold them into (internal/udev).
module Udev {
  import opened Listings

  // Attributes are read once: a device is an immutable value with an id. Lookups that walk
  // the parent chain are part of the values.
  datatype Device = Device(
    id: string,
    subsystem: string,
    devType: string,
    devNode: string,
    properties: map<string, string>,
    sysattrs: map<string, string>)

  datatype Event = Init(devices: seq<Device>) | Added(dev: Device) | Removed(dev: Device)

  datatype Option<+T> = None | Some(value: T)

  type DeviceMap = map<string, Device>

  const ACTION_ADD := "add"
  const ACTION_REMOVE := "remove"
  const ACTION_OFFLINE := "offline"
  const ACTION_ONLINE := "online"

  function DeviceId(d: Device): string {
    d.id
  }

  ghost predicate Keyed(m: DeviceMap) {
    KeyedBy(DeviceId, m)
  }

  // ---- folds ----

  function AddAll(m: DeviceMap, devs: seq<Device>): DeviceMap {
    if devs == [] then m
    else
      var d := devs[|devs| - 1];
      AddAll(m, devs[..|devs| - 1])[d.id := d]
  }

  function ApplyEvent(m: DeviceMap, e: Event): DeviceMap {
    match e
    case Init(devs) => AddAll(m, devs)
    case Added(d) => m[d.id := d]
    case Removed(d) => m - {d.id}
  }

  function Fold(m: DeviceMap, evs: seq<Event>): DeviceMap {
    if evs == [] then m else ApplyEvent(Fold(m, evs[..|evs| - 1]), evs[|evs| - 1])
  }

  lemma {:induction false} AddAllKeyed(m: DeviceMap, devs: seq<Device>)
    requires Keyed(m)
    ensures Keyed(AddAll(m, devs))
  {
    if devs != [] {
      AddAllKeyed(m, devs[..|devs| - 1]);
    }
  }

  lemma {:induction false} FoldKeyed(m: DeviceMap, evs: seq<Event>)
    requires Keyed(m)
    ensures Keyed(Fold(m, evs))
  {
    if evs != [] {
      var n := |evs| - 1;
      FoldKeyed(m, evs[..n]);
      if evs[n].Init? {
        AddAllKeyed(Fold(m, evs[..n]), evs[n].devices);
      }
    }
  }

  // ---- snapshots ----

  // devs holds every device of m exactly once, in any order.
  ghost predicate Lists(devs: seq<Device>, m: DeviceMap) {
    ListsBy(DeviceId, devs, m)
  }

  // Whoever starts from nothing and adds what it is sent ends with the map listed.
  lemma InitRestoresState(devs: seq<Device>, m: DeviceMap)
    requires Keyed(m) && Lists(devs, m)
    ensures AddAll(map[], devs) == m
  {
    AddAllContents(devs);
    var got := AddAll(map[], devs);
    forall id | id in m
      ensures id in got && got[id] == m[id]
    {
      var i :| 0 <= i < |devs| && devs[i] == m[id];
      assert DeviceId(m[id]) == id && devs[i].id in got;
    }
  }

  lemma {:induction false} AddAllContents(devs: seq<Device>)
    ensures forall id | id in AddAll(map[], devs) :: id == AddAll(map[], devs)[id].id && AddAll(map[], devs)[id] in devs
    ensures forall i | 0 <= i < |devs| :: devs[i].id in AddAll(map[], devs)
  {
    if devs != [] {
      var n := |devs| - 1;
      AddAllContents(devs[..n]);
      assert devs == devs[..n] + [devs[n]];
    }
  }

  // ---- filtered views ----

  // `State(filter)`
  function Matching(f: Device -> bool, m: DeviceMap): DeviceMap {
    map id | id in m && f(m[id]) :: m[id]
  }

  function AddMatching(f: Device -> bool, s: DeviceMap, devs: seq<Device>): DeviceMap {
    if devs == [] then s
    else
      var d := devs[|devs| - 1];
      var rest := AddMatching(f, s, devs[..|devs| - 1]);
      if f(d) then rest[d.id := d] else rest
  }

  // What a consumer does to its filtered map: it takes up devices that match f and lets go
  // of removed ones that match g.
  function ViewStep(f: Device -> bool, g: Device -> bool, s: DeviceMap, e: Event): DeviceMap {
    match e
    case Init(devs) => AddMatching(f, s, devs)
    case Added(d) => if f(d) then s[d.id := d] else s
    case Removed(d) => if g(d) then s - {d.id} else s
  }

  function ViewFold(f: Device -> bool, g: Device -> bool, s: DeviceMap, evs: seq<Event>): DeviceMap {
    if evs == [] then s else ViewStep(f, g, ViewFold(f, g, s, evs[..|evs| - 1]), evs[|evs| - 1])
  }

  function Any(): Device -> bool {
    (d: Device) => true
  }

  // The slice goroutine lets go of every removed device.
  function SliceStep(f: Device -> bool, s: DeviceMap, e: Event): DeviceMap {
    ViewStep(f, Any(), s, e)
  }

  function SliceFold(f: Device -> bool, s: DeviceMap, evs: seq<Event>): DeviceMap {
    ViewFold(f, Any(), s, evs)
  }

  lemma {:induction false} InitRestoresSelection(f: Device -> bool, devs: seq<Device>, m: DeviceMap)
    requires Keyed(m) && Lists(devs, m)
    ensures AddMatching(f, map[], devs) == Matching(f, m)
  {
    AddMatchingContents(f, devs);
    var got := AddMatching(f, map[], devs);
    forall id | id in m && f(m[id])
      ensures id in got && got[id] == m[id]
    {
      var i :| 0 <= i < |devs| && devs[i] == m[id];
      assert DeviceId(m[id]) == id && devs[i].id in got;
    }
  }

  lemma {:induction false} AddMatchingContents(f: Device -> bool, devs: seq<Device>)
    ensures var got := AddMatching(f, map[], devs);
            forall id | id in got :: id == got[id].id && got[id] in devs && f(got[id])
    ensures forall i | 0 <= i < |devs| && f(devs[i]) :: devs[i].id in AddMatching(f, map[], devs)
  {
    if devs != [] {
      var n := |devs| - 1;
      AddMatchingContents(f, devs[..n]);
      assert devs == devs[..n] + [devs[n]];
      var got := AddMatching(f, map[], devs);
      forall id | id in got
        ensures id == got[id].id && got[id] in devs && f(got[id])
      {
        if !(f(devs[n]) && id == devs[n].id) {
          assert got[id] == AddMatching(f, map[], devs[..n])[id];
        }
      }
    }
  }

  // The last matching device listed under an id.
  ghost predicate LastListed(f: Device -> bool, devs: seq<Device>, i: int, id: string) {
    && 0 <= i < |devs| && f(devs[i]) && devs[i].id == id
    && forall j | i < j < |devs| && f(devs[j]) :: devs[j].id != id
  }

  // An id with a matching device listed has the last of them, any other is as before.
  ghost predicate TakesUp(f: Device -> bool, before: DeviceMap, devs: seq<Device>, after: DeviceMap, id: string) {
    if exists i :: LastListed(f, devs, i, id)
    then id in after && exists i :: LastListed(f, devs, i, id) && devs[i] == after[id]
    else SameAt(after, before, id)
  }

  lemma {:induction false} AddMatchingTakesUp(f: Device -> bool, s: DeviceMap, devs: seq<Device>, id: string)
    ensures TakesUp(f, s, devs, AddMatching(f, s, devs), id)
  {
    if devs != [] {
      var n := |devs| - 1;
      AddMatchingTakesUp(f, s, devs[..n], id);
      if f(devs[n]) && devs[n].id == id {
        assert LastListed(f, devs, n, id);
      } else {
        assert forall i :: LastListed(f, devs, i, id) <==> LastListed(f, devs[..n], i, id);
      }
    }
  }

  // A device the filter accepted is added again, and now the filter rejects it.
  predicate Unmatches(f: Device -> bool, m: DeviceMap, e: Event) {
    e.Added? && e.dev.id in m && f(m[e.dev.id]) && !f(e.dev)
  }

  ghost predicate Deltas(evs: seq<Event>) {
    forall e | e in evs :: !e.Init?
  }

  lemma SelectStep(f: Device -> bool, m: DeviceMap, e: Event)
    requires !e.Init?
    ensures SliceStep(f, Matching(f, m), e) == Matching(f, ApplyEvent(m, e)) <==> !Unmatches(f, m, e)
  {
    var s, m' := Matching(f, m), ApplyEvent(m, e);
    var s' := SliceStep(f, s, e);
    if Unmatches(f, m, e) {
      assert e.dev.id in s' && e.dev.id !in Matching(f, m');
    } else {
      assert forall id :: id in s' <==> id in Matching(f, m');
      assert forall id | id in s' :: s'[id] == Matching(f, m')[id];
    }
  }

  // A slice shows `State(filter)` after every prefix of the events exactly when no re-added
  // device turns from a match into a non-match.
  lemma SliceIsStateIffNoUnmatch(f: Device -> bool, m: DeviceMap, evs: seq<Event>)
    requires Deltas(evs)
    ensures (forall n | 0 <= n <= |evs| :: SliceFold(f, Matching(f, m), evs[..n]) == Matching(f, Fold(m, evs[..n])))
       <==> (forall n | 0 <= n < |evs| :: !Unmatches(f, Fold(m, evs[..n]), evs[n]))
  {
    if forall n | 0 <= n < |evs| :: !Unmatches(f, Fold(m, evs[..n]), evs[n]) {
      forall n | 0 <= n <= |evs|
        ensures SliceFold(f, Matching(f, m), evs[..n]) == Matching(f, Fold(m, evs[..n]))
      {
        SliceFollows(f, m, evs, n);
      }
    }
    if forall n | 0 <= n <= |evs| :: SliceFold(f, Matching(f, m), evs[..n]) == Matching(f, Fold(m, evs[..n])) {
      forall n | 0 <= n < |evs|
        ensures !Unmatches(f, Fold(m, evs[..n]), evs[n])
      {
        NoUnmatchIfFollowed(f, m, evs, n);
      }
    }
  }

  lemma NoUnmatchIfFollowed(f: Device -> bool, m: DeviceMap, evs: seq<Event>, n: nat)
    requires Deltas(evs) && n < |evs|
    requires SliceFold(f, Matching(f, m), evs[..n]) == Matching(f, Fold(m, evs[..n]))
    requires SliceFold(f, Matching(f, m), evs[..n + 1]) == Matching(f, Fold(m, evs[..n + 1]))
    ensures !Unmatches(f, Fold(m, evs[..n]), evs[n])
  {
    assert evs[..n + 1][..n] == evs[..n];
    SelectStep(f, Fold(m, evs[..n]), evs[n]);
  }

  lemma {:induction false} SliceFollows(f: Device -> bool, m: DeviceMap, evs: seq<Event>, n: nat)
    requires Deltas(evs) && n <= |evs|
    requires forall k | 0 <= k < n :: !Unmatches(f, Fold(m, evs[..k]), evs[k])
    ensures SliceFold(f, Matching(f, m), evs[..n]) == Matching(f, Fold(m, evs[..n]))
  {
    if n == 0 {
      assert evs[..0] == [];
    } else {
      SliceFollows(f, m, evs, n - 1);
      assert evs[..n][..n - 1] == evs[..n - 1];
      SelectStep(f, Fold(m, evs[..n - 1]), evs[n - 1]);
    }
  }

  // The same from the start of a stream, where an Init lists the map: once the Init is
  // handled, a slice that began with nothing shows `State(filter)` after every event.
  lemma SliceFromInitIsStateIff(f: Device -> bool, m: DeviceMap, evs: seq<Event>)
    requires Keyed(m) && evs != [] && evs[0].Init? && Lists(evs[0].devices, m) && Deltas(evs[1..])
    ensures (forall n | 1 <= n <= |evs| :: SliceFold(f, map[], evs[..n]) == Matching(f, Fold(map[], evs[..n])))
       <==> (forall n | 1 <= n < |evs| :: !Unmatches(f, Fold(map[], evs[..n]), evs[n]))
  {
    var rest := evs[1..];
    forall n | 1 <= n <= |evs|
      ensures Fold(map[], evs[..n]) == Fold(m, rest[..n - 1])
      ensures SliceFold(f, map[], evs[..n]) == SliceFold(f, Matching(f, m), rest[..n - 1])
    {
      FoldsFromInit(f, m, evs, n);
    }
    SliceIsStateIffNoUnmatch(f, m, rest);
    SameFromOneOn(f, m, evs);
  }

  lemma SameFromOneOn(f: Device -> bool, m: DeviceMap, evs: seq<Event>)
    requires evs != []
    requires forall n | 1 <= n <= |evs| ::
               Fold(map[], evs[..n]) == Fold(m, evs[1..][..n - 1]) &&
               SliceFold(f, map[], evs[..n]) == SliceFold(f, Matching(f, m), evs[1..][..n - 1])
    ensures (forall n | 1 <= n <= |evs| :: SliceFold(f, map[], evs[..n]) == Matching(f, Fold(map[], evs[..n])))
       <==> (forall n | 0 <= n < |evs| ::
         SliceFold(f, Matching(f, m), evs[1..][..n]) == Matching(f, Fold(m, evs[1..][..n])))
    ensures (forall n | 1 <= n < |evs| :: !Unmatches(f, Fold(map[], evs[..n]), evs[n]))
       <==> (forall n | 0 <= n < |evs| - 1 :: !Unmatches(f, Fold(m, evs[1..][..n]), evs[1..][n]))
  {
    var rest := evs[1..];
    forall n | 0 <= n < |evs|
      ensures Fold(map[], evs[..n + 1]) == Fold(m, rest[..n])
      ensures SliceFold(f, map[], evs[..n + 1]) == SliceFold(f, Matching(f, m), rest[..n])
    {
      assert Fold(map[], evs[..n + 1]) == Fold(m, rest[..n + 1 - 1]);
    }
    if forall n | 1 <= n < |evs| :: !Unmatches(f, Fold(map[], evs[..n]), evs[n]) {
      forall n | 0 <= n < |evs| - 1
        ensures !Unmatches(f, Fold(m, rest[..n]), rest[n])
      {
        assert !Unmatches(f, Fold(map[], evs[..n + 1]), evs[n + 1]);
      }
    }
  }

  lemma {:induction false} FoldsFromInit(f: Device -> bool, m: DeviceMap, evs: seq<Event>, n: nat)
    requires Keyed(m) && evs != [] && evs[0].Init? && Lists(evs[0].devices, m) && 1 <= n <= |evs|
    ensures Fold(map[], evs[..n]) == Fold(m, evs[1..][..n - 1])
    ensures SliceFold(f, map[], evs[..n]) == SliceFold(f, Matching(f, m), evs[1..][..n - 1])
  {
    FoldSnoc(f, map[], map[], evs, n - 1);
    if n == 1 {
      assert evs[..0] == [] && evs[1..][..0] == [];
      InitRestoresState(evs[0].devices, m);
      InitRestoresSelection(f, evs[0].devices, m);
    } else {
      FoldsFromInit(f, m, evs, n - 1);
      FoldSnoc(f, m, Matching(f, m), evs[1..], n - 2);
    }
  }

  lemma FoldSnoc(f: Device -> bool, m: DeviceMap, s: DeviceMap, evs: seq<Event>, n: nat)
    requires n < |evs|
    ensures Fold(m, evs[..n + 1]) == ApplyEvent(Fold(m, evs[..n]), evs[n])
    ensures SliceFold(f, s, evs[..n + 1]) == SliceStep(f, SliceFold(f, s, evs[..n]), evs[n])
  {
    assert evs[..n + 1][..n] == evs[..n];
  }

  // ---- where a filtered view is wrong ----

  // A change, a removal naming the device as it is known.
  predicate KnownDelta(m: DeviceMap, e: Event) {
    !e.Init? && (e.Removed? ==> e.dev.id in m && m[e.dev.id] == e.dev)
  }

  ghost predicate KnownDeltas(m: DeviceMap, evs: seq<Event>) {
    forall n | 0 <= n < |evs| :: KnownDelta(Fold(m, evs[..n]), evs[n])
  }

  // An event that puts the entry of an id right, whatever the view had.
  predicate Settles(f: Device -> bool, g: Device -> bool, e: Event, id: string) {
    !e.Init? && e.dev.id == id && if e.Added? then f(e.dev) else g(e.dev)
  }

  // A re-add turned the device of this id from a match into a non-match, and nothing since
  // has settled it.
  ghost predicate Stale(f: Device -> bool, g: Device -> bool, m: DeviceMap, evs: seq<Event>, id: string) {
    evs != [] &&
    var before, e := evs[..|evs| - 1], evs[|evs| - 1];
    || (Unmatches(f, Fold(m, before), e) && e.dev.id == id)
    || (Stale(f, g, m, before, id) && !Settles(f, g, e, id))
  }

  // A map has the same as another at one id.
  predicate SameAt(a: DeviceMap, b: DeviceMap, id: string) {
    (id in a <==> id in b) && (id in a ==> a[id] == b[id])
  }

  // At a stale id the view has what it should not; everywhere else it is right.
  lemma {:induction false} ViewAtId(f: Device -> bool, g: Device -> bool, m: DeviceMap, evs: seq<Event>, id: string)
    requires KnownDeltas(m, evs) && forall d :: f(d) ==> g(d)
    ensures var view, state := ViewFold(f, g, Matching(f, m), evs), Matching(f, Fold(m, evs));
            if Stale(f, g, m, evs, id) then id in view && id !in state else SameAt(view, state, id)
    decreases |evs|
  {
    if evs != [] {
      var n := |evs| - 1;
      assert evs == evs[..n] + [evs[n]];
      assert forall k | 0 <= k < n :: evs[..n][..k] == evs[..k];
      ViewAtId(f, g, m, evs[..n], id);
      ViewAtIdStep(
        f, g, Fold(m, evs[..n]), ViewFold(f, g, Matching(f, m), evs[..n]), evs[n], id, Stale(f, g, m, evs[..n], id));
    }
  }

  lemma ViewAtIdStep(
      f: Device -> bool, g: Device -> bool, m: DeviceMap, view: DeviceMap, e: Event, id: string, stale: bool)
    requires KnownDelta(m, e) && forall d :: f(d) ==> g(d)
    requires if stale then id in view && id !in Matching(f, m) else SameAt(view, Matching(f, m), id)
    ensures var view', state' := ViewStep(f, g, view, e), Matching(f, ApplyEvent(m, e));
            if (Unmatches(f, m, e) && e.dev.id == id) || (stale && !Settles(f, g, e, id))
            then id in view' && id !in state'
            else SameAt(view', state', id)
  {
  }

  lemma SameEverywhere(a: DeviceMap, b: DeviceMap)
    requires forall id :: SameAt(a, b, id)
    ensures a == b
  {
    assert forall id | id in a :: SameAt(a, b, id);
    assert forall id | id in b :: SameAt(a, b, id);
  }

  ghost predicate NoneStale(f: Device -> bool, g: Device -> bool, m: DeviceMap, evs: seq<Event>) {
    forall id :: !Stale(f, g, m, evs, id)
  }

  // After any events a filtered view is the matching part of the map if and only if no id
  // is stale.
  lemma ViewIsSelectionIff(f: Device -> bool, g: Device -> bool, m: DeviceMap, evs: seq<Event>)
    requires KnownDeltas(m, evs) && forall d :: f(d) ==> g(d)
    ensures ViewFold(f, g, Matching(f, m), evs) == Matching(f, Fold(m, evs)) <==> NoneStale(f, g, m, evs)
  {
    var view, state := ViewFold(f, g, Matching(f, m), evs), Matching(f, Fold(m, evs));
    if NoneStale(f, g, m, evs) {
      forall id
        ensures SameAt(view, state, id)
      {
        ViewAtId(f, g, m, evs, id);
      }
      SameEverywhere(view, state);
    } else {
      var id :| Stale(f, g, m, evs, id);
      ViewAtId(f, g, m, evs, id);
    }
  }

  // ---- the monitor and the kernel ----

  datatype Uevent = Uevent(action: string, dev: Device)

  predicate Appears(u: Uevent) {
    u.action == ACTION_ADD || u.action == ACTION_ONLINE
  }

  predicate Vanishes(u: Uevent) {
    u.action == ACTION_REMOVE || u.action == ACTION_OFFLINE
  }

  // The devices the kernel has after a uevent.
  function KernelStep(ids: set<string>, u: Uevent): set<string> {
    if u.action == "add" || u.action == "online" then ids + {u.dev.id}
    else if u.action == "remove" || u.action == "offline" then ids - {u.dev.id}
    else ids
  }

  function KernelAt(ids: set<string>, log: seq<Uevent>): set<string> {
    if log == [] then ids else KernelStep(KernelAt(ids, log[..|log| - 1]), log[|log| - 1])
  }

  // What the monitor publishes for a uevent, if anything.
  function Publishes(m: DeviceMap, u: Uevent): Option<Event> {
    if Appears(u) then Some(Added(u.dev))
    else if Vanishes(u) && u.dev.id in m then Some(Removed(m[u.dev.id]))
    else None
  }

  function MonitorStep(m: DeviceMap, u: Uevent): DeviceMap {
    if Appears(u) then m[u.dev.id := u.dev]
    else if Vanishes(u) then m - {u.dev.id}
    else m
  }

  function MonitorAt(m: DeviceMap, log: seq<Uevent>): DeviceMap {
    if log == [] then m else MonitorStep(MonitorAt(m, log[..|log| - 1]), log[|log| - 1])
  }

  // A device that is added or comes online is published and known from then on; of one that
  // is removed or goes offline the known record is published, if there is one, and it is
  // forgotten; nothing else is of interest.
  ghost predicate Follows(before: DeviceMap, u: Uevent, published: Option<Event>, after: DeviceMap) {
    var id := u.dev.id;
    && (u.action in {"add", "online"} ==> published == Some(Added(u.dev)) && after == before[id := u.dev])
    && (u.action in {"remove", "offline"} ==>
          && after.Keys == before.Keys - {id}
          && (forall other | other in after :: after[other] == before[other])
          && published == if id in before then Some(Removed(before[id])) else None)
    && (u.action !in {"add", "online", "remove", "offline"} ==> published == None && after == before)
  }

  // Every uevent is followed so, and the published event says exactly what happened to the
  // map; silence means nothing did.
  lemma PublishedEventIsTheChange(m: DeviceMap, u: Uevent)
    requires Keyed(m)
    ensures Follows(m, u, Publishes(m, u), MonitorStep(m, u))
    ensures Publishes(m, u).Some? ==> MonitorStep(m, u) == ApplyEvent(m, Publishes(m, u).value)
    ensures Publishes(m, u).None? ==> MonitorStep(m, u) == m
    ensures Keyed(MonitorStep(m, u)) && MonitorStep(m, u).Keys == KernelStep(m.Keys, u)
  {
  }

  // A log entry is about this device.
  predicate Concerns(u: Uevent, id: string) {
    u.dev.id == id && (Appears(u) || Vanishes(u))
  }

  // Replay settles a device at the first entry about it; before that the monitor has the
  // sample and the kernel what it had when the socket opened.
  lemma {:induction false} ReplaySettles(ids: set<string>, m: DeviceMap, log: seq<Uevent>, id: string)
    ensures if exists u | u in log :: Concerns(u, id)
            then id in MonitorAt(m, log) <==> id in KernelAt(ids, log)
            else (id in MonitorAt(m, log) <==> id in m) && (id in KernelAt(ids, log) <==> id in ids)
  {
    if log != [] {
      var n := |log| - 1;
      assert log == log[..n] + [log[n]];
      ReplaySettles(ids, m, log[..n], id);
      if Concerns(log[n], id) {
        assert log[n] in log;
      } else if u :| u in log[..n] && Concerns(u, id) {
        assert u in log;
      }
    }
  }

  // Each id was sampled at its own instant after the socket opened: the enumeration has it
  // if the kernel had it after the first at(id) entries of the log.
  ghost predicate SampledAt(ids: set<string>, log: seq<Uevent>, at: string -> nat, enumerated: DeviceMap) {
    forall id :: at(id) <= |log| && (id in enumerated <==> id in KernelAt(ids, log[..at(id)]))
  }

  // The enumeration overlaps the buffered log, yet replaying the log from the moment the
  // socket opened leaves the monitor with exactly the kernel's devices, from the point on
  // where every sampling instant has been passed.
  lemma OverlappingEnumerationConverges(
      ids: set<string>, log: seq<Uevent>, at: string -> nat, enumerated: DeviceMap, n: nat)
    requires SampledAt(ids, log, at, enumerated) && n <= |log|
    requires forall id :: at(id) <= n
    ensures MonitorAt(enumerated, log[..n]).Keys == KernelAt(ids, log[..n])
  {
    forall id
      ensures id in MonitorAt(enumerated, log[..n]) <==> id in KernelAt(ids, log[..n])
    {
      SampleCatchesUp(ids, log, at, enumerated, n, id);
    }
  }

  lemma SampleCatchesUp(
      ids: set<string>, log: seq<Uevent>, at: string -> nat, enumerated: DeviceMap, n: nat, id: string)
    requires SampledAt(ids, log, at, enumerated) && at(id) <= n <= |log|
    ensures id in MonitorAt(enumerated, log[..n]) <==> id in KernelAt(ids, log[..n])
  {
    var k := at(id);
    ReplaySettles(ids, enumerated, log[..n], id);
    ReplaySettles(ids, enumerated, log[..k], id);
    if u :| u in log[..k] && Concerns(u, id) {
      var i :| 0 <= i < k && log[i] == u;
      assert log[..n][i] == u;
    }
  }

  // Before that point it may be behind: a device sampled after its removal is missing while
  // the replay has not yet reached the removal.
  lemma ReplayBehindSampleDiffers(d: Device)
    ensures var log := [Uevent(ACTION_REMOVE, d)];
            && SampledAt({d.id}, log, (id: string) => 1, map[])
            && MonitorAt(map[], log[..0]).Keys != KernelAt({d.id}, log[..0])
  {
    var log := [Uevent(ACTION_REMOVE, d)];
    assert log[..1] == log && log[..0] == [];
    assert KernelAt({d.id}, log) == KernelStep(KernelAt({d.id}, log[..0]), log[0]);
    assert d.id in KernelAt({d.id}, []);
  }
}
