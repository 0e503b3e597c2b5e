// The state-changing code of internal/udev: the monitor's map, a slice's map and the
// in-memory discovery. Loops over a Go map visit its keys in an arbitrary order.
module UdevCode {
  import opened Listings
  import opened SliceChain
  import opened Udev

  // sliceSnapshot, and the loop that builds an Init.
  method ListDevices(m: DeviceMap) returns (devs: seq<Device>)
    requires Keyed(m)
    ensures Lists(devs, m)
  {
    devs := ListValues(DeviceId, m);
  }

  // The loop of a stateRequest and of FakeDiscovery.State.
  method FilterState(m: DeviceMap, f: Device -> bool) returns (result: DeviceMap)
    ensures result == Matching(f, m)
    ensures forall id :: id in result <==> id in m && f(m[id])
    ensures forall id | id in result :: result[id] == m[id]
  {
    result := map[];
    var todo := m.Keys;
    while todo != {}
      invariant todo <= m.Keys
      invariant result == map id | id in m && id !in todo && f(m[id]) :: m[id]
      decreases todo
    {
      var k :| k in todo;
      if f(m[k]) {
        result := result[k := m[k]];
      }
      todo := todo - {k};
    }
  }

  // udevDiscovery: the map the monitor goroutine owns.
  class Monitor {
    var state: DeviceMap

    ghost predicate Valid()
      reads this
    {
      Keyed(state)
    }

    constructor ()
      ensures Valid() && state == map[]
    {
      state := map[];
    }

    // Step 2 of the monitor: libudev may hand out nil devices, which are skipped.
    method Enumerate(devs: seq<Option<Device>>)
      requires Valid()
      modifies this
      ensures Valid() && state == AddAll(old(state), Present(devs))
      ensures forall id :: EnumeratedAt(old(state), devs, state, id)
    {
      for i := 0 to |devs|
        invariant Valid() && state == AddAll(old(state), Present(devs[..i]))
      {
        assert devs[..i + 1][..i] == devs[..i];
        if devs[i].Some? {
          var d := devs[i].value;
          var before := Present(devs[..i]);
          assert (before + [d])[..|before|] == before;
          state := state[d.id := d];
        }
      }
      assert devs[..|devs|] == devs;
      forall id
        ensures EnumeratedAt(old(state), devs, state, id)
      {
        EveryIdEnumerated(old(state), devs, id);
      }
    }

    // One uevent: the map follows the kernel, and what is to be submitted is the change. The
    // first three clauses say so without the functions of the model.
    method HandleUevent(u: Uevent) returns (ev: Option<Event>)
      requires Valid()
      modifies this
      ensures u.action in {"add", "online"} ==> ev == Some(Added(u.dev)) && state == old(state)[u.dev.id := u.dev]
      ensures u.action in {"remove", "offline"} ==>
                u.dev.id !in state && state == old(state) - {u.dev.id} &&
                ev == if u.dev.id in old(state) then Some(Removed(old(state)[u.dev.id])) else None
      ensures u.action !in {"add", "online", "remove", "offline"} ==> ev == None && state == old(state)
      ensures Valid() && state.Keys == KernelStep(old(state).Keys, u)
      ensures ev == Publishes(old(state), u)
      ensures ev.Some? ==> state == ApplyEvent(old(state), ev.value)
      ensures ev.None? ==> state == old(state)
      ensures ev.Some? && ev.value.Removed? ==>
        ev.value.dev.id in old(state) && old(state)[ev.value.dev.id] == ev.value.dev
    {
      ev := None;
      if u.action == ACTION_ADD || u.action == ACTION_ONLINE {
        state := state[u.dev.id := u.dev];
        ev := Some(Added(u.dev));
      } else if u.action == ACTION_REMOVE || u.action == ACTION_OFFLINE {
        var known := u.dev.id in state;
        if known {
          ev := Some(Removed(state[u.dev.id]));
        }
        state := state - {u.dev.id};
      }
    }

    // newSub: the Init event for a new sink. A consumer starting from it has the state.
    method InitEvent() returns (ev: Event)
      requires Valid()
      ensures ev.Init? && Lists(ev.devices, state) && ApplyEvent(map[], ev) == state
    {
      var devs := ListDevices(state);
      InitRestoresState(devs, state);
      ev := Init(devs);
    }
  }

  ghost predicate ListsId(devs: seq<Option<Device>>, id: string) {
    exists i :: 0 <= i < |devs| && devs[i].Some? && devs[i].value.id == id
  }

  // The last device listed with its id.
  ghost predicate LastOfId(devs: seq<Option<Device>>, i: int, d: Device) {
    && 0 <= i < |devs| && devs[i] == Some(d)
    && forall j | i < j < |devs| && devs[j].Some? :: devs[j].value.id != d.id
  }

  // A listed id has its last device, any other is as before.
  ghost predicate EnumeratedAt(before: DeviceMap, devs: seq<Option<Device>>, after: DeviceMap, id: string) {
    if ListsId(devs, id)
    then id in after && after[id].id == id && exists i :: LastOfId(devs, i, after[id])
    else SameAt(after, before, id)
  }

  lemma {:induction false} EveryIdEnumerated(m: DeviceMap, devs: seq<Option<Device>>, id: string)
    ensures EnumeratedAt(m, devs, AddAll(m, Present(devs)), id)
  {
    if devs != [] {
      var n := |devs| - 1;
      EveryIdEnumerated(m, devs[..n], id);
      var after := AddAll(m, Present(devs));
      if devs[n].Some? {
        var before := Present(devs[..n]);
        assert (before + [devs[n].value])[..|before|] == before;
        if devs[n].value.id == id {
          assert LastOfId(devs, n, after[id]);
          return;
        }
      }
      assert after == AddAll(m, Present(devs[..n])) || devs[n].Some?;
      assert ListsId(devs, id) <==> ListsId(devs[..n], id);
      if ListsId(devs, id) {
        var i :| LastOfId(devs[..n], i, after[id]);
        assert LastOfId(devs, i, after[id]);
      }
    }
  }

  function Present(devs: seq<Option<Device>>): seq<Device> {
    if devs == [] then []
    else
      var rest := Present(devs[..|devs| - 1]);
      match devs[|devs| - 1]
      case None => rest
      case Some(d) => rest + [d]
  }

  // udevSlice: a filtered view that publishes when it changes.
  class Slice {
    const filter: Device -> bool
    var state: DeviceMap

    ghost predicate Valid()
      reads this
    {
      Keyed(state) && forall id | id in state :: filter(state[id])
    }

    constructor (filter: Device -> bool)
      ensures Valid() && this.filter == filter && state == map[]
    {
      this.filter := filter;
      state := map[];
    }

    // One event from the source. What is published lists the new view; when nothing is
    // published the view has not changed.
    method Handle(e: Event) returns (published: Option<seq<Device>>)
      requires Valid()
      modifies this
      ensures Valid() && state == SliceStep(filter, old(state), e)
      ensures e.Init? ==> forall id :: TakesUp(filter, old(state), e.devices, state, id)
      ensures published.Some? <==> e.Init? || (e.Added? && filter(e.dev)) || (e.Removed? && e.dev.id in old(state))
      ensures published.Some? <==> PublishesFor(filter, old(state), e)
      ensures published.Some? ==> Lists(published.value, state)
      ensures published.None? ==> state == old(state)
    {
      published := None;
      match e {
        case Init(devs) =>
          for i := 0 to |devs|
            invariant Valid() && state == AddMatching(filter, old(state), devs[..i])
          {
            assert devs[..i + 1][..i] == devs[..i];
            if filter(devs[i]) {
              state := state[devs[i].id := devs[i]];
            }
          }
          assert devs[..|devs|] == devs;
          forall id
            ensures TakesUp(filter, old(state), devs, state, id)
          {
            AddMatchingTakesUp(filter, old(state), devs, id);
          }
          var snapshot := ListDevices(state);
          published := Some(snapshot);
        case Added(d) =>
          if filter(d) {
            state := state[d.id := d];
            var snapshot := ListDevices(state);
            published := Some(snapshot);
          }
        case Removed(d) =>
          if d.id in state {
            state := state - {d.id};
            var snapshot := ListDevices(state);
            published := Some(snapshot);
          }
      }
    }
  }

  // FakeDiscovery: every method runs under one lock, so each is one step. `delivered` is
  // what the mux made of the Submit whose result the code ignores.
  class FakeDiscovery {
    var state: DeviceMap
    // What each subscribed sink has been handed.
    ghost var streams: map<nat, seq<Event>>

    ghost predicate Valid()
      reads this
    {
      Keyed(state)
    }

    // Every subscriber, folding its stream from nothing, has the current state.
    ghost predicate InSync()
      reads this
    {
      AllFoldTo(streams, state)
    }

    constructor ()
      ensures Valid() && InSync() && state == map[] && streams == map[]
    {
      state, streams := map[], map[];
    }

    // No event: right before the first subscription only.
    method AddDevice(dev: Device)
      requires Valid()
      modifies this
      ensures Valid() && state == old(state)[dev.id := dev] && streams == old(streams)
      ensures old(InSync()) ==> (InSync() <==> streams == map[] || state == old(state))
    {
      state := state[dev.id := dev];
      if old(InSync()) && streams != map[] {
        ghost var s :| s in streams;
        assert Fold(map[], streams[s]) == old(state);
      }
    }

    // Subscribers stay in sync exactly when the event describes the change made here: an
    // Init changes nothing, and an undelivered event is not seen.
    method Emit(ev: Event, delivered: bool)
      requires Valid()
      modifies this
      ensures Valid()
      ensures state == match ev {
                         case Added(d) => old(state)[d.id := d]
                         case Removed(d) => old(state) - {d.id}
                         case Init(_) => old(state)
                       }
      ensures streams == if delivered then ToAll(old(streams), ev) else old(streams)
      ensures old(InSync()) ==>
                (InSync() <==>
                 streams == map[] || (if delivered then ApplyEvent(old(state), ev) else old(state)) == state)
    {
      match ev {
        case Added(d) => state := state[d.id := d];
        case Removed(d) => state := state - {d.id};
        case Init(_) =>
      }
      if delivered {
        streams := ToAll(streams, ev);
      }
      if old(InSync()) {
        forall s | s in streams
          ensures Fold(map[], streams[s]) == if delivered then ApplyEvent(old(state), ev) else old(state)
        {
          if delivered {
            OneMoreEvent(old(streams)[s], ev);
          }
        }
        if streams != map[] {
          ghost var s :| s in streams;
          assert Fold(map[], streams[s]) == if delivered then ApplyEvent(old(state), ev) else old(state);
        }
      }
    }

    // Init and registration in one critical section: the new sink starts in sync and the
    // others are not affected.
    method Subscribe(sink: nat)
      requires Valid() && sink !in streams
      modifies this`streams
      ensures Valid() && (old(InSync()) <==> InSync())
      ensures streams.Keys == old(streams).Keys + {sink} && Fold(map[], streams[sink]) == state
      ensures forall s | s in old(streams) :: streams[s] == old(streams)[s]
    {
      var devices := ListDevices(state);
      InitRestoresState(devices, state);
      OneMoreEvent([], Init(devices));
      assert [] + [Init(devices)] == [Init(devices)];
      OneMoreStream(streams, sink, [Init(devices)], state);
      streams := streams[sink := [Init(devices)]];
    }
  }

  ghost function ToAll(streams: map<nat, seq<Event>>, ev: Event): map<nat, seq<Event>> {
    map s | s in streams :: streams[s] + [ev]
  }

  ghost predicate AllFoldTo(streams: map<nat, seq<Event>>, state: DeviceMap) {
    forall s | s in streams :: Fold(map[], streams[s]) == state
  }

  lemma OneMoreStream(streams: map<nat, seq<Event>>, sink: nat, stream: seq<Event>, state: DeviceMap)
    requires sink !in streams && Fold(map[], stream) == state
    ensures AllFoldTo(streams[sink := stream], state) <==> AllFoldTo(streams, state)
  {
    var more := streams[sink := stream];
    assert forall s | s in streams :: more[s] == streams[s];
  }

  lemma OneMoreEvent(evs: seq<Event>, ev: Event)
    ensures Fold(map[], evs + [ev]) == ApplyEvent(Fold(map[], evs), ev)
  {
    assert (evs + [ev])[..|evs|] == evs;
  }
}
