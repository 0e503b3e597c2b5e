// The replication protocol as a discovery runs it: the state is a device map, the events are
// its changes, and consumers keep filtered views of what they are sent.
module DiscoveryStream {
  import opened Listings
  import opened MuxProtocol
  import opened Replication
  import opened Snapshots
  import opened Udev

  // A removal is published for a known device only, and names it as it is known.
  function DiscoveryRules(): Rules<DeviceMap, Event> {
    Rules(ApplyEvent, (m, e) => KnownDelta(m, e))
  }

  // Whatever the kernel reports, the monitor may publish what it makes of it.
  lemma EveryUeventAllowed(m: DeviceMap, u: Uevent)
    requires Keyed(m)
    ensures Publishes(m, u).Some? ==> DiscoveryRules().ok(m, Publishes(m, u).value)
  {
  }

  lemma {:induction false} ReplayIsFold(base: DeviceMap, msgs: seq<Msg<Event>>)
    ensures Replay(DiscoveryRules(), base, msgs) == Fold(base, Values(msgs))
    decreases |msgs|
  {
    if msgs != [] {
      var n := |msgs| - 1;
      ReplayIsFold(base, msgs[..n]);
      assert Values(msgs)[..n] == Values(msgs[..n]);
    }
  }

  // A consumer's filtered view after the items of its stream.
  function FollowLog(f: Device -> bool, g: Device -> bool, log: seq<Item<DeviceMap, Event>>): DeviceMap {
    if log == [] then map[]
    else
      match log[|log| - 1]
      case Snap(x) => Matching(f, x)
      case Ev(e) => ViewStep(f, g, FollowLog(f, g, log[..|log| - 1]), e)
  }

  lemma {:induction false} FollowIsViewFold(f: Device -> bool, g: Device -> bool, x: DeviceMap, msgs: seq<Msg<Event>>)
    ensures FollowLog(f, g, [Snap(x)] + Events(msgs)) == ViewFold(f, g, Matching(f, x), Values(msgs))
    decreases |msgs|
  {
    var log := [Snap(x)] + Events(msgs);
    if msgs != [] {
      var n := |msgs| - 1;
      FollowIsViewFold(f, g, x, msgs[..n]);
      assert log[..n + 1] == [Snap(x)] + Events(msgs[..n]);
      assert Values(msgs)[..n] == Values(msgs[..n]);
    }
  }

  // What a registered sink was sent behind its snapshot are known changes of that snapshot.
  lemma ReceivedKnown(p: Repl<DeviceMap, Event>, s: nat)
    requires s in p.snaps && s in p.mux.subs && Registered(p.mux.subs[s].pc)
    requires StateInv(DiscoveryRules(), p) && SnapInv(DiscoveryRules(), p, s) && StreamInv(p.mux, s)
    ensures KnownDeltas(p.snaps[s], Values(p.mux.subs[s].received))
  {
    var got, start := p.mux.subs[s].received, p.mux.subs[s].start;
    forall i | 0 <= i < |got|
      ensures KnownDelta(Fold(p.snaps[s], Values(got)[..i]), Values(got)[i])
    {
      AcceptedAllowed(p, start + i);
      SegmentState(p.base, p.mux.accepted, start, got, i);
    }
  }

  // The state in which an event of a segment of the log was published.
  lemma SegmentState(base: DeviceMap, log: seq<Msg<Event>>, start: nat, segment: seq<Msg<Event>>, i: nat)
    requires start + |segment| <= |log| && segment == log[start..start + |segment|] && i < |segment|
    ensures Replay(DiscoveryRules(), base, log[..start + i]) ==
            Fold(Replay(DiscoveryRules(), base, log[..start]), Values(segment)[..i])
    ensures Values(segment)[i] == log[start + i].value
  {
    ReplayInTwo(DiscoveryRules(), base, log[..start], segment[..i]);
    ReplayIsFold(Replay(DiscoveryRules(), base, log[..start]), segment[..i]);
    SegmentJoins(log, start, segment, i);
    assert Values(segment)[..i] == Values(segment[..i]);
  }

  lemma AcceptedAllowed(p: Repl<DeviceMap, Event>, i: nat)
    requires StateInv(DiscoveryRules(), p) && i < |p.mux.accepted|
    ensures KnownDelta(Replay(DiscoveryRules(), p.base, p.mux.accepted[..i]), p.mux.accepted[i].value)
  {
    assert DiscoveryRules().ok(Replay(DiscoveryRules(), p.base, p.mux.accepted[..i]), p.mux.accepted[i].value);
  }

  // No id is stale in what the sink was sent.
  ghost predicate SentNothingStale(f: Device -> bool, g: Device -> bool, p: Repl<DeviceMap, Event>, s: nat)
    requires s in p.snaps && s in p.mux.subs
  {
    NoneStale(f, g, p.snaps[s], Values(p.mux.subs[s].received))
  }

  // The stream of a sink as a fold from its snapshot, unfiltered and filtered.
  lemma StreamFolds(f: Device -> bool, g: Device -> bool, p: Repl<DeviceMap, Event>, s: nat)
    requires s in p.snaps && s in p.mux.subs && LogInv1(p, s)
    ensures var x, evs := p.snaps[s], Values(p.mux.subs[s].received);
            && View(DiscoveryRules(), map[], p.logs[s]) == Fold(x, evs)
            && FollowLog(f, g, p.logs[s]) == ViewFold(f, g, Matching(f, x), evs)
  {
    FollowIsViewFold(f, g, p.snaps[s], p.mux.subs[s].received);
    ViewOfEvents(DiscoveryRules(), map[], p.snaps[s], p.mux.subs[s].received);
    ReplayIsFold(p.snaps[s], p.mux.subs[s].received);
  }

  // With owner and mux idle a registered consumer's filtered view is the matching part of
  // the owner's state if and only if nothing it was sent left an id stale.
  lemma FollowerIsStateIff(f: Device -> bool, g: Device -> bool, p: Repl<DeviceMap, Event>, s: nat)
    requires RInv(DiscoveryRules(), p) && NoLoss(p.mux) && forall d :: f(d) ==> g(d)
    requires p.owner.Free? && p.mux.phase.Select? && s in p.mux.outputs && s in p.snaps
    ensures s in p.logs && s in p.mux.subs && View(DiscoveryRules(), map[], p.logs[s]) == p.state
    ensures FollowLog(f, g, p.logs[s]) == Matching(f, p.state) <==> SentNothingStale(f, g, p, s)
  {
    assert StreamInv(p.mux, s) && LogInv1(p, s) && SnapInv(DiscoveryRules(), p, s);
    CaughtUp(DiscoveryRules(), p, s, map[]);
    StreamFolds(f, g, p, s);
    ReceivedKnown(p, s);
    ViewIsSelectionIff(f, g, p.snaps[s], Values(p.mux.subs[s].received));
  }

  // A device the state has and f accepts is in the view whatever went stale elsewhere.
  lemma MatchingIsFollowed(f: Device -> bool, g: Device -> bool, p: Repl<DeviceMap, Event>, s: nat, id: string)
    requires RInv(DiscoveryRules(), p) && NoLoss(p.mux) && forall d :: f(d) ==> g(d)
    requires p.owner.Free? && p.mux.phase.Select? && s in p.mux.outputs && s in p.snaps
    requires id in Matching(f, p.state)
    ensures s in p.logs && id in FollowLog(f, g, p.logs[s])
  {
    FollowerIsStateIff(f, g, p, s);
    assert StreamInv(p.mux, s) && LogInv1(p, s) && SnapInv(DiscoveryRules(), p, s);
    StreamFolds(f, g, p, s);
    ReceivedKnown(p, s);
    ViewAtId(f, g, p.snaps[s], Values(p.mux.subs[s].received), id);
  }

  // An id that went stale is in the view and not in the matching part of the state.
  lemma StaleIsFollowed(f: Device -> bool, g: Device -> bool, p: Repl<DeviceMap, Event>, s: nat) returns (id: string)
    requires RInv(DiscoveryRules(), p) && NoLoss(p.mux) && forall d :: f(d) ==> g(d)
    requires p.owner.Free? && p.mux.phase.Select? && s in p.mux.outputs && s in p.snaps
    requires s in p.mux.subs && !SentNothingStale(f, g, p, s)
    ensures s in p.logs && id in FollowLog(f, g, p.logs[s]) && id !in Matching(f, p.state)
  {
    FollowerIsStateIff(f, g, p, s);
    assert StreamInv(p.mux, s) && LogInv1(p, s) && SnapInv(DiscoveryRules(), p, s);
    StreamFolds(f, g, p, s);
    ReceivedKnown(p, s);
    id :| Stale(f, g, p.snaps[s], Values(p.mux.subs[s].received), id);
    ViewAtId(f, g, p.snaps[s], Values(p.mux.subs[s].received), id);
  }
}
