// What a subscriber of a replicated state can rely on, and where it cannot.
module Snapshots {
  import opened MuxProtocol
  import opened MuxRuns
  import opened Replication

  ghost predicate ReachedFrom<X(!new), E(!new)>(
      r: Rules<X, E>, order: Order, base: X, vs: seq<Move<E>>, p: Repl<X, E>)
  {
    Moves(r, Start(order, 0, base), vs) && p == After(r, Start(order, 0, base), vs)
  }

  lemma ReachedInv<X(!new), E(!new)>(r: Rules<X, E>, order: Order, base: X, vs: seq<Move<E>>, p: Repl<X, E>)
    requires ReachedFrom(r, order, base, vs, p)
    ensures RInv(r, p) && p.base == base && p.order == order
  {
    StartEstablishesRInv(r, order, base);
    MovesKeepRInv(r, Start(order, 0, base), vs);
    BaseStays(r, Start(order, 0, base), vs);
  }

  lemma {:induction false} BaseStays<X(!new), E(!new)>(r: Rules<X, E>, p: Repl<X, E>, vs: seq<Move<E>>)
    requires Moves(r, p, vs)
    ensures After(r, p, vs).base == p.base && After(r, p, vs).order == p.order
    decreases |vs|
  {
    if vs != [] {
      BaseStays(r, Move1(r, p, vs[0]), vs[1..]);
    }
  }

  // Folding a snapshot and then events is folding the events from the snapshot.
  lemma {:induction false} ViewOfEvents<X(!new), E(!new)>(r: Rules<X, E>, blank: X, x: X, msgs: seq<Msg<E>>)
    ensures View(r, blank, [Snap(x)] + Events(msgs)) == Replay(r, x, msgs)
    decreases |msgs|
  {
    var log := [Snap(x)] + Events(msgs);
    if msgs != [] {
      var n := |msgs| - 1;
      ViewOfEvents(r, blank, x, msgs[..n]);
      assert log[..n + 1] == [Snap(x)] + Events(msgs[..n]);
    }
  }

  lemma {:induction false} ReplayInTwo<X(!new), E(!new)>(r: Rules<X, E>, base: X, xs: seq<Msg<E>>, ys: seq<Msg<E>>)
    ensures Replay(r, base, xs + ys) == Replay(r, Replay(r, base, xs), ys)
    decreases |ys|
  {
    if ys == [] {
      assert xs + ys == xs;
    } else {
      var n := |ys| - 1;
      ReplayInTwo(r, base, xs, ys[..n]);
      assert (xs + ys)[..|xs + ys| - 1] == xs + ys[..n];
    }
  }

  // The first i events after the snapshot bring a reader to the state as of the event
  // before position start + i of the accepted log.
  lemma PrefixReadsAsReplay<X(!new), E(!new)>(r: Rules<X, E>, p: Repl<X, E>, s: nat, blank: X, i: nat)
    requires s in p.snaps && s in p.mux.subs && Registered(p.mux.subs[s].pc)
    requires LogInv1(p, s) && SnapInv(r, p, s) && StreamInv(p.mux, s)
    requires i <= |p.mux.subs[s].received|
    ensures p.logs[s][..i + 1] == [Snap(p.snaps[s])] + Events(p.mux.subs[s].received[..i])
    ensures View(r, blank, p.logs[s][..i + 1]) == Replay(r, p.base, p.mux.accepted[..p.mux.subs[s].start + i])
  {
    var start, got := p.mux.subs[s].start, p.mux.subs[s].received[..i];
    ViewOfEvents(r, blank, p.snaps[s], got);
    ReplayInTwo(r, p.base, p.mux.accepted[..start], got);
    SegmentJoins(p.mux.accepted, start, p.mux.subs[s].received, i);
  }

  lemma SegmentJoins<T>(log: seq<T>, start: nat, segment: seq<T>, i: nat)
    requires start + |segment| <= |log| && segment == log[start..start + |segment|] && i <= |segment|
    ensures log[..start + i] == log[..start] + segment[..i]
  {
  }

  lemma LogReadsAsReplay<X(!new), E(!new)>(r: Rules<X, E>, p: Repl<X, E>, s: nat, blank: X)
    requires s in p.snaps && s in p.mux.subs && Registered(p.mux.subs[s].pc)
    requires LogInv1(p, s) && SnapInv(r, p, s) && StreamInv(p.mux, s)
    ensures var sub := p.mux.subs[s];
            var n := sub.start + |sub.received|;
            && p.logs[s] ==
              [Snap(Replay(r, p.base, p.mux.accepted[..sub.start]))] + Events(p.mux.accepted[sub.start..n])
            && View(r, blank, p.logs[s]) == Replay(r, p.base, p.mux.accepted[..n])
  {
    var n := |p.mux.subs[s].received|;
    PrefixReadsAsReplay(r, p, s, blank, n);
    assert p.logs[s][..n + 1] == p.logs[s];
  }

  // Snapshot plus deltas is exact. If no Submit of the owner was lost, every sink with an
  // acknowledged subscription has been handed the state as of its registration followed by
  // exactly the events accepted since, none missed and none twice, and what it makes of
  // them is the owner's state as of the last event delivered to it.
  lemma SnapshotPlusDeltas<X(!new), E(!new)>(
      r: Rules<X, E>, order: Order, base: X, vs: seq<Move<E>>, p: Repl<X, E>, s: nat, blank: X)
    requires ReachedFrom(r, order, base, vs, p) && NoLoss(p.mux)
    requires s in p.snaps && s in p.mux.subs && Registered(p.mux.subs[s].pc)
    ensures s in p.logs
    ensures var sub := p.mux.subs[s];
            var n := sub.start + |sub.received|;
            && sub.start <= n <= |p.mux.accepted|
            && p.logs[s] == [Snap(Replay(r, base, p.mux.accepted[..sub.start]))] + Events(p.mux.accepted[sub.start..n])
            && View(r, blank, p.logs[s]) == Replay(r, base, p.mux.accepted[..n])
  {
    ReachedInv(r, order, base, vs, p);
    assert LogInv1(p, s) && SnapInv(r, p, s) && StreamInv(p.mux, s);
    LogReadsAsReplay(r, p, s, blank);
  }

  // When the owner is between events and the mux is back at its select, every registered
  // sink has caught up with the owner's state.
  lemma CaughtUpWhenIdle<X(!new), E(!new)>(
      r: Rules<X, E>, order: Order, base: X, vs: seq<Move<E>>, p: Repl<X, E>, s: nat, blank: X)
    requires ReachedFrom(r, order, base, vs, p) && NoLoss(p.mux)
    requires p.owner.Free? && p.mux.phase.Select? && s in p.mux.outputs
    ensures s in p.logs && View(r, blank, p.logs[s]) == p.state
  {
    ReachedInv(r, order, base, vs, p);
    assert StreamInv(p.mux, s) && LogInv1(p, s) && SnapInv(r, p, s);
    CaughtUp(r, p, s, blank);
  }

  lemma CaughtUp<X(!new), E(!new)>(r: Rules<X, E>, p: Repl<X, E>, s: nat, blank: X)
    requires p.owner.Free? && p.mux.phase.Select? && s in p.mux.outputs && s in p.mux.subs
    requires LogInv(p.mux) && p.mux.cap == 0 && StreamInv(p.mux, s)
    requires LogInv1(p, s) && SnapInv(r, p, s) && StateInv(r, p)
    ensures View(r, blank, p.logs[s]) == p.state
  {
    LogReadsAsReplay(r, p, s, blank);
    NothingBuffered(p.mux);
    assert p.mux.accepted[..|p.mux.accepted|] == p.mux.accepted;
  }

  // An owner that registers first and replays second panics exactly if, before the replay,
  // `run` received a cancel of the sink or closed it at shutdown.
  lemma ReplayPanicsIff<X(!new), E(!new)>(
      r: Rules<X, E>, base: X, vs: seq<Move<E>>, p: Repl<X, E>, s: nat)
    requires ReachedFrom(r, RegisterFirst, base, vs, p) && p.owner == Opening(s) && SubAt(p.mux, s, Answered)
    ensures ReplayPanics(p) <==>
            WasCancelled(p.mux, s) || ((p.mux.phase.CloseAll? || p.mux.phase.Exited?) && s !in p.mux.outputs)
  {
    ReachedInv(r, RegisterFirst, base, vs, p);
    ClosedBeforeReplay(p, s);
  }

  lemma ClosedBeforeReplay<X(!new), E(!new)>(p: Repl<X, E>, s: nat)
    requires SinkInv(p.mux) && CancelInv(p.mux) && CloseInv(p.mux)
    requires p.order.RegisterFirst? && p.owner == Opening(s) && SubAt(p.mux, s, Answered)
    ensures ReplayPanics(p) <==>
            WasCancelled(p.mux, s) || ((p.mux.phase.CloseAll? || p.mux.phase.Exited?) && s !in p.mux.outputs)
  {
    assert StreamInv(p.mux, s);
    if WasCancelled(p.mux, s) {
      var k :| k in p.mux.cancels && p.mux.cancels[k].sink == s && Registered(p.mux.cancels[k].pc);
      assert CancelOk(p.mux, k);
    }
  }

  // Every event was allowed in the state it was published in.
  lemma PublishedEventsAllowed<X(!new), E(!new)>(
      r: Rules<X, E>, order: Order, base: X, vs: seq<Move<E>>, p: Repl<X, E>, i: nat)
    requires ReachedFrom(r, order, base, vs, p) && NoLoss(p.mux) && i < |p.mux.accepted|
    ensures r.ok(Replay(r, base, p.mux.accepted[..i]), p.mux.accepted[i].value)
  {
    ReachedInv(r, order, base, vs, p);
  }

  // ---- longer runs ----

  lemma {:induction false} ThenMove<X(!new), E(!new)>(r: Rules<X, E>, p: Repl<X, E>, vs: seq<Move<E>>, v: Move<E>)
    returns (more: seq<Move<E>>)
    requires Moves(r, p, vs) && CanMove(r, After(r, p, vs), v)
    ensures more == vs + [v] && Moves(r, p, more) && After(r, p, more) == Move1(r, After(r, p, vs), v)
    decreases |vs|
  {
    more := vs + [v];
    if vs != [] {
      var rest := ThenMove(r, Move1(r, p, vs[0]), vs[1..], v);
      assert more[1..] == rest;
    }
  }
}
