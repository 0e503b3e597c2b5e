// The machine of SliceChain never gets stuck, and what is under way in it comes to rest.
module SliceProgress {
  import opened ChainProgress
  import opened DiscoveryStream
  import opened MuxLiveness
  import opened MuxProtocol
  import opened Replication
  import S = SliceChain
  import opened SliceStream
  import opened Udev

  // Source and slice have nothing under way.
  ghost predicate AtRest(c: S.Chain) {
    && c.src.owner.Free? && c.src.mux.phase.Select?
    && c.slice.owner.Free? && c.slice.mux.phase.Select?
  }

  // A step that brings nothing new into the chain.
  predicate Carries(a: S.Act) {
    match a
    case Source(v) => !v.Publish? && !v.Open? && (v.Inner? ==> !Entry(v.l))
    case Feed(_) => true
    case Slice(v) => !v.Publish? && !v.Open? && (v.Inner? ==> !Entry(v.l))
    case _ => false
  }

  // ---- progress ----

  lemma {:induction false} FreshCall<V>(calls: map<nat, V>) returns (call: nat)
    ensures forall c | c in calls :: c < call
    decreases |calls|
  {
    if calls == map[] {
      return 0;
    }
    var c :| c in calls;
    var above := FreshCall(calls - {c});
    call := if above > c then above else c + 1;
    assert forall d | d in calls :: d == c || d in calls - {c};
  }

  // An event for the slice is taken by the slice at its select.
  lemma SliceTakes(f: Device -> bool, feed: nat, c: S.Chain, failed: bool) returns (call: nat)
    requires S.AtSelect(c) && CanMove(DiscoveryRules(), c.src, Inner(Deliver(feed, failed)))
    ensures S.CanAct(f, feed, c, S.Feed(call))
  {
    call := FreshCall(c.slice.mux.calls);
  }

  // While an event is on its way to the slice or a snapshot on its way to a subscriber,
  // something can move, as long as the slice is open and none of its subscribers has
  // cancelled before its replay.
  lemma SliceNeverStuck(f: Device -> bool, feed: nat, base: DeviceMap, acts: seq<S.Act>, c: S.Chain) returns (a: S.Act)
    requires S.ChainReached(f, feed, base, acts, c) && !AtRest(c)
    requires !c.src.mux.phase.Exited? && !c.slice.mux.done && !ReplayPanics(c.slice)
    ensures S.CanAct(f, feed, c, a) && Carries(a)
  {
    S.ReachedChain(f, feed, base, acts, c);
    if !c.slice.owner.Free? || !c.slice.mux.phase.Select? {
      var w := BusyGoesOn(SliceRules(), c.slice);
      a := S.Slice(w);
    } else {
      var v := BusyGoesOn(DiscoveryRules(), c.src);
      if v.Inner? && v.l.Deliver? && v.l.sink == feed {
        var call := SliceTakes(f, feed, c, v.l.failed);
        a := S.Feed(call);
      } else {
        a := S.Source(v);
      }
    }
  }

  // ---- coming to rest ----

  function Busy(o: Owner): nat {
    if o.Free? then 0 else 1
  }

  // What is left to do: for the source, else for the slice.
  ghost predicate LessToCarry(c: S.Chain, d: S.Chain) {
    || Smaller(c.src.mux, d.src.mux)
    || (c.src.mux == d.src.mux &&
        (|| Busy(c.src.owner) < Busy(d.src.owner)
         || (c.src == d.src &&
             (|| Smaller(c.slice.mux, d.slice.mux)
              || (c.slice.mux == d.slice.mux && Busy(c.slice.owner) < Busy(d.slice.owner))))))
  }

  lemma MoveShrinks<X(!new), E(!new)>(r: Rules<X, E>, p: Repl<X, E>, v: Move<E>)
    requires LogInv(p.mux) && CanMove(r, p, v) && !v.Publish? && !v.Open? && (v.Inner? ==> !Entry(v.l))
    ensures var p' := Move1(r, p, v);
            Smaller(p'.mux, p.mux) || (p'.mux == p.mux && Busy(p'.owner) < Busy(p.owner))
  {
    if v.Inner? {
      StepShrinks(p.mux, v.l);
    }
  }

  lemma CarryShrinks(f: Device -> bool, feed: nat, c: S.Chain, a: S.Act)
    requires LogInv(c.src.mux) && LogInv(c.slice.mux) && S.CanAct(f, feed, c, a) && Carries(a)
    ensures LessToCarry(S.Act1(f, feed, c, a), c)
  {
    match a
    case Source(v) => MoveShrinks(DiscoveryRules(), c.src, v);
    case Feed(_) => MoveShrinks(DiscoveryRules(), c.src, Inner(Deliver(feed, false)));
    case Slice(v) => MoveShrinks(SliceRules(), c.slice, v);
  }

  ghost predicate Carried(f: Device -> bool, feed: nat, c: S.Chain, d: S.Chain) {
    exists a :: S.CanAct(f, feed, c, a) && Carries(a) && d == S.Act1(f, feed, c, a)
  }

  // A schedule without new events and callers that keeps moving until all is at rest.
  ghost predicate Keeps(f: Device -> bool, feed: nat, at: nat -> S.Chain) {
    forall i: nat :: AtRest(at(i)) || Carried(f, feed, at(i), at(i + 1))
  }

  // Every such schedule comes to rest, whatever the order of steps.
  lemma {:induction false} EveryScheduleRests(f: Device -> bool, feed: nat, at: nat -> S.Chain, i: nat)
    returns (n: nat)
    requires Keeps(f, feed, at) && S.ChainInv(f, feed, at(i))
    ensures i <= n && AtRest(at(n)) && S.ChainInv(f, feed, at(n))
    decreases CallWork(at(i).src.mux), SubWork(at(i).src.mux), CancelWork(at(i).src.mux), Backlog(at(i).src.mux),
              Rank(at(i).src.mux.phase), SinksLeft(at(i).src.mux), Busy(at(i).src.owner),
              CallWork(at(i).slice.mux), SubWork(at(i).slice.mux), CancelWork(at(i).slice.mux),
              Backlog(at(i).slice.mux), Rank(at(i).slice.mux.phase), SinksLeft(at(i).slice.mux),
              Busy(at(i).slice.owner)
  {
    if AtRest(at(i)) {
      n := i;
    } else {
      assert Carried(f, feed, at(i), at(i + 1));
      var a :| S.CanAct(f, feed, at(i), a) && Carries(a) && at(i + 1) == S.Act1(f, feed, at(i), a);
      S.ActKeepsInv(f, feed, at(i), a);
      CarryShrinks(f, feed, at(i), a);
      n := EveryScheduleRests(f, feed, at, i + 1);
    }
  }
}
