// The chain of EndToEnd never gets stuck: as long as something is under way, some part of it
// can take a step, without a new uevent, a new caller or a Close.
module ChainProgress {
  import opened Batch
  import opened DiscoveryStream
  import E = EndToEnd
  import opened Listings
  import opened MuxLiveness
  import opened MuxProtocol
  import opened Replication
  import opened Udev

  // ---- the mux ----

  // At its select, with no value lost: a Submit on its way takes its next step, which is not
  // to give up.
  lemma CallGoesOn<V>(m: Mux<V>, c: nat) returns (l: Label<V>)
    requires m.phase.Select? && m.cap == 0 && c in m.calls && !m.calls[c].pc.Returned?
    ensures Enabled(m, l) && !Entry(l) && !l.GiveUp? && !l.Deliver?
  {
    l := match m.calls[c].pc
         case Arrived => RLock(c)
         case Locked => CheckDone(c)
         case Checked => Send(c)
         case _ => Return(c);
  }

  // ---- an owner on its mux ----

  // With `run` at its select, an owner that is publishing or opening a subscription goes on.
  lemma OwnerGoesOn<X(!new), E(!new)>(r: Rules<X, E>, p: Repl<X, E>) returns (v: Move<E>)
    requires OwnerInv(p) && SinkInv(p.mux) && p.mux.phase.Select? && !p.owner.Free? && !ReplayPanics(p)
    ensures CanMove(r, p, v) && !v.Publish? && !v.Open? && (v.Inner? ==> !Entry(v.l) && !v.l.Deliver?)
  {
    match p.owner
    case Publishing(c) =>
      if p.mux.calls[c].pc.Returned? {
        v := Published;
      } else {
        var l := CallGoesOn(p.mux, c);
        v := Inner(l);
      }
    case Opening(s) =>
      assert StreamInv(p.mux, s);
      v := if p.mux.subs[s].pc.Offering? then Inner(Register(s)) else Opened;
  }

  // Elsewhere `run` does.
  lemma InsideGoesOn<X(!new), E(!new)>(r: Rules<X, E>, p: Repl<X, E>) returns (l: Label<E>)
    requires p.logs.Keys == p.mux.subs.Keys && SinkInv(p.mux) && CancelInv(p.mux) && LogInv(p.mux)
    requires !p.mux.phase.Select? && !p.mux.phase.Exited?
    ensures CanMove(r, p, Inner(l)) && !Entry(l)
  {
    InvReady(p.mux);
    l := RunGoesOn(p.mux);
  }

  // So a busy one goes on, whatever has happened to its mux short of its exit.
  lemma BusyGoesOn<X(!new), E(!new)>(r: Rules<X, E>, p: Repl<X, E>) returns (v: Move<E>)
    requires OwnerInv(p) && SinkInv(p.mux) && CancelInv(p.mux) && LogInv(p.mux) && !ReplayPanics(p)
    requires !p.mux.phase.Exited? && (!p.owner.Free? || !p.mux.phase.Select?)
    ensures CanMove(r, p, v) && !v.Publish? && !v.Open? && (v.Inner? ==> !Entry(v.l))
    ensures v.Inner? && v.l.Deliver? ==> p.mux.phase.FanOut?
  {
    if p.mux.phase.Select? {
      v := OwnerGoesOn(r, p);
    } else {
      var l := InsideGoesOn(r, p);
      v := Inner(l);
    }
  }

  // ---- listings ----

  lemma {:induction false} SomeListing(m: DeviceMap) returns (devs: seq<Device>)
    requires Keyed(m)
    ensures Lists(devs, m)
    decreases |m|
  {
    if m == map[] {
      return [];
    }
    var id :| id in m;
    var rest := SomeListing(m - {id});
    devs := rest + [m[id]];
    forall other | other in m
      ensures m[other] in devs
    {
      if other != id {
        assert (m - {id})[other] in rest;
      }
    }
  }

  // ---- the chain of a batch ----

  lemma SomethingToHear(mt: Matcher, ids: seq<string>, sink: nat, c: E.Chain) returns (devs: seq<Device>)
    requires E.ChainInv(mt, ids, sink, c) && c.batch.pc.Idle?
    requires sink in c.repl.logs && c.taken < |c.repl.logs[sink]|
    ensures E.CanAct(mt, sink, c, E.Hear(devs))
  {
    if c.repl.logs[sink][c.taken].Snap? {
      assert LogInv1(c.repl, sink);
      devs := SomeListing(c.repl.logs[sink][c.taken].x);
    } else {
      devs := [];
    }
  }

  // A step that brings nothing new into the chain.
  predicate Onward(a: E.Act) {
    match a
    case Kernel(_, _) => false
    case Inside(v) => !v.Publish? && !v.Open? && (v.Inner? ==> !Entry(v.l))
    case _ => true
  }

  // Nothing is left behind: while an event is on its way to the batch, or the batch has not
  // finished with one, some part of the chain can take a step towards it. Only a full event
  // channel holds up the mux, and then the batch can move.
  lemma NeverStuck(
      mt: Matcher, ids: seq<string>, sink: nat, enumerated: DeviceMap, acts: seq<E.Act>, c: E.Chain) returns (a: E.Act)
    requires E.ChainReached(mt, ids, sink, enumerated, acts, c)
    requires sink in c.repl.logs && !c.repl.mux.phase.Exited? && !E.Drained(sink, c)
    ensures E.CanAct(mt, sink, c, a) && Onward(a)
  {
    E.ReachedChain(mt, ids, sink, enumerated, acts, c);
    if !c.batch.pc.Idle? {
      a := E.Work;
    } else if c.taken < |c.repl.logs[sink]| {
      var devs := SomethingToHear(mt, ids, sink, c);
      a := E.Hear(devs);
    } else {
      var v := BusyGoesOn(DiscoveryRules(), c.repl);
      a := E.Inside(v);
    }
  }

  // ---- draining ----

  function BatchSteps(pc: Pc): nat {
    match pc
    case Idle => 0
    case Notify(_) => 1
    case Got(_) => 2
    case Adding(devs) => 2 + |devs|
  }

  // The events in the channel the batch has not taken.
  function Unheard(sink: nat, c: E.Chain): nat {
    if sink in c.repl.logs && c.taken <= |c.repl.logs[sink]| then |c.repl.logs[sink]| - c.taken else 0
  }

  // What is left to do: for the mux and its callers, else for the owner, else for the batch.
  ghost predicate LessLeft(sink: nat, c: E.Chain, d: E.Chain) {
    || Smaller(c.repl.mux, d.repl.mux)
    || (c.repl.mux == d.repl.mux &&
        (|| (c.repl.owner.Free? && !d.repl.owner.Free?)
         || (c.repl.owner == d.repl.owner &&
             (|| Unheard(sink, c) < Unheard(sink, d)
              || (Unheard(sink, c) == Unheard(sink, d) && BatchSteps(c.batch.pc) < BatchSteps(d.batch.pc))))))
  }

  lemma WorkShrinks(mt: Matcher, ids: seq<string>, b: BatchState)
    requires !b.pc.Idle?
    ensures BatchSteps(Step(mt, ids, b).pc) < BatchSteps(b.pc)
  {
  }

  lemma OnwardShrinks(mt: Matcher, ids: seq<string>, sink: nat, c: E.Chain, a: E.Act)
    requires LogInv(c.repl.mux) && E.FeedInv(sink, c) && E.CanAct(mt, sink, c, a) && Onward(a)
    ensures LessLeft(sink, E.Act1(mt, ids, sink, c, a), c)
  {
    match a
    case Inside(v) =>
      if v.Inner? {
        StepShrinks(c.repl.mux, v.l);
      }
    case Work => WorkShrinks(mt, ids, c.batch);
    case Hear(_) =>
  }

  ghost predicate Advances(mt: Matcher, ids: seq<string>, sink: nat, c: E.Chain, d: E.Chain) {
    exists a :: E.CanAct(mt, sink, c, a) && Onward(a) && d == E.Act1(mt, ids, sink, c, a)
  }

  // A schedule without new uevents and callers that keeps moving until the chain is drained.
  ghost predicate Keeps(mt: Matcher, ids: seq<string>, sink: nat, at: nat -> E.Chain) {
    forall i: nat :: E.Drained(sink, at(i)) || Advances(mt, ids, sink, at(i), at(i + 1))
  }

  // Every such schedule drains it, whatever the order of steps: the batch has then heard
  // everything that was sent to it, and has notified its seats.
  lemma {:induction false} EveryScheduleDrains(
      mt: Matcher, ids: seq<string>, sink: nat, at: nat -> E.Chain, i: nat) returns (n: nat)
    requires Keeps(mt, ids, sink, at) && E.ChainInv(mt, ids, sink, at(i))
    ensures i <= n && E.Drained(sink, at(n)) && E.ChainInv(mt, ids, sink, at(n))
    decreases CallWork(at(i).repl.mux), SubWork(at(i).repl.mux), CancelWork(at(i).repl.mux),
              Backlog(at(i).repl.mux), Rank(at(i).repl.mux.phase), SinksLeft(at(i).repl.mux),
              if at(i).repl.owner.Free? then 0 else 1, Unheard(sink, at(i)), BatchSteps(at(i).batch.pc)
  {
    if E.Drained(sink, at(i)) {
      n := i;
    } else {
      assert Advances(mt, ids, sink, at(i), at(i + 1));
      var a :| E.CanAct(mt, sink, at(i), a) && Onward(a) && at(i + 1) == E.Act1(mt, ids, sink, at(i), a);
      E.ActKeepsInv(mt, ids, sink, at(i), a);
      OnwardShrinks(mt, ids, sink, at(i), a);
      n := EveryScheduleDrains(mt, ids, sink, at, i + 1);
    }
  }
}
