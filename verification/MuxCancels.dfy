// A CancelFunc that returned through `done` (internal/mux/mux.go:408-410): exactly when its
// sink is left alone afterwards.
module MuxCancels {
  import opened MuxProtocol
  import opened MuxRuns
  import opened MuxSafety
  import opened MuxLiveness

  // No Submit can put another value in: none is past its check of `done`, or those that
  // are have lost their only receiver.
  ghost predicate NoSendLeft<V>(m: Mux<V>) {
    (forall c | c in m.calls :: !m.calls[c].pc.Checked?) || (m.cap == 0 && m.phase.LockWait?)
  }

  // Nothing more can reach the sink: it is no longer registered, or it has everything that
  // was accepted and no Submit can add to that.
  ghost predicate Settled<V>(m: Mux<V>, s: nat) {
    s in m.outputs ==>
      s in m.subs && m.subs[s].start + |m.subs[s].received| == |m.accepted| && NoSendLeft(m)
  }

  lemma SettledCallsStep<V>(m: Mux<V>, l: Label<V>)
    requires Enabled(m, l) && m.done && NoSendLeft(m)
    ensures !l.Send? && NoSendLeft(Apply(m, l))
  {
    if forall c | c in m.calls :: !m.calls[c].pc.Checked? {
      NoCheckedStep(m, l);
    } else {
      LockWaitStep(m, l);
    }
  }

  lemma NoCheckedStep<V>(m: Mux<V>, l: Label<V>)
    requires Enabled(m, l) && m.done && forall c | c in m.calls :: !m.calls[c].pc.Checked?
    ensures !l.Send? && forall c | c in Apply(m, l).calls :: !Apply(m, l).calls[c].pc.Checked?
  {
    if !SubmitStep(l) && !l.Arrive? {
      CallsKept(m, l);
    }
  }

  // `run` leaves its wait for the lock only when no Submit is under way.
  lemma LockWaitStep<V>(m: Mux<V>, l: Label<V>)
    requires Enabled(m, l) && m.cap == 0 && m.phase.LockWait?
    ensures !l.Send? && NoSendLeft(Apply(m, l))
  {
    if l.Lock? {
      CallsKept(m, l);
    } else {
      CapKept(m, l);
    }
  }

  lemma CapKept<V>(m: Mux<V>, l: Label<V>)
    requires Enabled(m, l) && m.phase.LockWait? && !l.Lock?
    ensures Apply(m, l).cap == m.cap && Apply(m, l).phase == m.phase
  {
  }

  lemma SettledSinkStep<V>(m: Mux<V>, l: Label<V>, s: nat)
    requires LogInv(m) && Enabled(m, l) && m.done && s in m.subs && Registered(m.subs[s].pc)
    requires StreamInv(m, s) && Settled(m, s)
    ensures s in Apply(m, l).subs && Registered(Apply(m, l).subs[s].pc) && Settled(Apply(m, l), s)
    ensures Apply(m, l).subs[s].received == m.subs[s].received
  {
    RecordKept(m, l, s);
    if s in m.outputs {
      SettledCallsStep(m, l);
      LogGrows(m, l);
    }
  }

  lemma {:induction false} SettledSinkIsSilent<V>(m: Mux<V>, ls: seq<Label<V>>, s: nat)
    requires Inv(m) && m.done && Legal(m, ls) && s in m.subs && Registered(m.subs[s].pc) && Settled(m, s)
    ensures s in Exec(m, ls).subs && Exec(m, ls).subs[s].received == m.subs[s].received
    decreases |ls|
  {
    if ls != [] {
      assert StreamInv(m, s);
      SettledSinkStep(m, ls[0], s);
      StepKeepsInv(m, ls[0]);
      DoneStays(m, ls[0]);
      SettledSinkIsSilent(Apply(m, ls[0]), ls[1..], s);
    }
  }

  // ---- otherwise some run delivers more ----

  // A step towards the exit leaves the sinks registered until `run` closes them.
  lemma DriveStep<V>(m: Mux<V>) returns (l: Label<V>)
    requires RunReady(m) && m.done && !m.phase.CloseAll? && !m.phase.Exited?
    ensures Enabled(m, l) && !Entry(l) && Apply(m, l).outputs == m.outputs && !Apply(m, l).phase.Exited?
  {
    l := RunCanMove(m);
    if !SinkStep(l) {
      SinksKept(m, l);
    }
  }

  // From any state of a closed mux `run` gets to the closing of sinks with the sink still
  // registered.
  lemma {:induction false} DriveToClosing<V>(m: Mux<V>, s: nat) returns (ls: seq<Label<V>>)
    requires Inv(m) && m.done && !m.phase.Exited? && s in m.outputs
    ensures Legal(m, ls) && Exec(m, ls).phase.CloseAll? && s in Exec(m, ls).outputs
    decreases CallWork(m), SubWork(m), CancelWork(m), Backlog(m), Rank(m.phase), SinksLeft(m)
  {
    ls := [];
    if !m.phase.CloseAll? {
      InvReady(m);
      var l := DriveStep(m);
      StepKeepsInv(m, l);
      StepShrinks(m, l);
      DoneStays(m, l);
      var rest := DriveToClosing(Apply(m, l), s);
      ls := [l] + rest;
      assert ls[1..] == rest;
    }
  }

  // A sink still registered when sinks are being closed has everything.
  lemma ClosingHasAll<V>(m: Mux<V>, s: nat)
    requires LogInv(m) && LockInv(m) && m.phase.CloseAll? && s in m.outputs && s in m.subs && StreamInv(m, s)
    ensures m.subs[s].start + |m.subs[s].received| == |m.accepted|
  {
    assert |m.accepted[m.handed..]| == 0;
  }

  // `run`, in its main loop and not at its select, gets there without any caller's help.
  lemma TowardsSelect<V>(m: Mux<V>) returns (l: Label<V>)
    requires RunReady(m) && ((m.phase.FanOut? && !m.phase.closing) || m.phase.AckSub? || m.phase.AckCancel?)
    ensures Enabled(m, l) && !Entry(l) && !SubmitStep(l) && Apply(m, l).outputs == m.outputs && Apply(m, l).cap == m.cap
    ensures (Apply(m, l).phase.FanOut? && !Apply(m, l).phase.closing) || Apply(m, l).phase.Select?
  {
    match m.phase
    case FanOut(_, todo, _, _) =>
      if todo == {} {
        l := FanOutDone;
      } else {
        var s :| s in todo;
        assert s in m.subs.Keys;
        l := Deliver(s, false);
      }
    case AckSub(s) => l := SubReturn(s);
    case AckCancel(k) => l := CancelReturn(k);
    case _ =>
  }

  lemma {:induction false} ReachSelect<V>(m: Mux<V>, c: nat, s: nat) returns (ls: seq<Label<V>>)
    requires Inv(m) && m.cap == 0 && CallAt(m, c, Checked) && !m.phase.LockWait? && s in m.outputs
    ensures Legal(m, ls)
    ensures var m' := Exec(m, ls); m'.cap == 0 && CallAt(m', c, Checked) && m'.phase.Select? && s in m'.outputs
    decreases CallWork(m), SubWork(m), CancelWork(m), Backlog(m), Rank(m.phase), SinksLeft(m)
  {
    ls := [];
    InMainLoop(m, c);
    if !m.phase.Select? {
      InvReady(m);
      var l := TowardsSelect(m);
      StepKeepsInv(m, l);
      StepShrinks(m, l);
      CallsKept(m, l);
      var rest := ReachSelect(Apply(m, l), c, s);
      ls := [l] + rest;
      assert ls[1..] == rest;
    }
  }

  // While a Submit is past its check `run` has not drained.
  lemma InMainLoop<V>(m: Mux<V>, c: nat)
    requires LockInv(m) && CallAt(m, c, Checked)
    ensures || m.phase.Select? || m.phase.AckSub? || m.phase.AckCancel? || m.phase.LockWait?
            || (m.phase.FanOut? && !m.phase.closing)
  {
  }

  // A registered sink that has everything leaves room in the input.
  lemma CaughtUpInputEmpty<V>(m: Mux<V>, s: nat)
    requires LogInv(m) && s in m.outputs && s in m.subs && StreamInv(m, s)
    requires m.subs[s].start + |m.subs[s].received| == |m.accepted|
    ensures m.input == []
  {
    assert |m.accepted[m.handed..]| == 0;
  }

  // A Submit past its check that still has a receiver adds to the log.
  lemma OneMoreAccepted<V>(m: Mux<V>, c: nat, s: nat) returns (ls: seq<Label<V>>)
    requires Inv(m) && s in m.outputs && CallAt(m, c, Checked) && !(m.cap == 0 && m.phase.LockWait?)
    requires s in m.subs && m.subs[s].start + |m.subs[s].received| == |m.accepted|
    ensures Legal(m, ls)
    ensures |m.accepted| < |Exec(m, ls).accepted| && s in Exec(m, ls).outputs && !Exec(m, ls).phase.Exited?
  {
    if m.cap == 0 {
      ls := ReachSelect(m, c, s);
      LogGrowsAll(m, ls);
      SendAccepts(Exec(m, ls), c);
      ls := Then(m, ls, Send(c));
    } else {
      assert StreamInv(m, s);
      CaughtUpInputEmpty(m, s);
      InMainLoop(m, c);
      SendAccepts(m, c);
      ls := Then(m, [], Send(c));
    }
  }

  lemma SendAccepts<V>(m: Mux<V>, c: nat)
    requires Enabled(m, Send(c)) && !m.phase.Exited?
    ensures var m' := Apply(m, Send(c));
            |m'.accepted| == |m.accepted| + 1 && m'.outputs == m.outputs && !m'.phase.Exited?
  {
  }

  lemma {:induction false} LogGrowsAll<V>(m: Mux<V>, ls: seq<Label<V>>)
    requires Legal(m, ls)
    ensures m.accepted <= Exec(m, ls).accepted && (m.done ==> Exec(m, ls).done)
    decreases |ls|
  {
    if ls != [] {
      LogGrows(m, ls[0]);
      if m.done {
        DoneStays(m, ls[0]);
      }
      LogGrowsAll(Apply(m, ls[0]), ls[1..]);
    }
  }

  // A run that brings the accepted log past what the sink has.
  lemma MoreThanReceived<V>(m: Mux<V>, s: nat) returns (ls: seq<Label<V>>)
    requires Inv(m) && s in m.outputs && s in m.subs && !Settled(m, s)
    ensures Legal(m, ls) && s in Exec(m, ls).outputs && !Exec(m, ls).phase.Exited?
    ensures m.subs[s].start + |m.subs[s].received| < |Exec(m, ls).accepted|
  {
    assert StreamInv(m, s);
    if m.subs[s].start + |m.subs[s].received| < |m.accepted| {
      ls := [];
    } else {
      var c :| c in m.calls && m.calls[c].pc.Checked?;
      ls := OneMoreAccepted(m, c, s);
    }
  }

  lemma SomeRunDelivers<V>(m: Mux<V>, k: nat) returns (ls: seq<Label<V>>)
    requires Inv(m) && CancelAt(m, k, TurnedAway) && m.cancels[k].sink in m.subs && !Settled(m, m.cancels[k].sink)
    ensures Legal(m, ls) && m.cancels[k].sink in Exec(m, ls).subs
    ensures |m.subs[m.cancels[k].sink].received| < |Exec(m, ls).subs[m.cancels[k].sink].received|
  {
    var s := m.cancels[k].sink;
    assert CancelOk(m, k);
    var some := MoreThanReceived(m, s);
    LogGrowsAll(m, some);
    RunKeepsInv(m, some);
    var rest := DriveToClosing(Exec(m, some), s);
    LogGrowsAll(Exec(m, some), rest);
    ls := Join(m, some, rest);
    RunKeepsInv(m, ls);
    HistoryKept(m, ls, k, s);
    assert StreamInv(Exec(m, ls), s);
    ClosingHasAll(Exec(m, ls), s);
  }

  // Nothing any goroutine does from here on reaches the sink.
  ghost predicate Silent<V(!new)>(m: Mux<V>, s: nat)
    requires s in m.subs
  {
    forall ls: seq<Label<V>> | Legal(m, ls) ::
      s in Exec(m, ls).subs && Exec(m, ls).subs[s].received == m.subs[s].received
  }

  // A cancel that returned through `done` is final exactly when its sink is settled.
  lemma TurnedAwayCancelIsFinalIff<V(!new)>(cap: nat, before: seq<Label<V>>, m: Mux<V>, k: nat)
    requires ReachedBy(cap, before, m) && CancelAt(m, k, TurnedAway)
    ensures m.cancels[k].sink in m.subs
    ensures Silent(m, m.cancels[k].sink) <==> Settled(m, m.cancels[k].sink)
  {
    Reached(cap, before, m);
    assert CancelOk(m, k);
    var s := m.cancels[k].sink;
    if Settled(m, s) {
      forall ls: seq<Label<V>> | Legal(m, ls)
        ensures s in Exec(m, ls).subs && Exec(m, ls).subs[s].received == m.subs[s].received
      {
        SettledSinkIsSilent(m, ls, s);
      }
    } else {
      var ls := SomeRunDelivers(m, k);
      assert Legal(m, ls) && Exec(m, ls).subs[s].received != m.subs[s].received;
    }
  }

  // ---- on every run to the exit ----

  // The CancelFunc of each subscription has been called at most once.
  ghost predicate SingleCancel<V>(m: Mux<V>) {
    forall j, k | j in m.cancels && k in m.cancels && j != k :: m.cancels[j].sink != m.cancels[k].sink
  }

  // With accepted values outstanding the promise is broken on every run to the exit, not
  // only on some: the sink receives them all.
  lemma TurnedAwayCancelStillDelivers<V>(cap: nat, before: seq<Label<V>>, m: Mux<V>, k: nat, ls: seq<Label<V>>)
    requires ReachedBy(cap, before, m) && CancelAt(m, k, TurnedAway) && m.cancels[k].sink in m.subs
    requires m.cancels[k].sink in m.outputs
    requires m.subs[m.cancels[k].sink].start + |m.subs[m.cancels[k].sink].received| < |m.accepted|
    requires Legal(m, ls) && Exec(m, ls).phase.Exited? && SingleCancel(Exec(m, ls))
    ensures var s := m.cancels[k].sink;
            s in Exec(m, ls).subs && |m.subs[s].received| < |Exec(m, ls).subs[s].received|
  {
    var s := m.cancels[k].sink;
    Reached(cap, before, m);
    var all := Join(Make(cap), before, ls);
    assert CancelOk(m, k) && StreamInv(m, s);
    HistoryKept(m, ls, k, s);
    var m' := Exec(m, ls);
    MakeEstablishesInv<V>(cap);
    UncancelledSinkGetsAll(Make(cap), before + ls, s);
    Reached(cap, before + ls, m');
    assert !WasCancelled(m', s);
  }

  lemma TurnedAwayStep<V>(m: Mux<V>, l: Label<V>, k: nat)
    requires Enabled(m, l) && CancelAt(m, k, TurnedAway)
    ensures CancelAt(Apply(m, l), k, TurnedAway) && Apply(m, l).cancels[k].sink == m.cancels[k].sink
  {
    if !CancelStep(l) && !l.CallCancel? {
      CancelsKept(m, l);
    }
  }

  lemma RegisteredStep<V>(m: Mux<V>, l: Label<V>, s: nat)
    requires Enabled(m, l) && s in m.subs && Registered(m.subs[s].pc)
    ensures s in Apply(m, l).subs && Registered(Apply(m, l).subs[s].pc) && Apply(m, l).subs[s].start == m.subs[s].start
  {
    if l != Deliver(s, true) && l != Deliver(s, false) {
      RecordKept(m, l, s);
    }
  }

  // A turned-away cancel and a registration stay what they were, and the log only grows.
  lemma {:induction false} HistoryKept<V>(m: Mux<V>, ls: seq<Label<V>>, k: nat, s: nat)
    requires Legal(m, ls) && CancelAt(m, k, TurnedAway) && s in m.subs && Registered(m.subs[s].pc)
    ensures var m' := Exec(m, ls);
            && CancelAt(m', k, TurnedAway) && m'.cancels[k].sink == m.cancels[k].sink
            && m.accepted <= m'.accepted
            && s in m'.subs && Registered(m'.subs[s].pc) && m'.subs[s].start == m.subs[s].start
    decreases |ls|
  {
    if ls != [] {
      LogGrows(m, ls[0]);
      TurnedAwayStep(m, ls[0], k);
      RegisteredStep(m, ls[0], s);
      HistoryKept(Apply(m, ls[0]), ls[1..], k, s);
    }
  }
}
