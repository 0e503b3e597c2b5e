// Shutdown terminates: after Close, with sinks that do not block and no new callers, `run`
// exits and every call returns. A lexicographic measure over the calls in flight, the
// messages not yet handed out, the phase of `run` and its remaining sinks decreases.
module MuxLiveness {
  import opened MuxProtocol
  import opened MuxSafety

  // A step by which a new call enters the system.
  predicate Entry<V>(l: Label<V>) {
    l.Arrive? || l.Subscribe? || l.CallCancel? || l.Close?
  }

  function CallSteps(pc: CallPc): nat {
    match pc
    case Arrived => 4
    case Locked => 3
    case Checked => 2
    case Sent => 1
    case Refused => 1
    case Returned(_) => 0
  }

  function HandshakeSteps(pc: Handshake): nat {
    match pc
    case Offering => 2
    case Waiting => 1
    case _ => 0
  }

  // The steps each call still has to take, as sets, which shrink one element at a time.
  ghost function CallWork<V>(m: Mux<V>): set<(nat, int)> {
    set c, i | c in m.calls && 0 <= i < CallSteps(m.calls[c].pc) :: (c, i)
  }

  ghost function SubWork<V>(m: Mux<V>): set<(nat, int)> {
    set s, i | s in m.subs && 0 <= i < HandshakeSteps(m.subs[s].pc) :: (s, i)
  }

  ghost function CancelWork<V>(m: Mux<V>): set<(nat, int)> {
    set k, i | k in m.cancels && 0 <= i < HandshakeSteps(m.cancels[k].pc) :: (k, i)
  }

  ghost function Backlog<V>(m: Mux<V>): nat {
    2 * |m.input| + |Pending(m.phase)|
  }

  function Rank<V>(p: Phase<V>): nat {
    match p
    case FanOut(_, _, _, closing) => if closing then 3 else 7
    case AckSub(_) => 7
    case AckCancel(_) => 7
    case Select => 6
    case LockWait => 5
    case Drain(_) => 4
    case Flush(_) => 2
    case CloseAll => 1
    case Exited => 0
  }

  function SinksLeft<V>(m: Mux<V>): set<nat> {
    if m.phase.FanOut? then m.phase.todo else m.outputs
  }

  ghost predicate Smaller<V>(a: Mux<V>, b: Mux<V>) {
    || CallWork(a) < CallWork(b)
    || (CallWork(a) == CallWork(b) &&
        (|| SubWork(a) < SubWork(b)
         || (SubWork(a) == SubWork(b) &&
             (|| CancelWork(a) < CancelWork(b)
              || (CancelWork(a) == CancelWork(b) && RunSmaller(a, b))))))
  }

  ghost predicate RunSmaller<V>(a: Mux<V>, b: Mux<V>) {
    || Backlog(a) < Backlog(b)
    || (Backlog(a) == Backlog(b) &&
        (|| Rank(a.phase) < Rank(b.phase)
         || (Rank(a.phase) == Rank(b.phase) && SinksLeft(a) < SinksLeft(b))))
  }

  lemma CallStepShrinks<V>(m: Mux<V>, c: nat, m': Mux<V>)
    requires c in m.calls && m'.calls.Keys == m.calls.Keys
    requires forall d | d in m.calls && d != c :: m'.calls[d] == m.calls[d]
    requires CallSteps(m'.calls[c].pc) < CallSteps(m.calls[c].pc)
    ensures CallWork(m') < CallWork(m)
  {
    var n := CallSteps(m.calls[c].pc) - 1;
    assert (c, n) in CallWork(m) && (c, n) !in CallWork(m');
    assert CallWork(m') <= CallWork(m);
  }

  lemma SubStepShrinks<V>(m: Mux<V>, s: nat, m': Mux<V>)
    requires s in m.subs && m'.subs.Keys == m.subs.Keys
    requires forall t | t in m.subs && t != s :: m'.subs[t].pc == m.subs[t].pc
    requires HandshakeSteps(m'.subs[s].pc) < HandshakeSteps(m.subs[s].pc)
    ensures SubWork(m') < SubWork(m)
  {
    var n := HandshakeSteps(m.subs[s].pc) - 1;
    assert (s, n) in SubWork(m) && (s, n) !in SubWork(m');
    assert SubWork(m') <= SubWork(m);
  }

  lemma CancelStepShrinks<V>(m: Mux<V>, k: nat, m': Mux<V>)
    requires k in m.cancels && m'.cancels.Keys == m.cancels.Keys
    requires forall j | j in m.cancels && j != k :: m'.cancels[j] == m.cancels[j]
    requires HandshakeSteps(m'.cancels[k].pc) < HandshakeSteps(m.cancels[k].pc)
    ensures CancelWork(m') < CancelWork(m)
  {
    var n := HandshakeSteps(m.cancels[k].pc) - 1;
    assert (k, n) in CancelWork(m) && (k, n) !in CancelWork(m');
    assert CancelWork(m') <= CancelWork(m);
  }

  lemma SameSubWork<V>(m: Mux<V>, m': Mux<V>)
    requires m'.subs.Keys == m.subs.Keys && forall s | s in m.subs :: m'.subs[s].pc == m.subs[s].pc
    ensures SubWork(m') == SubWork(m)
  {
  }

  lemma RunStepShrinks<V>(m: Mux<V>, l: Label<V>)
    requires Enabled(m, l) && !Entry(l) && !SubmitStep(l) && !SubscribeStep(l) && !CancelStep(l)
    requires LogInv(m)
    ensures RunSmaller(Apply(m, l), m)
  {
  }

  lemma RunStepLeavesCallers<V>(m: Mux<V>, l: Label<V>)
    requires Enabled(m, l) && !Entry(l) && !SubmitStep(l) && !SubscribeStep(l) && !CancelStep(l)
    ensures Apply(m, l).calls == m.calls && Apply(m, l).cancels == m.cancels
    ensures SubWork(Apply(m, l)) == SubWork(m)
  {
    SameSubWork(m, Apply(m, l));
  }

  lemma StepShrinks<V>(m: Mux<V>, l: Label<V>)
    requires LogInv(m) && Enabled(m, l) && !Entry(l)
    ensures Smaller(Apply(m, l), m)
  {
    var m' := Apply(m, l);
    if SubmitStep(l) {
      CallStepShrinks(m, l.call, m');
    } else if SubscribeStep(l) {
      CallsKept(m, l);
      SubStepShrinks(m, l.sink, m');
    } else if CancelStep(l) {
      CallsKept(m, l);
      SameSubWork(m, m');
      CancelStepShrinks(m, l.cancel, m');
    } else {
      RunStepShrinks(m, l);
      RunStepLeavesCallers(m, l);
    }
  }

  // `run` has exited and no call is in flight.
  ghost predicate Quiet<V>(m: Mux<V>) {
    && m.phase.Exited?
    && (forall c | c in m.calls :: m.calls[c].pc.Returned?)
    && (forall s | s in m.subs :: m.subs[s].pc.Answered? || m.subs[s].pc.TurnedAway?)
    && (forall k | k in m.cancels :: m.cancels[k].pc.Answered? || m.cancels[k].pc.TurnedAway?)
  }

  // `run` waiting for the lock: either it gets it, or some reader can move on.
  lemma LockCanMove<V>(m: Mux<V>) returns (l: Label<V>)
    requires m.phase.LockWait?
    ensures Enabled(m, l) && !Entry(l) && (l.Lock? || SubmitStep(l))
  {
    if NoReaders(m) {
      l := Lock;
    } else {
      var c :| c in m.calls && HoldsRead(m.calls[c].pc);
      l := match m.calls[c].pc case Locked => CheckDone(c) case Checked => GiveUp(c) case _ => Return(c);
    }
  }

  // Every sink `run` is still to serve or close has its record, every caller it is to
  // answer is waiting.
  ghost predicate RunReady<V>(m: Mux<V>) {
    && Todo(m.phase) <= m.outputs <= m.subs.Keys
    && (m.phase.AckSub? ==> SubAt(m, m.phase.sink, Waiting))
    && (m.phase.AckCancel? ==> CancelAt(m, m.phase.cancel, Waiting))
  }

  // Outside its select and before its exit `run` can go on, or waits for a reader that can.
  lemma RunGoesOn<V>(m: Mux<V>) returns (l: Label<V>)
    requires RunReady(m) && !m.phase.Select? && !m.phase.Exited?
    ensures Enabled(m, l) && !Entry(l) && !l.Register? && !l.Unregister?
    ensures l.CloseOne? || l.Exit? ==> m.phase.CloseAll?
  {
    match m.phase
    case FanOut(_, todo, _, _) =>
      if todo == {} {
        l := FanOutDone;
      } else {
        var s :| s in todo;
        assert s in m.subs.Keys;
        l := Deliver(s, false);
      }
    case AckSub(s) => l := SubReturn(s);
    case AckCancel(k) => l := CancelReturn(k);
    case LockWait => l := LockCanMove(m);
    case Drain(_) => l := if m.input == [] then Unlock else DrainOne;
    case Flush(_) => l := FlushNext;
    case CloseAll =>
      if m.outputs == {} {
        l := Exit;
      } else {
        var s :| s in m.outputs;
        assert s in m.subs.Keys;
        l := CloseOne(s);
      }
  }

  // After Close it leaves its select too.
  lemma RunCanMove<V>(m: Mux<V>) returns (l: Label<V>)
    requires RunReady(m) && m.done && !m.phase.Exited?
    ensures Enabled(m, l) && !Entry(l) && !l.Register? && !l.Unregister?
    ensures l.CloseOne? || l.Exit? ==> m.phase.CloseAll?
  {
    if m.phase.Select? {
      l := SeeDone;
    } else {
      l := RunGoesOn(m);
    }
  }

  lemma InvReady<V>(m: Mux<V>)
    requires LogInv(m) && SinkInv(m) && CancelInv(m)
    ensures RunReady(m)
  {
  }

  lemma CallCanMove<V>(m: Mux<V>, c: nat) returns (l: Label<V>)
    requires m.phase.Exited? && c in m.calls && !m.calls[c].pc.Returned?
    ensures Enabled(m, l) && !Entry(l)
  {
    l := match m.calls[c].pc
      case Arrived => RLock(c)
      case Locked => CheckDone(c)
      case Checked => GiveUp(c)
      case _ => Return(c);
  }

  // A caller still in a handshake when `run` has exited is offering and is turned away.
  lemma HandshakeCanMove<V>(m: Mux<V>) returns (l: Label<V>)
    requires SinkInv(m) && CancelInv(m) && m.done && m.phase.Exited? && !Quiet(m)
    requires forall c | c in m.calls :: m.calls[c].pc.Returned?
    ensures Enabled(m, l) && !Entry(l)
  {
    if s :| s in m.subs && !m.subs[s].pc.Answered? && !m.subs[s].pc.TurnedAway? {
      assert StreamInv(m, s);
      l := SubTurned(s);
    } else {
      var k :| k in m.cancels && !m.cancels[k].pc.Answered? && !m.cancels[k].pc.TurnedAway?;
      assert CancelOk(m, k);
      l := CancelTurned(k);
    }
  }

  // No deadlock: once `done` is closed something can move until everything is quiet.
  lemma NoDeadlock<V>(m: Mux<V>) returns (l: Label<V>)
    requires Inv(m) && m.done && !Quiet(m)
    ensures Enabled(m, l) && !Entry(l)
  {
    if !m.phase.Exited? {
      InvReady(m);
      l := RunCanMove(m);
    } else if c :| c in m.calls && !m.calls[c].pc.Returned? {
      l := CallCanMove(m, c);
    } else {
      l := HandshakeCanMove(m);
    }
  }

  ghost predicate Steps<V(!new)>(a: Mux<V>, b: Mux<V>) {
    exists l: Label<V> :: Enabled(a, l) && !Entry(l) && b == Apply(a, l)
  }

  // A schedule without new callers that keeps moving until everything is quiet.
  ghost predicate Schedule<V(!new)>(at: nat -> Mux<V>) {
    forall i: nat :: Quiet(at(i)) || Steps(at(i), at(i + 1))
  }

  // After Close every schedule reaches a state where `run` has exited and every Submit,
  // Subscribe and CancelFunc call has returned.
  lemma {:induction false} ShutdownTerminates<V(!new)>(at: nat -> Mux<V>, i: nat) returns (n: nat)
    requires Schedule(at) && Inv(at(i)) && at(i).done
    ensures i <= n && Quiet(at(n))
    decreases CallWork(at(i)), SubWork(at(i)), CancelWork(at(i)), Backlog(at(i)), Rank(at(i).phase), SinksLeft(at(i))
  {
    if Quiet(at(i)) {
      n := i;
    } else {
      assert Steps(at(i), at(i + 1));
      var l: Label<V> :| Enabled(at(i), l) && !Entry(l) && at(i + 1) == Apply(at(i), l);
      StepKeepsInv(at(i), l);
      StepShrinks(at(i), l);
      DoneStays(at(i), l);
      n := ShutdownTerminates(at, i + 1);
    }
  }

  lemma DoneStays<V>(m: Mux<V>, l: Label<V>)
    requires Enabled(m, l) && m.done
    ensures Apply(m, l).done
  {
  }
}
