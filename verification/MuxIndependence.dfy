// Sinks do not depend on each other: what a cancel of one sink lets the others see is what
// they could have seen without it.
module MuxIndependence {
  import opened MuxProtocol
  import opened MuxRuns
  import opened MuxSafety

  ghost predicate PhaseAlike<V>(p: Phase<V>, q: Phase<V>, s: nat) {
    if p.FanOut? then
      q.FanOut? && p.msg == q.msg && p.rest == q.rest && p.closing == q.closing && p.todo == q.todo - {s}
    else p == q
  }

  // Two sets of records that differ in sink s only.
  ghost predicate SubsAlike<V>(a: Mux<V>, b: Mux<V>, s: nat) {
    && a.subs.Keys == b.subs.Keys && SubAt(a, s, Answered) && SubAt(b, s, Answered)
    && forall t | t in a.subs && t != s :: a.subs[t] == b.subs[t]
  }

  // In a cancel k was answered, in b it is still being offered.
  ghost predicate CancelsAlike<V>(a: Mux<V>, b: Mux<V>, k: nat) {
    && a.cancels.Keys == b.cancels.Keys && CancelAt(a, k, Answered) && CancelAt(b, k, Offering)
    && forall j | j in a.cancels && j != k :: a.cancels[j] == b.cancels[j]
  }

  ghost predicate LogsAlike<V>(a: Mux<V>, b: Mux<V>) {
    && a.cap == b.cap && a.input == b.input && a.done == b.done && a.calls == b.calls
    && a.accepted == b.accepted && a.handed == b.handed && a.logged == b.logged
  }

  // State a, in which sink s was cancelled by k, and state b, in which it was not.
  ghost predicate Alike<V>(a: Mux<V>, b: Mux<V>, s: nat, k: nat) {
    && LogsAlike(a, b)
    && a.outputs == b.outputs - {s}
    && PhaseAlike(a.phase, b.phase, s)
    && SubsAlike(a, b, s)
    && CancelsAlike(a, b, k)
  }

  // The fan-out of b still owes s the value, or its shutdown still has to close s.
  ghost predicate Behind<V>(b: Mux<V>, l: Label<V>, s: nat) {
    (l.FanOutDone? && b.phase.FanOut? && s in b.phase.todo) || (l.Exit? && s in b.outputs)
  }

  lemma SameEnabled<V>(a: Mux<V>, b: Mux<V>, s: nat, k: nat, l: Label<V>)
    requires Alike(a, b, s, k) && Enabled(a, l) && !Behind(b, l, s)
    ensures Enabled(b, l)
  {
    if l.Deliver? || l.CloseOne? {
      assert l.sink in b.subs.Keys;
    } else if l.Unregister? {
      assert a.cancels[l.cancel].sink in b.subs.Keys;
    } else if l.Subscribe? {
      assert l.sink !in b.subs.Keys;
    } else if l.CallCancel? {
      assert l.cancel !in b.cancels.Keys;
    }
  }

  // Handshakes do not touch the log, the calls or `done`.
  lemma LogsKept<V>(m: Mux<V>, l: Label<V>)
    requires Enabled(m, l)
    requires l.Subscribe? || SubscribeStep(l) || l.CallCancel? || CancelStep(l)
    ensures LogsAlike(Apply(m, l), m)
  {
  }

  lemma SameLogsBySubmit<V>(a: Mux<V>, b: Mux<V>, s: nat, k: nat, l: Label<V>)
    requires Alike(a, b, s, k) && Enabled(a, l) && Enabled(b, l) && (SubmitStep(l) || l.Arrive?)
    ensures LogsAlike(Apply(a, l), Apply(b, l))
  {
  }

  lemma SameLogs<V>(a: Mux<V>, b: Mux<V>, s: nat, k: nat, l: Label<V>)
    requires Alike(a, b, s, k) && Enabled(a, l) && Enabled(b, l)
    ensures LogsAlike(Apply(a, l), Apply(b, l))
  {
    if l.Subscribe? || SubscribeStep(l) || l.CallCancel? || CancelStep(l) {
      LogsKept(a, l);
      LogsKept(b, l);
    } else if SubmitStep(l) || l.Arrive? {
      SameLogsBySubmit(a, b, s, k, l);
    }
  }

  predicate KeepsPhase<V>(l: Label<V>) {
    || (SubmitStep(l) && !l.Send?) || l.Arrive? || l.Subscribe? || l.SubTurned? || l.CallCancel? || l.CancelTurned?
    || l.Close? || l.CloseOne?
  }

  lemma PhaseKept<V>(m: Mux<V>, l: Label<V>)
    requires Enabled(m, l) && KeepsPhase(l)
    ensures Apply(m, l).phase == m.phase
  {
  }

  lemma SamePhaseByHandshake<V>(a: Mux<V>, b: Mux<V>, s: nat, l: Label<V>)
    requires LogsAlike(a, b) && a.outputs == b.outputs - {s} && PhaseAlike(a.phase, b.phase, s)
    requires Enabled(a, l) && Enabled(b, l)
    requires l.Send? || (SubscribeStep(l) && !l.SubTurned?) || (CancelStep(l) && !l.CancelTurned?)
    ensures PhaseAlike(Apply(a, l).phase, Apply(b, l).phase, s)
  {
  }

  lemma SamePhase<V>(a: Mux<V>, b: Mux<V>, s: nat, k: nat, l: Label<V>)
    requires Alike(a, b, s, k) && Enabled(a, l) && Enabled(b, l)
    ensures PhaseAlike(Apply(a, l).phase, Apply(b, l).phase, s)
  {
    if KeepsPhase(l) {
      PhaseKept(a, l);
      PhaseKept(b, l);
    } else if l.Send? || SubscribeStep(l) || CancelStep(l) {
      SamePhaseByHandshake(a, b, s, l);
    }
  }

  lemma SameOutputs<V>(a: Mux<V>, b: Mux<V>, s: nat, k: nat, l: Label<V>)
    requires Alike(a, b, s, k) && Enabled(a, l) && Enabled(b, l)
    ensures Apply(a, l).outputs == Apply(b, l).outputs - {s}
  {
    if !SinkStep(l) {
      SinksKept(a, l);
      SinksKept(b, l);
    }
  }

  lemma SameSubs<V>(a: Mux<V>, b: Mux<V>, s: nat, k: nat, l: Label<V>)
    requires Alike(a, b, s, k) && Enabled(a, l) && Enabled(b, l)
    ensures SubsAlike(Apply(a, l), Apply(b, l), s)
  {
    if !SinkStep(l) {
      SinksKept(a, l);
      SinksKept(b, l);
    } else if SubscribeStep(l) || l.Subscribe? {
      SameSubsByHandshake(a, b, s, l);
    }
  }

  lemma SameSubsByHandshake<V>(a: Mux<V>, b: Mux<V>, s: nat, l: Label<V>)
    requires a.handed == b.handed && SubsAlike(a, b, s) && Enabled(a, l) && Enabled(b, l)
    requires SubscribeStep(l) || l.Subscribe?
    ensures SubsAlike(Apply(a, l), Apply(b, l), s)
  {
  }

  lemma SameCancels<V>(a: Mux<V>, b: Mux<V>, s: nat, k: nat, l: Label<V>)
    requires Alike(a, b, s, k) && Enabled(a, l) && Enabled(b, l)
    ensures CancelsAlike(Apply(a, l), Apply(b, l), k)
  {
    if !CancelStep(l) && !l.CallCancel? {
      CancelsKept(a, l);
      CancelsKept(b, l);
    }
  }

  lemma SameStep<V>(a: Mux<V>, b: Mux<V>, s: nat, k: nat, l: Label<V>)
    requires Alike(a, b, s, k) && Enabled(a, l) && Enabled(b, l)
    ensures Alike(Apply(a, l), Apply(b, l), s, k)
  {
    SameLogs(a, b, s, k, l);
    SamePhase(a, b, s, k, l);
    SameOutputs(a, b, s, k, l);
    SameSubs(a, b, s, k, l);
    SameCancels(a, b, s, k, l);
  }

  // The delivery to s, or its closing, that b has to make up for.
  lemma CatchUp<V>(a: Mux<V>, b: Mux<V>, s: nat, k: nat, l: Label<V>) returns (extra: Label<V>)
    requires Alike(a, b, s, k) && Enabled(a, l) && Behind(b, l, s)
    ensures Enabled(b, extra) && Alike(a, Apply(b, extra), s, k) && !Behind(Apply(b, extra), l, s)
  {
    extra := if l.Exit? then CloseOne(s) else Deliver(s, false);
  }

  // Whatever happens after the cancel, the same happens to everyone else without it.
  lemma {:induction false} RunWithoutCancel<V>(a: Mux<V>, b: Mux<V>, s: nat, k: nat, ls: seq<Label<V>>)
    returns (other: seq<Label<V>>)
    requires Alike(a, b, s, k) && Legal(a, ls)
    ensures Legal(b, other) && Alike(Exec(a, ls), Exec(b, other), s, k)
    decreases |ls|
  {
    other := [];
    if ls != [] {
      var l := ls[0];
      var now := b;
      if Behind(b, l, s) {
        var extra := CatchUp(a, b, s, k, l);
        other := Then(b, [], extra);
        now := Apply(b, extra);
      }
      SameEnabled(a, now, s, k, l);
      SameStep(a, now, s, k, l);
      other := Then(b, other, l);
      var rest := RunWithoutCancel(Apply(a, l), Apply(now, l), s, k, ls[1..]);
      other := Join(b, other, rest);
    }
  }

  // ---- between the request and the reply ----

  // In a, `run` has taken the cancel and owes its reply; in b it is still at its select.
  ghost predicate Owing<V>(a: Mux<V>, b: Mux<V>, s: nat, k: nat) {
    && LogsAlike(a, b)
    && a.outputs == b.outputs - {s}
    && a.phase == AckCancel(k) && b.phase.Select?
    && SubsAlike(a, b, s)
    && a.cancels.Keys == b.cancels.Keys && CancelAt(a, k, Waiting) && CancelAt(b, k, Offering)
    && forall j | j in a.cancels && j != k :: a.cancels[j] == b.cancels[j]
  }

  lemma OwingEnabled<V>(a: Mux<V>, b: Mux<V>, s: nat, k: nat, l: Label<V>)
    requires Owing(a, b, s, k) && Enabled(a, l) && l != CancelReturn(k)
    ensures Enabled(b, l) && (KeepsPhase(l) || (l.Send? && a.cap > 0)) && !l.CloseOne?
  {
    if l.Subscribe? {
      assert l.sink !in b.subs.Keys;
    } else if l.CallCancel? {
      assert l.cancel !in b.cancels.Keys;
    }
  }

  lemma SendKeepsPhase<V>(m: Mux<V>, c: nat)
    requires Enabled(m, Send(c)) && m.cap > 0
    ensures Apply(m, Send(c)).phase == m.phase
  {
  }

  lemma OwingPhase<V>(a: Mux<V>, b: Mux<V>, s: nat, k: nat, l: Label<V>)
    requires Owing(a, b, s, k) && Enabled(a, l) && l != CancelReturn(k) && Enabled(b, l)
    ensures Apply(a, l).phase == AckCancel(k) && Apply(b, l).phase.Select?
  {
    OwingEnabled(a, b, s, k, l);
    if l.Send? {
      SendKeepsPhase(a, l.call);
      SendKeepsPhase(b, l.call);
    } else {
      PhaseKept(a, l);
      PhaseKept(b, l);
    }
  }

  lemma OwingLogs<V>(a: Mux<V>, b: Mux<V>, s: nat, k: nat, l: Label<V>)
    requires Owing(a, b, s, k) && Enabled(a, l) && Enabled(b, l) && (KeepsPhase(l) || (l.Send? && a.cap > 0))
    ensures LogsAlike(Apply(a, l), Apply(b, l))
  {
    if l.Subscribe? || SubscribeStep(l) || l.CallCancel? || CancelStep(l) {
      LogsKept(a, l);
      LogsKept(b, l);
    }
  }

  lemma OwingSinks<V>(a: Mux<V>, b: Mux<V>, s: nat, k: nat, l: Label<V>)
    requires Owing(a, b, s, k) && Enabled(a, l) && Enabled(b, l)
    requires (KeepsPhase(l) && !l.CloseOne?) || l.Send?
    ensures Apply(a, l).outputs == Apply(b, l).outputs - {s} && SubsAlike(Apply(a, l), Apply(b, l), s)
  {
    if SinkStep(l) {
      SameSubsByHandshake(a, b, s, l);
      OutputsByHandshake(a, l);
      OutputsByHandshake(b, l);
    } else {
      SinksKept(a, l);
      SinksKept(b, l);
    }
  }

  lemma OutputsByHandshake<V>(m: Mux<V>, l: Label<V>)
    requires Enabled(m, l) && (l.Subscribe? || l.SubTurned?)
    ensures Apply(m, l).outputs == m.outputs
  {
  }

  lemma OwingCancels<V>(a: Mux<V>, b: Mux<V>, s: nat, k: nat, l: Label<V>)
    requires Owing(a, b, s, k) && Enabled(a, l) && Enabled(b, l) && (KeepsPhase(l) || l.Send?)
    ensures var a', b' := Apply(a, l), Apply(b, l);
            && a'.cancels.Keys == b'.cancels.Keys && CancelAt(a', k, Waiting) && CancelAt(b', k, Offering)
            && forall j | j in a'.cancels && j != k :: a'.cancels[j] == b'.cancels[j]
  {
    if !CancelStep(l) && !l.CallCancel? {
      CancelsKept(a, l);
      CancelsKept(b, l);
    }
  }

  lemma OwingStep<V>(a: Mux<V>, b: Mux<V>, s: nat, k: nat, l: Label<V>)
    requires Owing(a, b, s, k) && Enabled(a, l) && l != CancelReturn(k)
    ensures Enabled(b, l) && Owing(Apply(a, l), Apply(b, l), s, k)
  {
    OwingEnabled(a, b, s, k, l);
    OwingPhase(a, b, s, k, l);
    OwingLogs(a, b, s, k, l);
    OwingSinks(a, b, s, k, l);
    OwingCancels(a, b, s, k, l);
  }

  // The reply.
  lemma OwingAnswered<V>(a: Mux<V>, b: Mux<V>, s: nat, k: nat)
    requires Owing(a, b, s, k) && Enabled(a, CancelReturn(k))
    ensures Alike(Apply(a, CancelReturn(k)), b, s, k)
  {
  }

  // Whatever others do before the reply and everyone does after it.
  lemma {:induction false} RunWhileOwing<V>(a: Mux<V>, b: Mux<V>, s: nat, k: nat, ls: seq<Label<V>>)
    returns (other: seq<Label<V>>)
    requires Owing(a, b, s, k) && Legal(a, ls)
    ensures Legal(b, other)
    ensures Owing(Exec(a, ls), Exec(b, other), s, k) || Alike(Exec(a, ls), Exec(b, other), s, k)
    decreases |ls|
  {
    other := [];
    if ls != [] {
      if ls[0] == CancelReturn(k) {
        OwingAnswered(a, b, s, k);
        other := RunWithoutCancel(Apply(a, ls[0]), b, s, k, ls[1..]);
      } else {
        OwingStep(a, b, s, k, ls[0]);
        var first := Then(b, [], ls[0]);
        var rest := RunWhileOwing(Apply(a, ls[0]), Apply(b, ls[0]), s, k, ls[1..]);
        other := Join(b, first, rest);
      }
    }
  }

  lemma TakenIsOwing<V>(m: Mux<V>, k: nat)
    requires SinkInv(m) && CancelInv(m) && Enabled(m, Unregister(k))
    ensures Owing(Apply(m, Unregister(k)), m, m.cancels[k].sink, k)
  {
    assert CancelOk(m, k) && StreamInv(m, m.cancels[k].sink);
    TakenRecords(m, k);
  }

  lemma TakenRecords<V>(m: Mux<V>, k: nat)
    requires Enabled(m, Unregister(k)) && m.subs[m.cancels[k].sink].pc.Answered?
    ensures Owing(Apply(m, Unregister(k)), m, m.cancels[k].sink, k)
  {
  }

  // A cancel that `run` took leaves all other sinks' streams alone: for every run from there
  // on, the reply coming when it may, there is one without the cancel in which every other
  // sink has the same record, and every Submit and the accepted log the same history.
  lemma CancelTouchesOneSink<V>(cap: nat, before: seq<Label<V>>, m: Mux<V>, k: nat, ls: seq<Label<V>>)
    returns (other: seq<Label<V>>)
    requires ReachedBy(cap, before, m) && Enabled(m, Unregister(k)) && Legal(Apply(m, Unregister(k)), ls)
    ensures Legal(m, other)
    ensures var a, b := Exec(Apply(m, Unregister(k)), ls), Exec(m, other);
            && a.accepted == b.accepted && a.calls == b.calls && a.subs.Keys == b.subs.Keys
            && (forall t | t in a.subs && t != m.cancels[k].sink :: a.subs[t] == b.subs[t])
            && a.outputs == b.outputs - {m.cancels[k].sink}
  {
    Reached(cap, before, m);
    TakenIsOwing(m, k);
    other := RunWhileOwing(Apply(m, Unregister(k)), m, m.cancels[k].sink, k, ls);
  }
}
