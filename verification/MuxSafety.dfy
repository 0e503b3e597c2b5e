// What every run of the multiplexer keeps: delivery, sink lifecycle and the handshakes.
module MuxSafety {
  import opened MuxProtocol
  import opened MuxRuns

  // A state some run from a fresh mux leads to.
  ghost predicate ReachedBy<V>(cap: nat, ls: seq<Label<V>>, m: Mux<V>) {
    Legal(Make(cap), ls) && m == Exec(Make(cap), ls)
  }

  lemma Reached<V>(cap: nat, ls: seq<Label<V>>, m: Mux<V>)
    requires ReachedBy(cap, ls, m)
    ensures Inv(m)
  {
    MakeEstablishesInv<V>(cap);
    RunKeepsInv(Make(cap), ls);
  }

  // ---- submitters ----

  // A Submit that has returned returned nil exactly when its value was accepted, and
  // a value is accepted at most once.
  lemma SubmitReturnsNilIffAccepted<V>(cap: nat, ls: seq<Label<V>>, m: Mux<V>, c: nat)
    requires ReachedBy(cap, ls, m) && c in m.calls && m.calls[c].pc.Returned?
    ensures m.calls[c].pc.ok <==> Msg(c, m.calls[c].value) in m.accepted
    ensures forall i, j | 0 <= i < j < |m.accepted| :: m.accepted[i] != m.accepted[j]
  {
    Reached(cap, ls, m);
  }

  // Once the drain holds the lock, nothing enters `input` any more, whoever moves.
  lemma {:induction false} NothingEntersAfterDrain<V>(m: Mux<V>, ls: seq<Label<V>>)
    requires Inv(m) && Legal(m, ls)
    requires m.phase.Drain? || Drained(m.phase)
    ensures Exec(m, ls).accepted == m.accepted
    decreases |ls|
  {
    if ls != [] {
      var m' := Apply(m, ls[0]);
      StepKeepsInv(m, ls[0]);
      assert !ls[0].Send?;
      LogGrows(m, ls[0]);
      assert m'.phase.Drain? || Drained(m'.phase);
      NothingEntersAfterDrain(m', ls[1..]);
    }
  }

  // ---- streams ----

  // What a sink received is a contiguous segment of the accepted log that starts where
  // it was registered; a sink still registered has been served up to the fan-out in
  // progress. Sink errors do not matter: `Deliver` may fail at will.
  lemma StreamIsSegment<V>(cap: nat, ls: seq<Label<V>>, m: Mux<V>, s: nat)
    requires ReachedBy(cap, ls, m) && s in m.subs
    ensures var n := m.subs[s].start + |m.subs[s].received|;
            && n <= m.handed <= |m.accepted|
            && m.subs[s].received == m.accepted[m.subs[s].start..n]
            && (s in m.outputs ==> n == if s in Todo(m.phase) then m.handed - 1 else m.handed)
  {
    Reached(cap, ls, m);
    assert StreamInv(m, s);
  }

  lemma ClosingFollowsFlush<V>(m: Mux<V>, l: Label<V>)
    requires Enabled(m, l)
    requires !(m.phase.CloseAll? || m.phase.Exited?) && (Apply(m, l).phase.CloseAll? || Apply(m, l).phase.Exited?)
    ensures l.FlushNext? && m.phase.rest == []
  {
  }

  // The step from the main loop to the closing of sinks is taken when nothing is left:
  // everything accepted has been handed out.
  lemma LastFlush<V>(m: Mux<V>, l: Label<V>)
    requires LogInv(m) && LockInv(m) && Enabled(m, l)
    requires !(m.phase.CloseAll? || m.phase.Exited?) && (Apply(m, l).phase.CloseAll? || Apply(m, l).phase.Exited?)
    ensures l.FlushNext? && m.handed == |m.accepted|
    ensures Apply(m, l).subs == m.subs && Apply(m, l).outputs == m.outputs && Apply(m, l).accepted == m.accepted
  {
    ClosingFollowsFlush(m, l);
    assert |m.accepted[m.handed..]| == 0;
  }

  lemma ClosingStep<V>(m: Mux<V>, l: Label<V>, s: nat)
    requires LockInv(m) && Enabled(m, l) && (m.phase.CloseAll? || m.phase.Exited?)
    requires s in Apply(m, l).subs && Registered(Apply(m, l).subs[s].pc)
    ensures s in m.subs && Registered(m.subs[s].pc)
    ensures Apply(m, l).subs[s].received == m.subs[s].received && Apply(m, l).subs[s].start == m.subs[s].start
    ensures Apply(m, l).accepted == m.accepted
  {
    LogGrows(m, l);
    if !SinkStep(l) {
      SinksKept(m, l);
    }
  }

  // `run` is closing the sinks, or done: this sink has everything accepted since it came.
  ghost predicate HasAllAtEnd<V>(m: Mux<V>, s: nat) {
    s in m.subs && Registered(m.subs[s].pc) && !WasCancelled(m, s) && (m.phase.CloseAll? || m.phase.Exited?) ==>
      m.subs[s].start <= |m.accepted| && m.subs[s].received == m.accepted[m.subs[s].start..]
  }

  lemma HasAllAtEndStep<V>(m: Mux<V>, l: Label<V>, s: nat)
    requires LogInv(m) && LockInv(m) && SinkInv(m) && CloseInv(m) && Enabled(m, l) && HasAllAtEnd(m, s)
    ensures HasAllAtEnd(Apply(m, l), s)
  {
    var m' := Apply(m, l);
    if s in m'.subs && Registered(m'.subs[s].pc) && !WasCancelled(m', s) && (m'.phase.CloseAll? || m'.phase.Exited?) {
      if m.phase.CloseAll? || m.phase.Exited? {
        ClosingStep(m, l, s);
        if WasCancelled(m, s) {
          WasCancelledKept(m, l, s);
        }
      } else {
        LastFlush(m, l);
        assert StreamInv(m, s);
        assert s in m.outputs;
      }
    }
  }

  // A registered sink that is never cancelled leaves `outputs` at shutdown only, having
  // received everything accepted since its registration.
  lemma {:induction false} UncancelledSinkGetsAll<V>(m: Mux<V>, ls: seq<Label<V>>, s: nat)
    requires Inv(m) && HasAllAtEnd(m, s) && Legal(m, ls)
    ensures HasAllAtEnd(Exec(m, ls), s)
    decreases |ls|
  {
    if ls != [] {
      StepKeepsInv(m, ls[0]);
      HasAllAtEndStep(m, ls[0], s);
      UncancelledSinkGetsAll(Apply(m, ls[0]), ls[1..], s);
    }
  }

  // No accepted value is lost at shutdown: when `run` has exited, a value whose Submit
  // returned nil was handed exactly once to every uncancelled sink registered before it.
  lemma NoAcceptedValueLost<V>(cap: nat, ls: seq<Label<V>>, m: Mux<V>, c: nat, s: nat)
    requires ReachedBy(cap, ls, m) && m.phase.Exited?
    requires CallAt(m, c, Returned(true))
    requires s in m.subs && Registered(m.subs[s].pc) && !WasCancelled(m, s)
    ensures exists i :: 0 <= i < |m.accepted| && m.accepted[i] == Msg(c, m.calls[c].value) &&
                        (m.subs[s].start <= i ==>
                           Once(m.subs[s].received, i - m.subs[s].start, m.accepted[i]))
  {
    Reached(cap, ls, m);
    MakeEstablishesInv<V>(cap);
    UncancelledSinkGetsAll(Make(cap), ls, s);
    assert StreamInv(m, s);
    var i :| 0 <= i < |m.accepted| && m.accepted[i] == Msg(c, m.calls[c].value);
    if m.subs[s].start <= i {
      OnceInSegment(m.accepted, m.subs[s].start, i);
    }
  }

  // `x` stands at `at` in `log` and nowhere else.
  ghost predicate Once<T>(log: seq<T>, at: int, x: T) {
    0 <= at < |log| && forall j | 0 <= j < |log| :: log[j] == x <==> j == at
  }

  lemma OnceInSegment<T>(log: seq<T>, from: nat, i: nat)
    requires from <= i < |log| && forall j, k | 0 <= j < k < |log| :: log[j] != log[k]
    ensures Once(log[from..], i - from, log[i])
  {
    forall j | 0 <= j < |log[from..]|
      ensures log[from..][j] == log[i] <==> j == i - from
    {
      assert log[from..][j] == log[from + j];
    }
  }

  // ---- sink lifecycle ----

  lemma ClosedSinkStep<V>(m: Mux<V>, l: Label<V>, s: nat)
    requires Enabled(m, l) && s in m.subs && StreamInv(m, s) && 0 < m.subs[s].closes
    requires Todo(m.phase) <= m.outputs
    ensures var m' := Apply(m, l);
            s in m'.subs && 0 < m'.subs[s].closes && m'.subs[s].received == m.subs[s].received
  {
    RecordKept(m, l, s);
  }

  // Close ends a stream: whatever happens later, a closed sink receives nothing.
  lemma {:induction false} ClosedSinkIsSilent<V>(m: Mux<V>, ls: seq<Label<V>>, s: nat)
    requires Inv(m) && Legal(m, ls)
    requires s in m.subs && 0 < m.subs[s].closes
    ensures s in Exec(m, ls).subs && Exec(m, ls).subs[s].received == m.subs[s].received
    decreases |ls|
  {
    if ls != [] {
      assert StreamInv(m, s);
      ClosedSinkStep(m, ls[0], s);
      StepKeepsInv(m, ls[0]);
      ClosedSinkIsSilent(Apply(m, ls[0]), ls[1..], s);
    }
  }

  // A cancel that `run` answered is final.
  lemma AnsweredCancelIsFinal<V>(cap: nat, before: seq<Label<V>>, m: Mux<V>, k: nat, ls: seq<Label<V>>)
    requires ReachedBy(cap, before, m) && CancelAt(m, k, Answered) && Legal(m, ls)
    ensures var s := m.cancels[k].sink;
            s in m.subs && s in Exec(m, ls).subs && Exec(m, ls).subs[s].received == m.subs[s].received
  {
    Reached(cap, before, m);
    var s := m.cancels[k].sink;
    assert CancelOk(m, k) && StreamInv(m, s);
    ClosedSinkIsSilent(m, ls, s);
  }

  // When `run` has exited, the closed sinks are exactly those it ever registered, each
  // closed exactly once unless `run` received several cancels of it.
  lemma ClosedOnceAtExit<V>(cap: nat, ls: seq<Label<V>>, m: Mux<V>, s: nat)
    requires ReachedBy(cap, ls, m) && m.phase.Exited? && s in m.subs
    ensures 0 < m.subs[s].closes <==> Registered(m.subs[s].pc)
    ensures |Acked(m, s)| <= 1 ==> m.subs[s].closes == if Registered(m.subs[s].pc) then 1 else 0
  {
    Reached(cap, ls, m);
    assert StreamInv(m, s);
  }

  // At any time a sink has been closed more than once exactly if `run` received more than
  // one cancel of it.
  lemma ClosedTwiceIff<V>(cap: nat, ls: seq<Label<V>>, m: Mux<V>, s: nat)
    requires ReachedBy(cap, ls, m) && s in m.subs
    ensures m.subs[s].closes > 1 <==> |Acked(m, s)| > 1
  {
    Reached(cap, ls, m);
    if Acked(m, s) != {} {
      var k :| k in Acked(m, s);
      assert CancelOk(m, k);
    }
  }

  // ---- handshakes ----

  // A caller whose request `run` took is the one `run` is about to answer: at its
  // select, during a fan-out or after its exit `run` owes nobody a reply.
  lemma NobodyStranded<V>(cap: nat, ls: seq<Label<V>>, m: Mux<V>)
    requires ReachedBy(cap, ls, m)
    ensures forall s :: SubAt(m, s, Waiting) <==> m.phase == AckSub(s) && Enabled(m, SubReturn(s))
    ensures forall k :: CancelAt(m, k, Waiting) <==> m.phase == AckCancel(k) && Enabled(m, CancelReturn(k))
  {
    Reached(cap, ls, m);
    forall s
      ensures SubAt(m, s, Waiting) <==> m.phase == AckSub(s) && Enabled(m, SubReturn(s))
    {
      if SubAt(m, s, Waiting) {
        assert StreamInv(m, s);
      }
    }
    forall k
      ensures CancelAt(m, k, Waiting) <==> m.phase == AckCancel(k) && Enabled(m, CancelReturn(k))
    {
      if CancelAt(m, k, Waiting) {
        assert CancelOk(m, k);
      }
    }
  }
}
