// The goroutine `run` of internal/mux/mux.go as code: the turns of its select and its
// deferred shutdown. A ghost history records the protocol steps the code takes, so every
// loop here is proved to be a legal run of MuxProtocol.
module MuxLoop {
  import opened MuxProtocol
  import opened MuxRuns
  import opened MuxSafety

  // The cases of the select in `run`, with what they receive.
  datatype Ready<+V> = OnInput(v: Msg<V>) | OnRegister(sink: nat) | OnUnregister(cancel: nat, sub: nat) | OnDone

  class Mux<V(==)> {
    const cap: nat
    var input: seq<Msg<V>>
    var outputs: set<nat>
    var done: bool
    ghost var hist: seq<Label<V>>
    ghost var st: MuxProtocol.Mux<V>

    // The fields are those of the protocol state that the steps taken so far lead to.
    ghost predicate Valid()
      reads this
    {
      ReachedBy(cap, hist, st) && input == st.input && outputs == st.outputs && done == st.done
    }

    constructor (cap: nat)
      ensures Valid() && this.cap == cap && hist == []
    {
      this.cap := cap;
      input, outputs, done := [], {}, false;
      hist, st := [], Make(cap);
    }

    // The value the input channel hands out next: the oldest in its buffer, or, if it has
    // none, that of any Submit waiting at its send.
    ghost predicate Incoming(v: Msg<V>)
      reads this
    {
      if cap == 0 then CallAt(st, v.call, Checked) && st.calls[v.call].value == v.value
      else input != [] && input[0] == v
    }

    // A case of the select whose channel has something.
    ghost predicate IsReady(choice: Ready<V>)
      reads this
    {
      match choice
      case OnInput(v) => Incoming(v)
      case OnRegister(sink) => SubAt(st, sink, Offering)
      case OnUnregister(cancel, sub) => CancelAt(st, cancel, Offering) && st.cancels[cancel].sink == sub
      case OnDone => done
    }

    // The cases are ready exactly when the protocol lets `run` receive what they receive.
    lemma ReadyIffEnabled(choice: Ready<V>)
      requires Valid() && st.phase.Select?
      ensures IsReady(choice) <==>
              match choice
              case OnInput(v) =>
                if cap == 0 then Enabled(st, Send(v.call)) && st.calls[v.call].value == v.value
                else Enabled(st, Take) && st.input[0] == v
              case OnRegister(sink) => Enabled(st, Register(sink))
              case OnUnregister(cancel, sub) => Enabled(st, Unregister(cancel)) && st.cancels[cancel].sink == sub
              case OnDone => Enabled(st, SeeDone)
    {
      CapIsFixed(cap, hist, st);
      if choice.OnUnregister? && CancelAt(st, choice.cancel, Offering) {
        CancelledSinkKnown(cap, hist, st, choice.cancel);
      }
    }

    // Takes one protocol step.
    ghost method Step(l: Label<V>)
      requires ReachedBy(cap, hist, st) && Enabled(st, l)
      modifies this`hist, this`st
      ensures ReachedBy(cap, hist, st) && hist == old(hist) + [l] && st == Apply(old(st), l)
    {
      var more := Then(Make(cap), hist, l);
      hist, st := more, Apply(st, l);
    }

    // One out.Submit(v); its error, if any, is logged.
    method SubmitTo(out: nat, failed: bool)
      requires ReachedBy(cap, hist, st) && st.phase.FanOut? && out in st.phase.todo && out in st.subs
      modifies this`st, this`hist
      ensures ReachedBy(cap, hist, st) && hist == old(hist) + [Deliver(out, failed)]
      ensures SameButDelivery(old(st), st)
      ensures st.phase == old(st.phase).(todo := old(st.phase.todo) - {out})
      ensures st.subs ==
        old(st.subs)[out := old(st.subs[out]).(received := old(st.subs[out].received) + [st.phase.msg])]
      ensures st.logged == old(st.logged) + if failed then 1 else 0
    {
      Step(Deliver(out, failed));
    }

    // Hands v to every registered sink, in the order the map iteration happens to choose;
    // an error of a sink in `failing` is logged and does not stop the others.
    method FanOutValue(v: Msg<V>, failing: set<nat>)
      requires Valid() && st.phase.FanOut? && st.phase.msg == v && st.phase.todo == outputs
      modifies this`st, this`hist
      ensures Valid() && old(hist) <= hist && SameButDelivery(old(st), st)
      ensures st.phase == old(st.phase).(todo := {})
      ensures st.subs == Delivered(old(st.subs), outputs, [v])
    {
      RegisteredSinksKnown(cap, hist, st);
      var todo := outputs;
      DeliveredNothing(st.subs, outputs, [v]);
      assert outputs - todo == {};
      while todo != {}
        invariant ReachedBy(cap, hist, st) && old(hist) <= hist && todo <= outputs && SameButDelivery(old(st), st)
        invariant st.phase == old(st.phase).(todo := todo)
        invariant st.subs == Delivered(old(st.subs), outputs - todo, [v])
        decreases todo
      {
        var out :| out in todo;
        DeliveredOneMore(old(st.subs), outputs - todo, out, v);
        assert outputs - (todo - {out}) == outputs - todo + {out};
        SubmitTo(out, out in failing);
        todo := todo - {out};
      }
      assert outputs - todo == outputs;
    }

    // case v := <-c.input, from the buffer or straight from a waiting Submit
    method ReceiveInput(v: Msg<V>, failing: set<nat>)
      requires Valid() && st.phase.Select? && Incoming(v)
      modifies this
      ensures Valid() && old(hist) <= hist && st.phase.Select?
      ensures outputs == old(outputs) && done == old(done)
      ensures input == if cap == 0 then old(input) else old(input)[1..]
      ensures st.subs == Delivered(old(st.subs), outputs, [v])
      ensures st.accepted == if cap == 0 then old(st.accepted) + [v] else old(st.accepted)
      ensures cap == 0 ==> CallAt(st, v.call, Sent)
    {
      CapIsFixed(cap, hist, st);
      if cap == 0 {
        Step(Send(v.call));
      } else {
        input := input[1..];
        Step(Take);
      }
      FanOutValue(v, failing);
      Step(FanOutDone);
    }

    // case ar := <-c.register, with the reply
    method ReceiveRegister(sink: nat)
      requires Valid() && st.phase.Select? && SubAt(st, sink, Offering)
      modifies this
      ensures Valid() && old(hist) <= hist && st.phase.Select?
      ensures outputs == old(outputs) + {sink} && input == old(input) && done == old(done)
      ensures st.subs == old(st.subs)[sink := old(st.subs[sink]).(pc := Answered, start := st.handed)]
    {
      outputs := outputs + {sink};
      Step(Register(sink));
      Step(SubReturn(sink));
    }

    // case ar := <-c.unregister, with the reply
    method ReceiveUnregister(cancel: nat, sub: nat)
      requires Valid() && st.phase.Select? && CancelAt(st, cancel, Offering) && st.cancels[cancel].sink == sub
      modifies this
      ensures Valid() && old(hist) <= hist && st.phase.Select?
      ensures outputs == old(outputs) - {sub} && input == old(input) && done == old(done)
      ensures sub in old(st.subs)
      ensures st.subs == old(st.subs)[sub := old(st.subs[sub]).(closes := old(st.subs[sub].closes) + 1)]
      ensures CancelAt(st, cancel, Answered)
    {
      CancelledSinkKnown(cap, hist, st, cancel);
      outputs := outputs - {sub};
      Step(Unregister(cancel));
      Step(CancelReturn(cancel));
    }

    // One turn of the loop: whichever of its cases is ready, by the select's choice. The
    // log moves on by the message taken; only the case of `done` leaves the loop.
    method Turn(choice: Ready<V>, failing: set<nat>) returns (exit: bool)
      requires Valid() && st.phase.Select? && IsReady(choice)
      modifies this
      ensures Valid() && old(hist) <= hist && done == old(done)
      ensures exit <==> choice.OnDone?
      ensures st.phase == if exit then LockWait else Phase.Select
      ensures input == if choice.OnInput? && cap > 0 then old(input)[1..] else old(input)
      ensures outputs == match choice {
                           case OnRegister(sink) => old(outputs) + {sink}
                           case OnUnregister(_, sub) => old(outputs) - {sub}
                           case _ => old(outputs)
                         }
      ensures choice.OnInput? ==> st.subs == Delivered(old(st.subs), outputs, [choice.v])
      ensures choice.OnInput? && cap == 0 ==> CallAt(st, choice.v.call, Sent)
      ensures choice.OnRegister? ==> SubAt(st, choice.sink, Answered)
      ensures choice.OnUnregister? ==> CancelAt(st, choice.cancel, Answered)
    {
      exit := false;
      match choice {
        case OnInput(v) => ReceiveInput(v, failing);
        case OnRegister(sink) => ReceiveRegister(sink);
        case OnUnregister(cancel, sub) => ReceiveUnregister(cancel, sub);
        case OnDone =>
          Step(SeeDone);
          exit := true;
      }
    }

    // First loop of the deferred shutdown: empties the channel under the lock.
    method DrainInput() returns (buffered: seq<Msg<V>>)
      requires Valid() && st.phase == Drain([])
      modifies this`input, this`st, this`hist
      ensures Valid() && old(hist) <= hist
      ensures buffered == old(input) && st == old(st).(phase := Flush(buffered), input := [])
    {
      buffered := [];
      while input != []
        invariant Valid() && old(hist) <= hist && buffered + input == old(input)
        invariant st == old(st).(phase := Drain(buffered), input := input)
        decreases |input|
      {
        var v := input[0];
        input := input[1..];
        buffered := buffered + [v];
        Step(DrainOne);
      }
      Step(Unlock);
    }

    // One turn of the second loop.
    method FlushOne(v: Msg<V>, failing: set<nat>)
      requires Valid() && st.phase.Flush? && st.phase.rest != [] && st.phase.rest[0] == v
      modifies this`st, this`hist
      ensures Valid() && old(hist) <= hist && st.phase == Flush(old(st.phase.rest)[1..])
      ensures st.subs == Delivered(old(st.subs), outputs, [v])
    {
      Step(FlushNext);
      FanOutValue(v, failing);
      Step(FanOutDone);
    }

    // Second loop: delivers what was drained, outside the lock.
    method FlushBuffered(buffered: seq<Msg<V>>, failing: set<nat>)
      requires Valid() && st.phase == Flush(buffered)
      modifies this`st, this`hist
      ensures Valid() && old(hist) <= hist && st.phase == CloseAll
      ensures st.subs == Delivered(old(st.subs), outputs, buffered)
    {
      DeliveredNothing(st.subs, outputs, []);
      for i := 0 to |buffered|
        invariant Valid() && old(hist) <= hist && st.phase == Flush(buffered[i..])
        invariant st.subs == Delivered(old(st.subs), outputs, buffered[..i])
      {
        FlushOne(buffered[i], failing);
        DeliveredTwice(old(st.subs), outputs, buffered[..i], [buffered[i]]);
        assert buffered[..i] + [buffered[i]] == buffered[..i + 1];
      }
      assert buffered[..|buffered|] == buffered;
      Step(FlushNext);
    }

    // delete(c.outputs, sub); sub.Close()
    method RemoveAndClose(sub: nat)
      requires Valid() && st.phase == CloseAll && sub in outputs && sub in st.subs
      modifies this`outputs, this`st, this`hist
      ensures Valid() && hist == old(hist) + [CloseOne(sub)] && outputs == old(outputs) - {sub}
      ensures st.phase == CloseAll
      ensures st.subs == old(st.subs)[sub := old(st.subs[sub]).(closes := old(st.subs[sub].closes) + 1)]
    {
      outputs := outputs - {sub};
      Step(CloseOne(sub));
    }

    // Third loop: removes and closes every remaining sink.
    method CloseSinks()
      requires Valid() && st.phase == CloseAll
      modifies this`outputs, this`st, this`hist
      ensures Valid() && old(hist) <= hist && st.phase == Exited && outputs == {}
      ensures st.subs == Closed(old(st.subs), old(outputs))
    {
      RegisteredSinksKnown(cap, hist, st);
      assert Closed(st.subs, {}) == st.subs;
      while outputs != {}
        invariant Valid() && old(hist) <= hist && st.phase == CloseAll && outputs <= old(outputs)
        invariant st.subs == Closed(old(st.subs), old(outputs) - outputs)
        decreases outputs
      {
        var sub :| sub in outputs;
        ClosedOneMore(old(st.subs), old(outputs) - outputs, sub);
        assert old(outputs) - (outputs - {sub}) == old(outputs) - outputs + {sub};
        RemoveAndClose(sub);
      }
      Step(Exit);
    }

    // The deferred shutdown, entered with no reader left to wait for: every registered
    // sink gets the whole buffer, in order, and is then closed.
    method Shutdown(failing: set<nat>)
      requires Valid() && st.phase == LockWait && NoReaders(st)
      modifies this
      ensures Valid() && old(hist) <= hist && st.phase == Exited && outputs == {} && input == []
      ensures st.subs == Closed(Delivered(old(st.subs), old(outputs), old(input)), old(outputs))
    {
      Step(Lock);
      var buffered := DrainInput();
      ghost var before := outputs;
      FlushBuffered(buffered, failing);
      NothingLeftInInput(cap, hist, st);
      CloseSinks();
      NothingLeftInInput(cap, hist, st);
    }
  }

  ghost predicate SameButDelivery<V>(a: MuxProtocol.Mux<V>, b: MuxProtocol.Mux<V>) {
    b == a.(phase := b.phase, subs := b.subs, logged := b.logged)
  }

  // The records after the sinks in `to` received `more`.
  ghost function Delivered<V>(subs: map<nat, Sub<V>>, to: set<nat>, more: seq<Msg<V>>): map<nat, Sub<V>> {
    map s | s in subs :: if s in to then subs[s].(received := subs[s].received + more) else subs[s]
  }

  // The records after the sinks in `which` were closed once more.
  ghost function Closed<V>(subs: map<nat, Sub<V>>, which: set<nat>): map<nat, Sub<V>> {
    map s | s in subs :: if s in which then subs[s].(closes := subs[s].closes + 1) else subs[s]
  }

  lemma DeliveredNothing<V>(subs: map<nat, Sub<V>>, to: set<nat>, v: seq<Msg<V>>)
    ensures Delivered(subs, {}, v) == subs && Delivered(subs, to, []) == subs
  {
    assert forall s | s in subs :: subs[s].(received := subs[s].received + []) == subs[s];
  }

  lemma DeliveredOneMore<V>(subs: map<nat, Sub<V>>, to: set<nat>, out: nat, v: Msg<V>)
    requires out in subs && out !in to
    ensures var now := Delivered(subs, to, [v]);
            now[out := now[out].(received := now[out].received + [v])] == Delivered(subs, to + {out}, [v])
  {
  }

  lemma ClosedOneMore<V>(subs: map<nat, Sub<V>>, which: set<nat>, sub: nat)
    requires sub in subs && sub !in which
    ensures var now := Closed(subs, which);
            now[sub := now[sub].(closes := now[sub].closes + 1)] == Closed(subs, which + {sub})
  {
  }

  lemma DeliveredTwice<V>(subs: map<nat, Sub<V>>, to: set<nat>, xs: seq<Msg<V>>, ys: seq<Msg<V>>)
    ensures Delivered(Delivered(subs, to, xs), to, ys) == Delivered(subs, to, xs + ys)
  {
    forall s | s in subs && s in to
      ensures subs[s].received + xs + ys == subs[s].received + (xs + ys)
    {
    }
  }

  lemma {:induction false} CapAlong<V>(m: MuxProtocol.Mux<V>, ls: seq<Label<V>>)
    requires Legal(m, ls)
    ensures Exec(m, ls).cap == m.cap
    decreases |ls|
  {
    if ls != [] {
      CapKept(m, ls[0]);
      CapAlong(Apply(m, ls[0]), ls[1..]);
    }
  }

  lemma CapKept<V>(m: MuxProtocol.Mux<V>, l: Label<V>)
    requires Enabled(m, l)
    ensures Apply(m, l).cap == m.cap
  {
  }

  lemma CapIsFixed<V>(cap: nat, ls: seq<Label<V>>, m: MuxProtocol.Mux<V>)
    requires ReachedBy(cap, ls, m)
    ensures m.cap == cap
  {
    CapAlong(Make(cap), ls);
  }

  lemma RegisteredSinksKnown<V>(cap: nat, ls: seq<Label<V>>, m: MuxProtocol.Mux<V>)
    requires ReachedBy(cap, ls, m)
    ensures m.outputs <= m.subs.Keys
  {
    Reached(cap, ls, m);
  }

  lemma CancelledSinkKnown<V>(cap: nat, ls: seq<Label<V>>, m: MuxProtocol.Mux<V>, k: nat)
    requires ReachedBy(cap, ls, m) && k in m.cancels
    ensures m.cancels[k].sink in m.subs
  {
    Reached(cap, ls, m);
    assert CancelOk(m, k);
  }

  lemma NothingLeftInInput<V>(cap: nat, ls: seq<Label<V>>, m: MuxProtocol.Mux<V>)
    requires ReachedBy(cap, ls, m) && Drained(m.phase)
    ensures m.input == []
  {
    Reached(cap, ls, m);
  }
}
