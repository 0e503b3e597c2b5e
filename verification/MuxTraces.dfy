// Runs on which the multiplexer does less than its comments promise.
module MuxTraces {
  import opened MuxProtocol
  import opened MuxRuns

  // Sink 0 registered, its Subscribe returned.
  lemma OneSink() returns (ls: seq<Label<int>>)
    ensures Legal(Make(0), ls)
    ensures Exec(Make<int>(0), ls) == Make<int>(0).(outputs := {0}, subs := map[0 := Sub(Answered, [], 0, 0)])
  {
    var m := Make<int>(0);
    ls := [];
    ls := Then(m, ls, Subscribe(0));
    ls := Then(m, ls, Register(0));
    ls := Then(m, ls, SubReturn(0));
  }

  // A value on its way: sink 0 is registered and `run` has just taken 7 from Submit call 0.
  lemma ValueInFlight() returns (ls: seq<Label<int>>)
    ensures Legal(Make(0), ls)
    ensures var m := Exec(Make<int>(0), ls);
            && m.phase == FanOut(Msg(0, 7), {0}, [], false) && !m.done
            && m.outputs == {0} && m.cancels == map[]
            && m.subs == map[0 := Sub(Answered, [], 0, 0)]
  {
    var m := Make<int>(0);
    ls := OneSink();
    ls := Then(m, ls, Arrive(0, 7));
    ls := Then(m, ls, RLock(0));
    ls := Then(m, ls, CheckDone(0));
    ls := Then(m, ls, Send(0));
  }

  // A CancelFunc that returns through `done` is not final: the value in flight still
  // reaches the sink after it returned.
  lemma CancelThroughDoneIsNotFinal() returns (ls: seq<Label<int>>)
    ensures Legal(Make(0), ls) && CancelAt(Exec(Make<int>(0), ls), 0, TurnedAway)
    ensures var m := Exec(Make<int>(0), ls);
            && m.cancels[0].sink == 0
            && SubAt(m, 0, Answered) && m.subs[0].received == []
            && Enabled(m, Deliver(0, false))
            && Apply(m, Deliver(0, false)).subs[0].received == [Msg(0, 7)]
  {
    var m := Make<int>(0);
    ls := ValueInFlight();
    ls := Then(m, ls, CallCancel(0, 0));
    ls := Then(m, ls, Close);
    ls := Then(m, ls, CancelTurned(0));
  }

  // `unregister` does not look at `outputs`: two calls of one CancelFunc close the sink twice.
  lemma TwoCancelsCloseTwice() returns (ls: seq<Label<int>>)
    ensures Legal(Make(0), ls)
    ensures var m := Exec(Make<int>(0), ls);
            0 in m.subs && m.subs[0].closes == 2 && !m.done
  {
    var m := Make<int>(0);
    ls := OneSink();
    ls := Then(m, ls, CallCancel(0, 0));
    ls := Then(m, ls, CallCancel(1, 0));
    ls := Then(m, ls, Unregister(0));
    ls := Then(m, ls, CancelReturn(0));
    ls := Then(m, ls, Unregister(1));
  }
}
