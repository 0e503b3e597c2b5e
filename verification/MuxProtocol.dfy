// The fan-out multiplexer of internal/mux/mux.go as a step system: any number of
// Submit, Subscribe and CancelFunc calls, each with its own program counter, racing
// with Close and with the single goroutine `run`.
//
// One label is one atomic action of one goroutine. Every Submit call has an identity,
// which its message carries, so that "exactly once" can be said of equal values too.
module MuxProtocol {

  datatype Msg<+V> = Msg(call: nat, value: V)

  // Where a Submit call stands. The read lock is held in the four middle states.
  datatype CallPc = Arrived | Locked | Checked | Sent | Refused | Returned(ok: bool)

  datatype Call<+V> = Call(value: V, pc: CallPc)

  // Where a handshake with `run` stands: offering its request, waiting for the
  // reply, answered by `run`, or returned through the `done` branch.
  datatype Handshake = Offering | Waiting | Answered | TurnedAway

  // One subscription, with the history of its sink. `start` is the position in the
  // accepted log at which `run` registered the sink.
  datatype Sub<+V> = Sub(pc: Handshake, received: seq<Msg<V>>, start: nat, closes: nat)

  datatype Cancel = Cancel(sink: nat, pc: Handshake)

  // Where `run` stands.
  datatype Phase<+V> =
    | Select
    | FanOut(msg: Msg<V>, todo: set<nat>, rest: seq<Msg<V>>, closing: bool)
    | AckSub(sink: nat)
    | AckCancel(cancel: nat)
    | LockWait
    | Drain(buffered: seq<Msg<V>>)
    | Flush(rest: seq<Msg<V>>)
    | CloseAll
    | Exited

  // `accepted` logs what entered `input`, in order; `handed` counts the messages
  // whose fan-out has begun; `logged` counts the sink errors `run` logged.
  datatype Mux<+V> = Mux(
    cap: nat,
    input: seq<Msg<V>>,
    done: bool,
    outputs: set<nat>,
    phase: Phase<V>,
    calls: map<nat, Call<V>>,
    subs: map<nat, Sub<V>>,
    cancels: map<nat, Cancel>,
    accepted: seq<Msg<V>>,
    handed: nat,
    logged: nat)

  datatype Label<+V> =
    // Submit
    | Arrive(call: nat, value: V)
    | RLock(call: nat)
    | CheckDone(call: nat)
    | Send(call: nat)
    | GiveUp(call: nat)
    | Return(call: nat)
    // Subscribe
    | Subscribe(sink: nat)
    | Register(sink: nat)
    | SubReturn(sink: nat)
    | SubTurned(sink: nat)
    // CancelFunc
    | CallCancel(cancel: nat, sink: nat)
    | Unregister(cancel: nat)
    | CancelReturn(cancel: nat)
    | CancelTurned(cancel: nat)
    // Close
    | Close
    // run
    | Take
    | Deliver(sink: nat, failed: bool)
    | FanOutDone
    | SeeDone
    | Lock
    | DrainOne
    | Unlock
    | FlushNext
    | CloseOne(sink: nat)
    | Exit

  function Make<V>(cap: nat): Mux<V> {
    Mux(cap, [], false, {}, Select, map[], map[], map[], [], 0, 0)
  }

  // ---- the lock ----

  predicate HoldsRead(pc: CallPc) {
    pc.Locked? || pc.Checked? || pc.Sent? || pc.Refused?
  }

  // The mutex prefers writers: a pending Lock keeps new readers out.
  predicate WriterPendingOrIn<V>(p: Phase<V>) {
    p.LockWait? || p.Drain?
  }

  predicate NoReaders<V>(m: Mux<V>) {
    forall c | c in m.calls :: !HoldsRead(m.calls[c].pc)
  }

  // ---- steps ----

  predicate CallAt<V>(m: Mux<V>, c: nat, pc: CallPc) {
    c in m.calls && m.calls[c].pc == pc
  }

  predicate SubAt<V>(m: Mux<V>, s: nat, pc: Handshake) {
    s in m.subs && m.subs[s].pc == pc
  }

  predicate CancelAt<V>(m: Mux<V>, k: nat, pc: Handshake) {
    k in m.cancels && m.cancels[k].pc == pc
  }

  predicate Enabled<V>(m: Mux<V>, l: Label<V>) {
    match l
    case Arrive(c, _) => c !in m.calls
    case RLock(c) => CallAt(m, c, Arrived) && !WriterPendingOrIn(m.phase)
    case CheckDone(c) => CallAt(m, c, Locked)
    // With a buffer the send needs room; without one it needs a receiver, which is
    // `run` at its select or in its drain loop.
    case Send(c) =>
      CallAt(m, c, Checked) &&
      if m.cap == 0 then m.phase.Select? || m.phase.Drain? else |m.input| < m.cap
    // Through `done` or the timer; the timer may fire at any time.
    case GiveUp(c) => CallAt(m, c, Checked)
    case Return(c) => CallAt(m, c, Sent) || CallAt(m, c, Refused)
    case Subscribe(s) => s !in m.subs
    case Register(s) => SubAt(m, s, Offering) && m.phase.Select?
    case SubReturn(s) => SubAt(m, s, Waiting) && m.phase == AckSub(s)
    case SubTurned(s) => SubAt(m, s, Offering) && m.done
    // The CancelFunc exists once Subscribe has returned it; it may be called again.
    case CallCancel(k, s) => k !in m.cancels && SubAt(m, s, Answered)
    case Unregister(k) => CancelAt(m, k, Offering) && m.phase.Select? && m.cancels[k].sink in m.subs
    case CancelReturn(k) => CancelAt(m, k, Waiting) && m.phase == AckCancel(k)
    case CancelTurned(k) => CancelAt(m, k, Offering) && m.done
    case Close => true
    case Take => m.phase.Select? && m.input != []
    case Deliver(s, _) => m.phase.FanOut? && s in m.phase.todo && s in m.subs
    case FanOutDone => m.phase.FanOut? && m.phase.todo == {}
    case SeeDone => m.phase.Select? && m.done
    case Lock => m.phase.LockWait? && NoReaders(m)
    case DrainOne => m.phase.Drain? && m.input != []
    case Unlock => m.phase.Drain? && m.input == []
    case FlushNext => m.phase.Flush?
    case CloseOne(s) => m.phase.CloseAll? && s in m.outputs && s in m.subs
    case Exit => m.phase.CloseAll? && m.outputs == {}
  }

  function SetCall<V>(m: Mux<V>, c: nat, pc: CallPc): Mux<V>
    requires c in m.calls
  {
    m.(calls := m.calls[c := m.calls[c].(pc := pc)])
  }

  function SetSub<V>(m: Mux<V>, s: nat, pc: Handshake): Mux<V>
    requires s in m.subs
  {
    m.(subs := m.subs[s := m.subs[s].(pc := pc)])
  }

  function SetCancel<V>(m: Mux<V>, k: nat, pc: Handshake): Mux<V>
    requires k in m.cancels
  {
    m.(cancels := m.cancels[k := m.cancels[k].(pc := pc)])
  }

  function CloseSink<V>(m: Mux<V>, s: nat): Mux<V>
    requires s in m.subs
  {
    m.(outputs := m.outputs - {s}, subs := m.subs[s := m.subs[s].(closes := m.subs[s].closes + 1)])
  }

  function ApplySend<V>(m: Mux<V>, c: nat): Mux<V>
    requires Enabled(m, Send(c))
  {
    var msg := Msg(c, m.calls[c].value);
    var m' := SetCall(m, c, Sent).(accepted := m.accepted + [msg]);
    if m.cap > 0 then m'.(input := m.input + [msg])
    else if m.phase.Select? then m'.(phase := FanOut(msg, m.outputs, [], false), handed := m.handed + 1)
    else m'.(phase := Drain(m.phase.buffered + [msg]))
  }

  function Apply<V>(m: Mux<V>, l: Label<V>): Mux<V>
    requires Enabled(m, l)
  {
    match l
    case Arrive(c, v) => m.(calls := m.calls[c := Call(v, Arrived)])
    case RLock(c) => SetCall(m, c, Locked)
    case CheckDone(c) => SetCall(m, c, if m.done then Refused else Checked)
    case Send(c) => ApplySend(m, c)
    case GiveUp(c) => SetCall(m, c, Refused)
    case Return(c) => SetCall(m, c, Returned(m.calls[c].pc.Sent?))
    case Subscribe(s) => m.(subs := m.subs[s := Sub(Offering, [], 0, 0)])
    case Register(s) =>
      SetSub(m, s, Waiting).(
      subs := m.subs[s := m.subs[s].(pc := Waiting, start := m.handed)],
      outputs := m.outputs + {s},
      phase := AckSub(s))
    case SubReturn(s) => SetSub(m, s, Answered).(phase := Select)
    case SubTurned(s) => SetSub(m, s, TurnedAway)
    case CallCancel(k, s) => m.(cancels := m.cancels[k := Cancel(s, Offering)])
    case Unregister(k) => SetCancel(CloseSink(m, m.cancels[k].sink), k, Waiting).(phase := AckCancel(k))
    case CancelReturn(k) => SetCancel(m, k, Answered).(phase := Select)
    case CancelTurned(k) => SetCancel(m, k, TurnedAway)
    case Close => m.(done := true)
    case Take => m.(input := m.input[1..], handed := m.handed + 1, phase := FanOut(m.input[0], m.outputs, [], false))
    case Deliver(s, failed) =>
      m.(subs := m.subs[s := m.subs[s].(received := m.subs[s].received + [m.phase.msg])],
      phase := m.phase.(todo := m.phase.todo - {s}),
      logged := if failed then m.logged + 1 else m.logged)
    case FanOutDone => m.(phase := if m.phase.closing then Flush(m.phase.rest) else Select)
    case SeeDone => m.(phase := LockWait)
    case Lock => m.(phase := Drain([]))
    case DrainOne => m.(input := m.input[1..], phase := Drain(m.phase.buffered + [m.input[0]]))
    case Unlock => m.(phase := Flush(m.phase.buffered))
    case FlushNext =>
      if m.phase.rest == [] then m.(phase := CloseAll)
      else m.(phase := FanOut(m.phase.rest[0], m.outputs, m.phase.rest[1..], true), handed := m.handed + 1)
    case CloseOne(s) => CloseSink(m, s)
    case Exit => m.(phase := Exited)
  }

  // ---- who takes a step ----

  predicate SubmitStep<V>(l: Label<V>) {
    l.RLock? || l.CheckDone? || l.Send? || l.GiveUp? || l.Return?
  }

  predicate SubscribeStep<V>(l: Label<V>) {
    l.Register? || l.SubReturn? || l.SubTurned?
  }

  predicate CancelStep<V>(l: Label<V>) {
    l.Unregister? || l.CancelReturn? || l.CancelTurned?
  }

  // ---- runs ----

  predicate Legal<V>(m: Mux<V>, ls: seq<Label<V>>)
    decreases |ls|
  {
    ls == [] || (Enabled(m, ls[0]) && Legal(Apply(m, ls[0]), ls[1..]))
  }

  function Exec<V>(m: Mux<V>, ls: seq<Label<V>>): Mux<V>
    requires Legal(m, ls)
    decreases |ls|
  {
    if ls == [] then m else Exec(Apply(m, ls[0]), ls[1..])
  }

  // What the messages carry.
  function Values<V>(msgs: seq<Msg<V>>): (values: seq<V>)
    ensures |values| == |msgs|
  {
    seq(|msgs|, i requires 0 <= i < |msgs| => msgs[i].value)
  }

  // ---- the invariant ----

  ghost function Pending<V>(p: Phase<V>): seq<Msg<V>> {
    match p
    case FanOut(_, _, rest, _) => rest
    case Drain(buffered) => buffered
    case Flush(rest) => rest
    case _ => []
  }

  ghost function Todo<V>(p: Phase<V>): set<nat> {
    if p.FanOut? then p.todo else {}
  }

  // `run` has left its main loop.
  ghost predicate Closing<V>(p: Phase<V>) {
    p.LockWait? || p.Drain? || p.Flush? || p.CloseAll? || p.Exited? || (p.FanOut? && p.closing)
  }

  // The drain has released the lock.
  ghost predicate Drained<V>(p: Phase<V>) {
    p.Flush? || p.CloseAll? || p.Exited? || (p.FanOut? && p.closing)
  }

  ghost predicate LogInv<V>(m: Mux<V>) {
    && |m.input| <= m.cap
    && m.handed <= |m.accepted|
    && m.accepted[m.handed..] == Pending(m.phase) + m.input
    && (m.phase.FanOut? ==>
          0 < m.handed && m.phase.msg == m.accepted[m.handed - 1] && m.phase.todo <= m.outputs &&
          (!m.phase.closing ==> m.phase.rest == []))
  }

  ghost predicate LockInv<V>(m: Mux<V>) {
    && (Closing(m.phase) ==> m.done)
    && (m.phase.Drain? ==> NoReaders(m))
    && (Drained(m.phase) ==> m.input == [] && forall c | c in m.calls :: !m.calls[c].pc.Checked?)
  }

  ghost predicate Accepted(pc: CallPc) {
    pc.Sent? || pc == Returned(true)
  }

  ghost predicate CallInv<V>(m: Mux<V>) {
    && (forall i | 0 <= i < |m.accepted| ::
          m.accepted[i].call in m.calls &&
          m.accepted[i].value == m.calls[m.accepted[i].call].value &&
          Accepted(m.calls[m.accepted[i].call].pc))
    && (forall i, j | 0 <= i < j < |m.accepted| :: m.accepted[i].call != m.accepted[j].call)
    && (forall c | c in m.calls && Accepted(m.calls[c].pc) :: Msg(c, m.calls[c].value) in m.accepted)
  }

  ghost predicate Registered(pc: Handshake) {
    pc.Waiting? || pc.Answered?
  }

  // How far into the accepted log a registered sink has been served.
  ghost function Served<V>(m: Mux<V>, s: nat): int {
    if s in Todo(m.phase) then m.handed - 1 else m.handed
  }

  ghost predicate StreamInv<V>(m: Mux<V>, s: nat)
    requires s in m.subs
  {
    var sub := m.subs[s];
    && sub.start + |sub.received| <= m.handed <= |m.accepted|
    && sub.received == m.accepted[sub.start..sub.start + |sub.received|]
    && (s in m.outputs ==> Registered(sub.pc) && sub.closes == 0 && sub.start + |sub.received| == Served(m, s))
    && (!Registered(sub.pc) ==> sub.received == [] && sub.closes == 0 && sub.start == 0)
    && (Registered(sub.pc) && s !in m.outputs ==> 0 < sub.closes)
    && (sub.pc.Waiting? ==> m.phase == AckSub(s))
  }

  ghost predicate SinkInv<V>(m: Mux<V>) {
    && (forall s | s in m.outputs :: s in m.subs)
    && (forall s | s in m.subs :: StreamInv(m, s))
    && (m.phase.AckSub? ==> SubAt(m, m.phase.sink, Waiting))
  }

  ghost predicate CancelOk<V>(m: Mux<V>, k: nat)
    requires k in m.cancels
  {
    var s := m.cancels[k].sink;
    && s in m.subs
    && Registered(m.subs[s].pc)
    && (Registered(m.cancels[k].pc) ==> s !in m.outputs)
    && (m.cancels[k].pc.TurnedAway? ==> m.done)
    && (m.cancels[k].pc.Waiting? ==> m.phase == AckCancel(k))
  }

  ghost predicate CancelInv<V>(m: Mux<V>) {
    && (forall k | k in m.cancels :: CancelOk(m, k))
    && (m.phase.AckCancel? ==> CancelAt(m, m.phase.cancel, Waiting))
  }

  // A sink that left `outputs` was either cancelled through `run` or closed at shutdown.
  ghost predicate WasCancelled<V>(m: Mux<V>, s: nat) {
    exists k :: k in m.cancels && m.cancels[k].sink == s && Registered(m.cancels[k].pc)
  }

  // The cancels of a sink that `run` received.
  ghost function Acked<V>(m: Mux<V>, s: nat): set<nat> {
    set k | k in m.cancels && m.cancels[k].sink == s && Registered(m.cancels[k].pc)
  }

  // How often a sink has been closed: once for each cancel `run` received, or once at
  // shutdown if there was none.
  ghost function Closes<V>(m: Mux<V>, s: nat): nat
    requires s in m.subs
  {
    if s in m.outputs || !Registered(m.subs[s].pc) then 0
    else if Acked(m, s) == {} then 1
    else |Acked(m, s)|
  }

  ghost predicate CloseInv<V>(m: Mux<V>) {
    && (forall s | s in m.subs && Registered(m.subs[s].pc) && s !in m.outputs ::
          WasCancelled(m, s) || m.phase.CloseAll? || m.phase.Exited?)
    && (m.phase.Exited? ==> m.outputs == {})
    && (forall s | s in m.subs :: m.subs[s].closes == Closes(m, s))
  }

  ghost predicate Inv<V>(m: Mux<V>) {
    LogInv(m) && LockInv(m) && CallInv(m) && SinkInv(m) && CancelInv(m) && CloseInv(m)
  }

  lemma MakeEstablishesInv<V>(cap: nat)
    ensures Inv(Make<V>(cap))
  {
  }

  // ---- what a step leaves alone ----

  // A step that may change what is known of a sink.
  predicate SinkStep<V>(l: Label<V>) {
    l.Subscribe? || SubscribeStep(l) || l.Unregister? || l.Deliver? || l.CloseOne?
  }

  lemma SinksKept<V>(m: Mux<V>, l: Label<V>)
    requires Enabled(m, l) && !SinkStep(l)
    ensures Apply(m, l).subs == m.subs && Apply(m, l).outputs == m.outputs
  {
  }

  // Nobody but a Submit call moves a Submit call.
  lemma CallsKept<V>(m: Mux<V>, l: Label<V>)
    requires Enabled(m, l) && !SubmitStep(l) && !l.Arrive?
    ensures Apply(m, l).calls == m.calls
  {
  }

  // The log and the count of started fan-outs only grow; the value sent is logged last.
  lemma LogGrows<V>(m: Mux<V>, l: Label<V>)
    requires Enabled(m, l)
    ensures m.accepted <= Apply(m, l).accepted
    ensures m.handed <= Apply(m, l).handed
    ensures !l.Send? ==> Apply(m, l).accepted == m.accepted
  {
  }

  lemma DoneKept<V>(m: Mux<V>, l: Label<V>)
    requires Enabled(m, l) && !l.Close?
    ensures Apply(m, l).done == m.done
  {
  }

  // Nobody but a cancel moves a cancel.
  lemma CancelsKept<V>(m: Mux<V>, l: Label<V>)
    requires Enabled(m, l) && !CancelStep(l) && !l.CallCancel?
    ensures Apply(m, l).cancels == m.cancels
  {
  }

  // What a subscription keeps when its sink is not the one being served.
  lemma RecordKept<V>(m: Mux<V>, l: Label<V>, s: nat)
    requires Enabled(m, l) && s in m.subs && !(l.Deliver? && l.sink == s)
    ensures var m' := Apply(m, l);
            && s in m'.subs && m'.subs[s].received == m.subs[s].received
            && m.subs[s].closes <= m'.subs[s].closes
            && (m.subs[s].pc.Answered? ==> m'.subs[s].pc.Answered?)
            && (Registered(m.subs[s].pc) ==>
                  Registered(m'.subs[s].pc) && m'.subs[s].start == m.subs[s].start &&
                  (s in m'.outputs ==> s in m.outputs))
  {
    if !SinkStep(l) {
      SinksKept(m, l);
    }
  }

  // Steps inside the mux neither add calls nor reopen one that returned.
  lemma CallsInside<V>(m: Mux<V>, l: Label<V>)
    requires Enabled(m, l) && !l.Arrive?
    ensures Apply(m, l).calls.Keys == m.calls.Keys && Apply(m, l).cap == m.cap
    ensures forall c | c in m.calls :: Apply(m, l).calls[c].value == m.calls[c].value
    ensures forall c | c in m.calls && m.calls[c].pc.Returned? :: Apply(m, l).calls[c] == m.calls[c]
  {
    if !SubmitStep(l) {
      CallsKept(m, l);
    }
  }

  lemma SubsInside<V>(m: Mux<V>, l: Label<V>)
    requires Enabled(m, l) && !l.Subscribe?
    ensures Apply(m, l).subs.Keys == m.subs.Keys
    ensures forall s | s in m.subs && !m.subs[s].pc.Offering? && !m.subs[s].pc.Waiting? ::
              Apply(m, l).subs[s].pc == m.subs[s].pc && Apply(m, l).subs[s].start == m.subs[s].start
  {
    if !SinkStep(l) {
      SinksKept(m, l);
    }
  }

  lemma HandshakeKept<V>(m: Mux<V>, l: Label<V>, s: nat)
    requires Enabled(m, l) && s in m.subs && !l.Subscribe? && l != Register(s)
    ensures s in Apply(m, l).subs && Apply(m, l).subs[s].start == m.subs[s].start
    ensures Registered(Apply(m, l).subs[s].pc) <==> Registered(m.subs[s].pc)
    ensures Apply(m, l).subs[s].pc.Offering? ==> m.subs[s].pc.Offering?
  {
    if !SinkStep(l) {
      SinksKept(m, l);
    }
  }

  // ---- preservation, one part of the invariant at a time ----

  lemma LogKeptBySend<V>(m: Mux<V>, c: nat)
    requires LogInv(m) && LockInv(m) && Enabled(m, Send(c))
    ensures LogInv(ApplySend(m, c))
  {
    var m' := ApplySend(m, c);
    var msg := Msg(c, m.calls[c].value);
    assert m'.accepted[m.handed..] == m.accepted[m.handed..] + [msg];
    if m.cap == 0 && m.phase.Select? {
      assert m.accepted[m.handed..] == [];
    }
  }

  // What is left of the log after its next message.
  lemma NextOfLog<T>(log: seq<T>, at: nat, rest: seq<T>)
    requires at <= |log| && log[at..] == rest && rest != []
    ensures at < |log| && log[at] == rest[0] && log[at + 1..] == rest[1..]
  {
    assert log[at] == log[at..][0];
    assert log[at + 1..] == log[at..][1..];
  }

  // Taking the next message from the buffer.
  lemma LogKeptByTake<V>(m: Mux<V>)
    requires LogInv(m) && Enabled(m, Take)
    ensures LogInv(Apply(m, Take))
  {
    NextOfLog(m.accepted, m.handed, m.input);
  }

  // Taking the next message from what was drained.
  lemma LogKeptByFlush<V>(m: Mux<V>)
    requires LogInv(m) && Enabled(m, FlushNext) && m.input == []
    ensures LogInv(Apply(m, FlushNext))
  {
    if m.phase.rest != [] {
      NextOfLog(m.accepted, m.handed, m.phase.rest);
    }
  }

  lemma LogKept<V>(m: Mux<V>, l: Label<V>)
    requires LogInv(m) && LockInv(m) && SinkInv(m) && Enabled(m, l)
    ensures LogInv(Apply(m, l))
  {
    if l.Send? {
      LogKeptBySend(m, l.call);
    } else if l.Take? {
      LogKeptByTake(m);
    } else if l.FlushNext? {
      LogKeptByFlush(m);
    } else {
      var m' := Apply(m, l);
      assert m'.accepted == m.accepted && m'.handed == m.handed;
      assert Pending(m'.phase) + m'.input == Pending(m.phase) + m.input;
    }
  }

  lemma LockKeptBySubmit<V>(m: Mux<V>, l: Label<V>)
    requires LockInv(m) && Enabled(m, l) && SubmitStep(l)
    ensures LockInv(Apply(m, l))
  {
  }

  lemma LockKept<V>(m: Mux<V>, l: Label<V>)
    requires LockInv(m) && Enabled(m, l)
    ensures LockInv(Apply(m, l))
  {
    if SubmitStep(l) {
      LockKeptBySubmit(m, l);
    } else if !l.Arrive? {
      CallsKept(m, l);
    }
  }

  lemma SendRecords<V>(m: Mux<V>, c: nat)
    requires Enabled(m, Send(c))
    ensures ApplySend(m, c).accepted == m.accepted + [Msg(c, m.calls[c].value)]
    ensures ApplySend(m, c).calls == m.calls[c := m.calls[c].(pc := Sent)]
  {
  }

  lemma CallKeptBySend<V>(m: Mux<V>, c: nat)
    requires CallInv(m) && Enabled(m, Send(c))
    ensures CallInv(ApplySend(m, c))
  {
    SendRecords(m, c);
    OneMoreCall(m, c, ApplySend(m, c));
  }

  // One more value in the log, of a call that had none there.
  lemma OneMoreCall<V>(m: Mux<V>, c: nat, m': Mux<V>)
    requires CallInv(m) && CallAt(m, c, Checked)
    requires m'.accepted == m.accepted + [Msg(c, m.calls[c].value)]
    requires m'.calls == m.calls[c := m.calls[c].(pc := Sent)]
    ensures CallInv(m')
  {
    assert m'.accepted[|m.accepted|] == Msg(c, m.calls[c].value);
    forall d | d in m'.calls && Accepted(m'.calls[d].pc)
      ensures Msg(d, m'.calls[d].value) in m'.accepted
    {
      if d != c {
        assert Msg(d, m.calls[d].value) in m.accepted;
      }
    }
  }

  lemma CallKeptBySubmit<V>(m: Mux<V>, l: Label<V>)
    requires CallInv(m) && Enabled(m, l) && (SubmitStep(l) || l.Arrive?) && !l.Send?
    ensures CallInv(Apply(m, l))
  {
    assert Apply(m, l).accepted == m.accepted;
  }

  lemma CallKept<V>(m: Mux<V>, l: Label<V>)
    requires CallInv(m) && Enabled(m, l)
    ensures CallInv(Apply(m, l))
  {
    if l.Send? {
      CallKeptBySend(m, l.call);
    } else if SubmitStep(l) || l.Arrive? {
      CallKeptBySubmit(m, l);
    } else {
      LogGrows(m, l);
      CallsKept(m, l);
    }
  }

  // A step that leaves a sink's record alone keeps its stream a segment.
  lemma StreamKept<V>(m: Mux<V>, m': Mux<V>, s: nat)
    requires s in m.subs && StreamInv(m, s)
    requires s in m'.subs && m'.subs[s] == m.subs[s]
    requires m.accepted <= m'.accepted && m.handed <= m'.handed <= |m'.accepted|
    requires s in m'.outputs <==> s in m.outputs
    requires s in m.outputs ==> Served(m', s) == Served(m, s)
    requires m.subs[s].pc.Waiting? ==> m'.phase == m.phase
    ensures StreamInv(m', s)
  {
    var n := m.subs[s].start + |m.subs[s].received|;
    assert m'.accepted[m.subs[s].start..n] == m.accepted[m.subs[s].start..n];
  }

  lemma SegmentGrows<T>(log: seq<T>, from: nat, to: nat)
    requires from <= to < |log|
    ensures log[from..to + 1] == log[from..to] + [log[to]]
  {
  }

  lemma StreamKeptByDeliver<V>(m: Mux<V>, s: nat, failed: bool)
    requires LogInv(m) && Enabled(m, Deliver(s, failed)) && StreamInv(m, s)
    ensures StreamInv(Apply(m, Deliver(s, failed)), s)
  {
    var n := m.subs[s].start + |m.subs[s].received|;
    assert n == m.handed - 1;
    SegmentGrows(m.accepted, m.subs[s].start, n);
  }

  lemma StreamKeptByHandshake<V>(m: Mux<V>, l: Label<V>, s: nat)
    requires SinkInv(m) && LogInv(m) && Enabled(m, l) && s in m.subs && StreamInv(m, s)
    requires l == Register(s) || l == SubReturn(s) || l == SubTurned(s)
    ensures StreamInv(Apply(m, l), s)
  {
    assert Apply(m, l).accepted == m.accepted && Apply(m, l).handed == m.handed;
    if l.Register? {
      assert m.accepted[m.handed..m.handed] == [];
    }
  }

  lemma StreamKeptByClose<V>(m: Mux<V>, l: Label<V>, s: nat)
    requires SinkInv(m) && CancelInv(m) && Enabled(m, l) && s in m.subs && StreamInv(m, s)
    requires l == CloseOne(s) || (l.Unregister? && m.cancels[l.cancel].sink == s)
    ensures StreamInv(Apply(m, l), s)
  {
    assert l.Unregister? ==> CancelOk(m, l.cancel);
    assert Apply(m, l).accepted == m.accepted && Apply(m, l).handed == m.handed;
  }

  lemma OutputKept<V>(m: Mux<V>, l: Label<V>, s: nat)
    requires Enabled(m, l) && s in m.subs && Apply(m, l).subs[s] == m.subs[s]
    ensures s in Apply(m, l).outputs <==> s in m.outputs
  {
    if !SinkStep(l) {
      SinksKept(m, l);
    }
  }

  // The goroutines other than `run` do not touch its progress, a rendezvous apart.
  lemma ProgressKept<V>(m: Mux<V>, l: Label<V>)
    requires Enabled(m, l) && (SubmitStep(l) || l.Arrive? || SubscribeStep(l) || l.Subscribe?) && !l.Send?
    ensures Apply(m, l).handed == m.handed && Todo(Apply(m, l).phase) == Todo(m.phase)
  {
  }

  lemma ServedKept<V>(m: Mux<V>, l: Label<V>, s: nat)
    requires Enabled(m, l) && s in m.outputs && !(l.Deliver? && l.sink == s)
    ensures Served(Apply(m, l), s) == Served(m, s)
  {
    if (SubmitStep(l) || l.Arrive? || SubscribeStep(l) || l.Subscribe?) && !l.Send? {
      ProgressKept(m, l);
    }
  }

  lemma WaitingKept<V>(m: Mux<V>, l: Label<V>, s: nat)
    requires Enabled(m, l) && SubAt(m, s, Waiting) && m.phase == AckSub(s) && l != SubReturn(s)
    ensures Apply(m, l).phase == m.phase
  {
  }

  lemma StreamKeptUntouched<V>(m: Mux<V>, l: Label<V>, s: nat)
    requires SinkInv(m) && Enabled(m, l) && LogInv(Apply(m, l)) && s in m.subs && StreamInv(m, s)
    requires Apply(m, l).subs[s] == m.subs[s] && !(l.Deliver? && l.sink == s)
    ensures StreamInv(Apply(m, l), s)
  {
    LogGrows(m, l);
    OutputKept(m, l, s);
    if s in m.outputs {
      ServedKept(m, l, s);
    }
    if m.subs[s].pc.Waiting? {
      WaitingKept(m, l, s);
    }
    StreamKept(m, Apply(m, l), s);
  }

  // Which steps write a sink's record other than to deliver to it.
  lemma RecordChanged<V>(m: Mux<V>, l: Label<V>, s: nat)
    requires Enabled(m, l) && s in m.subs && !(l.Deliver? && l.sink == s)
    ensures s in Apply(m, l).subs
    ensures || Apply(m, l).subs[s] == m.subs[s]
            || l == CloseOne(s) || (l.Unregister? && m.cancels[l.cancel].sink == s)
            || l == Register(s) || l == SubReturn(s) || l == SubTurned(s)
  {
    if !SinkStep(l) {
      SinksKept(m, l);
    }
  }

  lemma StreamKeptByStep<V>(m: Mux<V>, l: Label<V>, s: nat)
    requires LogInv(m) && SinkInv(m) && CancelInv(m) && Enabled(m, l) && LogInv(Apply(m, l))
    requires s in m.subs
    ensures StreamInv(Apply(m, l), s)
  {
    assert StreamInv(m, s);
    if l.Deliver? && l.sink == s {
      StreamKeptByDeliver(m, s, l.failed);
      return;
    }
    RecordChanged(m, l, s);
    if Apply(m, l).subs[s] == m.subs[s] {
      StreamKeptUntouched(m, l, s);
    } else if l.Unregister? || l.CloseOne? {
      StreamKeptByClose(m, l, s);
    } else {
      StreamKeptByHandshake(m, l, s);
    }
  }

  lemma OutputsKnown<V>(m: Mux<V>, l: Label<V>)
    requires SinkInv(m) && Enabled(m, l)
    ensures forall s | s in Apply(m, l).outputs :: s in Apply(m, l).subs
    ensures Apply(m, l).phase.AckSub? ==> SubAt(Apply(m, l), Apply(m, l).phase.sink, Waiting)
  {
    if !SinkStep(l) {
      SinksKept(m, l);
    }
  }

  lemma SinkKept<V>(m: Mux<V>, l: Label<V>)
    requires LogInv(m) && SinkInv(m) && CancelInv(m) && Enabled(m, l) && LogInv(Apply(m, l))
    ensures SinkInv(Apply(m, l))
  {
    var m' := Apply(m, l);
    forall s | s in m'.subs
      ensures StreamInv(m', s)
    {
      if s in m.subs {
        StreamKeptByStep(m, l, s);
      } else {
        assert l == Subscribe(s) && s !in m.outputs;
      }
    }
    OutputsKnown(m, l);
  }

  lemma CancelKeptOne<V>(m: Mux<V>, l: Label<V>, k: nat)
    requires CancelInv(m) && Enabled(m, l) && k in m.cancels
    ensures CancelOk(Apply(m, l), k)
  {
    assert CancelOk(m, k);
    if Apply(m, l).cancels[k] == m.cancels[k] {
      assert l.Register? ==> m.cancels[k].sink != l.sink;
    }
  }

  lemma CancelKept<V>(m: Mux<V>, l: Label<V>)
    requires CancelInv(m) && SinkInv(m) && Enabled(m, l)
    ensures CancelInv(Apply(m, l))
  {
    var m' := Apply(m, l);
    forall k | k in m'.cancels
      ensures CancelOk(m', k)
    {
      if k in m.cancels {
        CancelKeptOne(m, l, k);
      }
    }
  }

  lemma CloseKept<V>(m: Mux<V>, l: Label<V>)
    requires SinkInv(m) && CancelInv(m) && CloseInv(m) && Enabled(m, l)
    ensures CloseInv(Apply(m, l))
  {
    var m' := Apply(m, l);
    forall s | s in m'.subs && Registered(m'.subs[s].pc) && s !in m'.outputs
      ensures WasCancelled(m', s) || m'.phase.CloseAll? || m'.phase.Exited?
    {
      CancelledKept(m, l, s);
    }
    forall s | s in m'.subs
      ensures m'.subs[s].closes == Closes(m', s)
    {
      ClosesKept(m, l, s);
    }
  }

  lemma WasCancelledKept<V>(m: Mux<V>, l: Label<V>, s: nat)
    requires Enabled(m, l) && WasCancelled(m, s)
    ensures WasCancelled(Apply(m, l), s)
  {
    var k :| k in m.cancels && m.cancels[k].sink == s && Registered(m.cancels[k].pc);
    var m' := Apply(m, l);
    assert k in m'.cancels && m'.cancels[k].sink == s && Registered(m'.cancels[k].pc);
  }

  // A registered sink outside `outputs` was there before, while `run` stays where it is.
  lemma OutsiderKept<V>(m: Mux<V>, l: Label<V>, s: nat)
    requires Enabled(m, l) && !l.Unregister? && !l.CloseOne?
    requires s in Apply(m, l).subs && Registered(Apply(m, l).subs[s].pc) && s !in Apply(m, l).outputs
    ensures s in m.subs && Registered(m.subs[s].pc)
    ensures s !in m.outputs
    ensures m.phase.CloseAll? || m.phase.Exited? ==> Apply(m, l).phase.CloseAll? || Apply(m, l).phase.Exited?
  {
    if !SinkStep(l) {
      SinksKept(m, l);
    }
  }

  lemma CancelledKept<V>(m: Mux<V>, l: Label<V>, s: nat)
    requires SinkInv(m) && CancelInv(m) && CloseInv(m) && Enabled(m, l)
    requires s in Apply(m, l).subs && Registered(Apply(m, l).subs[s].pc) && s !in Apply(m, l).outputs
    ensures WasCancelled(Apply(m, l), s) || Apply(m, l).phase.CloseAll? || Apply(m, l).phase.Exited?
  {
    if WasCancelled(m, s) {
      WasCancelledKept(m, l, s);
    } else if l.Unregister? {
      var m' := Apply(m, l);
      assert l.cancel in m'.cancels && Registered(m'.cancels[l.cancel].pc);
    } else if !l.CloseOne? {
      OutsiderKept(m, l, s);
    }
  }

  // The sink a step closes.
  ghost predicate ClosedBy<V>(m: Mux<V>, l: Label<V>, s: nat) {
    l == CloseOne(s) || (l.Unregister? && l.cancel in m.cancels && m.cancels[l.cancel].sink == s)
  }

  lemma ClosesCounted<V>(m: Mux<V>, l: Label<V>, s: nat)
    requires Enabled(m, l) && s in Apply(m, l).subs
    ensures s !in m.subs ==> Apply(m, l).subs[s].closes == 0
    ensures s in m.subs ==> Apply(m, l).subs[s].closes == m.subs[s].closes + if ClosedBy(m, l, s) then 1 else 0
  {
    if !SinkStep(l) {
      SinksKept(m, l);
    }
  }

  lemma AckedKept<V>(m: Mux<V>, l: Label<V>, s: nat)
    requires Enabled(m, l) && !(l.Unregister? && m.cancels[l.cancel].sink == s)
    ensures Acked(Apply(m, l), s) == Acked(m, s)
  {
    if !CancelStep(l) && !l.CallCancel? {
      CancelsKept(m, l);
    }
  }

  lemma AckedGrows<V>(m: Mux<V>, k: nat)
    requires Enabled(m, Unregister(k))
    ensures var s := m.cancels[k].sink; k !in Acked(m, s) && Acked(Apply(m, Unregister(k)), s) == Acked(m, s) + {k}
  {
  }

  // A registered sink is cancelled by nobody yet.
  lemma OpenSinkUncancelled<V>(m: Mux<V>, s: nat)
    requires CancelInv(m) && s in m.outputs
    ensures Acked(m, s) == {}
  {
    forall k | k in m.cancels && m.cancels[k].sink == s
      ensures !Registered(m.cancels[k].pc)
    {
      assert CancelOk(m, k);
    }
  }

  lemma ClosesKeptByCancel<V>(m: Mux<V>, k: nat)
    requires CancelInv(m) && CloseInv(m) && Enabled(m, Unregister(k))
    ensures var s := m.cancels[k].sink;
            && Registered(m.subs[s].pc)
            && Closes(m, s) + 1 == |Acked(Apply(m, Unregister(k)), s)| && Acked(Apply(m, Unregister(k)), s) != {}
  {
    var s := m.cancels[k].sink;
    assert CancelOk(m, k);
    AckedGrows(m, k);
    if s in m.outputs {
      OpenSinkUncancelled(m, s);
    } else {
      var j :| j in m.cancels && m.cancels[j].sink == s && Registered(m.cancels[j].pc);
      assert j in Acked(m, s);
    }
  }

  // A step that does not close a sink leaves it inside or outside.
  lemma OutsideKept<V>(m: Mux<V>, l: Label<V>, s: nat)
    requires Enabled(m, l) && s in m.subs && s in Apply(m, l).subs && !ClosedBy(m, l, s)
    ensures Registered(Apply(m, l).subs[s].pc) && s !in Apply(m, l).outputs
           <==> Registered(m.subs[s].pc) && s !in m.outputs
  {
    if !SinkStep(l) {
      SinksKept(m, l);
    }
  }

  lemma NowOutside<V>(m: Mux<V>, l: Label<V>, s: nat)
    requires Enabled(m, l) && s in m.subs && Registered(m.subs[s].pc) && ClosedBy(m, l, s)
    ensures s in Apply(m, l).subs && Registered(Apply(m, l).subs[s].pc) && s !in Apply(m, l).outputs
  {
  }

  lemma ClosesKept<V>(m: Mux<V>, l: Label<V>, s: nat)
    requires CancelInv(m) && CloseInv(m) && SinkInv(m) && Enabled(m, l) && s in Apply(m, l).subs
    ensures Apply(m, l).subs[s].closes == Closes(Apply(m, l), s)
  {
    ClosesCounted(m, l, s);
    if s !in m.subs {
      assert l == Subscribe(s);
    } else if l.Unregister? && m.cancels[l.cancel].sink == s {
      ClosesKeptByCancel(m, l.cancel);
      NowOutside(m, l, s);
    } else if l == CloseOne(s) {
      assert StreamInv(m, s);
      OpenSinkUncancelled(m, s);
      AckedKept(m, l, s);
      NowOutside(m, l, s);
    } else {
      AckedKept(m, l, s);
      OutsideKept(m, l, s);
    }
  }

  lemma StepKeepsInv<V>(m: Mux<V>, l: Label<V>)
    requires Inv(m) && Enabled(m, l)
    ensures Inv(Apply(m, l))
  {
    LogKept(m, l);
    LockKept(m, l);
    CallKept(m, l);
    SinkKept(m, l);
    CancelKept(m, l);
    CloseKept(m, l);
  }

  lemma {:induction false} RunKeepsInv<V>(m: Mux<V>, ls: seq<Label<V>>)
    requires Inv(m) && Legal(m, ls)
    ensures Inv(Exec(m, ls))
    decreases |ls|
  {
    if ls != [] {
      StepKeepsInv(m, ls[0]);
      RunKeepsInv(Apply(m, ls[0]), ls[1..]);
    }
  }
}
