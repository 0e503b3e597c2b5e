// Snapshot plus deltas. One owner changes a state and publishes each change on a mux with
// an unbuffered input; between publications it opens subscriptions, handing each new sink
// a snapshot of the state. Three parts of the repository are this protocol:
//
// - `udevDiscovery.monitor` (internal/udev/udev.go): the monitor goroutine owns the device
//   map, sends the snapshot first and registers the sink second;
// - `FakeDiscovery` (internal/udev/fake.go): whoever holds the write lock is the owner, in
//   the same order;
// - the slice goroutine of `makeSlice`: it registers first and replays second.
//
// The mux is not simplified: its full step system runs underneath.
module Replication {
  import opened MuxProtocol

  datatype Order = SnapshotFirst | RegisterFirst

  datatype Item<+X, +E> = Snap(x: X) | Ev(e: E)

  datatype Owner = Free | Publishing(call: nat) | Opening(sink: nat)

  // How an event changes the state, and which events the owner may publish in which state.
  datatype Rules<!X(!new), !E(!new)> = Rules(step: (X, E) -> X, ok: (X, E) -> bool)

  // `base` is the state before the first event; `logs` what each sink was handed.
  datatype Repl<X(!new), E(!new)> = Repl(
    order: Order,
    mux: Mux<E>,
    base: X,
    state: X,
    owner: Owner,
    snaps: map<nat, X>,
    logs: map<nat, seq<Item<X, E>>>)

  datatype Move<E(!new)> =
    | Publish(call: nat, e: E)
    | Published
    | Open(sink: nat)
    | Opened
    | Inner(l: Label<E>)

  function Start<X(!new), E(!new)>(order: Order, cap: nat, base: X): Repl<X, E> {
    Repl(order, Make(cap), base, base, Free, map[], map[])
  }

  // The snapshot is still to be sent and the sink is closed: a send on a closed channel.
  predicate ReplayPanics<X(!new), E(!new)>(p: Repl<X, E>) {
    p.order.RegisterFirst? && p.owner.Opening? && p.owner.sink in p.mux.subs && p.mux.subs[p.owner.sink].closes > 0
  }

  predicate CanMove<X(!new), E(!new)>(r: Rules<X, E>, p: Repl<X, E>, v: Move<E>) {
    match v
    case Publish(c, e) => p.owner.Free? && Enabled(p.mux, Arrive(c, e)) && r.ok(p.state, e)
    case Published => p.owner.Publishing? && p.owner.call in p.mux.calls && p.mux.calls[p.owner.call].pc.Returned?
    case Open(s) => p.owner.Free? && Enabled(p.mux, Subscribe(s))
    case Opened =>
      p.owner.Opening? && (SubAt(p.mux, p.owner.sink, Answered) || SubAt(p.mux, p.owner.sink, TurnedAway)) &&
      !ReplayPanics(p)
    // Only the owner submits and subscribes; everyone else may close and cancel.
    case Inner(l) => !l.Arrive? && !l.Subscribe? && Enabled(p.mux, l) && (l.Deliver? ==> l.sink in p.logs)
  }

  function Move1<X(!new), E(!new)>(r: Rules<X, E>, p: Repl<X, E>, v: Move<E>): Repl<X, E>
    requires CanMove(r, p, v)
  {
    match v
    case Publish(c, e) =>
      p.(state := r.step(p.state, e), mux := Apply(p.mux, Arrive(c, e)), owner := Publishing(c))
    case Published => p.(owner := Free)
    case Open(s) =>
      var p' := p.(mux := Apply(p.mux, Subscribe(s)), owner := Opening(s));
      if p.order.SnapshotFirst? then p'.(snaps := p.snaps[s := p.state], logs := p.logs[s := [Snap(p.state)]])
      else p'.(logs := p.logs[s := []])
    case Opened =>
      var s := p.owner.sink;
      var p' := p.(owner := Free);
      if p.order.SnapshotFirst? || s !in p.logs then p'
      else p'.(snaps := p.snaps[s := p.state], logs := p.logs[s := p.logs[s] + [Snap(p.state)]])
    case Inner(l) =>
      var p' := p.(mux := Apply(p.mux, l));
      if l.Deliver? then p'.(logs := p.logs[l.sink := p.logs[l.sink] + [Ev(p.mux.phase.msg.value)]]) else p'
  }

  predicate Moves<X(!new), E(!new)>(r: Rules<X, E>, p: Repl<X, E>, vs: seq<Move<E>>)
    decreases |vs|
  {
    vs == [] || (CanMove(r, p, vs[0]) && Moves(r, Move1(r, p, vs[0]), vs[1..]))
  }

  function After<X(!new), E(!new)>(r: Rules<X, E>, p: Repl<X, E>, vs: seq<Move<E>>): Repl<X, E>
    requires Moves(r, p, vs)
    decreases |vs|
  {
    if vs == [] then p else After(r, Move1(r, p, vs[0]), vs[1..])
  }

  // ---- what a reader makes of a log ----

  function Replay<X(!new), E(!new)>(r: Rules<X, E>, base: X, msgs: seq<Msg<E>>): X {
    if msgs == [] then base
    else r.step(Replay(r, base, msgs[..|msgs| - 1]), msgs[|msgs| - 1].value)
  }

  // A snapshot replaces the view, an event changes it.
  function View<X(!new), E(!new)>(r: Rules<X, E>, blank: X, log: seq<Item<X, E>>): X {
    if log == [] then blank
    else
      match log[|log| - 1]
      case Snap(x) => x
      case Ev(e) => r.step(View(r, blank, log[..|log| - 1]), e)
  }

  function Events<X(!new), E(!new)>(msgs: seq<Msg<E>>): (items: seq<Item<X, E>>)
    ensures |items| == |msgs|
  {
    seq(|msgs|, i requires 0 <= i < |msgs| => Ev(msgs[i].value))
  }

  // ---- the invariant ----

  // A Submit of the owner timed out or met a closed mux.
  ghost predicate NoLoss<E(!new)>(m: Mux<E>) {
    forall c | c in m.calls :: !m.calls[c].pc.Refused? && m.calls[c].pc != Returned(false)
  }

  ghost predicate OwnerInv<X(!new), E(!new)>(p: Repl<X, E>) {
    && p.mux.cap == 0
    && (forall c | c in p.mux.calls && !p.mux.calls[c].pc.Returned? :: p.owner == Publishing(c))
    && (p.owner.Publishing? ==> p.owner.call in p.mux.calls)
    && (forall s | s in p.mux.subs && (p.mux.subs[s].pc.Offering? || p.mux.subs[s].pc.Waiting?) ::
          p.owner == Opening(s))
    && (p.owner.Opening? ==> p.owner.sink in p.mux.subs && (p.order.RegisterFirst? ==> p.owner.sink !in p.snaps))
    && p.logs.Keys == p.mux.subs.Keys
    && p.snaps.Keys <= p.mux.subs.Keys
  }

  // The event being published is still on its way to the mux.
  predicate Unsent<X(!new), E(!new)>(p: Repl<X, E>) {
    p.owner.Publishing? && p.owner.call in p.mux.calls &&
    var pc := p.mux.calls[p.owner.call].pc; pc.Arrived? || pc.Locked? || pc.Checked?
  }

  // Every event of the log was allowed in the state it met.
  ghost predicate AllAllowed<X(!new), E(!new)>(r: Rules<X, E>, base: X, log: seq<Msg<E>>) {
    forall i | 0 <= i < |log| :: r.ok(Replay(r, base, log[..i]), log[i].value)
  }

  ghost predicate StateInv<X(!new), E(!new)>(r: Rules<X, E>, p: Repl<X, E>) {
    var now := Replay(r, p.base, p.mux.accepted);
    && (if Unsent(p) then
          var e := p.mux.calls[p.owner.call].value;
          p.state == r.step(now, e) && r.ok(now, e)
        else p.state == now)
    && AllAllowed(r, p.base, p.mux.accepted)
  }

  // What sink s was handed is its snapshot followed by what the mux delivered to it.
  ghost predicate LogInv1<X(!new), E(!new)>(p: Repl<X, E>, s: nat)
    requires s in p.mux.subs
  {
    && s in p.logs
    && (if s in p.snaps then p.logs[s] == [Snap(p.snaps[s])] + Events(p.mux.subs[s].received)
        else p.order.RegisterFirst? && p.owner == Opening(s) && p.logs[s] == [] && p.mux.subs[s].received == [])
  }

  ghost predicate PlaceInv<X(!new), E(!new)>(p: Repl<X, E>) {
    p.owner.Opening? && p.owner.sink in p.mux.subs && Registered(p.mux.subs[p.owner.sink].pc) ==>
      p.mux.subs[p.owner.sink].start == |p.mux.accepted|
  }

  ghost predicate SnapInv<X(!new), E(!new)>(r: Rules<X, E>, p: Repl<X, E>, s: nat)
    requires s in p.mux.subs
  {
    s in p.snaps ==>
      var sub := p.mux.subs[s];
      && (Registered(sub.pc) ==> sub.start <= |p.mux.accepted| &&
                                 p.snaps[s] == Replay(r, p.base, p.mux.accepted[..sub.start]))
      && (sub.pc.Offering? ==> p.snaps[s] == p.state)
  }

  ghost predicate RInv<X(!new), E(!new)>(r: Rules<X, E>, p: Repl<X, E>) {
    && Inv(p.mux)
    && OwnerInv(p)
    && PlaceInv(p)
    && (forall s | s in p.mux.subs :: LogInv1(p, s))
    && (NoLoss(p.mux) ==> StateInv(r, p) && forall s | s in p.mux.subs :: SnapInv(r, p, s))
  }

  lemma StartEstablishesRInv<X(!new), E(!new)>(r: Rules<X, E>, order: Order, base: X)
    ensures RInv(r, Start(order, 0, base))
  {
  }

  lemma LossStays<E(!new)>(m: Mux<E>, l: Label<E>)
    requires Enabled(m, l) && NoLoss(Apply(m, l))
    ensures NoLoss(m)
  {
    forall c | c in m.calls
      ensures !m.calls[c].pc.Refused? && m.calls[c].pc != Returned(false)
    {
      assert c in Apply(m, l).calls;
    }
  }

  lemma MuxInvKept<X(!new), E(!new)>(r: Rules<X, E>, p: Repl<X, E>, v: Move<E>)
    requires Inv(p.mux) && CanMove(r, p, v)
    ensures Inv(Move1(r, p, v).mux)
  {
    match v
    case Publish(c, e) => StepKeepsInv(p.mux, Arrive(c, e));
    case Open(s) => StepKeepsInv(p.mux, Subscribe(s));
    case Inner(l) => StepKeepsInv(p.mux, l);
    case _ =>
  }

  lemma OwnerKept<X(!new), E(!new)>(r: Rules<X, E>, p: Repl<X, E>, v: Move<E>)
    requires OwnerInv(p) && CanMove(r, p, v)
    ensures OwnerInv(Move1(r, p, v))
  {
    match v
    case Publish(_, _) =>
    case Published =>
    case Open(s) => OwnerKeptByOpen(r, p, s);
    case Opened =>
    case Inner(l) => OwnerKeptInside(r, p, l);
  }

  lemma OwnerKeptByOpen<X(!new), E(!new)>(r: Rules<X, E>, p: Repl<X, E>, s: nat)
    requires OwnerInv(p) && CanMove(r, p, Open(s))
    ensures OwnerInv(Move1(r, p, Open(s)))
  {
    assert s !in p.mux.subs.Keys;
  }

  lemma OwnerKeptInside<X(!new), E(!new)>(r: Rules<X, E>, p: Repl<X, E>, l: Label<E>)
    requires OwnerInv(p) && CanMove(r, p, Inner(l))
    ensures OwnerInv(Move1(r, p, Inner(l)))
  {
    CallsInside(p.mux, l);
    SubsInside(p.mux, l);
  }

  // With an unbuffered input, `run` at its select has handed out all that was accepted.
  lemma NothingBuffered<E(!new)>(m: Mux<E>)
    requires LogInv(m) && m.cap == 0 && m.phase.Select?
    ensures m.handed == |m.accepted|
  {
    assert |m.accepted[m.handed..]| == 0;
  }

  lemma PlaceKept<X(!new), E(!new)>(r: Rules<X, E>, p: Repl<X, E>, v: Move<E>)
    requires Inv(p.mux) && OwnerInv(p) && PlaceInv(p) && CanMove(r, p, v)
    ensures PlaceInv(Move1(r, p, v))
  {
    match v
    case Inner(l) => PlaceKeptInside(r, p, l);
    case _ =>
  }

  lemma PlaceKeptInside<X(!new), E(!new)>(r: Rules<X, E>, p: Repl<X, E>, l: Label<E>)
    requires LogInv(p.mux) && OwnerInv(p) && PlaceInv(p) && CanMove(r, p, Inner(l))
    ensures PlaceInv(Move1(r, p, Inner(l)))
  {
    if p.owner.Opening? {
      assert !l.Send?;
      LogGrows(p.mux, l);
      var s := p.owner.sink;
      if l == Register(s) {
        NothingBuffered(p.mux);
      } else {
        HandshakeKept(p.mux, l, s);
      }
    }
  }

  lemma LogKept1<X(!new), E(!new)>(r: Rules<X, E>, p: Repl<X, E>, v: Move<E>, s: nat)
    requires Inv(p.mux) && OwnerInv(p) && PlaceInv(p) && CanMove(r, p, v)
    requires s in p.mux.subs ==> LogInv1(p, s)
    requires s in Move1(r, p, v).mux.subs
    ensures LogInv1(Move1(r, p, v), s)
  {
    match v
    case Publish(_, _) =>
    case Published =>
    case Open(t) => LogKeptByOpen(r, p, t, s);
    case Opened => LogKeptByOpened(r, p, s);
    case Inner(l) => LogKeptInside(r, p, l, s);
  }

  lemma LogKeptByOpen<X(!new), E(!new)>(r: Rules<X, E>, p: Repl<X, E>, t: nat, s: nat)
    requires OwnerInv(p) && CanMove(r, p, Open(t))
    requires s in p.mux.subs ==> LogInv1(p, s)
    requires s in Move1(r, p, Open(t)).mux.subs
    ensures LogInv1(Move1(r, p, Open(t)), s)
  {
    if s == t {
      assert [Snap(p.state)] + Events<X, E>([]) == [Snap(p.state)];
    }
  }

  lemma LogKeptByOpened<X(!new), E(!new)>(r: Rules<X, E>, p: Repl<X, E>, s: nat)
    requires OwnerInv(p) && CanMove(r, p, Opened) && s in p.mux.subs && LogInv1(p, s)
    ensures LogInv1(Move1(r, p, Opened), s)
  {
    if s == p.owner.sink && p.order.RegisterFirst? {
      assert p.logs[s] + [Snap(p.state)] == [Snap(p.state)] + Events<X, E>(p.mux.subs[s].received);
    }
  }

  lemma LogKeptInside<X(!new), E(!new)>(r: Rules<X, E>, p: Repl<X, E>, l: Label<E>, s: nat)
    requires LogInv(p.mux) && SinkInv(p.mux) && OwnerInv(p) && PlaceInv(p) && CanMove(r, p, Inner(l))
    requires s in Apply(p.mux, l).subs && (s in p.mux.subs ==> LogInv1(p, s))
    ensures LogInv1(Move1(r, p, Inner(l)), s)
  {
    SubsInside(p.mux, l);
    if l.Deliver? && l.sink == s {
      LogKeptByDeliver(r, p, s, l.failed);
    } else {
      RecordKept(p.mux, l, s);
    }
  }

  lemma LogKeptByDeliver<X(!new), E(!new)>(r: Rules<X, E>, p: Repl<X, E>, s: nat, failed: bool)
    requires LogInv(p.mux) && SinkInv(p.mux) && OwnerInv(p) && PlaceInv(p) && CanMove(r, p, Inner(Deliver(s, failed)))
    requires LogInv1(p, s)
    ensures LogInv1(Move1(r, p, Inner(Deliver(s, failed))), s)
  {
    var m := p.mux;
    assert StreamInv(m, s);
    // A sink being opened is registered behind everything accepted: nothing is due to it.
    assert s in p.snaps;
    var got := m.subs[s].received;
    assert Events<X, E>(got + [m.phase.msg]) == Events<X, E>(got) + [Ev(m.phase.msg.value)];
  }

  lemma StateKept<X(!new), E(!new)>(r: Rules<X, E>, p: Repl<X, E>, v: Move<E>)
    requires OwnerInv(p) && StateInv(r, p) && CanMove(r, p, v) && NoLoss(Move1(r, p, v).mux)
    ensures StateInv(r, Move1(r, p, v))
  {
    match v
    case Inner(l) => StateKeptInside(r, p, l);
    case Publish(c, e) => assert forall d | d in p.mux.calls :: p.mux.calls[d].pc.Returned?;
    case _ =>
  }

  lemma OneMoreAllowed<X(!new), E(!new)>(r: Rules<X, E>, base: X, log: seq<Msg<E>>, msg: Msg<E>)
    requires AllAllowed(r, base, log) && r.ok(Replay(r, base, log), msg.value)
    ensures AllAllowed(r, base, log + [msg])
    ensures Replay(r, base, log + [msg]) == r.step(Replay(r, base, log), msg.value)
  {
    var more := log + [msg];
    assert more[..|log|] == log;
    forall i | 0 <= i < |more|
      ensures r.ok(Replay(r, base, more[..i]), more[i].value)
    {
      if i < |log| {
        assert more[..i] == log[..i];
      }
    }
  }

  lemma StateKeptBySend<X(!new), E(!new)>(r: Rules<X, E>, p: Repl<X, E>, c: nat)
    requires p.owner == Publishing(c) && StateInv(r, p) && CanMove(r, p, Inner(Send(c)))
    ensures StateInv(r, Move1(r, p, Inner(Send(c))))
  {
    SendMoves(r, p, c);
    StateAfterSend(r, p, Move1(r, p, Inner(Send(c))));
  }

  lemma SendMoves<X(!new), E(!new)>(r: Rules<X, E>, p: Repl<X, E>, c: nat)
    requires p.owner == Publishing(c) && CanMove(r, p, Inner(Send(c)))
    ensures Unsent(p) && !Unsent(Move1(r, p, Inner(Send(c))))
    ensures Move1(r, p, Inner(Send(c))).mux.accepted == p.mux.accepted + [Msg(c, p.mux.calls[c].value)]
    ensures Move1(r, p, Inner(Send(c))).base == p.base && Move1(r, p, Inner(Send(c))).state == p.state
  {
  }

  lemma StateAfterSend<X(!new), E(!new)>(r: Rules<X, E>, p: Repl<X, E>, p': Repl<X, E>)
    requires StateInv(r, p) && Unsent(p) && !Unsent(p') && p'.base == p.base && p'.state == p.state
    requires p'.mux.accepted == p.mux.accepted + [Msg(p.owner.call, p.mux.calls[p.owner.call].value)]
    ensures StateInv(r, p')
  {
    var c := p.owner.call;
    OneMoreAllowed(r, p.base, p.mux.accepted, Msg(c, p.mux.calls[c].value));
  }

  lemma UnsentKept<X(!new), E(!new)>(r: Rules<X, E>, p: Repl<X, E>, l: Label<E>)
    requires CanMove(r, p, Inner(l)) && NoLoss(Apply(p.mux, l)) && !l.Send?
    ensures Unsent(Move1(r, p, Inner(l))) <==> Unsent(p)
  {
    if !SubmitStep(l) {
      CallsKept(p.mux, l);
    }
  }

  lemma StateKeptInside<X(!new), E(!new)>(r: Rules<X, E>, p: Repl<X, E>, l: Label<E>)
    requires OwnerInv(p) && StateInv(r, p) && CanMove(r, p, Inner(l)) && NoLoss(Apply(p.mux, l))
    ensures StateInv(r, Move1(r, p, Inner(l)))
  {
    if l.Send? {
      StateKeptBySend(r, p, l.call);
    } else {
      CallsInside(p.mux, l);
      LogGrows(p.mux, l);
      UnsentKept(r, p, l);
    }
  }

  lemma SnapKept<X(!new), E(!new)>(r: Rules<X, E>, p: Repl<X, E>, v: Move<E>, s: nat)
    requires LogInv(p.mux) && OwnerInv(p) && PlaceInv(p) && StateInv(r, p) && CanMove(r, p, v)
    requires s in p.mux.subs ==> SnapInv(r, p, s)
    requires s in Move1(r, p, v).mux.subs
    ensures SnapInv(r, Move1(r, p, v), s)
  {
    match v
    case Publish(_, _) =>
    case Published =>
    case Open(t) => SnapKeptByOpen(r, p, t, s);
    case Opened => SnapKeptByOpened(r, p, s);
    case Inner(l) =>
      SubsInside(p.mux, l);
      if l == Register(s) {
        SnapKeptByRegister(r, p, s);
      } else {
        SnapKeptInside(r, p, l, s);
      }
  }

  lemma SnapKeptByOpen<X(!new), E(!new)>(r: Rules<X, E>, p: Repl<X, E>, t: nat, s: nat)
    requires OwnerInv(p) && CanMove(r, p, Open(t)) && (s in p.mux.subs ==> SnapInv(r, p, s))
    requires s in Move1(r, p, Open(t)).mux.subs
    ensures SnapInv(r, Move1(r, p, Open(t)), s)
  {
  }

  lemma SnapKeptByOpened<X(!new), E(!new)>(r: Rules<X, E>, p: Repl<X, E>, s: nat)
    requires OwnerInv(p) && PlaceInv(p) && StateInv(r, p) && CanMove(r, p, Opened)
    requires s in p.mux.subs && SnapInv(r, p, s)
    ensures SnapInv(r, Move1(r, p, Opened), s)
  {
    assert p.mux.accepted[..|p.mux.accepted|] == p.mux.accepted;
  }

  lemma SnapKeptByRegister<X(!new), E(!new)>(r: Rules<X, E>, p: Repl<X, E>, s: nat)
    requires LogInv(p.mux) && OwnerInv(p) && StateInv(r, p) && CanMove(r, p, Inner(Register(s)))
    requires SnapInv(r, p, s)
    ensures SnapInv(r, Move1(r, p, Inner(Register(s))), s)
  {
    NothingBuffered(p.mux);
    assert p.mux.accepted[..|p.mux.accepted|] == p.mux.accepted;
  }

  lemma SnapKeptInside<X(!new), E(!new)>(r: Rules<X, E>, p: Repl<X, E>, l: Label<E>, s: nat)
    requires CanMove(r, p, Inner(l)) && l != Register(s)
    requires s in p.mux.subs && SnapInv(r, p, s) && s in Apply(p.mux, l).subs
    ensures SnapInv(r, Move1(r, p, Inner(l)), s)
  {
    var m, m' := p.mux, Apply(p.mux, l);
    LogGrows(m, l);
    HandshakeKept(m, l, s);
    if Registered(m.subs[s].pc) && m.subs[s].start <= |m.accepted| {
      assert m'.accepted[..m.subs[s].start] == m.accepted[..m.subs[s].start];
    }
  }

  lemma MoveKeepsRInv<X(!new), E(!new)>(r: Rules<X, E>, p: Repl<X, E>, v: Move<E>)
    requires RInv(r, p) && CanMove(r, p, v)
    ensures RInv(r, Move1(r, p, v))
  {
    var p' := Move1(r, p, v);
    MuxInvKept(r, p, v);
    OwnerKept(r, p, v);
    PlaceKept(r, p, v);
    forall s | s in p'.mux.subs
      ensures LogInv1(p', s)
    {
      assert s in p.mux.subs ==> LogInv1(p, s);
      LogKept1(r, p, v, s);
    }
    if NoLoss(p'.mux) {
      NoLossBefore(r, p, v);
      StateKept(r, p, v);
      forall s | s in p'.mux.subs
        ensures SnapInv(r, p', s)
      {
        assert s in p.mux.subs ==> SnapInv(r, p, s);
        SnapKept(r, p, v, s);
      }
    }
  }

  lemma NoLossBefore<X(!new), E(!new)>(r: Rules<X, E>, p: Repl<X, E>, v: Move<E>)
    requires CanMove(r, p, v) && NoLoss(Move1(r, p, v).mux)
    ensures NoLoss(p.mux)
  {
    match v
    case Publish(c, e) => LossStays(p.mux, Arrive(c, e));
    case Open(s) => LossStays(p.mux, Subscribe(s));
    case Inner(l) => LossStays(p.mux, l);
    case _ =>
  }

  lemma {:induction false} MovesKeepRInv<X(!new), E(!new)>(r: Rules<X, E>, p: Repl<X, E>, vs: seq<Move<E>>)
    requires RInv(r, p) && Moves(r, p, vs)
    ensures RInv(r, After(r, p, vs))
    decreases |vs|
  {
    if vs != [] {
      MoveKeepsRInv(r, p, vs[0]);
      MovesKeepRInv(r, Move1(r, p, vs[0]), vs[1..]);
    }
  }
}
