// Where a discovery's subscribers and its state part: published events that never entered
// the mux, and events that were in it when a sink came.
module Losses {
  import opened DiscoveryStream
  import opened MuxProtocol
  import opened Replication
  import opened Snapshots
  import opened Udev

  // ---- what a run published ----

  // Everything published, lost or not, and how much of it there was when a sink was opened.
  datatype History = History(published: seq<Msg<Event>>, openAt: map<nat, nat>)

  function Note(h: History, v: Move<Event>): History {
    match v
    case Publish(c, e) => h.(published := h.published + [Msg(c, e)])
    case Open(s) => h.(openAt := h.openAt[s := |h.published|])
    case _ => h
  }

  function Chronicle(h: History, vs: seq<Move<Event>>): History
    decreases |vs|
  {
    if vs == [] then h else Chronicle(Note(h, vs[0]), vs[1..])
  }

  ghost predicate Plain(msgs: seq<Msg<Event>>) {
    forall msg | msg in msgs :: !msg.value.Init?
  }

  predicate WasAccepted(calls: map<nat, Call<Event>>, c: nat) {
    c in calls && (calls[c].pc.Sent? || calls[c].pc == Returned(true))
  }

  // The published events the mux accepted.
  function Survivors(calls: map<nat, Call<Event>>, msgs: seq<Msg<Event>>): seq<Msg<Event>> {
    if msgs == [] then []
    else
      var rest, last := Survivors(calls, msgs[..|msgs| - 1]), msgs[|msgs| - 1];
      if WasAccepted(calls, last.call) then rest + [last] else rest
  }

  lemma {:induction false} SurvivorsInTwo(calls: map<nat, Call<Event>>, xs: seq<Msg<Event>>, ys: seq<Msg<Event>>)
    ensures Survivors(calls, xs + ys) == Survivors(calls, xs) + Survivors(calls, ys)
    decreases |ys|
  {
    if ys == [] {
      assert xs + ys == xs;
    } else {
      var n := |ys| - 1;
      SurvivorsInTwo(calls, xs, ys[..n]);
      assert (xs + ys)[..|xs + ys| - 1] == xs + ys[..n];
    }
  }

  lemma {:induction false} SurvivorsSame(
      calls: map<nat, Call<Event>>, calls': map<nat, Call<Event>>, msgs: seq<Msg<Event>>)
    requires forall i | 0 <= i < |msgs| :: WasAccepted(calls', msgs[i].call) <==> WasAccepted(calls, msgs[i].call)
    ensures Survivors(calls', msgs) == Survivors(calls, msgs)
    decreases |msgs|
  {
    if msgs != [] {
      SurvivorsSame(calls, calls', msgs[..|msgs| - 1]);
    }
  }

  // ---- the invariant ----

  // Every call published one event and the last one may still be on its way.
  ghost predicate CallsNoted(p: Repl<DeviceMap, Event>, h: History) {
    && (forall i | 0 <= i < |h.published| ::
          && h.published[i].call in p.mux.calls && !h.published[i].value.Init?
          && p.mux.calls[h.published[i].call].value == h.published[i].value)
    && (forall i, j | 0 <= i < j < |h.published| :: h.published[i].call != h.published[j].call)
    && (p.owner.Publishing? ==> h.published != [] && h.published[|h.published| - 1].call == p.owner.call)
  }

  ghost predicate StateNoted(p: Repl<DeviceMap, Event>, h: History) {
    && p.state == Replay(DiscoveryRules(), p.base, h.published)
    && p.mux.accepted == Survivors(p.mux.calls, h.published)
  }

  // What was published before a sink was opened is settled and is in its snapshot.
  ghost predicate OpenNoted(p: Repl<DeviceMap, Event>, h: History, s: nat) {
    && s in h.openAt && h.openAt[s] <= |h.published|
    && (forall i | 0 <= i < h.openAt[s] ::
          h.published[i].call in p.mux.calls && p.mux.calls[h.published[i].call].pc.Returned?)
    && (s in p.snaps ==> p.snaps[s] == Replay(DiscoveryRules(), p.base, h.published[..h.openAt[s]]))
    && (p.owner == Opening(s) ==> h.openAt[s] == |h.published|)
    && (s in p.mux.subs && Registered(p.mux.subs[s].pc) ==>
          p.mux.subs[s].start <= |p.mux.accepted| &&
          p.mux.accepted[..p.mux.subs[s].start] == Survivors(p.mux.calls, h.published[..h.openAt[s]]))
  }

  ghost predicate Noted(p: Repl<DeviceMap, Event>, h: History) {
    && p.order.SnapshotFirst? && RInv(DiscoveryRules(), p)
    && CallsNoted(p, h)
    && StateNoted(p, h)
    && forall s | s in p.mux.subs :: OpenNoted(p, h, s)
  }

  lemma StartNoted(base: DeviceMap)
    ensures Noted(Start(SnapshotFirst, 0, base), History([], map[]))
  {
    StartEstablishesRInv(DiscoveryRules(), SnapshotFirst, base);
  }

  lemma AcceptedKept(m: Mux<Event>, l: Label<Event>, c: nat)
    requires Enabled(m, l) && !l.Arrive? && l != Send(c)
    ensures WasAccepted(Apply(m, l).calls, c) <==> WasAccepted(m.calls, c)
  {
    if !SubmitStep(l) {
      MuxProtocol.CallsKept(m, l);
    }
  }

  lemma ReturnedKept(m: Mux<Event>, l: Label<Event>, c: nat)
    requires Enabled(m, l) && c in m.calls && m.calls[c].pc.Returned?
    ensures c in Apply(m, l).calls && Apply(m, l).calls[c] == m.calls[c]
  {
    if !l.Arrive? {
      CallsInside(m, l);
    }
  }

  lemma PublishNoted(p: Repl<DeviceMap, Event>, h: History, c: nat, e: Event)
    requires CallsNoted(p, h) && StateNoted(p, h) && CanMove(DiscoveryRules(), p, Publish(c, e))
    ensures var p', h' := Move1(DiscoveryRules(), p, Publish(c, e)), Note(h, Publish(c, e));
            CallsNoted(p', h') && StateNoted(p', h')
  {
    var p', h' := Move1(DiscoveryRules(), p, Publish(c, e)), Note(h, Publish(c, e));
    assert h'.published[..|h.published|] == h.published;
    SurvivorsSame(p.mux.calls, p'.mux.calls, h.published);
  }

  lemma SendNoted(p: Repl<DeviceMap, Event>, h: History, c: nat)
    requires CallsNoted(p, h) && StateNoted(p, h) && p.owner == Publishing(c)
    requires CanMove(DiscoveryRules(), p, Inner(Send(c)))
    ensures StateNoted(Move1(DiscoveryRules(), p, Inner(Send(c))), h)
  {
    SendMoves(DiscoveryRules(), p, c);
    var n := |h.published| - 1;
    var calls := Apply(p.mux, Send(c)).calls;
    SendMarks(p.mux, c);
    forall i | 0 <= i < n
      ensures WasAccepted(calls, h.published[..n][i].call) <==> WasAccepted(p.mux.calls, h.published[..n][i].call)
    {
      assert h.published[i].call != h.published[n].call;
    }
    SurvivorsSame(p.mux.calls, calls, h.published[..n]);
  }

  lemma SendMarks(m: Mux<Event>, c: nat)
    requires Enabled(m, Send(c))
    ensures var calls := Apply(m, Send(c)).calls;
            && WasAccepted(calls, c) && !WasAccepted(m.calls, c)
            && forall d | d != c :: WasAccepted(calls, d) <==> WasAccepted(m.calls, d)
  {
  }

  lemma InsideNoted(p: Repl<DeviceMap, Event>, h: History, l: Label<Event>)
    requires OwnerInv(p) && CallsNoted(p, h) && StateNoted(p, h) && CanMove(DiscoveryRules(), p, Inner(l))
    ensures var p' := Move1(DiscoveryRules(), p, Inner(l)); CallsNoted(p', h) && StateNoted(p', h)
  {
    CallsInside(p.mux, l);
    if l.Send? {
      SendNoted(p, h, l.call);
    } else {
      LogGrows(p.mux, l);
      forall i | 0 <= i < |h.published|
        ensures WasAccepted(Apply(p.mux, l).calls, h.published[i].call)
               <==> WasAccepted(p.mux.calls, h.published[i].call)
      {
        AcceptedKept(p.mux, l, h.published[i].call);
      }
      SurvivorsSame(p.mux.calls, Apply(p.mux, l).calls, h.published);
    }
  }

  // What was published before a sink was opened stays settled.
  lemma SettledKept(p: Repl<DeviceMap, Event>, h: History, l: Label<Event>, n: nat)
    requires Enabled(p.mux, l) && n <= |h.published|
    requires forall i | 0 <= i < n ::
               h.published[i].call in p.mux.calls && p.mux.calls[h.published[i].call].pc.Returned?
    ensures forall i | 0 <= i < n ::
              h.published[i].call in Apply(p.mux, l).calls && Apply(p.mux, l).calls[h.published[i].call].pc.Returned?
    ensures Survivors(Apply(p.mux, l).calls, h.published[..n]) == Survivors(p.mux.calls, h.published[..n])
  {
    var before := h.published[..n];
    forall i | 0 <= i < n
      ensures before[i].call in Apply(p.mux, l).calls
      ensures Apply(p.mux, l).calls[before[i].call] == p.mux.calls[before[i].call]
    {
      ReturnedKept(p.mux, l, h.published[i].call);
    }
    SurvivorsSame(p.mux.calls, Apply(p.mux, l).calls, before);
  }

  lemma OpenNotedInside(p: Repl<DeviceMap, Event>, h: History, l: Label<Event>, s: nat)
    requires LogInv(p.mux) && OwnerInv(p) && StateNoted(p, h) && CanMove(DiscoveryRules(), p, Inner(l))
    requires s in p.mux.subs && OpenNoted(p, h, s)
    ensures OpenNoted(Move1(DiscoveryRules(), p, Inner(l)), h, s)
  {
    SettledKept(p, h, l, h.openAt[s]);
    if l == Register(s) {
      RegisterNoted(p, h, s);
    } else {
      LogGrows(p.mux, l);
      HandshakeKept(p.mux, l, s);
      PlaceNoted(p.mux.accepted, Apply(p.mux, l).accepted, p.mux.subs[s].start);
    }
  }

  lemma PlaceNoted(log: seq<Msg<Event>>, more: seq<Msg<Event>>, n: nat)
    requires log <= more
    ensures n <= |log| ==> more[..n] == log[..n]
  {
  }

  // A sink is registered behind everything accepted.
  lemma RegisterNoted(p: Repl<DeviceMap, Event>, h: History, s: nat)
    requires LogInv(p.mux) && OwnerInv(p) && StateNoted(p, h) && OpenNoted(p, h, s)
    requires CanMove(DiscoveryRules(), p, Inner(Register(s)))
    ensures var m := Apply(p.mux, Register(s));
            && m.subs[s].start == |m.accepted| && m.accepted == p.mux.accepted
            && m.accepted == Survivors(p.mux.calls, h.published[..h.openAt[s]])
  {
    NothingBuffered(p.mux);
    assert h.published[..|h.published|] == h.published;
  }

  lemma OpenNotedByPublish(p: Repl<DeviceMap, Event>, h: History, c: nat, e: Event, s: nat)
    requires CanMove(DiscoveryRules(), p, Publish(c, e)) && s in p.mux.subs && OpenNoted(p, h, s)
    ensures OpenNoted(Move1(DiscoveryRules(), p, Publish(c, e)), Note(h, Publish(c, e)), s)
  {
    var h' := Note(h, Publish(c, e));
    assert h'.published[..h.openAt[s]] == h.published[..h.openAt[s]];
    SurvivorsSame(p.mux.calls, Apply(p.mux, Arrive(c, e)).calls, h.published[..h.openAt[s]]);
  }

  lemma OpenNotedByOpen(p: Repl<DeviceMap, Event>, h: History, t: nat, s: nat)
    requires OwnerInv(p) && CanMove(DiscoveryRules(), p, Open(t)) && s in p.mux.subs && OpenNoted(p, h, s)
    ensures OpenNoted(Move1(DiscoveryRules(), p, Open(t)), Note(h, Open(t)), s)
  {
    assert s != t;
  }

  lemma OpenedNoted(p: Repl<DeviceMap, Event>, h: History, t: nat)
    requires p.order.SnapshotFirst? && OwnerInv(p) && CallsNoted(p, h) && StateNoted(p, h)
    requires CanMove(DiscoveryRules(), p, Open(t))
    ensures OpenNoted(Move1(DiscoveryRules(), p, Open(t)), Note(h, Open(t)), t)
  {
    assert h.published[..|h.published|] == h.published;
  }

  lemma OpenNotedByReply(p: Repl<DeviceMap, Event>, h: History, v: Move<Event>, s: nat)
    requires p.order.SnapshotFirst? && CanMove(DiscoveryRules(), p, v) && (v.Published? || v.Opened?)
    requires s in p.mux.subs && OpenNoted(p, h, s)
    ensures OpenNoted(Move1(DiscoveryRules(), p, v), h, s)
  {
  }

  lemma SubsOf(p: Repl<DeviceMap, Event>, v: Move<Event>, s: nat)
    requires CanMove(DiscoveryRules(), p, v) && s in Move1(DiscoveryRules(), p, v).mux.subs
    ensures s in p.mux.subs || v == Open(s)
  {
    if v.Inner? {
      SubsInside(p.mux, v.l);
    }
  }

  lemma OpensNoted(p: Repl<DeviceMap, Event>, h: History, v: Move<Event>, s: nat)
    requires Noted(p, h) && CanMove(DiscoveryRules(), p, v) && (s in p.mux.subs || v == Open(s))
    ensures OpenNoted(Move1(DiscoveryRules(), p, v), Note(h, v), s)
  {
    if v == Open(s) {
      OpenedNoted(p, h, s);
    } else {
      assert OpenNoted(p, h, s);
      OpenStaysNoted(p, h, v, s);
    }
  }

  lemma OpenStaysNoted(p: Repl<DeviceMap, Event>, h: History, v: Move<Event>, s: nat)
    requires p.order.SnapshotFirst? && LogInv(p.mux) && OwnerInv(p) && StateNoted(p, h)
    requires CanMove(DiscoveryRules(), p, v) && s in p.mux.subs && OpenNoted(p, h, s)
    ensures OpenNoted(Move1(DiscoveryRules(), p, v), Note(h, v), s)
  {
    match v
    case Publish(c, e) => OpenNotedByPublish(p, h, c, e, s);
    case Published => OpenNotedByReply(p, h, v, s);
    case Open(t) => OpenNotedByOpen(p, h, t, s);
    case Opened => OpenNotedByReply(p, h, v, s);
    case Inner(l) => OpenNotedInside(p, h, l, s);
  }

  lemma LogNoted(p: Repl<DeviceMap, Event>, h: History, v: Move<Event>)
    requires Noted(p, h) && CanMove(DiscoveryRules(), p, v)
    ensures CallsNoted(Move1(DiscoveryRules(), p, v), Note(h, v))
    ensures StateNoted(Move1(DiscoveryRules(), p, v), Note(h, v))
  {
    match v
    case Publish(c, e) => PublishNoted(p, h, c, e);
    case Inner(l) => InsideNoted(p, h, l);
    case _ =>
  }

  lemma OrderKept(p: Repl<DeviceMap, Event>, v: Move<Event>)
    requires CanMove(DiscoveryRules(), p, v)
    ensures Move1(DiscoveryRules(), p, v).order == p.order && Move1(DiscoveryRules(), p, v).base == p.base
  {
  }

  lemma MoveNoted(p: Repl<DeviceMap, Event>, h: History, v: Move<Event>)
    requires Noted(p, h) && CanMove(DiscoveryRules(), p, v)
    ensures Noted(Move1(DiscoveryRules(), p, v), Note(h, v))
  {
    MoveKeepsRInv(DiscoveryRules(), p, v);
    OrderKept(p, v);
    LogNoted(p, h, v);
    forall s | s in Move1(DiscoveryRules(), p, v).mux.subs
      ensures OpenNoted(Move1(DiscoveryRules(), p, v), Note(h, v), s)
    {
      SubsOf(p, v, s);
      OpensNoted(p, h, v, s);
    }
  }

  lemma {:induction false} MovesNoted(p: Repl<DeviceMap, Event>, h: History, vs: seq<Move<Event>>)
    requires Noted(p, h) && Moves(DiscoveryRules(), p, vs)
    ensures Noted(After(DiscoveryRules(), p, vs), Chronicle(h, vs))
    decreases |vs|
  {
    if vs != [] {
      MoveNoted(p, h, vs[0]);
      MovesNoted(Move1(DiscoveryRules(), p, vs[0]), Note(h, vs[0]), vs[1..]);
    }
  }

  // ---- single devices ----

  function At(m: DeviceMap, id: string): Option<Device> {
    if id in m then Some(m[id]) else None
  }

  predicate About(e: Event, id: string) {
    !e.Init? && e.dev.id == id
  }

  // What an event about a device leaves of it.
  function Effect(e: Event): Option<Device> {
    match e
    case Added(d) => Some(d)
    case _ => None
  }

  // The last published event about a device.
  function LastAbout(msgs: seq<Msg<Event>>, id: string): Option<Msg<Event>> {
    if msgs == [] then None
    else if About(msgs[|msgs| - 1].value, id) then Some(msgs[|msgs| - 1])
    else LastAbout(msgs[..|msgs| - 1], id)
  }

  // A device as some events leave it, starting from a map.
  function Standing(x: DeviceMap, msgs: seq<Msg<Event>>, id: string): Option<Device> {
    match LastAbout(msgs, id)
    case None => At(x, id)
    case Some(msg) => Effect(msg.value)
  }

  // Replay leaves a device as the last event about it did.
  lemma {:induction false} ReplayAt(x: DeviceMap, msgs: seq<Msg<Event>>, id: string)
    requires Plain(msgs)
    ensures At(Replay(DiscoveryRules(), x, msgs), id) == Standing(x, msgs, id)
    decreases |msgs|
  {
    if msgs != [] {
      ReplayAt(x, msgs[..|msgs| - 1], id);
    }
  }

  // If the last event about a device survived it is the last surviving one, and if there
  // was none, none survived.
  lemma {:induction false} LastSurvives(calls: map<nat, Call<Event>>, msgs: seq<Msg<Event>>, id: string)
    ensures match LastAbout(msgs, id)
            case None => LastAbout(Survivors(calls, msgs), id).None?
            case Some(msg) => WasAccepted(calls, msg.call) ==> LastAbout(Survivors(calls, msgs), id) == Some(msg)
    decreases |msgs|
  {
    if msgs != [] {
      var n := |msgs| - 1;
      LastSurvives(calls, msgs[..n], id);
      var rest := Survivors(calls, msgs[..n]);
      assert (rest + [msgs[n]])[..|rest|] == rest;
    }
  }

  lemma {:induction false} SurvivorsAmong(calls: map<nat, Call<Event>>, msgs: seq<Msg<Event>>)
    ensures forall msg | msg in Survivors(calls, msgs) :: msg in msgs
    decreases |msgs|
  {
    if msgs != [] {
      SurvivorsAmong(calls, msgs[..|msgs| - 1]);
    }
  }

  lemma AgreesAtIff(x: DeviceMap, calls: map<nat, Call<Event>>, msgs: seq<Msg<Event>>, id: string)
    requires Plain(msgs)
    ensures var view := Replay(DiscoveryRules(), x, Survivors(calls, msgs));
            At(view, id) == At(Replay(DiscoveryRules(), x, msgs), id) <==>
            match LastAbout(msgs, id)
            case None => true
            case Some(msg) =>
              WasAccepted(calls, msg.call) || Effect(msg.value) == Standing(x, Survivors(calls, msgs), id)
  {
    ReplayAt(x, msgs, id);
    SurvivorsAmong(calls, msgs);
    ReplayAt(x, Survivors(calls, msgs), id);
    LastSurvives(calls, msgs, id);
  }

  // ---- the result ----

  // The run as its labels tell it.
  function HistoryOf(vs: seq<Move<Event>>): History {
    Chronicle(History([], map[]), vs)
  }

  // What was published behind the snapshot of a sink.
  function Since(h: History, s: nat): seq<Msg<Event>> {
    if s in h.openAt && h.openAt[s] <= |h.published| then h.published[h.openAt[s]..] else []
  }

  // An idle registered sink has been sent its snapshot and what survived since.
  lemma SentSurvivors(p: Repl<DeviceMap, Event>, h: History, s: nat)
    requires LogInv(p.mux) && p.mux.cap == 0 && p.mux.phase.Select? && s in p.mux.outputs
    requires StateNoted(p, h) && OpenNoted(p, h, s) && s in p.snaps
    requires s in p.mux.subs && StreamInv(p.mux, s) && LogInv1(p, s)
    ensures View(DiscoveryRules(), map[], p.logs[s]) ==
            Replay(DiscoveryRules(), p.snaps[s], Survivors(p.mux.calls, h.published[h.openAt[s]..]))
    ensures p.state == Replay(DiscoveryRules(), p.snaps[s], h.published[h.openAt[s]..])
  {
    var before, since := h.published[..h.openAt[s]], h.published[h.openAt[s]..];
    assert h.published == before + since;
    SurvivorsInTwo(p.mux.calls, before, since);
    NothingBuffered(p.mux);
    ReceivedSurvivors(p, s, Survivors(p.mux.calls, before), Survivors(p.mux.calls, since));
    ViewOfEvents(DiscoveryRules(), map[], p.snaps[s], p.mux.subs[s].received);
    ReplayInTwo(DiscoveryRules(), p.base, before, since);
  }

  lemma ReceivedSurvivors(p: Repl<DeviceMap, Event>, s: nat, before: seq<Msg<Event>>, since: seq<Msg<Event>>)
    requires s in p.mux.subs && StreamInv(p.mux, s) && p.mux.accepted == before + since
    requires p.mux.accepted[..p.mux.subs[s].start] == before
    requires p.mux.subs[s].start + |p.mux.subs[s].received| == |p.mux.accepted|
    ensures p.mux.subs[s].received == since
  {
  }

  // A view agrees with the state about a device exactly if nothing was published about it
  // since the snapshot, or the last such event was accepted, or it does to the device what
  // the last accepted one did, or what the snapshot has if there was none.
  ghost predicate LossExact(
      snapshot: DeviceMap, view: DeviceMap, state: DeviceMap, calls: map<nat, Call<Event>>, since: seq<Msg<Event>>,
      id: string)
  {
    At(view, id) == At(state, id) <==>
    match LastAbout(since, id)
    case None => true
    case Some(msg) =>
      WasAccepted(calls, msg.call) || Effect(msg.value) == Standing(snapshot, Survivors(calls, since), id)
  }

  lemma NotedLoss(p: Repl<DeviceMap, Event>, h: History, s: nat, since: seq<Msg<Event>>, id: string)
    requires LogInv(p.mux) && p.mux.cap == 0 && p.mux.phase.Select? && s in p.mux.outputs
    requires CallsNoted(p, h) && StateNoted(p, h) && OpenNoted(p, h, s) && s in p.snaps
    requires s in p.mux.subs && StreamInv(p.mux, s) && LogInv1(p, s) && since == h.published[h.openAt[s]..]
    ensures LossExact(p.snaps[s], View(DiscoveryRules(), map[], p.logs[s]), p.state, p.mux.calls, since, id)
  {
    SentSurvivors(p, h, s);
    SincePlain(p, h, since, s);
    AgreesAtIff(p.snaps[s], p.mux.calls, since, id);
  }

  lemma IdleLoss(p: Repl<DeviceMap, Event>, h: History, s: nat, id: string)
    requires Noted(p, h) && p.mux.phase.Select? && s in p.mux.outputs && s in p.snaps
    ensures s in p.logs
    ensures LossExact(p.snaps[s], View(DiscoveryRules(), map[], p.logs[s]), p.state, p.mux.calls, Since(h, s), id)
  {
    assert StreamInv(p.mux, s) && LogInv1(p, s) && OpenNoted(p, h, s);
    NotedLoss(p, h, s, Since(h, s), id);
  }

  lemma RunNoted(base: DeviceMap, vs: seq<Move<Event>>, p: Repl<DeviceMap, Event>)
    requires ReachedFrom(DiscoveryRules(), SnapshotFirst, base, vs, p)
    ensures Noted(p, HistoryOf(vs))
  {
    StartNoted(base);
    MovesNoted(Start(SnapshotFirst, 0, base), History([], map[]), vs);
  }

  // Losses, exactly: whatever Submits timed out or met a closed mux, with the mux idle.
  lemma LostEventShowsIff(base: DeviceMap, vs: seq<Move<Event>>, p: Repl<DeviceMap, Event>, s: nat, id: string)
    requires ReachedFrom(DiscoveryRules(), SnapshotFirst, base, vs, p)
    requires p.mux.phase.Select? && s in p.mux.outputs && s in p.snaps
    ensures s in p.logs
    ensures var since := Since(HistoryOf(vs), s);
            LossExact(p.snaps[s], View(DiscoveryRules(), map[], p.logs[s]), p.state, p.mux.calls, since, id)
  {
    RunNoted(base, vs, p);
    IdleLoss(p, HistoryOf(vs), s, id);
  }

  lemma SincePlain(p: Repl<DeviceMap, Event>, h: History, since: seq<Msg<Event>>, s: nat)
    requires CallsNoted(p, h) && s in h.openAt && h.openAt[s] <= |h.published| && since == h.published[h.openAt[s]..]
    ensures Plain(since)
  {
  }

  // ---- the traces ----

  // Submit, up to the point where the value may enter the input.
  lemma PublishOne(cap: nat, base: DeviceMap, vs: seq<Move<Event>>, e: Event) returns (more: seq<Move<Event>>)
    requires Moves(DiscoveryRules(), Start(SnapshotFirst, cap, base), vs)
    requires var p := After(DiscoveryRules(), Start(SnapshotFirst, cap, base), vs);
             p.owner.Free? && p.mux.calls == map[] && p.mux.phase.Select? && !p.mux.done && KnownDelta(p.state, e)
    ensures Moves(DiscoveryRules(), Start(SnapshotFirst, cap, base), more)
    ensures var p := After(DiscoveryRules(), Start(SnapshotFirst, cap, base), vs);
            After(DiscoveryRules(), Start(SnapshotFirst, cap, base), more) ==
            p.(state := ApplyEvent(p.state, e), owner := Publishing(0),
            mux := p.mux.(calls := map[0 := Call(e, Checked)]))
  {
    var p := Start<DeviceMap, Event>(SnapshotFirst, cap, base);
    more := ThenMove(DiscoveryRules(), p, vs, Publish(0, e));
    more := ThenMove(DiscoveryRules(), p, more, Inner(RLock(0)));
    more := ThenMove(DiscoveryRules(), p, more, Inner(CheckDone(0)));
  }

  lemma RegisterZero(cap: nat, base: DeviceMap, vs: seq<Move<Event>>) returns (more: seq<Move<Event>>)
    requires Moves(DiscoveryRules(), Start(SnapshotFirst, cap, base), vs)
    requires var p := After(DiscoveryRules(), Start(SnapshotFirst, cap, base), vs);
             p.owner.Free? && 0 !in p.mux.subs && p.mux.phase.Select?
    ensures Moves(DiscoveryRules(), Start(SnapshotFirst, cap, base), more)
    ensures var p := After(DiscoveryRules(), Start(SnapshotFirst, cap, base), vs);
            After(DiscoveryRules(), Start(SnapshotFirst, cap, base), more) ==
            p.(owner := Opening(0), snaps := p.snaps[0 := p.state], logs := p.logs[0 := [Snap(p.state)]],
            mux := p.mux.(outputs := p.mux.outputs + {0}, phase := AckSub(0),
            subs := p.mux.subs[0 := Sub(Waiting, [], p.mux.handed, 0)]))
  {
    var p := Start<DeviceMap, Event>(SnapshotFirst, cap, base);
    BaseStays(DiscoveryRules(), p, vs);
    more := ThenMove(DiscoveryRules(), p, vs, Open(0));
    more := ThenMove(DiscoveryRules(), p, more, Inner(Register(0)));
  }

  lemma OpenZero(cap: nat, base: DeviceMap, vs: seq<Move<Event>>) returns (more: seq<Move<Event>>)
    requires Moves(DiscoveryRules(), Start(SnapshotFirst, cap, base), vs)
    requires var p := After(DiscoveryRules(), Start(SnapshotFirst, cap, base), vs);
             p.owner.Free? && 0 !in p.mux.subs && p.mux.phase.Select?
    ensures Moves(DiscoveryRules(), Start(SnapshotFirst, cap, base), more)
    ensures var p := After(DiscoveryRules(), Start(SnapshotFirst, cap, base), vs);
            After(DiscoveryRules(), Start(SnapshotFirst, cap, base), more) ==
            p.(snaps := p.snaps[0 := p.state], logs := p.logs[0 := [Snap(p.state)]],
            mux := p.mux.(outputs := p.mux.outputs + {0}, subs := p.mux.subs[0 := Sub(Answered, [], p.mux.handed, 0)]))
  {
    var p := Start<DeviceMap, Event>(SnapshotFirst, cap, base);
    BaseStays(DiscoveryRules(), p, vs);
    more := RegisterZero(cap, base, vs);
    more := ThenMove(DiscoveryRules(), p, more, Inner(SubReturn(0)));
    more := ThenMove(DiscoveryRules(), p, more, Opened);
  }

  // The event sits in the buffer; its Submit has returned.
  lemma OneInBuffer(cap: nat, base: DeviceMap, e: Event) returns (vs: seq<Move<Event>>)
    requires 1 <= cap && KnownDelta(base, e)
    ensures Moves(DiscoveryRules(), Start(SnapshotFirst, cap, base), vs)
    ensures After(DiscoveryRules(), Start<DeviceMap, Event>(SnapshotFirst, cap, base), vs) ==
            Start<DeviceMap, Event>(SnapshotFirst, cap, base).(state := ApplyEvent(base, e), mux := Make<Event>(cap).(
            input := [Msg(0, e)], accepted := [Msg(0, e)], calls := map[0 := Call(e, Returned(true))]))
  {
    var p := Start<DeviceMap, Event>(SnapshotFirst, cap, base);
    vs := PublishOne(cap, base, [], e);
    vs := ThenMove(DiscoveryRules(), p, vs, Inner(Send(0)));
    vs := ThenMove(DiscoveryRules(), p, vs, Inner(Return(0)));
    vs := ThenMove(DiscoveryRules(), p, vs, Published);
  }

  // A sink is opened behind it, and then `run` takes the event.
  lemma OneTaken(cap: nat, base: DeviceMap, e: Event) returns (vs: seq<Move<Event>>)
    requires 1 <= cap && KnownDelta(base, e)
    ensures Moves(DiscoveryRules(), Start(SnapshotFirst, cap, base), vs)
    ensures var p := After(DiscoveryRules(), Start<DeviceMap, Event>(SnapshotFirst, cap, base), vs);
            && p.owner.Free? && p.state == ApplyEvent(base, e) && p.logs == map[0 := [Snap(p.state)]]
            && p.mux.phase == FanOut(Msg(0, e), {0}, [], false) && 0 in p.mux.subs
            && p.mux.calls == map[0 := Call(e, Returned(true))]
  {
    vs := OneInBuffer(cap, base, e);
    vs := OpenZero(cap, base, vs);
    vs := ThenMove(DiscoveryRules(), Start<DeviceMap, Event>(SnapshotFirst, cap, base), vs, Inner(Take));
  }

  // The unbuffered input is needed. With any buffer, whatever the event, a sink opened while
  // the event sits in the buffer has it in its snapshot and then receives it again.
  lemma BufferedInputDuplicates(cap: nat, base: DeviceMap, e: Event) returns (vs: seq<Move<Event>>)
    requires 1 <= cap && KnownDelta(base, e)
    ensures Moves(DiscoveryRules(), Start(SnapshotFirst, cap, base), vs)
    ensures var p := After(DiscoveryRules(), Start(SnapshotFirst, cap, base), vs);
            && NoLoss(p.mux) && p.owner.Free? && p.mux.phase.Select?
            && 0 in p.logs && p.logs[0] == [Snap(ApplyEvent(base, e)), Ev(e)] && p.state == ApplyEvent(base, e)
  {
    var p := Start<DeviceMap, Event>(SnapshotFirst, cap, base);
    vs := OneTaken(cap, base, e);
    vs := ThenMove(DiscoveryRules(), p, vs, Inner(Deliver(0, false)));
    vs := ThenMove(DiscoveryRules(), p, vs, Inner(FanOutDone));
  }

  lemma OneUnsent(base: DeviceMap, d: Device) returns (vs: seq<Move<Event>>)
    ensures Moves(DiscoveryRules(), Start(SnapshotFirst, 0, base), vs)
    ensures var p := After(DiscoveryRules(), Start(SnapshotFirst, 0, base), vs);
            && p.owner == Publishing(0) && p.state == base[d.id := d] && p.mux.phase.Select? && !p.mux.done
            && p.mux.outputs == {0} && p.logs == map[0 := [Snap(base)]]
            && p.mux.calls == map[0 := Call(Added(d), Checked)]
  {
    vs := OpenZero(0, base, []);
    vs := PublishOne(0, base, vs, Added(d));
  }

  // A Submit that times out loses its event for good: the new device is in the state and,
  // with everything idle, not in what the subscriber has.
  lemma TimeoutLosesEvent(base: DeviceMap, d: Device) returns (vs: seq<Move<Event>>)
    ensures Moves(DiscoveryRules(), Start(SnapshotFirst, 0, base), vs)
    ensures var p := After(DiscoveryRules(), Start(SnapshotFirst, 0, base), vs);
            && p.owner.Free? && p.mux.phase.Select? && !p.mux.done && 0 in p.mux.outputs
            && 0 in p.logs && View(DiscoveryRules(), map[], p.logs[0]) == base && p.state == base[d.id := d]
  {
    var p := Start<DeviceMap, Event>(SnapshotFirst, 0, base);
    vs := OneUnsent(base, d);
    vs := ThenMove(DiscoveryRules(), p, vs, Inner(GiveUp(0)));
    vs := ThenMove(DiscoveryRules(), p, vs, Inner(Return(0)));
    vs := ThenMove(DiscoveryRules(), p, vs, Published);
  }
}
