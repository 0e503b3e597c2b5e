// When a watcher's replay comes first, when it comes at all, and when broadcasts may overtake
// each other (internal/plugin/resource.go:157-189): exact conditions over all continuations.
module WatchOrder {
  import opened MuxProtocol
  import opened MuxRuns
  import opened MuxSafety
  import opened MuxLiveness
  import opened MuxCancels
  import opened Resources
  import opened Watch

  // ---- does ListAndWatch return ----

  // The replay has no room in the channel, which nobody reads yet, or the channel is closed.
  ghost predicate Stuck(r: ResourceState, w: nat) {
    w in r.watchers && r.watchers[w].Replaying? && w in r.channels && w in r.mux.subs &&
    (|r.channels[w]| >= CHANNEL_CAPACITY || r.mux.subs[w].closes > 0)
  }

  lemma ClosesGrow(m: Mux<S>, l: Label<S>, w: nat)
    requires Enabled(m, l) && w in m.subs
    ensures w in Apply(m, l).subs && m.subs[w].closes <= Apply(m, l).subs[w].closes
  {
    if !l.Deliver? {
      RecordKept(m, l, w);
    }
  }

  lemma StuckStays(r: ResourceState, a: Act, w: nat)
    requires WatchersOk(r) && ReadersOk(r) && CanAct(r, a) && Stuck(r, w)
    ensures Stuck(Act1(r, a), w)
  {
    if a.Inner? {
      ClosesGrow(r.mux, a.l, w);
    }
  }

  lemma {:induction false} StuckForEver(r: ResourceState, acts: seq<Act>, w: nat)
    requires WInv(r) && Acts(r, acts) && Stuck(r, w)
    ensures Stuck(Outcome(r, acts), w)
    decreases |acts|
  {
    if acts != [] {
      StuckStays(r, acts[0], w);
      ActKeepsInv(r, acts[0]);
      StuckForEver(Act1(r, acts[0]), acts[1..], w);
    }
  }

  // Some continuation brings ListAndWatch to its return.
  ghost predicate MayReturn(r: ResourceState, w: nat) {
    exists acts :: Acts(r, acts) && w in Outcome(r, acts).watchers && Outcome(r, acts).watchers[w].Watching?
  }

  // The replay is not the non-blocking send it is said to be: ListAndWatch can return exactly
  // if fewer than two broadcasts have come before its replay and its channel is still open.
  lemma ListAndWatchReturnsIff(initial: S, acts: seq<Act>, r: ResourceState, w: nat)
    requires WatchReached(initial, acts, r) && w in r.watchers && r.watchers[w].Replaying?
    ensures w in r.channels && w in r.mux.subs
    ensures MayReturn(r, w) <==> |r.channels[w]| < CHANNEL_CAPACITY && r.mux.subs[w].closes == 0
  {
    ReachedWInv(initial, acts, r);
    if Stuck(r, w) {
      StuckNeverReturns(r, w);
    } else {
      FreeReturns(r, w);
    }
  }

  lemma StuckNeverReturns(r: ResourceState, w: nat)
    requires WInv(r) && Stuck(r, w)
    ensures !MayReturn(r, w)
  {
    forall more | Acts(r, more)
      ensures Stuck(Outcome(r, more), w)
    {
      StuckForEver(r, more, w);
    }
  }

  lemma FreeReturns(r: ResourceState, w: nat)
    requires WatchersOk(r) && ReadersOk(r) && w in r.watchers && r.watchers[w].Replaying? && !Stuck(r, w)
    ensures MayReturn(r, w)
  {
    var more := ThenAct(r, [], Replay(w));
    assert Outcome(r, more).watchers[w].Watching?;
  }

  // Before the replay nobody cancels the watcher, so that its channel is closed exactly if
  // the resource's shutdown has reached it. The replay then panics.
  lemma ReplayPanicsIff(initial: S, acts: seq<Act>, r: ResourceState, w: nat)
    requires WatchReached(initial, acts, r) && w in r.watchers && r.watchers[w].Replaying? && w in r.mux.subs
    ensures ReplayPanics(r, w) <==>
            Registered(r.mux.subs[w].pc) && w !in r.mux.outputs && (r.mux.phase.CloseAll? || r.mux.phase.Exited?)
  {
    ReachedWInv(initial, acts, r);
    assert StreamInv(r.mux, w);
    assert !WasCancelled(r.mux, w);
  }

  // ---- does the replay come first ----

  predicate BroadcastFirst(channel: seq<Seen>) {
    channel != [] && channel[0].Broadcast?
  }

  // On no continuation does a broadcast come before the replay.
  ghost predicate KeepsOrder(r: ResourceState, w: nat) {
    forall acts | Acts(r, acts) ::
      w in Outcome(r, acts).channels && !BroadcastFirst(Outcome(r, acts).channels[w])
  }

  // `run` waits in a fan-out for a watcher whose channel is full and unread for ever.
  ghost predicate WedgedOn(r: ResourceState, v: nat) {
    && r.mux.phase.FanOut? && v in r.mux.phase.todo
    && v in r.watchers && !r.watchers[v].Watching?
    && v in r.channels && |r.channels[v]| >= CHANNEL_CAPACITY
  }

  ghost predicate Wedged(r: ResourceState) {
    exists v :: WedgedOn(r, v)
  }

  // A broadcast can still get to the watcher: it is due in the fan-out under way, or `run`
  // will get back to its select and there is, or can be, another Submit to take.
  ghost predicate Overtakable(r: ResourceState, w: nat) {
    && w in r.mux.outputs
    && (|| w in Todo(r.mux.phase)
        || (!Wedged(r) && (!r.mux.done || !NoSendLeft(r.mux))))
  }

  lemma {:induction false} NoBroadcasts(channel: seq<Seen>)
    requires Broadcasts(channel) == []
    ensures !BroadcastFirst(channel)
    decreases |channel|
  {
    if |channel| > 1 {
      NoBroadcasts(channel[..|channel| - 1]);
    }
  }

  lemma SilentKeepsOrder(r: ResourceState, w: nat)
    requires w in r.watchers && w in r.channels && w in r.mux.subs && ChannelOk(r, w) && r.mux.subs[w].received == []
    ensures !BroadcastFirst(r.channels[w])
  {
    NoBroadcasts(r.channels[w]);
  }

  // ---- it does when nothing can overtake it ----

  lemma WedgeStays(r: ResourceState, a: Act, v: nat, w: nat)
    requires WatchersOk(r) && ReadersOk(r) && r.mux.cap == 0 && CanAct(r, a)
    requires WedgedOn(r, v) && w !in r.mux.phase.todo && w in r.mux.subs
    ensures WedgedOn(Act1(r, a), v) && w !in Act1(r, a).mux.phase.todo && w in Act1(r, a).mux.subs
    ensures Act1(r, a).mux.subs[w].received == r.mux.subs[w].received && Act1(r, a).mux.cap == 0
  {
    if a.Inner? {
      CallsInside(r.mux, a.l);
      RecordKept(r.mux, a.l, w);
      WedgedPhase(r.mux, a.l, v);
    }
  }

  // In a fan-out that is not over only deliveries move `run`.
  lemma WedgedPhase(m: Mux<S>, l: Label<S>, v: nat)
    requires Enabled(m, l) && m.cap == 0 && m.phase.FanOut? && v in m.phase.todo
    requires !(l.Deliver? && l.sink == v)
    ensures Apply(m, l).phase.FanOut? && v in Apply(m, l).phase.todo && Apply(m, l).phase.todo <= m.phase.todo
  {
  }

  lemma {:induction false} WedgedForEver(r: ResourceState, acts: seq<Act>, v: nat, w: nat)
    requires WInv(r) && Acts(r, acts) && WedgedOn(r, v) && w !in r.mux.phase.todo && w in r.mux.subs
    ensures w in Outcome(r, acts).mux.subs && Outcome(r, acts).mux.subs[w].received == r.mux.subs[w].received
    decreases |acts|
  {
    if acts != [] {
      WedgeStays(r, acts[0], v, w);
      ActKeepsInv(r, acts[0]);
      WedgedForEver(Act1(r, acts[0]), acts[1..], v, w);
    }
  }

  // With an unbuffered input nothing accepted is pending but the message being fanned out.
  ghost predicate NothingPending(m: Mux<S>) {
    m.cap == 0 && Pending(m.phase) == []
  }

  lemma NothingPendingKept(m: Mux<S>, l: Label<S>)
    requires LogInv(m) && LockInv(m) && NothingPending(m) && Enabled(m, l)
    ensures NothingPending(Apply(m, l))
  {
    if l.Send? {
      assert !m.phase.Drain?;
    }
  }

  lemma {:induction false} NothingPendingAlong(m: Mux<S>, ls: seq<Label<S>>)
    requires Inv(m) && NothingPending(m) && Legal(m, ls)
    ensures NothingPending(Exec(m, ls))
    decreases |ls|
  {
    if ls != [] {
      StepKeepsInv(m, ls[0]);
      NothingPendingKept(m, ls[0]);
      NothingPendingAlong(Apply(m, ls[0]), ls[1..]);
    }
  }

  lemma ReachedNothingPending(initial: S, acts: seq<Act>, r: ResourceState)
    requires WatchReached(initial, acts, r)
    ensures NothingPending(r.mux)
  {
    var ls := RunOfMux(New(initial), acts);
    MakeEstablishesInv<S>(0);
    NothingPendingAlong(Make(0), ls);
  }

  // A sink that is not being served has everything that was accepted.
  lemma NotDueIsSettled(m: Mux<S>, w: nat)
    requires LogInv(m) && NothingPending(m) && w in m.subs && StreamInv(m, w) && w !in Todo(m.phase)
    requires w in m.outputs ==> NoSendLeft(m)
    ensures Settled(m, w)
  {
    assert |m.accepted[m.handed..]| == 0;
  }

  // Not registered any more, or settled on a closed mux: the mux delivers nothing.
  lemma MuxSilent(m: Mux<S>, ls: seq<Label<S>>, w: nat)
    requires Inv(m) && Legal(m, ls) && w in m.subs && Registered(m.subs[w].pc)
    requires w !in m.outputs || (m.done && Settled(m, w))
    ensures w in Exec(m, ls).subs && Exec(m, ls).subs[w].received == m.subs[w].received
  {
    if w in m.outputs {
      SettledSinkIsSilent(m, ls, w);
    } else {
      assert StreamInv(m, w);
      ClosedSinkIsSilent(m, ls, w);
    }
  }

  lemma NotOvertaken(r: ResourceState, w: nat, acts: seq<Act>)
    requires WInv(r) && NothingPending(r.mux) && Acts(r, acts) && !Overtakable(r, w)
    requires w in r.mux.subs && Registered(r.mux.subs[w].pc) && r.mux.subs[w].received == []
    ensures w in Outcome(r, acts).channels && !BroadcastFirst(Outcome(r, acts).channels[w])
  {
    var r' := Outcome(r, acts);
    if w in r.mux.outputs && Wedged(r) {
      var v :| WedgedOn(r, v);
      WedgedForEver(r, acts, v, w);
    } else {
      assert StreamInv(r.mux, w);
      if w in r.mux.outputs {
        NotDueIsSettled(r.mux, w);
      }
      var ls := RunOfMux(r, acts);
      MuxSilent(r.mux, ls, w);
    }
    ActsKeepInv(r, acts);
    assert ChannelOk(r', w);
    SilentKeepsOrder(r', w);
  }

  // ---- some run overtakes it otherwise ----

  // What driving a fan-out to its end leaves alone.
  ghost predicate Undisturbed(a: ResourceState, b: ResourceState) {
    && b.watchers == a.watchers && b.seenAt == a.seenAt && b.hist == a.hist && b.changes == a.changes
    && b.mux.calls == a.mux.calls && b.mux.outputs == a.mux.outputs && b.mux.done == a.mux.done
    && b.mux.cap == a.mux.cap && b.mux.accepted == a.mux.accepted
  }

  // The same fan-out, with these sinks left to serve.
  ghost predicate FanOutLeft(a: ResourceState, b: ResourceState, todo: set<nat>) {
    a.mux.phase.FanOut? && b.mux.phase == FanOut(a.mux.phase.msg, todo, a.mux.phase.rest, a.mux.phase.closing)
  }

  // One act.
  lemma Just(r: ResourceState, a: Act) returns (acts: seq<Act>)
    requires CanAct(r, a)
    ensures acts == [a] && Acts(r, acts) && Outcome(r, acts) == Act1(r, a)
  {
    acts := ThenAct(r, [], a);
  }

  // The parts of the invariant that concern one registered watcher.
  ghost predicate Known(r: ResourceState, v: nat) {
    v in r.watchers && v in r.channels && v in r.taken && v in r.mux.subs &&
    r.taken[v] <= |r.channels[v]| <= r.taken[v] + CHANNEL_CAPACITY &&
    (!r.watchers[v].Watching? ==> r.taken[v] == 0)
  }

  lemma AllKnown(r: ResourceState, v: nat)
    requires SinkInv(r.mux) && WatchersOk(r) && ReadersOk(r) && v in r.mux.outputs
    ensures Known(r, v)
  {
    assert v in r.mux.subs.Keys && v in r.taken.Keys && v in r.channels.Keys;
  }

  // A reader makes room.
  lemma MakeRoom(r: ResourceState, v: nat) returns (acts: seq<Act>)
    requires Known(r, v) && (r.watchers[v].Watching? || |r.channels[v]| < CHANNEL_CAPACITY)
    ensures Acts(r, acts) && Room(Outcome(r, acts), v)
    ensures Outcome(r, acts) == r.(taken := Outcome(r, acts).taken)
  {
    acts := [];
    if !Room(r, v) {
      acts := Just(r, Read(v));
    }
  }

  lemma DeliverEffect(r: ResourceState, v: nat)
    requires CanAct(r, Inner(Deliver(v, false)))
    ensures var r' := Act1(r, Inner(Deliver(v, false)));
            && Undisturbed(r, r') && FanOutLeft(r, r', r.mux.phase.todo - {v})
            && r'.channels == r.channels[v := r.channels[v] + [Broadcast(r.mux.phase.msg.value)]]
  {
  }

  // The value of the fan-out goes to one watcher.
  lemma ServeOne(r: ResourceState, v: nat) returns (acts: seq<Act>)
    requires Known(r, v) && r.mux.phase.FanOut? && v in r.mux.phase.todo
    requires r.watchers[v].Watching? || |r.channels[v]| < CHANNEL_CAPACITY
    ensures Acts(r, acts)
    ensures var r' := Outcome(r, acts);
            && Undisturbed(r, r') && FanOutLeft(r, r', r.mux.phase.todo - {v})
            && r'.channels == r.channels[v := r.channels[v] + [Broadcast(r.mux.phase.msg.value)]]
  {
    acts := MakeRoom(r, v);
    DeliverEffect(Outcome(r, acts), v);
    acts := ThenAct(r, acts, Inner(Deliver(v, false)));
  }

  ghost predicate InMain(m: Mux<S>) {
    m.phase.Select? || m.phase.AckSub? || m.phase.AckCancel? || (m.phase.FanOut? && !m.phase.closing)
  }

  // The channels of watchers outside the fan-out stay.
  ghost predicate OthersKeep(a: ResourceState, b: ResourceState, todo: set<nat>) {
    b.channels.Keys == a.channels.Keys && forall x | x in a.channels && x !in todo :: b.channels[x] == a.channels[x]
  }

  // A watcher of the fan-out has been served, or all of them.
  ghost predicate ServedOne(a: ResourceState, b: ResourceState, v: nat) {
    && Undisturbed(a, b) && a.mux.phase.FanOut? && v in a.mux.phase.todo
    && FanOutLeft(a, b, a.mux.phase.todo - {v}) && OthersKeep(a, b, {v})
  }

  ghost predicate ServedAll(a: ResourceState, b: ResourceState) {
    Undisturbed(a, b) && FanOutLeft(a, b, {}) && OthersKeep(a, b, a.mux.phase.todo)
  }

  lemma FinishFanOut(r: ResourceState) returns (acts: seq<Act>)
    requires WInv(r) && r.mux.phase.FanOut? && !Wedged(r)
    ensures Acts(r, acts) && ServedAll(r, Outcome(r, acts))
    decreases r.mux.phase.todo
  {
    if r.mux.phase.todo == {} {
      acts := [];
    } else {
      var some, r', v := ServeSome(r);
      var rest := FinishFanOut(r');
      acts := JoinActs(r, some, rest);
      ServedInTurn(r, r', Outcome(r', rest), v);
    }
  }

  lemma ServedInTurn(a: ResourceState, b: ResourceState, c: ResourceState, v: nat)
    requires ServedOne(a, b, v) && ServedAll(b, c)
    ensures ServedAll(a, c)
  {
  }

  lemma ServeSome(r: ResourceState) returns (acts: seq<Act>, r': ResourceState, v: nat)
    requires WInv(r) && r.mux.phase.FanOut? && r.mux.phase.todo != {} && !Wedged(r)
    ensures Acts(r, acts) && r' == Outcome(r, acts) && WInv(r') && !Wedged(r') && v in r.mux.phase.todo
    ensures r'.mux.phase.FanOut? && r'.mux.phase.todo < r.mux.phase.todo
    ensures ServedOne(r, r', v)
  {
    v :| v in r.mux.phase.todo;
    acts := ServeNext(r, v);
    r' := Outcome(r, acts);
    ActsKeepInv(r, acts);
  }

  lemma ServeNext(r: ResourceState, v: nat) returns (acts: seq<Act>)
    requires LogInv(r.mux) && SinkInv(r.mux) && WatchersOk(r) && ReadersOk(r)
    requires r.mux.phase.FanOut? && v in r.mux.phase.todo && !Wedged(r)
    ensures Acts(r, acts)
    ensures var r' := Outcome(r, acts);
            && Undisturbed(r, r') && FanOutLeft(r, r', r.mux.phase.todo - {v})
            && r'.channels.Keys == r.channels.Keys && !Wedged(r')
            && forall x | x in r.channels && x != v :: r'.channels[x] == r.channels[x]
  {
    AllKnown(r, v);
    assert !WedgedOn(r, v);
    acts := ServeOne(r, v);
    StillUnwedged(r, Outcome(r, acts), v);
  }

  lemma StillUnwedged(r: ResourceState, r': ResourceState, v: nat)
    requires !Wedged(r) && Undisturbed(r, r') && r.mux.phase.FanOut?
    requires FanOutLeft(r, r', r.mux.phase.todo - {v})
    requires r'.channels.Keys == r.channels.Keys
    requires forall x | x in r.channels && x != v :: r'.channels[x] == r.channels[x]
    ensures !Wedged(r')
  {
    forall x
      ensures WedgedOn(r', x) ==> WedgedOn(r, x)
    {
    }
  }

  // The step that takes `run` back to its select.
  lemma BackAtSelect(r: ResourceState, l: Label<S>) returns (acts: seq<Act>)
    requires Enabled(r.mux, l)
    requires l.SubReturn? || l.CancelReturn? || (l.FanOutDone? && !r.mux.phase.closing)
    ensures Acts(r, acts)
    ensures var r' := Outcome(r, acts); Undisturbed(r, r') && r'.mux.phase.Select? && r'.channels == r.channels
  {
    acts := Just(r, Inner(l));
  }

  // `run` gets back to its select, by itself and its readers.
  lemma ToSelect(r: ResourceState) returns (acts: seq<Act>)
    requires WInv(r) && InMain(r.mux) && !Wedged(r)
    ensures Acts(r, acts)
    ensures var r' := Outcome(r, acts);
            Undisturbed(r, r') && r'.mux.phase.Select? && OthersKeep(r, r', Todo(r.mux.phase))
  {
    if r.mux.phase.FanOut? {
      acts := FanOutToSelect(r);
    } else {
      InvReady(r.mux);
      acts := AnswerToSelect(r);
    }
  }

  lemma FanOutToSelect(r: ResourceState) returns (acts: seq<Act>)
    requires WInv(r) && r.mux.phase.FanOut? && !r.mux.phase.closing && !Wedged(r)
    ensures Acts(r, acts)
    ensures var r' := Outcome(r, acts);
            Undisturbed(r, r') && r'.mux.phase.Select? && OthersKeep(r, r', Todo(r.mux.phase))
  {
    acts := FinishFanOut(r);
    var r1 := Outcome(r, acts);
    var more := BackAtSelect(r1, FanOutDone);
    UndisturbedTwice(r, r1, Outcome(r1, more));
    acts := JoinActs(r, acts, more);
  }

  lemma UndisturbedTwice(a: ResourceState, b: ResourceState, c: ResourceState)
    requires Undisturbed(a, b) && Undisturbed(b, c)
    ensures Undisturbed(a, c)
  {
  }

  lemma AnswerToSelect(r: ResourceState) returns (acts: seq<Act>)
    requires RunReady(r.mux) && (r.mux.phase.Select? || r.mux.phase.AckSub? || r.mux.phase.AckCancel?)
    ensures Acts(r, acts)
    ensures var r' := Outcome(r, acts); Undisturbed(r, r') && r'.mux.phase.Select? && r'.channels == r.channels
  {
    match r.mux.phase
    case Select => acts := [];
    case AckSub(s) => acts := BackAtSelect(r, SubReturn(s));
    case AckCancel(k) => acts := BackAtSelect(r, CancelReturn(k));
    case _ =>
  }

  lemma SendEffect(r: ResourceState, c: nat)
    requires r.mux.phase.Select? && r.mux.cap == 0 && CallAt(r.mux, c, Checked)
    ensures CanAct(r, Inner(Send(c)))
    ensures var r' := Act1(r, Inner(Send(c)));
            && r'.mux.phase == FanOut(Msg(c, r.mux.calls[c].value), r.mux.outputs, [], false)
            && r' == r.(mux := r'.mux) && r'.mux.subs == r.mux.subs && r'.mux.outputs == r.mux.outputs
  {
  }

  // A Submit at the send reaches the watcher first.
  lemma SendAndDeliver(r: ResourceState, c: nat, w: nat) returns (acts: seq<Act>)
    requires Known(r, w) && r.mux.cap == 0 && r.mux.phase.Select? && CallAt(r.mux, c, Checked)
    requires w in r.mux.outputs && r.channels[w] == []
    ensures Acts(r, acts) && w in Outcome(r, acts).channels && BroadcastFirst(Outcome(r, acts).channels[w])
  {
    SendEffect(r, c);
    acts := Just(r, Inner(Send(c)));
    var more := ServeOne(Outcome(r, acts), w);
    acts := JoinActs(r, acts, more);
  }

  // What a Submit on its way to the send leaves alone.
  ghost predicate OnItsWay(a: ResourceState, b: ResourceState) {
    && b.mux.phase == a.mux.phase && b.mux.outputs == a.mux.outputs && b.mux.done == a.mux.done &&
      b.mux.cap == a.mux.cap
    && b.mux.subs == a.mux.subs && b.mux.accepted == a.mux.accepted
    && b.channels == a.channels && b.watchers == a.watchers && b.taken == a.taken
  }

  lemma UpdateEffect(r: ResourceState, change: Change)
    requires CanAct(r, Update(change))
    ensures OnItsWay(r, Act1(r, Update(change))) && CallAt(Act1(r, Update(change)).mux, |r.hist|, Arrived)
  {
  }

  lemma SubmitEffect(r: ResourceState, l: Label<S>)
    requires (l.RLock? || l.CheckDone?) && Enabled(r.mux, l) && !r.mux.done
    ensures CanAct(r, Inner(l)) && OnItsWay(r, Act1(r, Inner(l)))
    ensures Act1(r, Inner(l)).mux.calls ==
            r.mux.calls[l.call := r.mux.calls[l.call].(pc := if l.RLock? then Locked else Checked)]
  {
  }

  // A call that is not yet at the send gets there.
  lemma ToSend(r: ResourceState, c: nat) returns (acts: seq<Act>)
    requires r.mux.phase.Select? && !r.mux.done && c in r.mux.calls
    requires r.mux.calls[c].pc.Arrived? || r.mux.calls[c].pc.Locked? || r.mux.calls[c].pc.Checked?
    ensures Acts(r, acts)
    ensures OnItsWay(r, Outcome(r, acts))
    ensures Outcome(r, acts).mux.calls == r.mux.calls[c := r.mux.calls[c].(pc := Checked)]
  {
    acts := [];
    if r.mux.calls[c].pc.Arrived? {
      SubmitEffect(r, RLock(c));
      acts := Just(r, Inner(RLock(c)));
    }
    var r1 := Outcome(r, acts);
    if r1.mux.calls[c].pc.Locked? {
      SubmitEffect(r1, CheckDone(c));
      acts := ThenAct(r, acts, Inner(CheckDone(c)));
    }
  }

  // A new Submit gets to the send.
  lemma NewSubmit(r: ResourceState) returns (acts: seq<Act>, c: nat)
    requires CallsAreUpdates(r) && r.mux.phase.Select? && !r.mux.done && Unlocked(r)
    ensures Acts(r, acts) && OnItsWay(r, Outcome(r, acts)) && CallAt(Outcome(r, acts).mux, c, Checked)
  {
    c := |r.hist|;
    var change := Change([], Healthy);
    UpdateEffect(r, change);
    acts := Just(r, Update(change));
    var more := ToSend(Outcome(r, acts), c);
    acts := JoinActs(r, acts, more);
  }

  ghost predicate SubscribingAt(r: ResourceState, v: nat) {
    v in r.watchers && r.watchers[v].Subscribing?
  }

  // The watchers that hold the read lock.
  ghost function Holders(r: ResourceState): set<nat> {
    set v | v in r.watchers && r.watchers[v].Subscribing?
  }

  // What the admission of a watcher leaves alone.
  ghost predicate Admitting(a: ResourceState, b: ResourceState) {
    && b.mux.phase.Select? && b.mux.done == a.mux.done && a.mux.outputs <= b.mux.outputs && b.channels == a.channels
  }

  lemma RegisterEffect(r: ResourceState, v: nat)
    requires r.mux.phase.Select? && SubAt(r.mux, v, Offering)
    ensures CanAct(r, Inner(Register(v)))
    ensures var r' := Act1(r, Inner(Register(v)));
            && CanAct(r', Inner(SubReturn(v)))
            && var r'' := Act1(r', Inner(SubReturn(v)));
               && r'' == r.(mux := r''.mux) && r''.mux.phase.Select? && SubAt(r''.mux, v, Answered)
               && r''.mux.done == r.mux.done && r''.mux.outputs == r.mux.outputs + {v}
  {
  }

  lemma Subscribed(r: ResourceState, v: nat) returns (acts: seq<Act>)
    requires r.mux.phase.Select? && v in r.mux.subs && !r.mux.subs[v].pc.Waiting?
    ensures Acts(r, acts)
    ensures var r' := Outcome(r, acts);
            && r' == r.(mux := r'.mux) && Admitting(r, r')
            && (SubAt(r'.mux, v, Answered) || SubAt(r'.mux, v, TurnedAway))
  {
    acts := [];
    if r.mux.subs[v].pc.Offering? {
      RegisterEffect(r, v);
      acts := Just(r, Inner(Register(v)));
      acts := ThenAct(r, acts, Inner(SubReturn(v)));
    }
  }

  // A watcher gets through its subscription and takes its snapshot.
  lemma Admit(r: ResourceState, v: nat) returns (acts: seq<Act>)
    requires r.mux.phase.Select? && SubscribingAt(r, v) && r.hist != []
    requires v in r.mux.subs && !r.mux.subs[v].pc.Waiting?
    ensures Acts(r, acts)
    ensures Admitting(r, Outcome(r, acts)) && Outcome(r, acts).watchers == r.watchers[v := Replaying]
  {
    acts := Subscribed(r, v);
    acts := ThenAct(r, acts, WatchSnapshot(v));
  }

  lemma HoldersShrink(r: ResourceState, r': ResourceState, v: nat)
    requires SubscribingAt(r, v) && r'.watchers == r.watchers[v := Replaying]
    ensures Holders(r') < Holders(r)
  {
    assert v in Holders(r) && v !in Holders(r');
  }

  lemma NextHolder(r: ResourceState) returns (v: nat)
    requires SinkInv(r.mux) && WatchersOk(r) && r.mux.phase.Select? && !Unlocked(r)
    ensures SubscribingAt(r, v) && v in r.mux.subs && !r.mux.subs[v].pc.Waiting?
  {
    v :| v in r.watchers && r.watchers[v].Subscribing?;
    assert v in r.mux.subs.Keys && StreamInv(r.mux, v);
  }

  lemma UnlockAll(r: ResourceState) returns (acts: seq<Act>)
    requires WInv(r) && r.mux.phase.Select?
    ensures Acts(r, acts) && Admitting(r, Outcome(r, acts)) && Unlocked(Outcome(r, acts))
    decreases Holders(r)
  {
    acts := [];
    if !Unlocked(r) {
      var v := NextHolder(r);
      acts := Admit(r, v);
      ActsKeepInv(r, acts);
      HoldersShrink(r, Outcome(r, acts), v);
      var rest := UnlockAll(Outcome(r, acts));
      acts := JoinActs(r, acts, rest);
    }
  }

  lemma OvertakeByNew(r: ResourceState, w: nat) returns (acts: seq<Act>)
    requires WInv(r) && r.mux.phase.Select? && !r.mux.done
    requires w in r.mux.outputs && w in r.channels && r.channels[w] == []
    ensures Acts(r, acts) && w in Outcome(r, acts).channels && BroadcastFirst(Outcome(r, acts).channels[w])
  {
    acts := UnlockAll(r);
    ActsKeepInv(r, acts);
    var r1 := Outcome(r, acts);
    AllKnown(r1, w);
    var more, c := NewSubmit(r1);
    var rest := SendAndDeliver(Outcome(r1, more), c, w);
    more := JoinActs(r1, more, rest);
    acts := JoinActs(r, acts, more);
  }

  lemma Overtake(r: ResourceState, w: nat) returns (acts: seq<Act>)
    requires WInv(r) && Overtakable(r, w) && w in r.channels && r.channels[w] == []
    ensures Acts(r, acts) && w in Outcome(r, acts).channels && BroadcastFirst(Outcome(r, acts).channels[w])
  {
    if w in Todo(r.mux.phase) {
      AllKnown(r, w);
      acts := ServeOne(r, w);
    } else {
      MainLoopStill(r.mux);
      acts := OvertakeLater(r, w);
    }
  }

  lemma OvertakeLater(r: ResourceState, w: nat) returns (acts: seq<Act>)
    requires WInv(r) && InMain(r.mux) && !Wedged(r) && (!r.mux.done || !NoSendLeft(r.mux))
    requires w in r.mux.outputs && w !in Todo(r.mux.phase) && w in r.channels && r.channels[w] == []
    ensures Acts(r, acts) && w in Outcome(r, acts).channels && BroadcastFirst(Outcome(r, acts).channels[w])
  {
    acts := ToSelect(r);
    ActsKeepInv(r, acts);
    SendStillLeft(r, Outcome(r, acts));
    var more := OvertakeAtSelect(Outcome(r, acts), w);
    acts := JoinActs(r, acts, more);
  }

  lemma SendStillLeft(a: ResourceState, b: ResourceState)
    requires Undisturbed(a, b) && b.mux.phase.Select? && (!a.mux.done || !NoSendLeft(a.mux))
    ensures !b.mux.done || !NoSendLeft(b.mux)
  {
  }

  lemma OvertakeAtSelect(r: ResourceState, w: nat) returns (acts: seq<Act>)
    requires WInv(r) && r.mux.phase.Select? && (!r.mux.done || !NoSendLeft(r.mux))
    requires w in r.mux.outputs && w in r.channels && r.channels[w] == []
    ensures Acts(r, acts) && w in Outcome(r, acts).channels && BroadcastFirst(Outcome(r, acts).channels[w])
  {
    if r.mux.done {
      AllKnown(r, w);
      var c :| c in r.mux.calls && r.mux.calls[c].pc.Checked?;
      acts := SendAndDeliver(r, c, w);
    } else {
      acts := OvertakeByNew(r, w);
    }
  }

  lemma MainLoopStill(m: Mux<S>)
    requires LockInv(m) && m.cap == 0 && (!m.done || !NoSendLeft(m))
    ensures InMain(m)
  {
  }

  // The promise that the replay comes before any future update, exactly: from a watcher that
  // is about to replay, with nothing in its channel, it is kept on every continuation if and
  // only if no broadcast can still reach the watcher. On an open resource whose broadcast is
  // not wedged one always can.
  lemma ReplayComesFirstIff(initial: S, acts: seq<Act>, r: ResourceState, w: nat)
    requires WatchReached(initial, acts, r)
    requires w in r.watchers && r.watchers[w].Replaying? && w in r.channels && r.channels[w] == []
    requires w in r.mux.subs && Registered(r.mux.subs[w].pc)
    ensures KeepsOrder(r, w) <==> !Overtakable(r, w)
  {
    ReachedWInv(initial, acts, r);
    ReachedNothingPending(initial, acts, r);
    if Overtakable(r, w) {
      var more := Overtake(r, w);
    } else {
      assert ChannelOk(r, w);
      forall more | Acts(r, more)
        ensures w in Outcome(r, more).channels && !BroadcastFirst(Outcome(r, more).channels[w])
      {
        NotOvertaken(r, w, more);
      }
    }
  }
}
