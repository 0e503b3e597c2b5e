// Interleavings on which ListAndWatch does less than its comments promise.
module WatchTraces {
  import opened MuxProtocol
  import opened Resources
  import opened Watch
  import opened WatchOrder

  lemma TwoPastTheLock(initial: S, c1: Change, c2: Change) returns (acts: seq<Act>)
    ensures Acts(New(initial), acts)
    ensures var r := Outcome(New(initial), acts);
            && r.changes == [c1, c2] && r.watchers == map[] && |r.hist| == 3
            && r.mux == Make<S>(0).(calls := map[1 := Call(r.hist[1], Arrived), 2 := Call(r.hist[2], Arrived)])
  {
    acts := ThenAct(New(initial), [], Update(c1));
    acts := ThenAct(New(initial), acts, Update(c2));
  }

  lemma OneLocked(initial: S, c1: Change, c2: Change) returns (acts: seq<Act>)
    ensures Acts(New(initial), acts)
    ensures var r := Outcome(New(initial), acts);
            && r.changes == [c1, c2] && r.watchers == map[] && |r.hist| == 3
            && r.mux == Make<S>(0).(calls := map[1 := Call(r.hist[1], Locked), 2 := Call(r.hist[2], Arrived)])
  {
    acts := TwoPastTheLock(initial, c1, c2);
    acts := ThenAct(New(initial), acts, Inner(RLock(1)));
  }

  lemma OneAtTheSelect(initial: S, c1: Change, c2: Change) returns (acts: seq<Act>)
    ensures Acts(New(initial), acts)
    ensures var r := Outcome(New(initial), acts);
            && r.changes == [c1, c2] && r.watchers == map[] && |r.hist| == 3
            && r.mux == Make<S>(0).(calls := map[1 := Call(r.hist[1], Checked), 2 := Call(r.hist[2], Arrived)])
  {
    acts := OneLocked(initial, c1, c2);
    acts := ThenAct(New(initial), acts, Inner(CheckDone(1)));
  }

  // Two Submits, both past the lock and at the select of the broadcast.
  lemma TwoAtTheSelect(initial: S, c1: Change, c2: Change) returns (acts: seq<Act>)
    ensures Acts(New(initial), acts)
    ensures var r := Outcome(New(initial), acts);
            && r.changes == [c1, c2] && r.watchers == map[]
            && CallAt(r.mux, 1, Checked) && CallAt(r.mux, 2, Checked)
            && r.mux.cap == 0 && r.mux.phase.Select? && r.mux.accepted == [] && r.mux.outputs == {} && !r.mux.done
  {
    var r := New(initial);
    acts := OneAtTheSelect(initial, c1, c2);
    acts := ThenAct(r, acts, Inner(RLock(2)));
    acts := ThenAct(r, acts, Inner(CheckDone(2)));
  }

  // Overlapping Submits may be broadcast in the opposite order: the older state goes last.
  lemma OverlappingSubmitsReorder(initial: S, c1: Change, c2: Change) returns (acts: seq<Act>)
    ensures Acts(New(initial), acts)
    ensures var r := Outcome(New(initial), acts);
            && r.changes == [c1, c2]
            && |r.mux.accepted| == 2 && r.mux.accepted[0].call == 2 && r.mux.accepted[1].call == 1
  {
    var r := New(initial);
    acts := TwoAtTheSelect(initial, c1, c2);
    acts := ThenAct(r, acts, Inner(Send(2)));
    acts := ThenAct(r, acts, Inner(FanOutDone));
    acts := ThenAct(r, acts, Inner(Send(1)));
  }

  lemma WatcherRegistered(initial: S) returns (acts: seq<Act>)
    ensures Acts(New(initial), acts)
    ensures Outcome(New(initial), acts) ==
            New(initial).(watchers := map[0 := Subscribing], channels := map[0 := []], taken := map[0 := 0],
            mux := Make<S>(0).(outputs := {0}, subs := map[0 := Sub(Waiting, [], 0, 0)], phase := AckSub(0)))
  {
    acts := ThenAct(New(initial), [], WatchBegin(0));
    acts := ThenAct(New(initial), acts, Inner(Register(0)));
  }

  lemma WatcherOpened(initial: S) returns (acts: seq<Act>)
    ensures Acts(New(initial), acts)
    ensures Outcome(New(initial), acts) ==
            New(initial).(watchers := map[0 := Replaying], seenAt := map[0 := 0], channels := map[0 := []],
              taken := map[0 := 0],
            mux := Make<S>(0).(outputs := {0}, subs := map[0 := Sub(Answered, [], 0, 0)]))
  {
    var r := New(initial);
    acts := WatcherRegistered(initial);
    acts := ThenAct(r, acts, Inner(SubReturn(0)));
    acts := ThenAct(r, acts, WatchSnapshot(0));
  }

  lemma NewerStateMade(initial: S, c: Change) returns (acts: seq<Act>)
    ensures Acts(New(initial), acts)
    ensures var now := Overridden(initial, c.instances, c.health);
            Outcome(New(initial), acts) ==
            New(initial).(changes := [c], hist := [initial, now],
            watchers := map[0 := Replaying], seenAt := map[0 := 0], channels := map[0 := []], taken := map[0 := 0],
            mux := Make<S>(0).(outputs := {0}, subs := map[0 := Sub(Answered, [], 0, 0)],
            calls := map[1 := Call(now, Arrived)]))
  {
    acts := WatcherOpened(initial);
    acts := ThenAct(New(initial), acts, Update(c));
  }

  lemma NewerStateOnItsWay(initial: S, c: Change) returns (acts: seq<Act>)
    ensures Acts(New(initial), acts)
    ensures var now := Overridden(initial, c.instances, c.health);
            Outcome(New(initial), acts) ==
            New(initial).(changes := [c], hist := [initial, now],
            watchers := map[0 := Replaying], seenAt := map[0 := 0], channels := map[0 := []], taken := map[0 := 0],
            mux := Make<S>(0).(outputs := {0}, subs := map[0 := Sub(Answered, [], 0, 0)],
            calls := map[1 := Call(now, Locked)]))
  {
    acts := NewerStateMade(initial, c);
    acts := ThenAct(New(initial), acts, Inner(RLock(1)));
  }

  lemma NewerStateTaken(initial: S, c: Change) returns (acts: seq<Act>)
    ensures Acts(New(initial), acts)
    ensures var r := Outcome(New(initial), acts);
            var now := Overridden(initial, c.instances, c.health);
            && r.changes == [c] && r.watchers == map[0 := Replaying] && r.seenAt == map[0 := 0]
            && r.hist == [initial, now] && r.channels == map[0 := []] && r.taken == map[0 := 0]
            && r.mux.phase == FanOut(Msg(1, now), {0}, [], false) && r.mux.outputs == {0} && !r.mux.done &&
              r.mux.cap == 0
            && r.mux.subs == map[0 := Sub(Answered, [], 0, 0)] && r.mux.calls.Keys == {1}
  {
    var r := New(initial);
    acts := NewerStateOnItsWay(initial, c);
    acts := ThenAct(r, acts, Inner(CheckDone(1)));
    acts := ThenAct(r, acts, Inner(Send(1)));
  }

  // The replay is sent after the lock is released: it may arrive behind a newer state.
  lemma ReplayMayComeLate(initial: S, c: Change) returns (acts: seq<Act>)
    ensures Acts(New(initial), acts)
    ensures var r := Outcome(New(initial), acts);
            0 in r.channels && r.changes == [c] &&
            r.channels[0] == [Broadcast(Overridden(initial, c.instances, c.health)), Replayed(initial)]
  {
    acts := NewerStateTaken(initial, c);
    acts := ThenAct(New(initial), acts, Inner(Deliver(0, false)));
    acts := ThenAct(New(initial), acts, Replay(0));
  }

  // One broadcast delivered before the replay, `run` back at its select.
  lemma OneBroadcastBefore(initial: S, c: Change) returns (acts: seq<Act>)
    ensures Acts(New(initial), acts)
    ensures var r := Outcome(New(initial), acts);
            && r.watchers == map[0 := Replaying] && |r.hist| == 2 && r.taken == map[0 := 0]
            && r.channels == map[0 := [Broadcast(Overridden(initial, c.instances, c.health))]]
            && r.mux.phase.Select? && r.mux.outputs == {0} && !r.mux.done && r.mux.cap == 0
            && 0 in r.mux.subs && r.mux.calls.Keys == {1}
  {
    acts := NewerStateTaken(initial, c);
    var r := Outcome(New(initial), acts);
    DeliverEffect(r, 0);
    var more := Just(r, Inner(Deliver(0, false)));
    DeliveryKeeps(r, 0);
    var r1 := Outcome(r, more);
    assert r.mux.phase.todo - {0} == {};
    assert r1.channels.Keys == {0} && r1.channels[0] == [Broadcast(r.mux.phase.msg.value)];
    assert r1.channels == map[0 := [Broadcast(r.mux.phase.msg.value)]];
    FanOutEnds(r1);
    more := ThenAct(r, more, Inner(FanOutDone));
    acts := JoinActs(New(initial), acts, more);
  }

  lemma DeliveryKeeps(r: ResourceState, v: nat)
    requires CanAct(r, Inner(Deliver(v, false)))
    ensures var r' := Act1(r, Inner(Deliver(v, false))); r'.taken == r.taken && r'.mux.subs.Keys == r.mux.subs.Keys
  {
  }

  lemma FanOutEnds(r: ResourceState)
    requires r.mux.phase.FanOut? && r.mux.phase.todo == {} && !r.mux.phase.closing
    ensures CanAct(r, Inner(FanOutDone))
    ensures var r' := Act1(r, Inner(FanOutDone));
            Undisturbed(r, r') && r'.mux.phase.Select? && r'.channels == r.channels && r'.taken == r.taken &&
            r'.mux.subs == r.mux.subs
  {
  }

  lemma SecondAtTheSend(initial: S, c1: Change, c2: Change) returns (acts: seq<Act>)
    ensures Acts(New(initial), acts)
    ensures var r := Outcome(New(initial), acts);
            && r.watchers == map[0 := Replaying] && r.taken == map[0 := 0]
            && r.channels == map[0 := [Broadcast(Overridden(initial, c1.instances, c1.health))]]
            && r.mux.phase.Select? && r.mux.outputs == {0} && !r.mux.done && r.mux.cap == 0
            && 0 in r.mux.subs && CallAt(r.mux, 2, Checked)
  {
    acts := OneBroadcastBefore(initial, c1);
    var r := Outcome(New(initial), acts);
    UpdateEffect(r, c2);
    var more := Just(r, Update(c2));
    var rest := ToSend(Outcome(r, more), 2);
    more := JoinActs(r, more, rest);
    acts := JoinActs(New(initial), acts, more);
  }

  // Two updates between a watcher's snapshot and its replay fill its channel, which nobody
  // reads yet: ListAndWatch never returns, on an open resource.
  lemma ReplayMayBlockForEver(initial: S, c1: Change, c2: Change) returns (acts: seq<Act>)
    ensures Acts(New(initial), acts)
    ensures var r := Outcome(New(initial), acts);
            0 in r.watchers && r.watchers[0].Replaying? && !r.mux.done && !MayReturn(r, 0)
  {
    acts := SecondAtTheSend(initial, c1, c2);
    var r := Outcome(New(initial), acts);
    SendEffect(r, 2);
    var more := Just(r, Inner(Send(2)));
    var rest := ServeOne(Outcome(r, more), 0);
    more := JoinActs(r, more, rest);
    acts := JoinActs(New(initial), acts, more);
    ListAndWatchReturnsIff(initial, acts, Outcome(New(initial), acts), 0);
  }
}
