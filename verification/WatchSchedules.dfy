// What a caller of a resource can arrange, and what goes wrong if Submits overlap.
module WatchSchedules {
  import opened MuxProtocol
  import opened MuxSafety
  import opened Resources
  import opened Watch
  import opened WatchOrder

  // ---- no update around the subscription ----

  // No Submit is under way and `run` has nothing to deliver.
  ghost predicate Quiet(m: Mux<S>) {
    && m.cap == 0 && m.input == [] && (forall c | c in m.calls :: m.calls[c].pc.Returned?)
    && Todo(m.phase) == {} && Pending(m.phase) == []
  }

  lemma QuietStep(m: Mux<S>, l: Label<S>)
    requires Enabled(m, l) && !l.Arrive? && Quiet(m)
    ensures Quiet(Apply(m, l)) && !l.Deliver?
  {
    assert !SubmitStep(l);
    MuxProtocol.CallsKept(m, l);
  }

  ghost predicate NoUpdates(acts: seq<Act>) {
    forall a | a in acts :: !a.Update?
  }

  // The watcher's snapshot, once taken, is the current state.
  ghost predicate SnapshotCurrent(r: ResourceState, w: nat) {
    w in r.seenAt ==> r.seenAt[w] == |r.hist| - 1
  }

  lemma QuietAct(r: ResourceState, a: Act, w: nat)
    requires CanAct(r, a) && !a.Update? && Quiet(r.mux) && SnapshotCurrent(r, w) && w in r.mux.subs
    ensures Quiet(Act1(r, a).mux) && SnapshotCurrent(Act1(r, a), w) && w in Act1(r, a).mux.subs
    ensures Act1(r, a).mux.subs[w].received == r.mux.subs[w].received
    ensures Act1(r, a).hist == r.hist && Act1(r, a).changes == r.changes && Act1(r, a).initial == r.initial
  {
    if a.Inner? {
      QuietStep(r.mux, a.l);
      RecordKept(r.mux, a.l, w);
    }
  }

  lemma {:induction false} QuietAlong(r: ResourceState, acts: seq<Act>, w: nat)
    requires Acts(r, acts) && NoUpdates(acts) && Quiet(r.mux) && SnapshotCurrent(r, w) && w in r.mux.subs
    ensures var r' := Outcome(r, acts);
            && SnapshotCurrent(r', w) && w in r'.mux.subs && r'.mux.subs[w].received == r.mux.subs[w].received
            && r'.hist == r.hist && r'.changes == r.changes && r'.initial == r.initial
    decreases |acts|
  {
    if acts != [] {
      QuietAct(r, acts[0], w);
      QuietAlong(Act1(r, acts[0]), acts[1..], w);
    }
  }

  // The channel only grows.
  lemma {:induction false} ChannelGrows(r: ResourceState, acts: seq<Act>, w: nat)
    requires Acts(r, acts) && w in r.channels && w in r.watchers
    ensures w in Outcome(r, acts).channels && r.channels[w] <= Outcome(r, acts).channels[w]
    decreases |acts|
  {
    if acts != [] {
      ChannelGrowsAt(r, acts[0], w);
      ChannelGrows(Act1(r, acts[0]), acts[1..], w);
    }
  }

  lemma ChannelGrowsAt(r: ResourceState, a: Act, w: nat)
    requires CanAct(r, a) && w in r.channels && w in r.watchers
    ensures w in Act1(r, a).channels && w in Act1(r, a).watchers && r.channels[w] <= Act1(r, a).channels[w]
  {
  }

  lemma OnlyReplay(channel: seq<Seen>, s: S)
    requires Broadcasts(channel) == [] && Replays(channel) == [s]
    ensures channel == [Replayed(s)]
  {
    var n := |channel| - 1;
    var rest := Replays(channel[..n]);
    match channel[n]
    case Broadcast(_) =>
      assert false;
    case Replayed(x) =>
      assert rest + [x] == [s] && |rest| == 0 && (rest + [x])[0] == s;
      EmptyChannel(channel[..n]);
      assert channel == channel[..n] + [channel[n]];
  }

  lemma EmptyChannel(channel: seq<Seen>)
    requires Broadcasts(channel) == [] && Replays(channel) == []
    ensures channel == []
  {
  }

  // A watch from its beginning to its replay with nothing submitted in between.
  lemma QuietWatch(r0: ResourceState, w: nat, during: seq<Act>, r1: ResourceState)
    requires WInv(r0) && CanAct(r0, WatchBegin(w)) && Quiet(r0.mux)
    requires Acts(Act1(r0, WatchBegin(w)), during) && NoUpdates(during)
    requires r1 == Outcome(Act1(r0, WatchBegin(w)), during)
    requires w in r1.watchers && r1.watchers[w].Watching?
    ensures w in r1.channels && r1.channels[w] == [Replayed(r0.hist[|r0.hist| - 1])]
  {
    var r := Act1(r0, WatchBegin(w));
    ActKeepsInv(r0, WatchBegin(w));
    BeganQuietly(r0, w);
    QuietAlong(r, during, w);
    ActsKeepInv(r, during);
    assert ChannelOk(r1, w);
    ReplayedAtOnce(r1, w);
  }

  lemma BeganQuietly(r0: ResourceState, w: nat)
    requires WatchersOk(r0) && CanAct(r0, WatchBegin(w)) && Quiet(r0.mux)
    ensures var r := Act1(r0, WatchBegin(w));
            && Quiet(r.mux) && SnapshotCurrent(r, w) && w in r.mux.subs && r.mux.subs[w].received == [] &&
              r.hist == r0.hist
  {
    assert w !in r0.seenAt;
  }

  lemma ReplayedAtOnce(r: ResourceState, w: nat)
    requires w in r.watchers && r.watchers[w].Watching? && w in r.channels && w in r.mux.subs && ChannelOk(r, w)
    requires r.mux.subs[w].received == [] && SnapshotCurrent(r, w)
    ensures r.hist != [] && r.channels[w] == [Replayed(r.hist[|r.hist| - 1])]
  {
    OnlyReplay(r.channels[w], r.hist[r.seenAt[w]]);
  }

  lemma IdleIsQuiet(r: ResourceState)
    requires WInv(r) && r.mux.phase.Select? && forall c | c in r.mux.calls :: r.mux.calls[c].pc.Returned?
    ensures Quiet(r.mux) && r.hist != [] && r.hist[|r.hist| - 1] == StateAfter(r, |r.changes|)
  {
  }

  // What a caller can arrange: if every Submit has returned and the broadcast is idle when a
  // watch begins, and nothing is submitted before its replay, the first thing in the channel
  // is the state at that time, whatever comes later.
  lemma ReplayFirstWhenQuiet(
      initial: S, before: seq<Act>, r0: ResourceState, w: nat, during: seq<Act>, r1: ResourceState,
      after: seq<Act>, r2: ResourceState)
    requires WatchReached(initial, before, r0) && CanAct(r0, WatchBegin(w))
    requires (forall c | c in r0.mux.calls :: r0.mux.calls[c].pc.Returned?) && r0.mux.phase.Select?
    requires Acts(Act1(r0, WatchBegin(w)), during) && NoUpdates(during)
    requires r1 == Outcome(Act1(r0, WatchBegin(w)), during)
    requires w in r1.watchers && r1.watchers[w].Watching?
    requires Acts(r1, after) && r2 == Outcome(r1, after)
    ensures w in r2.channels && r2.channels[w] != []
    ensures r2.channels[w][0] == Replayed(StateAfter(r0, |r0.changes|))
  {
    ReachedWInv(initial, before, r0);
    IdleIsQuiet(r0);
    QuietWatch(r0, w, during, r1);
    ChannelGrows(r1, after, w);
  }

  // With the replay in front, and Submits made one at a time, convergence has no exception.
  lemma ConvergesWhenReplayFirst(initial: S, acts: seq<Act>, r: ResourceState, w: nat)
    requires WatchReached(initial, acts, r) && OneSubmitAtATime(New(initial), acts) && AllBroadcast(r)
    requires w in r.watchers && r.watchers[w].Watching? && w in r.mux.outputs && r.mux.phase.Select?
    requires w in r.channels && r.channels[w] != [] && r.channels[w][0].Replayed?
    ensures r.channels[w][|r.channels[w]| - 1].s == StateAfter(r, |r.changes|)
  {
    WatcherConverges(initial, acts, r, w);
    IdleStreams(initial, acts, r, w);
    OneReplayInFront(r.channels[w]);
  }

  lemma OneReplayInFront(channel: seq<Seen>)
    requires channel != [] && channel[0].Replayed? && |Replays(channel)| == 1
    ensures channel[|channel| - 1].Broadcast? || Broadcasts(channel) == []
  {
    var n := |channel| - 1;
    if n > 0 && channel[n].Replayed? {
      FrontReplayCounts(channel[..n]);
    } else if n == 0 {
      assert channel[..0] == [];
    }
  }

  lemma {:induction false} FrontReplayCounts(channel: seq<Seen>)
    requires channel != [] && channel[0].Replayed?
    ensures 1 <= |Replays(channel)|
    decreases |channel|
  {
    if |channel| > 1 {
      FrontReplayCounts(channel[..|channel| - 1]);
    }
  }

  // ---- overlapping Submits ----

  // Past the lock of the resource and not yet accepted by the broadcast.
  predicate UnderWay(r: ResourceState, c: nat) {
    c in r.mux.calls && (r.mux.calls[c].pc.Arrived? || r.mux.calls[c].pc.Locked? || r.mux.calls[c].pc.Checked?)
  }

  // No registered watcher is short of its replay with a full channel.
  ghost predicate NoneClogged(r: ResourceState) {
    forall v | v in r.mux.outputs ::
      v in r.watchers && v in r.channels && (r.watchers[v].Watching? || |r.channels[v]| < CHANNEL_CAPACITY)
  }

  ghost function Unready(r: ResourceState): set<nat> {
    set v | v in r.mux.outputs && v in r.watchers && !r.watchers[v].Watching?
  }

  // What getting a watcher ready leaves alone.
  ghost predicate Readied(a: ResourceState, b: ResourceState) {
    && b.mux.calls == a.mux.calls && b.mux.outputs == a.mux.outputs && b.mux.done == a.mux.done
    && b.mux.accepted == a.mux.accepted
  }

  lemma SnapshotEffect(r: ResourceState, v: nat)
    requires CanAct(r, WatchSnapshot(v))
    ensures var r' := Act1(r, WatchSnapshot(v));
            && r'.mux == r.mux && r'.watchers == r.watchers[v := Replaying] && r'.channels == r.channels
            && r'.taken == r.taken && r'.hist == r.hist && v in r'.seenAt && r'.seenAt[v] < |r'.hist|
  {
  }

  lemma ReplayEffect(r: ResourceState, v: nat)
    requires CanAct(r, Replay(v))
    ensures var r' := Act1(r, Replay(v));
            && r'.mux == r.mux && r'.watchers == r.watchers[v := Watching]
            && v in r'.channels
            && forall x | x in r.channels && x != v :: x in r'.channels && r'.channels[x] == r.channels[x]
  {
  }

  // A registered watcher takes its snapshot, if it has not, and replays it.
  lemma Ready(r: ResourceState, v: nat) returns (acts: seq<Act>)
    requires Known(r, v) && !r.watchers[v].Watching? && |r.channels[v]| < CHANNEL_CAPACITY
    requires r.hist != [] && SubAt(r.mux, v, Answered) && r.mux.subs[v].closes == 0
    requires r.watchers[v].Replaying? ==> v in r.seenAt && r.seenAt[v] < |r.hist|
    ensures Acts(r, acts)
    ensures var r' := Outcome(r, acts);
            && r'.mux == r.mux && r'.watchers == r.watchers[v := Watching]
            && v in r'.channels
            && forall x | x in r.channels && x != v :: x in r'.channels && r'.channels[x] == r.channels[x]
  {
    acts := [];
    if r.watchers[v].Subscribing? {
      SnapshotEffect(r, v);
      acts := Just(r, WatchSnapshot(v));
    }
    var r1 := Outcome(r, acts);
    ReplayEffect(r1, v);
    acts := ThenAct(r, acts, Replay(v));
  }

  // `run` answers the watcher it has just registered, if it has not yet.
  lemma Answer(r: ResourceState, v: nat) returns (acts: seq<Act>)
    requires SinkInv(r.mux) && v in r.mux.outputs && InMain(r.mux)
    ensures Acts(r, acts)
    ensures var r' := Outcome(r, acts);
            && r' == r.(mux := r'.mux) && Readied(r, r') && InMain(r'.mux) && SubAt(r'.mux, v, Answered)
            && r'.mux.subs[v].closes == r.mux.subs[v].closes == 0
  {
    acts := [];
    assert StreamInv(r.mux, v);
    if r.mux.subs[v].pc.Waiting? {
      acts := Just(r, Inner(SubReturn(v)));
    }
  }

  lemma ReadyOne(r: ResourceState, v: nat) returns (acts: seq<Act>)
    requires WInv(r) && NoneClogged(r) && InMain(r.mux) && v in Unready(r)
    ensures Acts(r, acts)
    ensures var r' := Outcome(r, acts);
            Readied(r, r') && InMain(r'.mux) && NoneClogged(r') && Unready(r') < Unready(r)
  {
    var some := Answer(r, v);
    ActsKeepInv(r, some);
    StillUnready(r, Outcome(r, some));
    var rest := ReadyAnswered(Outcome(r, some), v);
    acts := JoinActs(r, some, rest);
  }

  lemma StillUnready(r: ResourceState, r': ResourceState)
    requires NoneClogged(r) && r' == r.(mux := r'.mux) && r'.mux.outputs == r.mux.outputs
    ensures NoneClogged(r') && Unready(r') == Unready(r)
  {
  }

  lemma ReadyAnswered(r: ResourceState, v: nat) returns (acts: seq<Act>)
    requires WInv(r) && NoneClogged(r) && InMain(r.mux) && v in Unready(r)
    requires SubAt(r.mux, v, Answered) && r.mux.subs[v].closes == 0
    ensures Acts(r, acts)
    ensures var r' := Outcome(r, acts);
            Readied(r, r') && InMain(r'.mux) && NoneClogged(r') && Unready(r') < Unready(r)
  {
    ReadyKnown(r, v);
    acts := Ready(r, v);
    OneLessUnready(r, Outcome(r, acts), v);
  }

  lemma ReadyKnown(r: ResourceState, v: nat)
    requires WInv(r) && v in r.mux.outputs
    ensures Known(r, v) && r.hist != []
    ensures r.watchers[v].Replaying? ==> v in r.seenAt && r.seenAt[v] < |r.hist|
  {
    AllKnown(r, v);
  }

  lemma OneLessUnready(r: ResourceState, r': ResourceState, v: nat)
    requires NoneClogged(r) && v in Unready(r) && r'.mux.outputs == r.mux.outputs
    requires r'.watchers == r.watchers[v := Watching]
    requires v in r'.channels
    requires forall x | x in r.channels && x != v :: x in r'.channels && r'.channels[x] == r.channels[x]
    ensures NoneClogged(r') && Unready(r') < Unready(r)
  {
    assert v !in Unready(r');
  }

  lemma ReadyAll(r: ResourceState) returns (acts: seq<Act>)
    requires WInv(r) && NoneClogged(r) && InMain(r.mux)
    ensures Acts(r, acts)
    ensures Readied(r, Outcome(r, acts)) && InMain(Outcome(r, acts).mux) && Unready(Outcome(r, acts)) == {}
    decreases Unready(r)
  {
    if Unready(r) == {} {
      acts := [];
    } else {
      var v :| v in Unready(r);
      var some := ReadyOne(r, v);
      ActsKeepInv(r, some);
      var rest := ReadyAll(Outcome(r, some));
      acts := JoinActs(r, some, rest);
    }
  }

  lemma ReadyIsUnwedged(r: ResourceState)
    requires LogInv(r.mux) && Unready(r) == {}
    ensures !Wedged(r)
  {
    forall v
      ensures WedgedOn(r, v) ==> v in Unready(r)
    {
    }
  }

  // Both calls at the send, `run` at its select, every registered watcher reading.
  ghost predicate BothAtSend(r: ResourceState, c1: nat, c2: nat) {
    r.mux.phase.Select? && !r.mux.done && CallAt(r.mux, c1, Checked) && CallAt(r.mux, c2, Checked) && Unready(r) == {}
  }

  lemma BringToSend(r: ResourceState, c1: nat, c2: nat) returns (acts: seq<Act>)
    requires WInv(r) && NoneClogged(r) && !r.mux.done && UnderWay(r, c1) && UnderWay(r, c2) && c1 != c2
    ensures Acts(r, acts) && BothAtSend(Outcome(r, acts), c1, c2)
  {
    OpenIsInMain(r.mux);
    acts := ReadyAll(r);
    ActsKeepInv(r, acts);
    var r1 := Outcome(r, acts);
    ReadyIsUnwedged(r1);
    var more := ToSelect(r1);
    acts := JoinActs(r, acts, more);
    var r2 := Outcome(r1, more);
    assert Unready(r2) == {};
    more := BothToSend(r2, c1, c2);
    acts := JoinActs(r, acts, more);
  }

  lemma OpenIsInMain(m: Mux<S>)
    requires LockInv(m) && !m.done
    ensures InMain(m)
  {
  }

  lemma BothToSend(r: ResourceState, c1: nat, c2: nat) returns (acts: seq<Act>)
    requires r.mux.phase.Select? && !r.mux.done && UnderWay(r, c1) && UnderWay(r, c2) && c1 != c2 && Unready(r) == {}
    ensures Acts(r, acts) && BothAtSend(Outcome(r, acts), c1, c2)
  {
    acts := ToSend(r, c1);
    var r1 := Outcome(r, acts);
    var more := ToSend(r1, c2);
    assert Unready(Outcome(r1, more)) == {};
    acts := JoinActs(r, acts, more);
  }

  lemma SendLogs(r: ResourceState, c: nat)
    requires r.mux.phase.Select? && r.mux.cap == 0 && CallAt(r.mux, c, Checked)
    ensures CanAct(r, Inner(Send(c)))
    ensures var r' := Act1(r, Inner(Send(c)));
            && r'.mux.accepted == r.mux.accepted + [Msg(c, r.mux.calls[c].value)]
            && r'.mux.calls == r.mux.calls[c := r.mux.calls[c].(pc := Sent)]
            && r'.watchers == r.watchers && r'.mux.outputs == r.mux.outputs && InMain(r'.mux)
  {
  }

  // These two calls were the last to be accepted.
  ghost predicate LastTwo(r: ResourceState, first: nat, second: nat) {
    var log := r.mux.accepted;
    |log| >= 2 && log[|log| - 2].call == first && log[|log| - 1].call == second
  }

  lemma SendBoth(r: ResourceState, first: nat, second: nat) returns (acts: seq<Act>)
    requires WInv(r) && BothAtSend(r, second, first) && first != second
    ensures Acts(r, acts) && LastTwo(Outcome(r, acts), first, second)
  {
    SendLogs(r, first);
    var some := Just(r, Inner(Send(first)));
    ActsKeepInv(r, some);
    var rest := SendSecond(Outcome(r, some), first, second);
    acts := JoinActs(r, some, rest);
  }

  lemma SendSecond(r: ResourceState, first: nat, second: nat) returns (acts: seq<Act>)
    requires WInv(r) && InMain(r.mux) && CallAt(r.mux, second, Checked) && Unready(r) == {}
    requires r.mux.accepted != [] && r.mux.accepted[|r.mux.accepted| - 1].call == first
    ensures Acts(r, acts) && LastTwo(Outcome(r, acts), first, second)
  {
    ReadyIsUnwedged(r);
    var some := ToSelect(r);
    var rest := SendLast(Outcome(r, some), first, second);
    acts := JoinActs(r, some, rest);
  }

  lemma SendLast(r: ResourceState, first: nat, second: nat) returns (acts: seq<Act>)
    requires r.mux.cap == 0 && r.mux.phase.Select? && CallAt(r.mux, second, Checked)
    requires r.mux.accepted != [] && r.mux.accepted[|r.mux.accepted| - 1].call == first
    ensures Acts(r, acts) && LastTwo(Outcome(r, acts), first, second)
  {
    SendLogs(r, second);
    acts := Just(r, Inner(Send(second)));
  }

  lemma SwapFrom(r: ResourceState, first: nat, second: nat) returns (more: seq<Act>)
    requires WInv(r) && !r.mux.done && NoneClogged(r)
    requires UnderWay(r, first) && UnderWay(r, second) && first != second
    ensures Acts(r, more) && LastTwo(Outcome(r, more), first, second)
  {
    var some := BringToSend(r, second, first);
    ActsKeepInv(r, some);
    var rest := SendBoth(Outcome(r, some), first, second);
    more := JoinActs(r, some, rest);
  }

  // The converse of the order result: any two Submits that overlap on an open resource can be
  // broadcast in either order, so that the older state may go last.
  lemma OverlappingSubmitsMaySwap(initial: S, acts: seq<Act>, r: ResourceState, first: nat, second: nat)
    returns (more: seq<Act>)
    requires WatchReached(initial, acts, r) && !r.mux.done && NoneClogged(r)
    requires UnderWay(r, first) && UnderWay(r, second) && first != second
    ensures Acts(r, more) && LastTwo(Outcome(r, more), first, second)
  {
    ReachedWInv(initial, acts, r);
    more := SwapFrom(r, first, second);
  }
}
