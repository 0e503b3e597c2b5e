// ListAndWatch against concurrent Submits (internal/plugin/resource.go). Updates are
// applied and snapshotted under the lock and broadcast outside it; a watcher subscribes to
// the broadcast and takes its snapshot under the read lock, and replays it outside.
module Watch {
  import opened MuxProtocol
  import opened MuxRuns
  import opened MuxSafety
  import opened Resources

  type S = InstanceMap

  // What a watcher's channel carries: its replay, or a broadcast snapshot.
  datatype Seen = Replayed(s: S) | Broadcast(s: S)

  // The channel of a watcher is made with room for two.
  const CHANNEL_CAPACITY := 2

  // Where a ListAndWatch call stands; it holds the read lock while subscribing.
  datatype WatchPc = Subscribing | Replaying | Watching

  // `hist[i]` is the instance map after the first i changes, the last entry the current one;
  // the Submit that made change i - 1 is call i of the broadcast mux. `seenAt` counts the
  // changes a watcher's snapshot includes, `taken` what its reader has received.
  datatype ResourceState = ResourceState(
    mux: Mux<S>,
    initial: S,
    changes: seq<Change>,
    hist: seq<S>,
    watchers: map<nat, WatchPc>,
    seenAt: map<nat, nat>,
    channels: map<nat, seq<Seen>>,
    taken: map<nat, nat>)

  datatype Act =
    | Update(change: Change)
    | WatchBegin(sink: nat)
    | WatchSnapshot(sink: nat)
    | Replay(sink: nat)
    | Read(sink: nat)
    | Inner(l: Label<S>)

  function New(initial: S): ResourceState {
    ResourceState(Make(0), initial, [], [initial], map[], map[], map[], map[])
  }

  predicate Unlocked(r: ResourceState) {
    forall w | w in r.watchers :: !r.watchers[w].Subscribing?
  }

  // A send to the channel does not block.
  predicate Room(r: ResourceState, s: nat) {
    s in r.channels && s in r.taken && |r.channels[s]| - r.taken[s] < CHANNEL_CAPACITY
  }

  // The replay is still to be sent and the channel is closed: the send panics.
  predicate ReplayPanics(r: ResourceState, s: nat) {
    s in r.watchers && r.watchers[s].Replaying? && s in r.mux.subs && r.mux.subs[s].closes > 0
  }

  predicate CanAct(r: ResourceState, a: Act) {
    match a
    // The write lock excludes readers; any number of Submits may be past it.
    case Update(_) => Unlocked(r) && r.hist != [] && |r.hist| !in r.mux.calls
    case WatchBegin(s) => s !in r.watchers && s !in r.mux.subs
    case WatchSnapshot(s) =>
      s in r.watchers && r.watchers[s].Subscribing? && r.hist != [] &&
      (SubAt(r.mux, s, Answered) || SubAt(r.mux, s, TurnedAway))
    case Replay(s) =>
      s in r.watchers && r.watchers[s].Replaying? && s in r.seenAt && r.seenAt[s] < |r.hist| &&
      Room(r, s) && !ReplayPanics(r, s)
    // The channel is handed out with the return of ListAndWatch, behind the replay.
    case Read(s) =>
      s in r.watchers && r.watchers[s].Watching? && s in r.channels && s in r.taken && r.taken[s] < |r.channels[s]|
    // So is the goroutine that will cancel.
    case Inner(l) =>
      !l.Arrive? && !l.Subscribe? && Enabled(r.mux, l) && (l.Deliver? ==> Room(r, l.sink)) &&
      (l.CallCancel? ==> l.sink in r.watchers && r.watchers[l.sink].Watching?)
  }

  function Act1(r: ResourceState, a: Act): ResourceState
    requires CanAct(r, a)
  {
    match a
    case Update(c) =>
      var now := Overridden(r.hist[|r.hist| - 1], c.instances, c.health);
      r.(changes := r.changes + [c], hist := r.hist + [now], mux := Apply(r.mux, Arrive(|r.hist|, now)))
    case WatchBegin(s) =>
      r.(watchers := r.watchers[s := Subscribing], channels := r.channels[s := []], taken := r.taken[s := 0],
      mux := Apply(r.mux, Subscribe(s)))
    case WatchSnapshot(s) => r.(watchers := r.watchers[s := Replaying], seenAt := r.seenAt[s := |r.hist| - 1])
    case Replay(s) =>
      r.(watchers := r.watchers[s := Watching],
      channels := r.channels[s := r.channels[s] + [Replayed(r.hist[r.seenAt[s]])]])
    case Read(s) => r.(taken := r.taken[s := r.taken[s] + 1])
    case Inner(l) =>
      var r' := r.(mux := Apply(r.mux, l));
      if l.Deliver? then r'.(channels := r.channels[l.sink := r.channels[l.sink] + [Broadcast(r.mux.phase.msg.value)]])
      else r'
  }

  predicate Acts(r: ResourceState, acts: seq<Act>)
    decreases |acts|
  {
    acts == [] || (CanAct(r, acts[0]) && Acts(Act1(r, acts[0]), acts[1..]))
  }

  function Outcome(r: ResourceState, acts: seq<Act>): ResourceState
    requires Acts(r, acts)
    decreases |acts|
  {
    if acts == [] then r else Outcome(Act1(r, acts[0]), acts[1..])
  }

  // ---- the invariant ----

  ghost predicate CallsAreUpdates(r: ResourceState) {
    && r.mux.cap == 0
    && r.hist != []
    && (forall c | c in r.mux.calls :: 1 <= c < |r.hist| && r.mux.calls[c].value == r.hist[c])
    && (forall c | 1 <= c < |r.hist| :: c in r.mux.calls)
  }

  ghost predicate HistoryOk(r: ResourceState) {
    && |r.hist| == |r.changes| + 1
    && forall i | 0 <= i < |r.hist| :: r.hist[i] == Applied(r.initial, r.changes[..i])
  }

  ghost predicate WatchersOk(r: ResourceState) {
    && r.channels.Keys == r.watchers.Keys && r.watchers.Keys == r.mux.subs.Keys && r.taken.Keys == r.watchers.Keys
    && (forall w | w in r.watchers :: w in r.seenAt <==> !r.watchers[w].Subscribing?)
    && (forall w | w in r.seenAt :: w in r.watchers && r.seenAt[w] < |r.hist| &&
          (r.mux.subs[w].pc.Answered? || r.mux.subs[w].pc.TurnedAway?))
  }

  // Nobody reads or cancels before the replay.
  ghost predicate ReadersOk(r: ResourceState) {
    && (forall w | w in r.taken ::
          w in r.channels && r.taken[w] <= |r.channels[w]| <= r.taken[w] + CHANNEL_CAPACITY &&
          (w in r.watchers && !r.watchers[w].Watching? ==> r.taken[w] == 0))
    && (forall k | k in r.mux.cancels ::
          r.mux.cancels[k].sink in r.watchers && r.watchers[r.mux.cancels[k].sink].Watching?)
  }

  // Everything broadcast before the watcher was registered is in its snapshot.
  ghost predicate NothingMissed(r: ResourceState, w: nat)
    requires w in r.seenAt
  {
    w in r.mux.subs && Registered(r.mux.subs[w].pc) ==>
      && r.mux.subs[w].start <= |r.mux.accepted|
      && forall j | 0 <= j < r.mux.subs[w].start :: r.mux.accepted[j].call <= r.seenAt[w]
  }

  // The broadcasts of a channel, in order, with the replay left out.
  function Broadcasts(channel: seq<Seen>): seq<S> {
    if channel == [] then []
    else
      var rest := Broadcasts(channel[..|channel| - 1]);
      match channel[|channel| - 1]
      case Replayed(_) => rest
      case Broadcast(s) => rest + [s]
  }

  // The replays of a channel.
  function Replays(channel: seq<Seen>): seq<S> {
    if channel == [] then []
    else
      var rest := Replays(channel[..|channel| - 1]);
      match channel[|channel| - 1]
      case Replayed(s) => rest + [s]
      case Broadcast(_) => rest
  }

  // The channel interleaves what the mux delivered with one replay, once that was made.
  ghost predicate ChannelOk(r: ResourceState, w: nat)
    requires w in r.watchers && w in r.channels && w in r.mux.subs
  {
    && Broadcasts(r.channels[w]) == Values(r.mux.subs[w].received)
    && if r.watchers[w].Watching?
       then w in r.seenAt && r.seenAt[w] < |r.hist| && Replays(r.channels[w]) == [r.hist[r.seenAt[w]]]
       else Replays(r.channels[w]) == []
  }

  ghost predicate WInv(r: ResourceState) {
    && Inv(r.mux)
    && CallsAreUpdates(r)
    && HistoryOk(r)
    && WatchersOk(r)
    && ReadersOk(r)
    && (forall w | w in r.seenAt :: NothingMissed(r, w))
    && (forall w | w in r.watchers :: ChannelOk(r, w))
  }

  lemma NewInv(initial: S)
    ensures WInv(New(initial))
  {
  }

  lemma MuxKept(r: ResourceState, a: Act)
    requires Inv(r.mux) && CanAct(r, a)
    ensures Inv(Act1(r, a).mux)
  {
    match a
    case Update(c) =>
      StepKeepsInv(r.mux, Arrive(|r.hist|, Overridden(r.hist[|r.hist| - 1], c.instances, c.health)));
    case WatchBegin(s) => StepKeepsInv(r.mux, Subscribe(s));
    case Inner(l) => StepKeepsInv(r.mux, l);
    case _ =>
  }

  lemma UpdateCallsKept(r: ResourceState, a: Act)
    requires CallsAreUpdates(r) && CanAct(r, a)
    ensures CallsAreUpdates(Act1(r, a))
  {
    match a
    case Inner(l) => CallsInside(r.mux, l);
    case _ =>
  }

  lemma HistoryKept(r: ResourceState, a: Act)
    requires HistoryOk(r) && CanAct(r, a)
    ensures HistoryOk(Act1(r, a))
  {
    if a.Update? {
      var r', n := Act1(r, a), |r.changes|;
      assert r.changes[..n] == r.changes && r'.changes[..n + 1] == r'.changes;
      forall i | 0 <= i <= n + 1
        ensures r'.hist[i] == Applied(r.initial, r'.changes[..i])
      {
        if i <= n {
          assert r'.changes[..i] == r.changes[..i];
        } else {
          assert r'.changes[..n] == r.changes;
        }
      }
    }
  }

  lemma WatchersKept(r: ResourceState, a: Act)
    requires WatchersOk(r) && CanAct(r, a)
    ensures WatchersOk(Act1(r, a))
  {
    match a
    case Update(_) =>
    case WatchBegin(s) => WatchersKeptByBegin(r, s);
    case WatchSnapshot(s) => WatchersKeptBySnapshot(r, s);
    case Replay(_) =>
    case Read(_) =>
    case Inner(l) => WatchersKeptInside(r, l);
  }

  lemma WatchersKeptByBegin(r: ResourceState, s: nat)
    requires WatchersOk(r) && CanAct(r, WatchBegin(s))
    ensures WatchersOk(Act1(r, WatchBegin(s)))
  {
  }

  lemma WatchersKeptBySnapshot(r: ResourceState, s: nat)
    requires WatchersOk(r) && CanAct(r, WatchSnapshot(s))
    ensures WatchersOk(Act1(r, WatchSnapshot(s)))
  {
  }

  lemma ReadersKept(r: ResourceState, a: Act)
    requires WatchersOk(r) && ReadersOk(r) && CanAct(r, a)
    ensures ReadersOk(Act1(r, a))
  {
    match a
    case Update(_) =>
    case WatchBegin(s) => ReadersKeptByBegin(r, s);
    case WatchSnapshot(_) =>
    case Replay(_) =>
    case Read(_) =>
    case Inner(l) => ReadersKeptInside(r, l);
  }

  lemma ReadersKeptByBegin(r: ResourceState, s: nat)
    requires WatchersOk(r) && ReadersOk(r) && CanAct(r, WatchBegin(s))
    ensures ReadersOk(Act1(r, WatchBegin(s)))
  {
  }

  lemma ReadersKeptInside(r: ResourceState, l: Label<S>)
    requires WatchersOk(r) && ReadersOk(r) && CanAct(r, Inner(l))
    ensures ReadersOk(Act1(r, Inner(l)))
  {
    CancelSinksKept(r.mux, l);
  }

  // A cancel keeps its sink.
  lemma CancelSinksKept(m: Mux<S>, l: Label<S>)
    requires Enabled(m, l)
    ensures forall k | k in Apply(m, l).cancels ::
              (k in m.cancels && Apply(m, l).cancels[k].sink == m.cancels[k].sink) ||
              (l.CallCancel? && Apply(m, l).cancels[k].sink == l.sink)
  {
    if !CancelStep(l) && !l.CallCancel? {
      CancelsKept(m, l);
    }
  }

  lemma WatchersKeptInside(r: ResourceState, l: Label<S>)
    requires WatchersOk(r) && CanAct(r, Inner(l))
    ensures WatchersOk(Act1(r, Inner(l)))
  {
    SubsInside(r.mux, l);
  }

  lemma MissedKept(r: ResourceState, a: Act, w: nat)
    requires SinkInv(r.mux) && CallInv(r.mux) && CallsAreUpdates(r) && WatchersOk(r) && CanAct(r, a)
    requires w in r.seenAt ==> NothingMissed(r, w)
    requires w in Act1(r, a).seenAt
    ensures NothingMissed(Act1(r, a), w)
  {
    match a
    case Update(_) =>
    case WatchBegin(_) => MissedKeptByBegin(r, a, w);
    case WatchSnapshot(s) => MissedKeptBySnapshot(r, s, w);
    case Replay(_) =>
    case Read(_) =>
    case Inner(l) => MissedKeptInside(r, l, w);
  }

  lemma MissedKeptByBegin(r: ResourceState, a: Act, w: nat)
    requires WatchersOk(r) && CanAct(r, a) && a.WatchBegin? && w in r.seenAt && NothingMissed(r, w)
    ensures NothingMissed(Act1(r, a), w)
  {
  }

  lemma MissedKeptBySnapshot(r: ResourceState, s: nat, w: nat)
    requires SinkInv(r.mux) && CallInv(r.mux) && CallsAreUpdates(r) && CanAct(r, WatchSnapshot(s))
    requires w in r.seenAt ==> NothingMissed(r, w)
    requires w in Act1(r, WatchSnapshot(s)).seenAt
    ensures NothingMissed(Act1(r, WatchSnapshot(s)), w)
  {
    if s == w {
      assert StreamInv(r.mux, s);
    }
  }

  lemma MissedKeptInside(r: ResourceState, l: Label<S>, w: nat)
    requires WatchersOk(r) && CanAct(r, Inner(l)) && w in r.seenAt && NothingMissed(r, w)
    ensures NothingMissed(Act1(r, Inner(l)), w)
  {
    SubsInside(r.mux, l);
    LogGrows(r.mux, l);
  }

  lemma ChannelSnoc(channel: seq<Seen>, x: Seen)
    ensures Broadcasts(channel + [x]) ==
      Broadcasts(channel) + match x { case Replayed(_) => [] case Broadcast(s) => [s] }
    ensures Replays(channel + [x]) == Replays(channel) + match x { case Replayed(s) => [s] case Broadcast(_) => [] }
  {
    assert (channel + [x])[..|channel|] == channel;
  }

  lemma ChannelKept(r: ResourceState, a: Act, w: nat)
    requires WatchersOk(r) && CanAct(r, a) && (w in r.watchers ==> w in r.mux.subs && ChannelOk(r, w))
    requires w in Act1(r, a).watchers && w in Act1(r, a).channels && w in Act1(r, a).mux.subs
    ensures ChannelOk(Act1(r, a), w)
  {
    match a
    case Update(c) => ChannelKeptByUpdate(r, c, w);
    case WatchBegin(_) =>
    case WatchSnapshot(_) =>
    case Replay(s) => ChannelKeptByReplay(r, s, w);
    case Read(_) =>
    case Inner(l) => ChannelKeptInside(r, l, w);
  }

  lemma ChannelKeptByUpdate(r: ResourceState, c: Change, w: nat)
    requires CanAct(r, Update(c)) && w in r.watchers && w in r.channels && w in r.mux.subs && ChannelOk(r, w)
    ensures ChannelOk(Act1(r, Update(c)), w)
  {
    assert forall i | 0 <= i < |r.hist| :: Act1(r, Update(c)).hist[i] == r.hist[i];
  }

  lemma ChannelKeptByReplay(r: ResourceState, s: nat, w: nat)
    requires CanAct(r, Replay(s)) && w in r.watchers && w in r.channels && w in r.mux.subs && ChannelOk(r, w)
    ensures ChannelOk(Act1(r, Replay(s)), w)
  {
    if s == w {
      ChannelSnoc(r.channels[w], Replayed(r.hist[r.seenAt[w]]));
    }
  }

  lemma ChannelKeptInside(r: ResourceState, l: Label<S>, w: nat)
    requires CanAct(r, Inner(l)) && w in r.watchers && w in r.channels && w in r.mux.subs && ChannelOk(r, w)
    ensures w in Act1(r, Inner(l)).mux.subs && ChannelOk(Act1(r, Inner(l)), w)
  {
    if l.Deliver? && l.sink == w {
      ChannelKeptByDeliver(r, w, l.failed);
    } else {
      RecordKept(r.mux, l, w);
    }
  }

  lemma ChannelKeptByDeliver(r: ResourceState, w: nat, failed: bool)
    requires CanAct(r, Inner(Deliver(w, failed))) && w in r.watchers && ChannelOk(r, w)
    ensures ChannelOk(Act1(r, Inner(Deliver(w, failed))), w)
  {
    var msg, got := r.mux.phase.msg, r.mux.subs[w].received;
    ChannelSnoc(r.channels[w], Broadcast(msg.value));
    assert Values(got + [msg]) == Values(got) + [msg.value];
  }

  lemma ActKeepsInv(r: ResourceState, a: Act)
    requires WInv(r) && CanAct(r, a)
    ensures WInv(Act1(r, a))
  {
    var r' := Act1(r, a);
    MuxKept(r, a);
    UpdateCallsKept(r, a);
    HistoryKept(r, a);
    WatchersKept(r, a);
    ReadersKept(r, a);
    forall w | w in r'.seenAt
      ensures NothingMissed(r', w)
    {
      MissedKept(r, a, w);
    }
    forall w | w in r'.watchers
      ensures ChannelOk(r', w)
    {
      ChannelKept(r, a, w);
    }
  }

  lemma {:induction false} ActsKeepInv(r: ResourceState, acts: seq<Act>)
    requires WInv(r) && Acts(r, acts)
    ensures WInv(Outcome(r, acts))
    decreases |acts|
  {
    if acts != [] {
      ActKeepsInv(r, acts[0]);
      ActsKeepInv(Act1(r, acts[0]), acts[1..]);
    }
  }

  lemma {:induction false} ThenAct(r: ResourceState, acts: seq<Act>, a: Act) returns (more: seq<Act>)
    requires Acts(r, acts) && CanAct(Outcome(r, acts), a)
    ensures more == acts + [a] && Acts(r, more) && Outcome(r, more) == Act1(Outcome(r, acts), a)
    decreases |acts|
  {
    more := acts + [a];
    if acts != [] {
      var rest := ThenAct(Act1(r, acts[0]), acts[1..], a);
      assert more[1..] == rest;
    }
  }

  lemma {:induction false} JoinActs(r: ResourceState, acts: seq<Act>, more: seq<Act>) returns (all: seq<Act>)
    requires Acts(r, acts) && Acts(Outcome(r, acts), more)
    ensures all == acts + more && Acts(r, all) && Outcome(r, all) == Outcome(Outcome(r, acts), more)
    decreases |acts|
  {
    all := acts + more;
    if acts == [] {
      assert all == more;
    } else {
      var rest := JoinActs(Act1(r, acts[0]), acts[1..], more);
      assert all[1..] == rest;
    }
  }

  // ---- the broadcast mux by itself ----

  // The step of the mux an act amounts to, if any.
  function LabelsOf(r: ResourceState, a: Act): seq<Label<S>>
    requires CanAct(r, a)
  {
    match a
    case Update(c) => [Arrive(|r.hist|, Overridden(r.hist[|r.hist| - 1], c.instances, c.health))]
    case WatchBegin(s) => [Subscribe(s)]
    case Inner(l) => [l]
    case _ => []
  }

  lemma StepOfMux(r: ResourceState, a: Act)
    requires CanAct(r, a)
    ensures Legal(r.mux, LabelsOf(r, a)) && Exec(r.mux, LabelsOf(r, a)) == Act1(r, a).mux
  {
    var ls := LabelsOf(r, a);
    if ls != [] {
      assert ls[1..] == [] && Enabled(r.mux, ls[0]) && Apply(r.mux, ls[0]) == Act1(r, a).mux;
    }
  }

  // What the acts do to the mux is a run of it.
  lemma {:induction false} RunOfMux(r: ResourceState, acts: seq<Act>) returns (ls: seq<Label<S>>)
    requires Acts(r, acts)
    ensures Legal(r.mux, ls) && Exec(r.mux, ls) == Outcome(r, acts).mux
    decreases |acts|
  {
    ls := [];
    if acts != [] {
      StepOfMux(r, acts[0]);
      var rest := RunOfMux(Act1(r, acts[0]), acts[1..]);
      ls := Join(r.mux, LabelsOf(r, acts[0]), rest);
    }
  }

  // ---- the results ----

  ghost predicate WatchReached(initial: S, acts: seq<Act>, r: ResourceState) {
    Acts(New(initial), acts) && r == Outcome(New(initial), acts)
  }

  lemma ReachedWInv(initial: S, acts: seq<Act>, r: ResourceState)
    requires WatchReached(initial, acts, r)
    ensures WInv(r)
  {
    NewInv(initial);
    ActsKeepInv(New(initial), acts);
  }

  // The state after the first i changes made to the resource.
  ghost function StateAfter(r: ResourceState, i: nat): S
    requires i <= |r.changes|
  {
    Applied(r.initial, r.changes[..i])
  }

  // Where the broadcast of an update the watcher's snapshot lacks stands in the log.
  lemma AcceptedBehindStart(r: ResourceState, w: nat, u: nat) returns (j: nat)
    requires CallInv(r.mux) && CallsAreUpdates(r) && CallAt(r.mux, u, Returned(true))
    requires w in r.seenAt && w in r.mux.subs && Registered(r.mux.subs[w].pc) && NothingMissed(r, w) && r.seenAt[w] < u
    ensures r.mux.subs[w].start <= j < |r.mux.accepted| && u < |r.hist| && r.mux.accepted[j] == Msg(u, r.hist[u])
  {
    j :| 0 <= j < |r.mux.accepted| && r.mux.accepted[j] == Msg(u, r.mux.calls[u].value);
  }

  // Update u has a place in the broadcast log that the watcher's stream covers, and has been
  // delivered if the stream has got there.
  ghost predicate DueAt(r: ResourceState, w: nat, u: nat, j: nat)
    requires w in r.mux.subs && u <= |r.changes|
  {
    var sub := r.mux.subs[w];
    && sub.start <= j < |r.mux.accepted|
    && r.mux.accepted[j] == Msg(u, StateAfter(r, u))
    && (j < sub.start + |sub.received| ==> sub.received[j - sub.start] == Msg(u, StateAfter(r, u)))
  }

  // No update is lost, whatever the interleaving. The replay of a watcher holds all changes
  // made before its snapshot; a later one whose broadcast was accepted is due to it.
  lemma NoUpdateLost(initial: S, acts: seq<Act>, r: ResourceState, w: nat, u: nat)
    requires WatchReached(initial, acts, r)
    requires w in r.watchers && r.watchers[w].Watching? && w in r.mux.subs && Registered(r.mux.subs[w].pc)
    requires CallAt(r.mux, u, Returned(true))
    ensures w in r.channels && w in r.seenAt && r.seenAt[w] <= |r.changes| && 1 <= u <= |r.changes|
    ensures Replayed(StateAfter(r, r.seenAt[w])) in r.channels[w]
    ensures r.seenAt[w] < u ==> exists j: nat :: DueAt(r, w, u, j)
  {
    ReachedWInv(initial, acts, r);
    assert ChannelOk(r, w) && NothingMissed(r, w);
    assert Replays(r.channels[w])[0] == StateAfter(r, r.seenAt[w]);
    ReplaysAreSent(r.channels[w], 0);
    UpdateDue(r, w, u);
  }

  lemma UpdateDue(r: ResourceState, w: nat, u: nat)
    requires CallInv(r.mux) && SinkInv(r.mux) && CallsAreUpdates(r) && HistoryOk(r) && CallAt(r.mux, u, Returned(true))
    requires w in r.seenAt && w in r.mux.subs && Registered(r.mux.subs[w].pc) && NothingMissed(r, w)
    ensures 1 <= u <= |r.changes|
    ensures r.seenAt[w] < u ==> exists j: nat :: DueAt(r, w, u, j)
  {
    assert r.hist[u] == StateAfter(r, u);
    if r.seenAt[w] < u {
      var j := AcceptedBehindStart(r, w, u);
      if j < r.mux.subs[w].start + |r.mux.subs[w].received| {
        DeliveredInPlace(r.mux, w, j);
      }
      assert DueAt(r, w, u, j);
    }
  }

  lemma DeliveredInPlace(m: Mux<S>, w: nat, j: nat)
    requires SinkInv(m) && w in m.subs && m.subs[w].start <= j < m.subs[w].start + |m.subs[w].received|
    ensures j < |m.accepted| && m.subs[w].received[j - m.subs[w].start] == m.accepted[j]
  {
    assert StreamInv(m, w);
  }

  // When the broadcast mux is idle, a registered watcher has received every accepted update
  // its snapshot does not include.
  lemma WatcherHasEverythingWhenIdle(initial: S, acts: seq<Act>, r: ResourceState, w: nat, u: nat)
    requires WatchReached(initial, acts, r)
    requires w in r.watchers && r.watchers[w].Watching? && w in r.mux.outputs && r.mux.phase.Select?
    requires CallAt(r.mux, u, Returned(true))
    ensures w in r.seenAt && w in r.channels && 1 <= u <= |r.changes|
    ensures r.seenAt[w] < u ==> Broadcast(StateAfter(r, u)) in r.channels[w]
  {
    IdleStreams(initial, acts, r, w);
    NoUpdateLost(initial, acts, r, w, u);
    if r.seenAt[w] < u {
      var j: nat :| DueAt(r, w, u, j);
      SentIfDue(r, w, u, j);
    }
  }

  lemma IdleStreams(initial: S, acts: seq<Act>, r: ResourceState, w: nat)
    requires WatchReached(initial, acts, r) && w in r.watchers && w in r.mux.outputs && r.mux.phase.Select?
    ensures w in r.mux.subs && Registered(r.mux.subs[w].pc) && w in r.channels
    ensures r.mux.subs[w].start + |r.mux.subs[w].received| == |r.mux.accepted|
    ensures ChannelOk(r, w)
  {
    ReachedWInv(initial, acts, r);
    assert StreamInv(r.mux, w) && ChannelOk(r, w);
    assert |r.mux.accepted[r.mux.handed..]| == 0;
  }

  lemma {:induction false} BroadcastsAreSent(channel: seq<Seen>, i: nat)
    requires i < |Broadcasts(channel)|
    ensures Broadcast(Broadcasts(channel)[i]) in channel
    decreases |channel|
  {
    var n := |channel| - 1;
    var rest := Broadcasts(channel[..n]);
    assert channel[n] in channel;
    if i < |rest| {
      BroadcastsAreSent(channel[..n], i);
      assert rest[i] == Broadcasts(channel)[i];
    }
  }

  lemma {:induction false} ReplaysAreSent(channel: seq<Seen>, i: nat)
    requires i < |Replays(channel)|
    ensures Replayed(Replays(channel)[i]) in channel
    decreases |channel|
  {
    var n := |channel| - 1;
    var rest := Replays(channel[..n]);
    assert channel[n] in channel;
    if i < |rest| {
      ReplaysAreSent(channel[..n], i);
      assert rest[i] == Replays(channel)[i];
    }
  }

  // The same at shutdown, from what the mux does for every sink that is not cancelled.
  lemma WatcherHasEverythingAtExit(initial: S, acts: seq<Act>, r: ResourceState, w: nat, u: nat)
    requires WatchReached(initial, acts, r)
    requires w in r.watchers && r.watchers[w].Watching? && r.mux.phase.Exited?
    requires w in r.mux.subs && Registered(r.mux.subs[w].pc) && !WasCancelled(r.mux, w)
    requires CallAt(r.mux, u, Returned(true))
    ensures w in r.seenAt && w in r.channels && 1 <= u <= |r.changes|
    ensures r.seenAt[w] < u ==> Broadcast(StateAfter(r, u)) in r.channels[w]
  {
    ReachedWInv(initial, acts, r);
    var ls := RunOfMux(New(initial), acts);
    MakeEstablishesInv<S>(0);
    UncancelledSinkGetsAll(Make(0), ls, w);
    assert StreamInv(r.mux, w) && ChannelOk(r, w) && NothingMissed(r, w);
    UpdateDue(r, w, u);
    if r.seenAt[w] < u {
      var j: nat :| DueAt(r, w, u, j);
      SentIfDue(r, w, u, j);
    }
  }

  lemma SentIfDue(r: ResourceState, w: nat, u: nat, j: nat)
    requires w in r.mux.subs && w in r.watchers && w in r.channels && u <= |r.changes|
    requires ChannelOk(r, w) && DueAt(r, w, u, j)
    requires r.mux.subs[w].start + |r.mux.subs[w].received| == |r.mux.accepted|
    ensures Broadcast(StateAfter(r, u)) in r.channels[w]
  {
    var i := j - r.mux.subs[w].start;
    assert Values(r.mux.subs[w].received)[i] == StateAfter(r, u);
    BroadcastsAreSent(r.channels[w], i);
  }

  // ---- order ----

  // Each Submit is made when the one before it has returned, as by a single goroutine.
  ghost predicate OneSubmitAtATime(r: ResourceState, acts: seq<Act>)
    requires Acts(r, acts)
    decreases |acts|
  {
    acts == [] ||
    ((acts[0].Update? ==> forall c | c in r.mux.calls :: r.mux.calls[c].pc.Returned?) &&
     OneSubmitAtATime(Act1(r, acts[0]), acts[1..]))
  }

  ghost predicate InOrder(r: ResourceState) {
    && (forall c | c in r.mux.calls && !r.mux.calls[c].pc.Returned? :: c == |r.hist| - 1)
    && (forall i, j | 0 <= i < j < |r.mux.accepted| :: r.mux.accepted[i].call < r.mux.accepted[j].call)
  }

  lemma InOrderKept(r: ResourceState, a: Act)
    requires CallInv(r.mux) && CallsAreUpdates(r) && InOrder(r) && CanAct(r, a)
    requires a.Update? ==> forall c | c in r.mux.calls :: r.mux.calls[c].pc.Returned?
    ensures InOrder(Act1(r, a))
  {
    match a
    case Inner(l) =>
      LogGrows(r.mux, l);
      CallsInside(r.mux, l);
      if l.Send? {
        SentLast(r, l.call);
      }
    case _ =>
  }

  // The one call on its way is the newest, so what it sends goes behind everything sent.
  lemma SentLast(r: ResourceState, c: nat)
    requires CallInv(r.mux) && CallsAreUpdates(r) && InOrder(r) && Enabled(r.mux, Send(c))
    ensures var log := Apply(r.mux, Send(c)).accepted;
            forall i, j | 0 <= i < j < |log| :: log[i].call < log[j].call
  {
    assert Apply(r.mux, Send(c)).accepted == r.mux.accepted + [Msg(c, r.mux.calls[c].value)];
    assert forall i | 0 <= i < |r.mux.accepted| :: r.mux.accepted[i].call != c && r.mux.accepted[i].call < |r.hist|;
  }

  lemma {:induction false} OrderKept(r: ResourceState, acts: seq<Act>)
    requires WInv(r) && InOrder(r) && Acts(r, acts) && OneSubmitAtATime(r, acts)
    ensures InOrder(Outcome(r, acts))
    decreases |acts|
  {
    if acts != [] {
      InOrderKept(r, acts[0]);
      ActKeepsInv(r, acts[0]);
      OrderKept(Act1(r, acts[0]), acts[1..]);
    }
  }

  // If Submits do not overlap, every watcher receives the broadcasts in the order in which
  // the changes were made.
  lemma BroadcastsInOrder(initial: S, acts: seq<Act>, r: ResourceState, w: nat)
    requires WatchReached(initial, acts, r) && OneSubmitAtATime(New(initial), acts) && w in r.mux.subs
    ensures forall i, j | 0 <= i < j < |r.mux.subs[w].received| ::
              r.mux.subs[w].received[i].call < r.mux.subs[w].received[j].call
  {
    ReachedWInv(initial, acts, r);
    NewInv(initial);
    OrderKept(New(initial), acts);
    StreamInOrder(r, w);
  }

  lemma StreamInOrder(r: ResourceState, w: nat)
    requires SinkInv(r.mux) && InOrder(r) && w in r.mux.subs
    ensures forall i, j | 0 <= i < j < |r.mux.subs[w].received| ::
              r.mux.subs[w].received[i].call < r.mux.subs[w].received[j].call
  {
    assert StreamInv(r.mux, w);
  }

  // ---- convergence ----

  // Every Submit so far has returned nil.
  ghost predicate AllBroadcast(r: ResourceState) {
    forall c | c in r.mux.calls :: r.mux.calls[c].pc == Returned(true)
  }

  lemma NewestIsLast(r: ResourceState)
    requires CallInv(r.mux) && CallsAreUpdates(r) && HistoryOk(r) && InOrder(r) && AllBroadcast(r) && r.changes != []
    ensures r.mux.accepted != [] && r.mux.accepted[|r.mux.accepted| - 1] == Msg(|r.changes|, StateAfter(r, |r.changes|))
  {
    var n := |r.changes|;
    assert n in r.mux.calls && r.hist[n] == StateAfter(r, n);
    var j :| 0 <= j < |r.mux.accepted| && r.mux.accepted[j] == Msg(n, r.mux.calls[n].value);
    assert r.mux.accepted[|r.mux.accepted| - 1].call in r.mux.calls;
  }

  // A watcher that has received nothing of a finished stream has seen everything.
  lemma SilentWatcherIsCurrent(r: ResourceState, w: nat)
    requires CallInv(r.mux) && CallsAreUpdates(r) && HistoryOk(r) && AllBroadcast(r)
    requires w in r.seenAt && r.seenAt[w] < |r.hist| && w in r.mux.subs && Registered(r.mux.subs[w].pc)
    requires NothingMissed(r, w)
    requires r.mux.subs[w].start == |r.mux.accepted|
    ensures r.seenAt[w] == |r.changes|
  {
    var n := |r.changes|;
    if n > 0 {
      assert n in r.mux.calls;
      var j :| 0 <= j < |r.mux.accepted| && r.mux.accepted[j] == Msg(n, r.mux.calls[n].value);
    }
  }

  lemma LastSeen(channel: seq<Seen>)
    ensures Broadcasts(channel) != [] || Replays(channel) != [] ==> channel != []
    ensures channel != [] ==>
              match channel[|channel| - 1]
              case Broadcast(s) => Broadcasts(channel) != [] && Broadcasts(channel)[|Broadcasts(channel)| - 1] == s
              case Replayed(s) => Replays(channel) != [] && Replays(channel)[|Replays(channel)| - 1] == s
  {
  }

  // Watchers converge. With Submits made one at a time, all of them returned nil, and the
  // broadcast idle, the last thing a watcher was sent is the current state, unless it is a
  // replay that came behind a broadcast; that one is the state of the watcher's snapshot.
  lemma WatcherConverges(initial: S, acts: seq<Act>, r: ResourceState, w: nat)
    requires WatchReached(initial, acts, r) && OneSubmitAtATime(New(initial), acts) && AllBroadcast(r)
    requires w in r.watchers && r.watchers[w].Watching? && w in r.mux.outputs && r.mux.phase.Select?
    ensures w in r.channels && r.channels[w] != [] && w in r.seenAt && r.seenAt[w] <= |r.changes|
    ensures var channel := r.channels[w];
            var last := channel[|channel| - 1];
            && (last.Broadcast? || Broadcasts(channel) == [] ==> last.s == StateAfter(r, |r.changes|))
            && (last.Replayed? ==> last.s == StateAfter(r, r.seenAt[w]))
  {
    ReachedWInv(initial, acts, r);
    NewInv(initial);
    OrderKept(New(initial), acts);
    IdleStreams(initial, acts, r, w);
    assert ChannelOk(r, w) && NothingMissed(r, w);
    ConvergedChannel(r, w);
  }

  lemma ConvergedChannel(r: ResourceState, w: nat)
    requires CallInv(r.mux) && CallsAreUpdates(r) && HistoryOk(r) && InOrder(r) && AllBroadcast(r)
    requires w in r.watchers && r.watchers[w].Watching? && w in r.channels && w in r.mux.subs && w in r.seenAt
    requires ChannelOk(r, w) && NothingMissed(r, w) && Registered(r.mux.subs[w].pc) && SinkInv(r.mux)
    requires r.mux.subs[w].start + |r.mux.subs[w].received| == |r.mux.accepted|
    ensures r.channels[w] != [] && r.seenAt[w] <= |r.changes|
    ensures var channel := r.channels[w];
            var last := channel[|channel| - 1];
            && (last.Broadcast? || Broadcasts(channel) == [] ==> last.s == StateAfter(r, |r.changes|))
            && (last.Replayed? ==> last.s == StateAfter(r, r.seenAt[w]))
  {
    var channel, sub := r.channels[w], r.mux.subs[w];
    LastSeen(channel);
    assert r.hist[r.seenAt[w]] == StateAfter(r, r.seenAt[w]);
    if sub.received == [] {
      SilentWatcherIsCurrent(r, w);
    } else {
      LastReceived(r, w);
      assert Values(sub.received)[|sub.received| - 1] == StateAfter(r, |r.changes|);
    }
  }

  // The last message of an idle stream is that of the newest change.
  lemma LastReceived(r: ResourceState, w: nat)
    requires CallInv(r.mux) && CallsAreUpdates(r) && HistoryOk(r) && InOrder(r) && AllBroadcast(r) && SinkInv(r.mux)
    requires w in r.mux.subs && r.mux.subs[w].received != []
    requires r.mux.subs[w].start + |r.mux.subs[w].received| == |r.mux.accepted|
    ensures r.mux.subs[w].received[|r.mux.subs[w].received| - 1] == Msg(|r.changes|, StateAfter(r, |r.changes|))
  {
    DeliveredInPlace(r.mux, w, |r.mux.accepted| - 1);
    assert r.mux.accepted[0].call in r.mux.calls;
    NewestIsLast(r);
  }
}
