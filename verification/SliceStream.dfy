// What a subscriber of a slice sees (makeSlice in internal/udev/udev.go): the slice
// goroutine is the owner of a replicated state whose events are whole snapshots.
module SliceStream {
  import opened MuxProtocol
  import opened Replication
  import opened Snapshots
  import opened Udev

  function SliceRules(): Rules<DeviceMap, DeviceMap> {
    Rules((x, e) => e, (x, e) => true)
  }

  // The goroutine has handled its Init: it has published, and every sink registered so far
  // came behind a published snapshot.
  ghost predicate PastInit(p: Repl<DeviceMap, DeviceMap>) {
    p.mux.calls != map[] && forall s | s in p.mux.subs && Registered(p.mux.subs[s].pc) :: 1 <= p.mux.subs[s].start
  }

  // Opening a subscription finds the last publication accepted.
  lemma SomethingAccepted(p: Repl<DeviceMap, DeviceMap>)
    requires CallInv(p.mux) && OwnerInv(p) && NoLoss(p.mux) && p.owner.Opening? && p.mux.calls != map[]
    ensures p.mux.accepted != []
  {
    var c :| c in p.mux.calls;
    assert p.mux.calls[c].pc == Returned(true);
    assert Msg(c, p.mux.calls[c].value) in p.mux.accepted;
  }

  lemma PastInitStays(p: Repl<DeviceMap, DeviceMap>, v: Move<DeviceMap>)
    requires LogInv(p.mux) && CallInv(p.mux) && OwnerInv(p) && PastInit(p) && NoLoss(p.mux)
    requires CanMove(SliceRules(), p, v)
    ensures PastInit(Move1(SliceRules(), p, v))
  {
    match v
    case Publish(_, _) =>
    case Published =>
    case Open(_) =>
    case Opened =>
    case Inner(l) => PastInitStaysInside(p, l);
  }

  lemma PastInitStaysInside(p: Repl<DeviceMap, DeviceMap>, l: Label<DeviceMap>)
    requires LogInv(p.mux) && CallInv(p.mux) && OwnerInv(p) && PastInit(p) && NoLoss(p.mux)
    requires CanMove(SliceRules(), p, Inner(l))
    ensures PastInit(Move1(SliceRules(), p, Inner(l)))
  {
    CallsInside(p.mux, l);
    SubsInside(p.mux, l);
    forall s | s in p.mux.subs && Registered(Apply(p.mux, l).subs[s].pc)
      ensures 1 <= Apply(p.mux, l).subs[s].start
    {
      PastInitInside(p, l, s);
    }
  }

  lemma PastInitInside(p: Repl<DeviceMap, DeviceMap>, l: Label<DeviceMap>, s: nat)
    requires LogInv(p.mux) && CallInv(p.mux) && OwnerInv(p) && PastInit(p) && NoLoss(p.mux)
    requires CanMove(SliceRules(), p, Inner(l)) && s in p.mux.subs && s in Apply(p.mux, l).subs
    ensures Registered(Apply(p.mux, l).subs[s].pc) ==> 1 <= Apply(p.mux, l).subs[s].start
  {
    if l == Register(s) {
      NothingBuffered(p.mux);
      SomethingAccepted(p);
    } else {
      HandshakeKept(p.mux, l, s);
    }
  }

  lemma ReplayOfSnapshots(base: DeviceMap, msgs: seq<Msg<DeviceMap>>)
    requires msgs != []
    ensures Replay(SliceRules(), base, msgs) == msgs[|msgs| - 1].value
  {
  }

  // The sink was handed a published snapshot and then exactly the ones published since, in
  // publishing order.
  ghost predicate SeesPublished(p: Repl<DeviceMap, DeviceMap>, s: nat) {
    && s in p.logs && s in p.mux.subs
    && var sub := p.mux.subs[s];
       var n := sub.start + |sub.received|;
       && 1 <= sub.start <= n <= |p.mux.accepted|
       && p.logs[s] == [Snap(p.mux.accepted[sub.start - 1].value)] + Events(p.mux.accepted[sub.start..n])
  }

  // Past its Init a slice hands every subscriber exactly the snapshot that was current at
  // its registration, which is a published one, followed by every later snapshot in
  // publishing order.
  lemma PublishedSnapshotsSeen(p: Repl<DeviceMap, DeviceMap>, s: nat)
    requires RInv(SliceRules(), p) && PastInit(p) && NoLoss(p.mux)
    requires s in p.snaps && s in p.mux.subs && Registered(p.mux.subs[s].pc)
    ensures SeesPublished(p, s)
  {
    assert LogInv1(p, s) && SnapInv(SliceRules(), p, s) && StreamInv(p.mux, s);
    LogReadsAsReplay(SliceRules(), p, s, map[]);
    var before := p.mux.accepted[..p.mux.subs[s].start];
    ReplayOfSnapshots(p.base, before);
  }

  // Sink 0 is registered and its Subscribe has returned to the slice goroutine.
  lemma RegisteredBeforeReplay(base: DeviceMap) returns (vs: seq<Move<DeviceMap>>)
    ensures Moves(SliceRules(), Start(RegisterFirst, 0, base), vs)
    ensures After(SliceRules(), Start<DeviceMap, DeviceMap>(RegisterFirst, 0, base), vs) ==
            Start<DeviceMap, DeviceMap>(RegisterFirst, 0, base).(owner := Opening(0), logs := map[0 := []],
            mux := Make<DeviceMap>(0).(outputs := {0}, subs := map[0 := Sub(Answered, [], 0, 0)]))
  {
    var p := Start<DeviceMap, DeviceMap>(RegisterFirst, 0, base);
    vs := ThenMove(SliceRules(), p, [], Open(0));
    vs := ThenMove(SliceRules(), p, vs, Inner(Register(0)));
    vs := ThenMove(SliceRules(), p, vs, Inner(SubReturn(0)));
  }

  // Without an Init first, as with a source that was already closed, it may see it: the
  // snapshot handed out is then whatever the slice started with.
  lemma OpenBeforeInitSeesStart(base: DeviceMap) returns (vs: seq<Move<DeviceMap>>)
    ensures Moves(SliceRules(), Start(RegisterFirst, 0, base), vs)
    ensures var p := After(SliceRules(), Start(RegisterFirst, 0, base), vs);
            NoLoss(p.mux) && SubAt(p.mux, 0, Answered) && 0 in p.logs && p.logs[0] == [Snap(base)]
  {
    var p := Start<DeviceMap, DeviceMap>(RegisterFirst, 0, base);
    vs := RegisteredBeforeReplay(base);
    vs := ThenMove(SliceRules(), p, vs, Opened);
  }

  // The cancel is handed out before the replay is done. A subscriber that uses it at once
  // has its sink closed under the replay, and the slice panics.
  lemma CancelBeforeReplayPanics(base: DeviceMap) returns (vs: seq<Move<DeviceMap>>)
    ensures Moves(SliceRules(), Start(RegisterFirst, 0, base), vs)
    ensures var p := After(SliceRules(), Start(RegisterFirst, 0, base), vs);
            !p.mux.done && p.owner == Opening(0) && ReplayPanics(p)
  {
    var p := Start<DeviceMap, DeviceMap>(RegisterFirst, 0, base);
    vs := RegisteredBeforeReplay(base);
    vs := ThenMove(SliceRules(), p, vs, Inner(CallCancel(0, 0)));
    vs := ThenMove(SliceRules(), p, vs, Inner(Unregister(0)));
  }
}
