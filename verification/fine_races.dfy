/** Laws of the coarse model that interleavings break, with the runs that break them: an empty
    pending queue while a stream is active, call order, and no enqueue and hence no Write of a
    producer after Finish. For the first, the exact runs that keep it; for the others they are in
    `FineOrder` and `FineFinish`. */
module FineRaces {
  import opened Wrappers
  import opened Commands
  import opened Phases
  import opened FineStreams
  import opened FineRuns
  import Core = FineInvariant

  lemma ConnectWhileLoaded(cmd: GatewayCommand) returns (s: State)
    ensures Reaches(Init(1), [Call(1, cmd), DeliverAccept(0, true)], s)
    ensures s.threads == [Idle, Loaded(0, None)] && s.commands == [cmd]
    ensures s.active == Some(0) && |s.streams| == 2 && s.streams[0].phase == Reading
    ensures s.pending == [] && s.pendingMu == None && |s.place| == 1
  {
    var s0 := Init(1);
    ReachesSelf(s0);
    assert s0.threads == [Idle, Idle];
    ReachesNext(s0, [], s0, Call(1, cmd));
    var s1 := Next(s0, Call(1, cmd));
    assert Unlocked(s1, 0) && [] + [Call(1, cmd)] == [Call(1, cmd)];
    s := AcceptRun(s0, [Call(1, cmd)], s1, 0);
  }

  /** A producer that found no active stream pushes to the pending queue only after the stream
      that connected meanwhile has flushed it: all threads are idle, a stream is active, and the
      command stays in the pending queue. */
  lemma PushCanBeStranded(cmd: GatewayCommand) returns (s: State)
    ensures Reaches(Init(1), [Call(1, cmd), DeliverAccept(0, true)], s)
    ensures s.threads == [Idle, Idle] && s.commands == [cmd]
    ensures s.active == Some(0) && |s.streams| == 2 && s.streams[0].phase == Reading
    ensures s.pending == [0]
  {
    var s0, trace := Init(1), [Call(1, cmd), DeliverAccept(0, true)];
    var s2 := ConnectWhileLoaded(cmd);
    ReachesNext(s0, trace, s2, Advance(1));
    var s3 := Next(s2, Advance(1));
    ReachesNext(s0, trace, s3, Advance(1));
    var s4 := Next(s3, Advance(1));
    ReachesNext(s0, trace, s4, Advance(1));
    s := Next(s4, Advance(1));
    assert s.threads == [Idle, Idle];
  }

  lemma ConnectWithOnePending(first: GatewayCommand) returns (s: State)
    ensures Reaches(Init(1), [Call(1, first), DeliverAccept(0, true)], s)
    ensures s.threads == [Activated(0), Idle] && s.commands == [first]
    ensures s.active == Some(0) && s.pending == [0] && |s.place| == 1 && !s.moved
    ensures s.streams == [NewStream(), NewStream()] && s.pendingMu == None
  {
    var s0 := Init(1);
    ReachesSelf(s0);
    var s1 := PushToPending(s0, [], s0, 1, first);
    assert s1.threads == [Idle, Idle] && s1.streams == [NewStream()];
    assert [] + [Call(1, first)] == [Call(1, first)];
    ReachesNext(s0, [Call(1, first)], s1, DeliverAccept(0, true));
    var s2 := Next(s1, DeliverAccept(0, true));
    ReachesNext(s0, [Call(1, first), DeliverAccept(0, true)], s2, Advance(0));
    s := Next(s2, Advance(0));
  }

  lemma PushPastPending(first: GatewayCommand, second: GatewayCommand) returns (s: State)
    ensures Reaches(Init(1), [Call(1, first), DeliverAccept(0, true), Call(1, second)], s)
    ensures s.threads == [Activated(0), Idle]
    ensures s.commands == [first, second] && s.pending == [0] && |s.place| == 2 && !s.moved
    ensures s.streams == [EnqueueOf(NewStream(), 1), NewStream()] && s.pendingMu == None
  {
    var s1 := ConnectWithOnePending(first);
    assert Unlocked(s1, 0);
    s := PushToStream(Init(1), [Call(1, first), DeliverAccept(0, true)], s1, 1, second, 0);
  }

  /** A command that was pushed while no stream was active is overtaken by a later one that finds
      `active_` set before `flush_pending` has locked the pending queue. */
  lemma PushCanOvertake(first: GatewayCommand, second: GatewayCommand) returns (s: State)
    ensures Reaches(Init(1), [Call(1, first), DeliverAccept(0, true), Call(1, second)], s)
    ensures s.commands == [first, second]
    ensures |s.streams| == 2 && s.streams[0].enqueued == [1, 0]
  {
    var s2 := PushPastPending(first, second);
    var trace := [Call(1, first), DeliverAccept(0, true), Call(1, second)];
    EnqueueOfKeeps(NewStream(), 1);
    ReachesNext(Init(1), trace, s2, Advance(0));
    var s3 := Next(s2, Advance(0));
    assert s3.threads == [Flushing(0), Idle];
    s := FlushPendingRun(Init(1), trace, s3, 0);
    assert s.streams[0] == EnqueueAllOf(EnqueueOf(NewStream(), 1), [0]);
    assert [0][1..] == [];
    assert s.streams[0] == EnqueueOf(EnqueueOf(NewStream(), 1), 0);
  }

  lemma Connect() returns (s: State)
    ensures Reaches(Init(1), [DeliverAccept(0, true)], s) && s.threads == [Idle, Idle]
    ensures s.streams == [NewStream().(phase := Reading), NewStream()]
    ensures s.active == Some(0) && s.commands == [] && s.place == []
  {
    var s0 := Init(1);
    ReachesSelf(s0);
    assert s0.threads == [Idle, Idle] && s0.streams == [NewStream()];
    assert Unlocked(s0, 0);
    s := AcceptRun(s0, [], s0, 0);
    assert [] + [DeliverAccept(0, true)] == [DeliverAccept(0, true)];
  }

  lemma LoadWhileConnected(cmd: GatewayCommand) returns (s: State)
    ensures Reaches(Init(1), [DeliverAccept(0, true), Call(1, cmd)], s)
    ensures s.threads == [Idle, Loaded(0, Some(0))] && s.commands == [cmd]
    ensures s.streams == [NewStream().(phase := Reading), NewStream()]
    ensures s.active == Some(0) && |s.place| == 1
  {
    var s1 := Connect();
    ReachesNext(Init(1), [DeliverAccept(0, true)], s1, Call(1, cmd));
    s := Next(s1, Call(1, cmd));
  }

  /** A client connects, a command is pushed, and the client disconnects. */
  function Disconnected(cmd: GatewayCommand): seq<Action> {
    [DeliverAccept(0, true), Call(1, cmd), DeliverRead(0, false)]
  }

  lemma DisconnectWhileLoaded(cmd: GatewayCommand) returns (s: State)
    ensures Reaches(Init(1), Disconnected(cmd), s)
    ensures s.threads == [Idle, Loaded(0, Some(0))] && s.commands == [cmd]
    ensures s.streams == [NewStream().(phase := Finishing), NewStream()]
    ensures s.active == None && |s.place| == 1
  {
    var s1 := LoadWhileConnected(cmd);
    s := DisconnectRun(Init(1), [DeliverAccept(0, true), Call(1, cmd)], s1, 0);
  }

  lemma LockAfterFinish(cmd: GatewayCommand) returns (s: State)
    ensures Reaches(Init(1), Disconnected(cmd), s)
    ensures s.threads == [Idle, InEnqueue(0)] && s.commands == [cmd]
    ensures s.streams == [Lock(NewStream().(phase := Finishing), 1, AtPush(0)), NewStream()]
    ensures s.active == None && |s.place| == 1
  {
    var s1 := DisconnectWhileLoaded(cmd);
    ReachesNext(Init(1), Disconnected(cmd), s1, Advance(1));
    s := Next(s1, Advance(1));
  }

  /** A producer that loaded the handler before its client disconnected enqueues after Finish, finds
      no Write in flight, and issues one. No write completion is delivered at all. */
  lemma PushWritesAfterFinish(cmd: GatewayCommand) returns (s: State)
    ensures Reaches(Init(1), Disconnected(cmd), s)
    ensures s.threads == [Idle, Idle] && s.commands == [cmd]
    ensures |s.streams| == 2 && s.streams[0].phase == Finishing && s.active == None
    ensures s.streams[0].submitted == [0] && s.streams[0].writeTags == 1
  {
    var s1 := LockAfterFinish(cmd);
    var st := NewStream().(phase := Finishing);
    EnqueueRun(st, 1, 0);
    s := EnqueueEnds(Init(1), Disconnected(cmd), s1, 1, 0);
    assert s.streams == [EnqueueOf(st, 0), NewStream()];
    assert [] + [0] == [0];
  }

  /** What the coarse model promises of the pending queue: it is empty while a stream is active,
      unless that stream is about to flush it. */
  ghost predicate NothingStranded(s: State)
    requires 0 < |s.threads|
  {
    var pc := s.threads[0];
    s.active.Some? && !pc.Activated? && !pc.Flushing? && !pc.Moving? && !pc.Moved? ==>
      s.pending == []
  }

  /** A producer that holds `pending_mu_` since it found no active stream pushes although one has
      become active and does not still have to lock the pending queue. */
  predicate Strands(s: State, a: Action) {
    && a.Advance? && 0 < a.thread < |s.threads| && s.threads[a.thread].PendingLocked?
    && s.active.Some? && !s.threads[0].Activated?
  }

  lemma DeliveryStrandsNothing(s: State, a: Action, s': State)
    requires Core.Inv(s) && Enabled(s, a) && s' == Next(s, a) && NothingStranded(s)
    requires !a.Advance?
    ensures |s'.threads| > 0 && NothingStranded(s')
  {
  }

  lemma QueueThreadStrandsNothing(s: State, s': State)
    requires Core.Inv(s) && Enabled(s, Advance(0)) && s' == AdvanceStep(s, 0)
    requires NothingStranded(s)
    ensures |s'.threads| > 0 && NothingStranded(s')
  {
    assert Core.ThreadInv(s, 0);
  }

  lemma ProducerStrandsIff(s: State, t: nat, s': State)
    requires Core.Inv(s) && Enabled(s, Advance(t)) && s' == AdvanceStep(s, t) && 0 < t
    requires NothingStranded(s)
    ensures |s'.threads| > 0
    ensures !NothingStranded(s') <==> Strands(s, Advance(t))
  {
    assert Core.ThreadInv(s, t) && Core.ThreadInv(s, 0);
  }

  lemma StrandsIff(s: State, a: Action, s': State)
    requires Core.Inv(s) && Enabled(s, a) && s' == Next(s, a) && NothingStranded(s)
    ensures |s'.threads| > 0
    ensures !NothingStranded(s') <==> Strands(s, a)
  {
    if !a.Advance? {
      DeliveryStrandsNothing(s, a, s');
    } else if a.thread == 0 {
      QueueThreadStrandsNothing(s, s');
    } else {
      ProducerStrandsIff(s, a.thread, s');
    }
  }

  // ---------------------------------------------------------------- stranding over runs

  ghost predicate NeverStrands(s: State, actions: seq<Action>)
    requires IsRun(s, actions)
    decreases |actions|
  {
    actions == [] || (!Strands(s, actions[0]) && NeverStrands(Next(s, actions[0]), actions[1..]))
  }

  /** Nothing is stranded in any state of the run. */
  ghost predicate AlwaysUnstranded(s: State, actions: seq<Action>)
    requires IsRun(s, actions)
    decreases |actions|
  {
    && 0 < |s.threads| && NothingStranded(s)
    && (actions == [] || AlwaysUnstranded(Next(s, actions[0]), actions[1..]))
  }

  lemma {:induction false} UnstrandedFrom(s: State, actions: seq<Action>)
    requires Core.Inv(s) && IsRun(s, actions) && NothingStranded(s)
    ensures AlwaysUnstranded(s, actions) <==> NeverStrands(s, actions)
    decreases |actions|
  {
    if actions != [] {
      var s' := Next(s, actions[0]);
      StrandsIff(s, actions[0], s');
      Core.StepKeeps(s, actions[0]);
      if !Strands(s, actions[0]) { UnstrandedFrom(s', actions[1..]); }
    }
  }

  /** Over every interleaving with any number of producers: no state has a stranded command if
      and only if no producer that found no stream pushes to the pending queue after one has
      become active and locked it. */
  lemma UnstrandedIff(producers: nat, actions: seq<Action>)
    requires IsRun(Init(producers), actions)
    ensures AlwaysUnstranded(Init(producers), actions) <==> NeverStrands(Init(producers), actions)
  {
    Core.InitInv(producers);
    UnstrandedFrom(Init(producers), actions);
  }
}
