/** Use after deletion, at fine granularity. The machine of `FineStreams` assumes that Finish is
    not delivered while a producer holds the handler; here it may be, as nothing in the code
    prevents it. */
module FineLifetime {
  import opened Wrappers
  import opened Commands
  import opened Phases
  import opened FineStreams
  import Core = FineInvariant
  import FineRaces

  predicate MayHappen(s: State, a: Action) {
    if a.DeliverFinish? then
      && IdleQueue(s) && a.h < |s.streams| && s.streams[a.h].phase == Finishing
      && s.streams[a.h].writeTags == 0
    else Enabled(s, a)
  }

  function Happens(s: State, a: Action): State
    requires MayHappen(s, a)
  {
    if a.DeliverFinish? then SetThread(s, 0, FinishDone(a.h)) else Next(s, a)
  }

  ghost predicate IsFreeRun(s: State, actions: seq<Action>)
    decreases |actions|
  {
    actions == [] || (MayHappen(s, actions[0]) && IsFreeRun(Happens(s, actions[0]), actions[1..]))
  }

  ghost function AfterFree(s: State, actions: seq<Action>): State
    requires IsFreeRun(s, actions)
    decreases |actions|
  {
    if actions == [] then s else AfterFree(Happens(s, actions[0]), actions[1..])
  }

  // ---------------------------------------------------------------- pointers to handlers

  /** The handler that a thread of `push_command` will still use. */
  function Target(pc: Pc): Option<nat> {
    match pc
    case InEnqueue(h) => Some(h)
    case Loaded(_, target) => target
    case _ => None
  }

  predicate HoldsDeleted(s: State, t: nat)
    requires t < |s.threads|
  {
    var target := Target(s.threads[t]);
    target.Some? && target.value < |s.streams| && s.streams[target.value].phase == Deleted
  }

  /** No thread holds a pointer to a deleted handler, so none can step on one. */
  predicate NoneDangles(s: State) {
    forall t :: 0 <= t < |s.threads| ==> !HoldsDeleted(s, t)
  }

  predicate StepsOnDeleted(s: State, a: Action) {
    a.Advance? && a.thread < |s.threads| && HoldsDeleted(s, a.thread)
  }

  /** `delete this` while a producer is on its way to `enqueue`, or inside. */
  ghost predicate FreesHeld(s: State, a: Action) {
    && a == Advance(0) && 0 < |s.threads| && s.threads[0].Freeing?
    && exists t :: 0 <= t < |s.threads| && Target(s.threads[t]) == Some(s.threads[0].h)
  }

  // ---------------------------------------------------------------- the invariant

  predicate OpenOrOpening(s: State, h: nat)
    requires 0 < |s.threads| && h < |s.streams|
  {
    s.streams[h].phase == Reading
    || (s.streams[h].phase == Accepting && Core.InAccept(s.threads[0], h))
  }

  /** What the completion-queue thread knows of its handler. */
  predicate QueueInv(s: State)
    requires 0 < |s.threads|
  {
    var pc := s.threads[0];
    && (pc.Idle? || !IsProducer(pc))
    && (pc.Accepted? || pc.Activated? || pc.Flushing? || pc.Moving? || pc.Moved? || pc.Flushed? ==>
        Core.HasPhase(s, pc.h, Accepting))
    && (pc.ReadFailed? ==> Core.HasPhase(s, pc.h, Reading))
    && (pc.Detached? ==> Core.HasPhase(s, pc.h, Reading) && s.active != Some(pc.h))
    && (pc.FinishDone? || pc.Freeing? ==> Core.HasPhase(s, pc.h, Finishing))
  }

  ghost predicate LifeInv(s: State) {
    && 0 < |s.threads| && QueueInv(s)
    && (forall t :: 0 < t < |s.threads| ==> IsProducer(s.threads[t]))
    && (s.active.Some? ==> s.active.value < |s.streams| && OpenOrOpening(s, s.active.value))
    && (forall t :: 0 <= t < |s.threads| && Target(s.threads[t]).Some? ==>
        var h := Target(s.threads[t]).value;
        h < |s.streams| && (s.streams[h].phase == Accepting ==> OpenOrOpening(s, h)))
  }

  /** The phases, what is active, and what the completion-queue thread does stay the same, and
      no thread gets a new target. */
  ghost predicate Unrelated(s: State, s': State) {
    && |s'.threads| == |s.threads| && |s'.streams| == |s.streams| && 0 < |s.threads|
    && s'.threads[0] == s.threads[0] && s'.active == s.active
    && (forall h :: 0 <= h < |s.streams| ==> s'.streams[h].phase == s.streams[h].phase)
    && (forall t :: 0 < t < |s.threads| ==>
        IsProducer(s'.threads[t])
        && (Target(s'.threads[t]) == None || Target(s'.threads[t]) == Target(s.threads[t])))
  }

  lemma UnrelatedKeeps(s: State, s': State)
    requires LifeInv(s) && Unrelated(s, s')
    ensures LifeInv(s') && (NoneDangles(s) ==> NoneDangles(s'))
  {
    forall t | 0 <= t < |s'.threads| && Target(s'.threads[t]).Some?
      ensures Target(s'.threads[t]) == Target(s.threads[t])
    {
    }
    if NoneDangles(s) {
      forall t | 0 <= t < |s'.threads| ensures !HoldsDeleted(s', t) {
        assert !HoldsDeleted(s, t);
      }
    }
  }

  lemma ProducerIsUnrelated(s: State, t: nat, s': State)
    requires LifeInv(s) && 0 < t && Enabled(s, Advance(t)) && s' == AdvanceStep(s, t)
    ensures Unrelated(s, s')
  {
    assert IsProducer(s.threads[t]);
    if s.threads[t].InEnqueue? { SectionFrame(s, t, s.threads[t].h, Idle); }
  }

  lemma InsideIsUnrelated(s: State, s': State)
    requires LifeInv(s) && Enabled(s, Advance(0)) && s' == AdvanceStep(s, 0)
    requires s.threads[0].Moving? || s.threads[0].InWriteDone?
    ensures LifeInv(s') && (NoneDangles(s) ==> NoneDangles(s'))
  {
    var h := s.threads[0].h;
    SectionFrame(s, 0, h, if s.threads[0].Moving? then Moved(h) else Idle);
    QueueThreadMoved(s, s');
  }

  /** The completion-queue thread goes on with the same handler, or is done with it. */
  lemma QueueThreadMoved(s: State, s': State)
    requires LifeInv(s) && |s'.threads| == |s.threads| && |s'.streams| == |s.streams|
    requires s'.active == s.active
    requires forall h :: 0 <= h < |s.streams| ==> s'.streams[h].phase == s.streams[h].phase
    requires forall t :: 0 < t < |s.threads| ==> s'.threads[t] == s.threads[t]
    requires QueueInv(s') && Target(s'.threads[0]) == None
    requires forall h :: Core.InAccept(s.threads[0], h) ==> Core.InAccept(s'.threads[0], h)
    ensures LifeInv(s') && (NoneDangles(s) ==> NoneDangles(s'))
  {
    if NoneDangles(s) {
      forall t | 0 <= t < |s'.threads| ensures !HoldsDeleted(s', t) {
        assert !HoldsDeleted(s, t);
      }
    }
  }

  /** The steps that change neither a phase nor `active_`. */
  lemma SameActiveStep(s: State, s': State)
    requires LifeInv(s) && Enabled(s, Advance(0)) && s' == AdvanceStep(s, 0)
    requires var pc := s.threads[0];
      pc.Activated? || pc.Flushing? || pc.Moved? || pc.WriteFailed? || pc.WriteOk?
    ensures LifeInv(s') && (NoneDangles(s) ==> NoneDangles(s'))
  {
    assert QueueInv(s');
    QueueThreadMoved(s, s');
  }

  /** The stores to `active_`: on acceptance, and the exchanges that clear it. */
  lemma ActiveStep(s: State, s': State)
    requires LifeInv(s) && Enabled(s, Advance(0)) && s' == AdvanceStep(s, 0)
    requires s.threads[0].Accepted? || s.threads[0].ReadFailed? || s.threads[0].FinishDone?
    ensures LifeInv(s') && (NoneDangles(s) ==> NoneDangles(s'))
  {
    assert s'.streams == s.streams && s'.threads[1..] == s.threads[1..];
    assert forall t :: 0 < t < |s.threads| ==> s'.threads[t] == s.threads[t];
    if NoneDangles(s) {
      forall t | 0 <= t < |s'.threads| ensures !HoldsDeleted(s', t) {
        assert !HoldsDeleted(s, t);
      }
    }
  }

  /** A stream starts reading, or Finish is called. */
  lemma OpenCloseStep(s: State, s': State)
    requires LifeInv(s) && Enabled(s, Advance(0)) && s' == AdvanceStep(s, 0)
    requires s.threads[0].Flushed? || s.threads[0].Detached?
    ensures LifeInv(s') && (NoneDangles(s) ==> NoneDangles(s'))
  {
    if NoneDangles(s) {
      forall t | 0 <= t < |s'.threads| ensures !HoldsDeleted(s', t) {
        assert !HoldsDeleted(s, t);
      }
    }
  }

  lemma FreeStep(s: State, s': State)
    requires LifeInv(s) && Enabled(s, Advance(0)) && s' == AdvanceStep(s, 0)
    requires s.threads[0].Freeing?
    ensures LifeInv(s')
    ensures NoneDangles(s) ==> (NoneDangles(s') <==> !FreesHeld(s, Advance(0)))
  {
    var h := s.threads[0].h;
    assert s'.streams == s.streams[h := s'.streams[h]] && s'.streams[h].phase == Deleted;
    forall t | 0 < t < |s.threads| ensures s'.threads[t] == s.threads[t] {}
    if NoneDangles(s) && !FreesHeld(s, Advance(0)) {
      forall t | 0 <= t < |s'.threads| ensures !HoldsDeleted(s', t) {
        assert !HoldsDeleted(s, t);
      }
    }
    if FreesHeld(s, Advance(0)) {
      var t :| 0 <= t < |s.threads| && Target(s.threads[t]) == Some(h);
      assert HoldsDeleted(s', t);
    }
  }

  /** `push_command` loads `active_`, which is open or about to be. */
  lemma CallStep(s: State, t: nat, cmd: GatewayCommand)
    requires LifeInv(s) && Enabled(s, Call(t, cmd))
    ensures var s' := Next(s, Call(t, cmd)); LifeInv(s') && (NoneDangles(s) ==> NoneDangles(s'))
  {
    var s' := Next(s, Call(t, cmd));
    assert s'.threads == s.threads[t := Loaded(|s.commands|, s.active)];
    assert s'.threads[0] == s.threads[0];
    if NoneDangles(s) {
      forall k | 0 <= k < |s'.threads| ensures !HoldsDeleted(s', k) {
        assert !HoldsDeleted(s, k);
      }
    }
  }

  /** A stream is accepted, or its handler deleted, which no producer can have loaded. */
  lemma AcceptStep(s: State, h: nat, ok: bool)
    requires LifeInv(s) && Enabled(s, DeliverAccept(h, ok))
    ensures var s' := Next(s, DeliverAccept(h, ok));
      LifeInv(s') && (NoneDangles(s) ==> NoneDangles(s'))
  {
    var s' := Next(s, DeliverAccept(h, ok));
    assert forall k :: 0 <= k < |s.streams| && k != h ==> s'.streams[k] == s.streams[k];
    assert forall t :: 0 < t < |s.threads| ==> s'.threads[t] == s.threads[t];
    assert s.active != Some(h);
    if NoneDangles(s) {
      forall t | 0 <= t < |s'.threads| ensures !HoldsDeleted(s', t) {
        assert !HoldsDeleted(s, t);
      }
    }
  }

  lemma DeliveryStep(s: State, a: Action, s': State)
    requires LifeInv(s) && MayHappen(s, a) && s' == Happens(s, a) && !a.Advance?
    ensures LifeInv(s') && (NoneDangles(s) ==> NoneDangles(s'))
  {
    match a
    case Call(t, cmd) => CallStep(s, t, cmd);
    case DeliverAccept(h, ok) => AcceptStep(s, h, ok);
    case DeliverRead(h, ok) => QueueThreadMoved(s, s');
    case DeliverFinish(h) => QueueThreadMoved(s, s');
    case DeliverWrite(h, ok) => QueueThreadMoved(s, s');
  }

  lemma LifeStep(s: State, a: Action, s': State)
    requires LifeInv(s) && MayHappen(s, a) && s' == Happens(s, a)
    ensures LifeInv(s')
    ensures NoneDangles(s) ==> (NoneDangles(s') <==> !FreesHeld(s, a))
  {
    if !a.Advance? {
      DeliveryStep(s, a, s');
    } else if a.thread > 0 {
      ProducerIsUnrelated(s, a.thread, s');
      UnrelatedKeeps(s, s');
    } else if s.threads[0].Moving? || s.threads[0].InWriteDone? {
      InsideIsUnrelated(s, s');
    } else if s.threads[0].Freeing? {
      FreeStep(s, s');
    } else if s.threads[0].Flushed? || s.threads[0].Detached? {
      OpenCloseStep(s, s');
    } else if s.threads[0].Accepted? || s.threads[0].ReadFailed? || s.threads[0].FinishDone? {
      ActiveStep(s, s');
    } else {
      SameActiveStep(s, s');
    }
  }

  // ---------------------------------------------------------------- over runs

  ghost predicate NeverFreesHeld(s: State, actions: seq<Action>)
    requires IsFreeRun(s, actions)
    decreases |actions|
  {
    actions == []
    || (!FreesHeld(s, actions[0]) && NeverFreesHeld(Happens(s, actions[0]), actions[1..]))
  }

  ghost predicate NeverDangles(s: State, actions: seq<Action>)
    requires IsFreeRun(s, actions)
    decreases |actions|
  {
    NoneDangles(s) && (actions == [] || NeverDangles(Happens(s, actions[0]), actions[1..]))
  }

  ghost predicate NeverStepsOnDeleted(s: State, actions: seq<Action>)
    requires IsFreeRun(s, actions)
    decreases |actions|
  {
    actions == []
    || (!StepsOnDeleted(s, actions[0]) && NeverStepsOnDeleted(Happens(s, actions[0]), actions[1..]))
  }

  lemma {:induction false} DanglesFrom(s: State, actions: seq<Action>)
    requires LifeInv(s) && NoneDangles(s) && IsFreeRun(s, actions)
    ensures NeverDangles(s, actions) <==> NeverFreesHeld(s, actions)
    ensures NeverDangles(s, actions) ==> NeverStepsOnDeleted(s, actions)
    decreases |actions|
  {
    if actions != [] {
      var s' := Happens(s, actions[0]);
      LifeStep(s, actions[0], s');
      if !FreesHeld(s, actions[0]) { DanglesFrom(s', actions[1..]); }
    }
  }

  lemma InitLife(producers: nat)
    ensures LifeInv(Init(producers)) && NoneDangles(Init(producers))
  {
    var s := Init(producers);
    assert forall t :: 0 <= t < |s.threads| ==> s.threads[t] == Idle;
  }

  /** Over every interleaving in which Finish may complete while producers hold the handler: no
      thread ever holds a pointer to a deleted handler if and only if no handler is deleted while
      a producer is on its way to its `enqueue` or inside; and then no thread ever steps on a
      deleted handler. */
  lemma DanglesIff(producers: nat, actions: seq<Action>)
    requires IsFreeRun(Init(producers), actions)
    ensures NeverDangles(Init(producers), actions) <==> NeverFreesHeld(Init(producers), actions)
    ensures NeverDangles(Init(producers), actions) ==> NeverStepsOnDeleted(Init(producers), actions)
  {
    InitLife(producers);
    DanglesFrom(Init(producers), actions);
  }

  // ---------------------------------------------------------------- a run that dangles

  ghost predicate ReachesFreely(s: State, s': State) {
    exists actions :: IsFreeRun(s, actions) && AfterFree(s, actions) == s'
  }

  lemma {:induction false} RunIsFree(s: State, actions: seq<Action>)
    requires IsRun(s, actions)
    ensures IsFreeRun(s, actions) && AfterFree(s, actions) == After(s, actions)
    decreases |actions|
  {
    if actions != [] { RunIsFree(Next(s, actions[0]), actions[1..]); }
  }

  lemma {:induction false} FreeSnoc(s: State, actions: seq<Action>, a: Action)
    requires IsFreeRun(s, actions) && MayHappen(AfterFree(s, actions), a)
    ensures IsFreeRun(s, actions + [a])
    ensures AfterFree(s, actions + [a]) == Happens(AfterFree(s, actions), a)
    decreases |actions|
  {
    if actions == [] {
      assert [] + [a] == [a] && [a][1..] == [];
    } else {
      FreeSnoc(Happens(s, actions[0]), actions[1..], a);
      assert (actions + [a])[1..] == actions[1..] + [a];
    }
  }

  lemma Freely(s0: State, s: State, a: Action)
    requires ReachesFreely(s0, s) && MayHappen(s, a)
    ensures ReachesFreely(s0, Happens(s, a))
  {
    var actions :| IsFreeRun(s0, actions) && AfterFree(s0, actions) == s;
    FreeSnoc(s0, actions, a);
    assert IsFreeRun(s0, actions + [a]);
  }

  lemma FinishWhileLoaded(cmd: GatewayCommand) returns (s: State)
    ensures ReachesFreely(Init(1), s) && s.threads == [FinishDone(0), Loaded(0, Some(0))]
    ensures s.streams == [NewStream().(phase := Finishing), NewStream()]
    ensures s.active == None && |s.place| == 1
  {
    var s0 := Init(1);
    var s1 := FineRaces.DisconnectWhileLoaded(cmd);
    var actions :| IsRun(s0, actions) && After(s0, actions) == s1;
    RunIsFree(s0, actions);
    Freely(s0, s1, DeliverFinish(0));
    s := Happens(s1, DeliverFinish(0));
  }

  lemma FreedWhileLoaded(cmd: GatewayCommand) returns (s: State)
    ensures ReachesFreely(Init(1), s) && s.threads == [Idle, Loaded(0, Some(0))]
    ensures s.streams == [NewStream().(phase := Deleted), NewStream()] && |s.place| == 1
  {
    var s1 := FinishWhileLoaded(cmd);
    Freely(Init(1), s1, Advance(0));
    var s2 := Happens(s1, Advance(0));
    assert s2.threads == [Freeing(0), Loaded(0, Some(0))];
    Freely(Init(1), s2, Advance(0));
    s := Happens(s2, Advance(0));
  }

  /** A producer that loaded the handler locks its `mu_` and pushes to its queue after it has been
      deleted. */
  lemma PushCanUseDeleted(cmd: GatewayCommand) returns (s: State)
    ensures ReachesFreely(Init(1), s) && s.threads == [Idle, InEnqueue(0)]
    ensures |s.streams| == 2 && s.streams[0].phase == Deleted && s.streams[0].enqueued == [0]
  {
    var s0 := Init(1);
    var s1 := FreedWhileLoaded(cmd);
    Freely(s0, s1, Advance(1));
    var s2 := Happens(s1, Advance(1));
    assert s2.threads == [Idle, InEnqueue(0)];
    Freely(s0, s2, Advance(1));
    s := Happens(s2, Advance(1));
  }
}
