/** Which tags a stream has seen, from the phase it is in, and the other way round, at fine
    granularity: over every interleaving a stream ends by a failed Read and by nothing else. */
module FinePhases {
  import opened Wrappers
  import opened Phases
  import opened FineStreams
  import Core = FineInvariant
  import Order = FineOrder

  // ---------------------------------------------------------------- where thread 0 stands

  /** A successful accept of stream `h` is under way. */
  predicate Opening(pc: Pc, h: nat) {
    && (pc.Accepted? || pc.Activated? || pc.Flushing? || pc.Moving? || pc.Moved? || pc.Flushed?)
    && pc.h == h
  }

  /** A failed Read of stream `h` has been delivered and Finish not yet been called. */
  predicate Closing(pc: Pc, h: nat) {
    (pc.ReadFailed? || pc.Detached?) && pc.h == h
  }

  /** Finish has completed on stream `h` and the handler has not yet been deleted. */
  predicate Dropping(pc: Pc, h: nat) {
    (pc.FinishDone? || pc.Freeing?) && pc.h == h
  }

  // ---------------------------------------------------------------- the tags of a stream

  /** What the completion queue has delivered to handler `h`. */
  datatype Marks = Marks(connected: bool, refused: bool, failed: bool, finished: bool)

  function MarksOf(past: seq<Action>, h: nat): Marks {
    Marks(DeliverAccept(h, true) in past, DeliverAccept(h, false) in past,
          DeliverRead(h, false) in past, DeliverFinish(h) in past)
  }

  function Marked(m: Marks, a: Action, h: nat): Marks {
    Marks(m.connected || a == DeliverAccept(h, true), m.refused || a == DeliverAccept(h, false),
          m.failed || a == DeliverRead(h, false), m.finished || a == DeliverFinish(h))
  }

  lemma MarksSnoc(past: seq<Action>, a: Action, h: nat)
    ensures MarksOf(past + [a], h) == Marked(MarksOf(past, h), a, h)
  {
  }

  /** Phase, program counter of thread 0 and tags of stream `h` fit together. */
  predicate Fits(pc: Pc, phase: Phase, m: Marks, h: nat) {
    && (Opening(pc, h) ==> phase == Accepting)
    && (Closing(pc, h) ==> phase == Reading)
    && (Dropping(pc, h) ==> phase == Finishing)
    && match phase
       case Accepting => m == Marks(Opening(pc, h), false, false, false)
       case Reading => m == Marks(true, false, Closing(pc, h), false)
       case Finishing => m == Marks(true, false, true, Dropping(pc, h))
       case Deleted => m == Marks(false, true, false, false) || m == Marks(true, false, true, true)
  }

  function PhaseOf(s: State, h: nat): Phase {
    if h < |s.streams| then s.streams[h].phase else Accepting
  }

  ghost predicate Life(s: State, past: seq<Action>, h: nat) {
    0 < |s.threads| && Fits(s.threads[0], PhaseOf(s, h), MarksOf(past, h), h)
  }

  // ---------------------------------------------------------------- the steps

  /** A step that changes no phase and leaves thread 0 where it is, or inside an accept. */
  lemma UnrelatedFits(s: State, a: Action, s': State, past: seq<Action>, h: nat)
    requires Life(s, past, h) && (a.Call? || a.Advance?) && 0 < |s'.threads|
    requires PhaseOf(s', h) == PhaseOf(s, h)
    requires Opening(s.threads[0], h) <==> Opening(s'.threads[0], h)
    requires Closing(s.threads[0], h) <==> Closing(s'.threads[0], h)
    requires Dropping(s.threads[0], h) <==> Dropping(s'.threads[0], h)
    ensures Life(s', past + [a], h)
  {
    MarksSnoc(past, a, h);
  }

  lemma ProducerFits(s: State, a: Action, s': State, past: seq<Action>, h: nat)
    requires Core.Inv(s) && Life(s, past, h) && Enabled(s, a) && s' == Next(s, a)
    requires a.Call? || (a.Advance? && 0 < a.thread)
    ensures Life(s', past + [a], h)
  {
    if a.Advance? {
      assert Core.ThreadInv(s, a.thread);
      if s.threads[a.thread].InEnqueue? { SectionFrame(s, a.thread, s.threads[a.thread].h, Idle); }
    }
    UnrelatedFits(s, a, s', past, h);
  }

  lemma DeliveryFits(s: State, a: Action, s': State, past: seq<Action>, h: nat)
    requires Life(s, past, h) && Enabled(s, a) && s' == Next(s, a)
    requires !a.Call? && !a.Advance?
    ensures Life(s', past + [a], h)
  {
    MarksSnoc(past, a, h);
  }

  lemma SectionFits(s: State, s': State, past: seq<Action>, h: nat)
    requires Life(s, past, h) && Enabled(s, Advance(0)) && s' == AdvanceStep(s, 0)
    requires s.threads[0].Moving? || s.threads[0].InWriteDone?
    ensures Life(s', past + [Advance(0)], h)
  {
    var pc := s.threads[0];
    SectionFrame(s, 0, pc.h, if pc.Moving? then Moved(pc.h) else Idle);
    UnrelatedFits(s, Advance(0), s', past, h);
  }

  /** The steps of thread 0 that change a phase. */
  lemma PhaseStepFits(s: State, s': State, past: seq<Action>, h: nat)
    requires Life(s, past, h) && Enabled(s, Advance(0)) && s' == AdvanceStep(s, 0)
    requires s.threads[0].Flushed? || s.threads[0].Detached? || s.threads[0].Freeing?
    ensures Life(s', past + [Advance(0)], h)
  {
    MarksSnoc(past, Advance(0), h);
    assert s'.threads[0] == Idle;
  }

  lemma AcceptFits(s: State, s': State, past: seq<Action>, h: nat)
    requires Life(s, past, h) && Enabled(s, Advance(0)) && s' == AdvanceStep(s, 0)
    requires var pc := s.threads[0]; pc.Accepted? || pc.Activated? || pc.Flushing? || pc.Moved?
    ensures Life(s', past + [Advance(0)], h)
  {
    UnrelatedFits(s, Advance(0), s', past, h);
  }

  lemma OtherFits(s: State, s': State, past: seq<Action>, h: nat)
    requires Life(s, past, h) && Enabled(s, Advance(0)) && s' == AdvanceStep(s, 0)
    requires var pc := s.threads[0];
      pc.ReadFailed? || pc.FinishDone? || pc.WriteFailed? || pc.WriteOk?
    ensures Life(s', past + [Advance(0)], h)
  {
    UnrelatedFits(s, Advance(0), s', past, h);
  }

  lemma QueueThreadFits(s: State, s': State, past: seq<Action>, h: nat)
    requires Core.Inv(s) && Life(s, past, h) && Enabled(s, Advance(0)) && s' == AdvanceStep(s, 0)
    ensures Life(s', past + [Advance(0)], h)
  {
    assert Core.ThreadInv(s, 0);
    var pc := s.threads[0];
    if pc.Moving? || pc.InWriteDone? {
      SectionFits(s, s', past, h);
    } else if pc.Flushed? || pc.Detached? || pc.Freeing? {
      PhaseStepFits(s, s', past, h);
    } else if pc.Accepted? || pc.Activated? || pc.Flushing? || pc.Moved? {
      AcceptFits(s, s', past, h);
    } else {
      OtherFits(s, s', past, h);
    }
  }

  lemma StepFits(s: State, a: Action, s': State, past: seq<Action>, h: nat)
    requires Core.Inv(s) && Life(s, past, h) && Enabled(s, a) && s' == Next(s, a)
    ensures Life(s', past + [a], h)
  {
    if a.Call? || (a.Advance? && 0 < a.thread) {
      ProducerFits(s, a, s', past, h);
    } else if !a.Advance? {
      DeliveryFits(s, a, s', past, h);
    } else {
      QueueThreadFits(s, s', past, h);
    }
  }

  lemma {:induction false} RunFits(s: State, past: seq<Action>, actions: seq<Action>,
                                   total: seq<Action>, s': State, h: nat)
    requires Core.Inv(s) && Life(s, past, h) && IsRun(s, actions) && s' == After(s, actions)
    requires total == past + actions
    ensures Core.Inv(s') && Life(s', total, h)
    decreases |actions|
  {
    if actions == [] {
      assert total == past;
    } else {
      assert (past + [actions[0]]) + actions[1..] == total;
      var mid := Next(s, actions[0]);
      StepFits(s, actions[0], mid, past, h);
      Core.StepKeeps(s, actions[0]);
      RunFits(mid, past + [actions[0]], actions[1..], total, s', h);
    }
  }

  lemma FirstFits(producers: nat, h: nat)
    ensures Life(Init(producers), [], h)
  {
    var s0 := Init(producers);
    assert s0.threads[0] == Idle && s0.streams == [NewStream()];
  }

  lemma RunLife(producers: nat, actions: seq<Action>, s: State, h: nat)
    requires IsRun(Init(producers), actions) && s == After(Init(producers), actions)
    ensures Core.Inv(s) && Life(s, actions, h)
  {
    var s0 := Init(producers);
    Core.InitInv(producers);
    FirstFits(producers, h);
    RunFits(s0, [], actions, actions, s, h);
    assert [] + actions == actions;
  }

  /** Over every interleaving with any number of producers: a stream is open exactly from the end of
      its accept until the code after its failed Read has called Finish, and a handler is deleted
      exactly by a refused accept or by the code after Finish. Messages that are read, commands and
      Writes end nothing. */
  lemma PhaseIff(producers: nat, actions: seq<Action>, s: State, h: nat)
    requires IsRun(Init(producers), actions) && s == After(Init(producers), actions)
    requires h < |s.streams|
    ensures 0 < |s.threads|
    ensures s.streams[h].phase == Reading <==>
      && DeliverAccept(h, true) in actions && !Opening(s.threads[0], h)
      && (DeliverRead(h, false) in actions ==> Closing(s.threads[0], h))
    ensures s.streams[h].phase == Finishing <==>
      && DeliverRead(h, false) in actions && !Closing(s.threads[0], h)
      && (DeliverFinish(h) in actions ==> Dropping(s.threads[0], h))
    ensures s.streams[h].phase == Deleted <==>
      || DeliverAccept(h, false) in actions
      || (DeliverFinish(h) in actions && !Dropping(s.threads[0], h))
  {
    RunLife(producers, actions, s, h);
  }

  /** Without a failed Read and without a refused accept a stream is never finished or deleted. */
  lemma OnlyFailuresEnd(producers: nat, actions: seq<Action>, s: State, h: nat)
    requires IsRun(Init(producers), actions) && s == After(Init(producers), actions)
    requires DeliverRead(h, false) !in actions && DeliverAccept(h, false) !in actions
    requires h < |s.streams|
    ensures s.streams[h].phase == Accepting || s.streams[h].phase == Reading
  {
    RunLife(producers, actions, s, h);
  }

  // ---------------------------------------------------------------- active_

  /** The streams accepted so far are all but the newest handler. */
  ghost predicate Connected(s: State, past: seq<Action>, h: nat) {
    DeliverAccept(h, true) in past <==> h + 1 < |s.streams|
  }

  /** The store to `active_` of stream `h` has been done, and no exchange and no later store. */
  ghost predicate ActiveFits(s: State, past: seq<Action>, h: nat)
    requires 0 < |s.threads|
  {
    var pc := s.threads[0];
    s.active == Some(h) <==>
      && h + 1 < |s.streams| && pc != Accepted(h)
      && (DeliverRead(h, false) in past ==> pc == ReadFailed(h))
      && (h + 2 < |s.streams| ==> pc == Accepted(h + 1))
  }

  ghost predicate ActiveLife(s: State, past: seq<Action>, h: nat) {
    && Core.Inv(s) && Order.NewestInv(s) && Life(s, past, h)
    && Connected(s, past, h) && ActiveFits(s, past, h)
  }

  lemma SnocMember(past: seq<Action>, a: Action)
    ensures forall x :: x in past + [a] <==> x in past || x == a
  {
  }

  /** Any step but a store, an exchange and a main tag. */
  lemma UnrelatedActive(s: State, a: Action, s': State, past: seq<Action>, h: nat)
    requires ActiveLife(s, past, h) && (a.Call? || a.Advance? || a.DeliverWrite?)
    requires 0 < |s'.threads| && |s'.streams| == |s.streams| && s'.active == s.active
    requires s.threads[0] == Accepted(h) <==> s'.threads[0] == Accepted(h)
    requires s.threads[0] == Accepted(h + 1) <==> s'.threads[0] == Accepted(h + 1)
    requires s.threads[0] == ReadFailed(h) <==> s'.threads[0] == ReadFailed(h)
    ensures Connected(s', past + [a], h) && ActiveFits(s', past + [a], h)
  {
    SnocMember(past, a);
  }

  lemma ProducerActive(s: State, a: Action, s': State, past: seq<Action>, h: nat)
    requires ActiveLife(s, past, h) && Enabled(s, a) && s' == Next(s, a)
    requires a.Call? || (a.Advance? && 0 < a.thread)
    requires 0 < |s'.threads|
    ensures Connected(s', past + [a], h) && ActiveFits(s', past + [a], h)
  {
    if a.Advance? {
      assert Core.ThreadInv(s, a.thread);
      if s.threads[a.thread].InEnqueue? { SectionFrame(s, a.thread, s.threads[a.thread].h, Idle); }
    }
    UnrelatedActive(s, a, s', past, h);
  }

  lemma DeliveryActive(s: State, a: Action, s': State, past: seq<Action>, h: nat)
    requires ActiveLife(s, past, h) && Enabled(s, a) && s' == Next(s, a)
    requires !a.Call? && !a.Advance?
    requires 0 < |s'.threads|
    ensures Connected(s', past + [a], h) && ActiveFits(s', past + [a], h)
  {
    SnocMember(past, a);
  }

  lemma StoreActive(s: State, s': State, past: seq<Action>, h: nat)
    requires ActiveLife(s, past, h) && Enabled(s, Advance(0)) && s' == AdvanceStep(s, 0)
    requires s.threads[0].Accepted? || s.threads[0].ReadFailed? || s.threads[0].FinishDone?
    requires 0 < |s'.threads|
    ensures Connected(s', past + [Advance(0)], h) && ActiveFits(s', past + [Advance(0)], h)
  {
    SnocMember(past, Advance(0));
  }

  lemma QueueThreadActive(s: State, s': State, past: seq<Action>, h: nat)
    requires ActiveLife(s, past, h) && Enabled(s, Advance(0)) && s' == AdvanceStep(s, 0)
    requires 0 < |s'.threads|
    ensures Connected(s', past + [Advance(0)], h) && ActiveFits(s', past + [Advance(0)], h)
  {
    assert Core.ThreadInv(s, 0);
    var pc := s.threads[0];
    if pc.Accepted? || pc.ReadFailed? || pc.FinishDone? {
      StoreActive(s, s', past, h);
    } else {
      if pc.Moving? { SectionFrame(s, 0, pc.h, Moved(pc.h)); }
      if pc.InWriteDone? { SectionFrame(s, 0, pc.h, Idle); }
      UnrelatedActive(s, Advance(0), s', past, h);
    }
  }

  lemma StepActive(s: State, a: Action, s': State, past: seq<Action>, h: nat)
    requires ActiveLife(s, past, h) && Enabled(s, a) && s' == Next(s, a)
    ensures ActiveLife(s', past + [a], h)
  {
    Core.StepKeeps(s, a);
    Order.NewestStep(s, a, s');
    StepFits(s, a, s', past, h);
    if a.Call? || (a.Advance? && 0 < a.thread) {
      ProducerActive(s, a, s', past, h);
    } else if a.Advance? {
      QueueThreadActive(s, s', past, h);
    } else {
      DeliveryActive(s, a, s', past, h);
    }
  }

  lemma {:induction false} RunActive(s: State, past: seq<Action>, actions: seq<Action>,
                                     total: seq<Action>, s': State, h: nat)
    requires ActiveLife(s, past, h) && IsRun(s, actions) && s' == After(s, actions)
    requires total == past + actions
    ensures ActiveLife(s', total, h)
    decreases |actions|
  {
    if actions == [] {
      assert total == past;
    } else {
      assert (past + [actions[0]]) + actions[1..] == total;
      var mid := Next(s, actions[0]);
      StepActive(s, actions[0], mid, past, h);
      RunActive(mid, past + [actions[0]], actions[1..], total, s', h);
    }
  }

  lemma InitActive(producers: nat, h: nat)
    ensures ActiveLife(Init(producers), [], h)
  {
    var s0 := Init(producers);
    Core.InitInv(producers);
    FirstFits(producers, h);
    assert s0.threads[0] == Idle && s0.streams == [NewStream()];
  }

  /** Over every interleaving: `active_` is stream `h` exactly from the store in its accept to the
      exchange after its first failed Read, or the store in the next accept. */
  lemma ActiveIff(producers: nat, actions: seq<Action>, s: State, h: nat)
    requires IsRun(Init(producers), actions) && s == After(Init(producers), actions)
    ensures 0 < |s.threads|
    ensures s.active == Some(h) <==>
      && DeliverAccept(h, true) in actions && s.threads[0] != Accepted(h)
      && (DeliverRead(h, false) in actions ==> s.threads[0] == ReadFailed(h))
      && (DeliverAccept(h + 1, true) in actions ==> s.threads[0] == Accepted(h + 1))
  {
    InitActive(producers, h);
    InitActive(producers, h + 1);
    RunActive(Init(producers), [], actions, actions, s, h);
    RunActive(Init(producers), [], actions, actions, s, h + 1);
    assert [] + actions == actions;
  }
}
