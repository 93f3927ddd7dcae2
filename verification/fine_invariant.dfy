/** The invariant that ties the threads of the fine-grained command stream to its locks, flags
    and handlers, and its preservation by every step. */
module FineInvariant {
  import opened Wrappers
  import opened Commands
  import opened Phases
  import opened FineStreams

  /** A successful accept has stored `active_` and not yet changed the handler's state. */
  predicate InAccept(pc: Pc, h: nat) {
    (pc.Activated? || pc.Flushing? || pc.Moving? || pc.Moved? || pc.Flushed?) && pc.h == h
  }

  /** Commands can reach stream `h` through `active_` or through a pointer loaded from it. */
  predicate Served(s: State, h: nat)
    requires 0 < |s.threads|
  {
    && h < |s.streams|
    && (s.streams[h].phase == Reading || s.streams[h].phase == Finishing
        || (s.streams[h].phase == Accepting && InAccept(s.threads[0], h)))
  }

  /** Where the holder of a `mu_` may stand, by what it is running. */
  predicate PointFits(pc: Pc, at: Point) {
    match pc
    case InWriteDone(_) => !at.AtPush? && !at.AtTest?
    case _ => !at.AtClear?
  }

  ghost predicate ThreadInv(s: State, t: nat)
    requires t < |s.threads|
  {
    var pc := s.threads[t];
    && (if t == 0 then pc.Idle? || !IsProducer(pc) else IsProducer(pc))
    && (HoldsPending(pc) ==> s.pendingMu == Some(t))
    && (InSection(pc) ==>
        && pc.h < |s.streams| && s.streams[pc.h].section.Some?
        && s.streams[pc.h].section.value.thread == t
        && PointFits(pc, s.streams[pc.h].section.value.at))
    && (pc.InEnqueue? ==> Served(s, pc.h))
    && (pc.Loaded? && pc.target.Some? ==> Served(s, pc.target.value))
  }

  /** The completion of a Write of stream `h` has been delivered and not been cleared. */
  predicate HandlesWrite(pc: Pc, h: nat, st: Stream) {
    || pc == WriteFailed(h)
    || pc == WriteOk(h)
    || (pc == InWriteDone(h) && st.section.Some? && st.section.value.at.AtClear?)
  }

  ghost predicate Untouched(st: Stream) {
    st.section == None && st.writeTags == 0 && st.enqueued == []
  }

  ghost predicate HandlerInv(s: State, h: nat)
    requires 0 < |s.threads| && h < |s.streams|
  {
    var st := s.streams[h];
    && StreamInv(st)
    && (st.section.Some? ==>
        && st.section.value.thread < |s.threads|
        && InSection(s.threads[st.section.value.thread])
        && s.threads[st.section.value.thread].h == h)
    && (st.completing <==> HandlesWrite(s.threads[0], h, st))
    && (st.phase == Accepting && !InAccept(s.threads[0], h) ==> Untouched(st))
    && (st.phase == Deleted ==> st.section == None && st.writeTags == 0)
  }

  /** The command being moved is the front of the pending queue until it is popped. */
  ghost predicate MovingInv(s: State)
    requires 0 < |s.threads| && ThreadInv(s, 0)
  {
    match s.threads[0]
    case Moving(h) =>
      && s.pending != []
      && var at := s.streams[h].section.value.at;
      && (s.moved <==> !at.AtPush?)
      && (at.AtPush? ==> at.id == s.pending[0])
    case Moved(_) => s.pending != [] && s.moved
    case _ => !s.moved
  }

  /** Handler `h` has called Finish, is owed no other tag, and no thread can enqueue to it. */
  ghost predicate Unreachable(s: State, h: nat) {
    && h < |s.streams|
    && s.streams[h].phase == Finishing && s.streams[h].writeTags == 0
    && s.active != Some(h)
    && forall t :: 0 <= t < |s.threads| ==> !Refers(s.threads[t], h)
  }

  predicate HasPhase(s: State, h: nat, phase: Phase) {
    h < |s.streams| && s.streams[h].phase == phase
  }

  /** What the completion-queue thread knows of the handler that it is working on. */
  ghost predicate QueueInv(s: State)
    requires 0 < |s.threads|
  {
    var pc := s.threads[0];
    && (pc.Accepted? || pc.Activated? || pc.Flushing? || pc.Moving? || pc.Moved? || pc.Flushed? ==>
        HasPhase(s, pc.h, Accepting))
    && (pc.ReadFailed? ==> HasPhase(s, pc.h, Reading))
    && (pc.Detached? ==> HasPhase(s, pc.h, Reading) && s.active != Some(pc.h))
    && (pc.FinishDone? || pc.Freeing? ==> Unreachable(s, pc.h))
    && (pc.WriteFailed? || pc.WriteOk? || pc.InWriteDone? ==> Served(s, pc.h))
  }

  ghost predicate Inv(s: State) {
    && 0 < |s.threads|
    && (forall t :: 0 <= t < |s.threads| ==> ThreadInv(s, t))
    && (forall h :: 0 <= h < |s.streams| ==> HandlerInv(s, h))
    && (s.pendingMu.Some? ==>
        s.pendingMu.value < |s.threads| && HoldsPending(s.threads[s.pendingMu.value]))
    && MovingInv(s)
    && QueueInv(s)
    && (s.active.Some? ==>
        Served(s, s.active.value) && s.streams[s.active.value].phase != Finishing)
  }

  // ---------------------------------------------------------------- frames

  /** Thread `t` and stream `h`, which nobody else has locked, may have changed; what the other
      threads rely on has not. */
  ghost predicate LocalChange(s: State, s': State, t: nat, h: nat) {
    && t < |s.threads| == |s'.threads| && h < |s.streams| == |s'.streams|
    && (forall k :: 0 <= k < |s.threads| && k != t ==> s'.threads[k] == s.threads[k])
    && (forall k :: 0 <= k < |s.streams| && k != h ==> s'.streams[k] == s.streams[k])
    && s'.pendingMu == s.pendingMu && s'.active == s.active && s'.pending == s.pending
    && s'.streams[h].phase == s.streams[h].phase
    && (s.streams[h].section.Some? ==> s.streams[h].section.value.thread == t)
    && (InSection(s.threads[t]) ==> s.threads[t].h == h)
    && (forall k :: InAccept(s.threads[0], k) <==> InAccept(s'.threads[0], k))
    && (t == 0 ==> forall k, st :: k != h ==>
        (HandlesWrite(s.threads[0], k, st) <==> HandlesWrite(s'.threads[0], k, st)))
    && (HoldsPending(s'.threads[t]) <==> HoldsPending(s.threads[t]))
  }

  lemma FrameThreads(s: State, s': State, t: nat, h: nat)
    requires Inv(s) && LocalChange(s, s', t, h) && ThreadInv(s', t)
    ensures forall k :: 0 <= k < |s'.threads| ==> ThreadInv(s', k)
  {
    forall k | 0 <= k < |s'.threads| ensures ThreadInv(s', k) { assert ThreadInv(s, k); }
  }

  lemma FrameHandlers(s: State, s': State, t: nat, h: nat)
    requires Inv(s) && LocalChange(s, s', t, h) && HandlerInv(s', h)
    ensures forall k :: 0 <= k < |s'.streams| ==> HandlerInv(s', k)
  {
    forall k | 0 <= k < |s'.streams| ensures HandlerInv(s', k) { assert HandlerInv(s, k); }
  }

  lemma FrameRest(s: State, s': State, t: nat, h: nat)
    requires Inv(s) && LocalChange(s, s', t, h)
    requires 0 < t ==> Refers(s.threads[t], h)
    requires forall k :: k != h ==> !Refers(s'.threads[t], k)
    ensures s'.pendingMu.Some? ==>
      s'.pendingMu.value < |s'.threads| && HoldsPending(s'.threads[s'.pendingMu.value])
    ensures s'.active.Some? ==>
      Served(s', s'.active.value) && s'.streams[s'.active.value].phase != Finishing
    ensures 0 < t ==> QueueInv(s')
  {
    assert ThreadInv(s, 0) && ThreadInv(s, t);
    if s.pendingMu == Some(t) { assert ThreadInv(s, t); }
  }

  // ---------------------------------------------------------------- producers

  lemma CallKeeps(s: State, t: nat, cmd: GatewayCommand)
    requires Inv(s) && Enabled(s, Call(t, cmd))
    ensures Inv(Next(s, Call(t, cmd)))
  {
    var s' := Next(s, Call(t, cmd));
    assert ThreadInv(s, t) && ThreadInv(s, 0);
    forall k | 0 <= k < |s'.threads| ensures ThreadInv(s', k) { assert ThreadInv(s, k); }
    forall k | 0 <= k < |s'.streams| ensures HandlerInv(s', k) { assert HandlerInv(s, k); }
  }

  lemma LockPendingKeeps(s: State, t: nat)
    requires Inv(s) && Enabled(s, Advance(t)) && s.threads[t].Loaded?
    requires s.threads[t].target.None?
    ensures Inv(AdvanceStep(s, t))
  {
    var s' := AdvanceStep(s, t);
    assert ThreadInv(s, t) && ThreadInv(s, 0);
    forall k | 0 <= k < |s'.threads| ensures ThreadInv(s', k) { assert ThreadInv(s, k); }
    forall k | 0 <= k < |s'.streams| ensures HandlerInv(s', k) { assert HandlerInv(s, k); }
  }

  lemma LockMuKeeps(s: State, t: nat)
    requires Inv(s) && Enabled(s, Advance(t)) && s.threads[t].Loaded?
    requires s.threads[t].target.Some?
    ensures Inv(AdvanceStep(s, t))
  {
    var s' := AdvanceStep(s, t);
    assert ThreadInv(s, t) && ThreadInv(s, 0);
    var h := s.threads[t].target.value;
    assert HandlerInv(s, h);
    LockKeeps(s.streams[h], t, AtPush(s.threads[t].id));
    FrameThreads(s, s', t, h);
    FrameHandlers(s, s', t, h);
    FrameRest(s, s', t, h);
  }

  lemma PushPendingKeeps(s: State, t: nat)
    requires Inv(s) && Enabled(s, Advance(t)) && s.threads[t].PendingLocked?
    ensures Inv(AdvanceStep(s, t))
  {
    var s' := AdvanceStep(s, t);
    assert ThreadInv(s, t) && ThreadInv(s, 0);
    assert ThreadInv(s, 0);
    forall k | 0 <= k < |s'.threads| ensures ThreadInv(s', k) { assert ThreadInv(s, k); }
    forall k | 0 <= k < |s'.streams| ensures HandlerInv(s', k) { assert HandlerInv(s, k); }
  }

  lemma UnlockPendingKeeps(s: State, t: nat)
    requires Inv(s) && Enabled(s, Advance(t)) && s.threads[t].PendingPushed?
    ensures Inv(AdvanceStep(s, t))
  {
    var s' := AdvanceStep(s, t);
    assert ThreadInv(s, t) && ThreadInv(s, 0);
    forall k | 0 <= k < |s'.threads| ensures ThreadInv(s', k) { assert ThreadInv(s, k); }
    forall k | 0 <= k < |s'.streams| ensures HandlerInv(s', k) { assert HandlerInv(s, k); }
  }

  /** Thread `t` stands in a section; `at` is the point that it is about to leave. */
  ghost predicate Stands(s: State, t: nat, at: Point) {
    && Inv(s) && Enabled(s, Advance(t)) && InSection(s.threads[t])
    && s.streams[s.threads[t].h].section.value.at == at
  }

  lemma SectionStepLocal(s: State, t: nat, at: Point)
    requires Stands(s, t, at) && !at.AtUnlock?
    ensures var s' := AdvanceStep(s, t); var h := s.threads[t].h;
      && s'.threads == s.threads && s'.streams == s.streams[h := SectionStep(s.streams[h])]
      && LocalChange(s, s', t, h) && ThreadInv(s', t) && HandlerInv(s', h)
  {
    assert ThreadInv(s, t) && ThreadInv(s, 0);
    var h := s.threads[t].h;
    assert HandlerInv(s, h);
    SectionStepKeeps(s.streams[h]);
  }

  lemma SectionStepMoving(s: State, t: nat, at: Point)
    requires Stands(s, t, at) && !at.AtUnlock?
    ensures var s' := AdvanceStep(s, t);
      0 < |s'.threads| && (ThreadInv(s', 0) ==> MovingInv(s'))
  {
    assert ThreadInv(s, t) && ThreadInv(s, 0);
    if t > 0 && InSection(s.threads[0]) { assert s.threads[0].h != s.threads[t].h; }
  }

  lemma SectionKeeps(s: State, t: nat, at: Point)
    requires Stands(s, t, at) && !at.AtUnlock?
    ensures Inv(AdvanceStep(s, t))
  {
    var s' := AdvanceStep(s, t);
    var h := s.threads[t].h;
    assert ThreadInv(s, t);
    SectionStepLocal(s, t, at);
    FrameThreads(s, s', t, h);
    FrameHandlers(s, s', t, h);
    FrameRest(s, s', t, h);
    SectionStepMoving(s, t, at);
  }

  lemma UnlockLocal(s: State, t: nat)
    requires Stands(s, t, AtUnlock)
    ensures var s' := AdvanceStep(s, t); var h := s.threads[t].h;
      LocalChange(s, s', t, h) && ThreadInv(s', t) && HandlerInv(s', h)
  {
    assert ThreadInv(s, t) && ThreadInv(s, 0);
    var h := s.threads[t].h;
    assert HandlerInv(s, h);
    SectionStepKeeps(s.streams[h]);
  }

  lemma UnlockKeeps(s: State, t: nat)
    requires Stands(s, t, AtUnlock)
    ensures Inv(AdvanceStep(s, t))
  {
    var s' := AdvanceStep(s, t);
    var h := s.threads[t].h;
    assert ThreadInv(s, t) && ThreadInv(s, 0);
    UnlockLocal(s, t);
    FrameThreads(s, s', t, h);
    FrameHandlers(s, s', t, h);
    FrameRest(s, s', t, h);
    assert MovingInv(s') by {
      if t > 0 && InSection(s.threads[0]) { assert s.threads[0].h != h; }
    }
  }

  // ---------------------------------------------------------------- the completion queue

  lemma DeliverReadKeeps(s: State, h: nat, ok: bool)
    requires Inv(s) && Enabled(s, DeliverRead(h, ok))
    ensures Inv(Next(s, DeliverRead(h, ok)))
  {
    var s' := Next(s, DeliverRead(h, ok));
    assert ThreadInv(s, 0);
    forall k | 0 <= k < |s'.threads| ensures ThreadInv(s', k) { assert ThreadInv(s, k); }
    forall k | 0 <= k < |s'.streams| ensures HandlerInv(s', k) { assert HandlerInv(s, k); }
  }

  lemma DeliverAcceptKeeps(s: State, h: nat, ok: bool)
    requires Inv(s) && Enabled(s, DeliverAccept(h, ok))
    ensures Inv(Next(s, DeliverAccept(h, ok)))
  {
    var s' := Next(s, DeliverAccept(h, ok));
    assert ThreadInv(s, 0);
    forall k | 0 <= k < |s'.threads| ensures ThreadInv(s', k) { assert ThreadInv(s, k); }
    forall k | 0 <= k < |s'.streams| ensures HandlerInv(s', k) {
      if k < |s.streams| { assert HandlerInv(s, k); }
    }
  }

  lemma DeliverFinishKeeps(s: State, h: nat)
    requires Inv(s) && Enabled(s, DeliverFinish(h))
    ensures Inv(Next(s, DeliverFinish(h)))
  {
    var s' := Next(s, DeliverFinish(h));
    assert ThreadInv(s, 0);
    forall k | 0 <= k < |s'.threads| ensures ThreadInv(s', k) { assert ThreadInv(s, k); }
    forall k | 0 <= k < |s'.streams| ensures HandlerInv(s', k) { assert HandlerInv(s, k); }
  }

  lemma DeliverWriteKeeps(s: State, h: nat, ok: bool)
    requires Inv(s) && Enabled(s, DeliverWrite(h, ok))
    ensures Inv(Next(s, DeliverWrite(h, ok)))
  {
    var s' := Next(s, DeliverWrite(h, ok));
    assert ThreadInv(s, 0);
    assert HandlerInv(s, h);
    TakeWriteTagKeeps(s.streams[h]);
    DeliverWriteHandlers(s, h, ok);
    forall k | 0 <= k < |s'.threads| ensures ThreadInv(s', k) { assert ThreadInv(s, k); }
  }

  lemma DeliverWriteHandlers(s: State, h: nat, ok: bool)
    requires Inv(s) && Enabled(s, DeliverWrite(h, ok))
    ensures var s' := Next(s, DeliverWrite(h, ok));
      forall k :: 0 <= k < |s'.streams| ==> HandlerInv(s', k)
  {
    var s' := Next(s, DeliverWrite(h, ok));
    assert ThreadInv(s, 0) && HandlerInv(s, h);
    TakeWriteTagKeeps(s.streams[h]);
    forall k | 0 <= k < |s'.streams| ensures HandlerInv(s', k) { assert HandlerInv(s, k); }
  }

  lemma StoreActiveKeeps(s: State, t: nat)
    requires Inv(s) && Enabled(s, Advance(t)) && s.threads[t].Accepted?
    ensures Inv(AdvanceStep(s, t))
  {
    var s' := AdvanceStep(s, t);
    assert ThreadInv(s, t) && ThreadInv(s, 0);
    forall k | 0 <= k < |s'.threads| ensures ThreadInv(s', k) { assert ThreadInv(s, k); }
    forall k | 0 <= k < |s'.streams| ensures HandlerInv(s', k) { assert HandlerInv(s, k); }
  }

  lemma LockForFlushKeeps(s: State, t: nat)
    requires Inv(s) && Enabled(s, Advance(t)) && s.threads[t].Activated?
    ensures Inv(AdvanceStep(s, t))
  {
    var s' := AdvanceStep(s, t);
    assert ThreadInv(s, t) && ThreadInv(s, 0);
    forall k | 0 <= k < |s'.threads| ensures ThreadInv(s', k) { assert ThreadInv(s, k); }
    forall k | 0 <= k < |s'.streams| ensures HandlerInv(s', k) { assert HandlerInv(s, k); }
  }

  lemma EndMoveKeeps(s: State, t: nat)
    requires Inv(s) && Enabled(s, Advance(t)) && s.threads[t].Moved?
    ensures Inv(AdvanceStep(s, t))
  {
    var s' := AdvanceStep(s, t);
    assert ThreadInv(s, t) && ThreadInv(s, 0);
    forall k | 0 <= k < |s'.threads| ensures ThreadInv(s', k) { assert ThreadInv(s, k); }
    forall k | 0 <= k < |s'.streams| ensures HandlerInv(s', k) { assert HandlerInv(s, k); }
  }

  lemma StartReadingKeeps(s: State, t: nat)
    requires Inv(s) && Enabled(s, Advance(t)) && s.threads[t].Flushed?
    ensures Inv(AdvanceStep(s, t))
  {
    var s' := AdvanceStep(s, t);
    assert ThreadInv(s, t) && ThreadInv(s, 0);
    forall k | 0 <= k < |s'.threads| ensures ThreadInv(s', k) { assert ThreadInv(s, k); }
    forall k | 0 <= k < |s'.streams| ensures HandlerInv(s', k) { assert HandlerInv(s, k); }
  }

  lemma DetachKeeps(s: State, t: nat)
    requires Inv(s) && Enabled(s, Advance(t)) && s.threads[t].ReadFailed?
    ensures Inv(AdvanceStep(s, t))
  {
    var s' := AdvanceStep(s, t);
    assert ThreadInv(s, t) && ThreadInv(s, 0);
    forall k | 0 <= k < |s'.threads| ensures ThreadInv(s', k) { assert ThreadInv(s, k); }
    forall k | 0 <= k < |s'.streams| ensures HandlerInv(s', k) { assert HandlerInv(s, k); }
  }

  lemma CallFinishKeeps(s: State, t: nat)
    requires Inv(s) && Enabled(s, Advance(t)) && s.threads[t].Detached?
    ensures Inv(AdvanceStep(s, t))
  {
    var s' := AdvanceStep(s, t);
    assert ThreadInv(s, t) && ThreadInv(s, 0);
    forall k | 0 <= k < |s'.threads| ensures ThreadInv(s', k) { assert ThreadInv(s, k); }
    forall k | 0 <= k < |s'.streams| ensures HandlerInv(s', k) { assert HandlerInv(s, k); }
  }

  lemma DetachAgainKeeps(s: State, t: nat)
    requires Inv(s) && Enabled(s, Advance(t)) && s.threads[t].FinishDone?
    ensures Inv(AdvanceStep(s, t))
  {
    var s' := AdvanceStep(s, t);
    assert ThreadInv(s, t) && ThreadInv(s, 0);
    forall k | 0 <= k < |s'.threads| ensures ThreadInv(s', k) { assert ThreadInv(s, k); }
    forall k | 0 <= k < |s'.streams| ensures HandlerInv(s', k) { assert HandlerInv(s, k); }
  }

  lemma FreeKeeps(s: State, t: nat)
    requires Inv(s) && Enabled(s, Advance(t)) && s.threads[t].Freeing?
    ensures Inv(AdvanceStep(s, t))
  {
    var s' := AdvanceStep(s, t);
    assert ThreadInv(s, t) && ThreadInv(s, 0);
    var h := s.threads[t].h;
    NobodyInside(s, h);
    forall k | 0 <= k < |s'.threads| ensures ThreadInv(s', k) { assert ThreadInv(s, k); }
    forall k | 0 <= k < |s'.streams| ensures HandlerInv(s', k) { assert HandlerInv(s, k); }
  }

  lemma NobodyInside(s: State, h: nat)
    requires Inv(s) && s.threads[0] == Freeing(h)
    ensures h < |s.streams| && s.streams[h].section.None? && s.streams[h].writeTags == 0
  {
    assert HandlerInv(s, h);
    forall t | 0 <= t < |s.threads| ensures InSection(s.threads[t]) ==> s.threads[t].h != h {
      assert ThreadInv(s, t);
    }
  }

  lemma EndFlushKeeps(s: State, t: nat)
    requires Inv(s) && Enabled(s, Advance(t)) && s.threads[t].Flushing?
    requires s.pending == []
    ensures Inv(AdvanceStep(s, t))
  {
    var s' := AdvanceStep(s, t);
    assert ThreadInv(s, t) && ThreadInv(s, 0);
    forall k | 0 <= k < |s'.threads| ensures ThreadInv(s', k) { assert ThreadInv(s, k); }
    forall k | 0 <= k < |s'.streams| ensures HandlerInv(s', k) { assert HandlerInv(s, k); }
  }

  lemma BeginMoveKeeps(s: State, t: nat)
    requires Inv(s) && Enabled(s, Advance(t)) && s.threads[t].Flushing?
    requires s.pending != []
    ensures Inv(AdvanceStep(s, t))
  {
    var s' := AdvanceStep(s, t);
    assert ThreadInv(s, t) && ThreadInv(s, 0);
    var h := s.threads[t].h;
    assert HandlerInv(s, h);
    LockKeeps(s.streams[h], t, AtPush(s.pending[0]));
    forall k | 0 <= k < |s'.threads| ensures ThreadInv(s', k) { assert ThreadInv(s, k); }
    forall k | 0 <= k < |s'.streams| ensures HandlerInv(s', k) { assert HandlerInv(s, k); }
  }

  lemma ClearFailedHandlers(s: State, t: nat)
    requires Inv(s) && Enabled(s, Advance(t)) && s.threads[t].WriteFailed?
    ensures var s' := AdvanceStep(s, t);
      forall k :: 0 <= k < |s'.streams| ==> HandlerInv(s', k)
  {
    var s' := AdvanceStep(s, t);
    assert ThreadInv(s, t) && ThreadInv(s, 0);
    var h := s.threads[t].h;
    assert HandlerInv(s, h);
    if s.streams[h].section.Some? { assert ThreadInv(s, s.streams[h].section.value.thread); }
    ClearUnlockedKeeps(s.streams[h]);
    forall k | 0 <= k < |s'.streams| ensures HandlerInv(s', k) { assert HandlerInv(s, k); }
  }

  lemma ClearFailedThreads(s: State, t: nat)
    requires Inv(s) && Enabled(s, Advance(t)) && s.threads[t].WriteFailed?
    ensures var s' := AdvanceStep(s, t);
      forall k :: 0 <= k < |s'.threads| ==> ThreadInv(s', k)
  {
    var s' := AdvanceStep(s, t);
    assert ThreadInv(s, t) && ThreadInv(s, 0);
    forall k | 0 <= k < |s'.threads| ensures ThreadInv(s', k) { assert ThreadInv(s, k); }
  }

  lemma ClearFailedKeeps(s: State, t: nat)
    requires Inv(s) && Enabled(s, Advance(t)) && s.threads[t].WriteFailed?
    ensures Inv(AdvanceStep(s, t))
  {
    assert ThreadInv(s, t) && ThreadInv(s, 0);
    ClearFailedThreads(s, t);
    ClearFailedHandlers(s, t);
  }

  lemma LockWriteDoneKeeps(s: State, t: nat)
    requires Inv(s) && Enabled(s, Advance(t)) && s.threads[t].WriteOk?
    ensures Inv(AdvanceStep(s, t))
  {
    var s' := AdvanceStep(s, t);
    assert ThreadInv(s, t) && ThreadInv(s, 0);
    var h := s.threads[t].h;
    assert HandlerInv(s, h);
    LockKeeps(s.streams[h], t, AtClear);
    forall k | 0 <= k < |s'.threads| ensures ThreadInv(s', k) { assert ThreadInv(s, k); }
    forall k | 0 <= k < |s'.streams| ensures HandlerInv(s', k) { assert HandlerInv(s, k); }
  }

  // ---------------------------------------------------------------- every step

  lemma AdvanceKeeps(s: State, t: nat)
    requires Inv(s) && Enabled(s, Advance(t))
    ensures Inv(AdvanceStep(s, t))
  {
    match s.threads[t]
    case Loaded(_, None) => LockPendingKeeps(s, t);
    case Loaded(_, Some(_)) => LockMuKeeps(s, t);
    case PendingLocked(_) => PushPendingKeeps(s, t);
    case PendingPushed => UnlockPendingKeeps(s, t);
    case Accepted(_) => StoreActiveKeeps(s, t);
    case Activated(_) => LockForFlushKeeps(s, t);
    case Flushing(_) => if s.pending == [] { EndFlushKeeps(s, t); } else { BeginMoveKeeps(s, t); }
    case Moved(_) => EndMoveKeeps(s, t);
    case Flushed(_) => StartReadingKeeps(s, t);
    case ReadFailed(_) => DetachKeeps(s, t);
    case Detached(_) => CallFinishKeeps(s, t);
    case FinishDone(_) => DetachAgainKeeps(s, t);
    case Freeing(_) => FreeKeeps(s, t);
    case WriteFailed(_) => ClearFailedKeeps(s, t);
    case WriteOk(_) => LockWriteDoneKeeps(s, t);
    case InEnqueue(_) => InSectionKeeps(s, t);
    case Moving(_) => InSectionKeeps(s, t);
    case InWriteDone(_) => InSectionKeeps(s, t);
    case Idle =>
  }

  lemma InSectionKeeps(s: State, t: nat)
    requires Inv(s) && Enabled(s, Advance(t)) && InSection(s.threads[t])
    ensures Inv(AdvanceStep(s, t))
  {
    var at := s.streams[s.threads[t].h].section.value.at;
    if at.AtUnlock? { UnlockKeeps(s, t); } else { SectionKeeps(s, t, at); }
  }

  lemma StepKeeps(s: State, a: Action)
    requires Inv(s) && Enabled(s, a)
    ensures Inv(Next(s, a))
  {
    match a
    case Call(t, cmd) => CallKeeps(s, t, cmd);
    case DeliverAccept(h, ok) => DeliverAcceptKeeps(s, h, ok);
    case DeliverRead(h, ok) => DeliverReadKeeps(s, h, ok);
    case DeliverFinish(h) => DeliverFinishKeeps(s, h);
    case DeliverWrite(h, ok) => DeliverWriteKeeps(s, h, ok);
    case Advance(t) => AdvanceKeeps(s, t);
  }

  lemma InitInv(producers: nat)
    ensures Inv(Init(producers))
  {
    var s := Init(producers);
    forall t | 0 <= t < |s.threads| ensures ThreadInv(s, t) { assert s.threads[t] == Idle; }
    forall h | 0 <= h < |s.streams| ensures HandlerInv(s, h) { assert s.streams[h] == NewStream(); }
  }

  lemma {:induction false} RunKeeps(s: State, actions: seq<Action>)
    requires Inv(s) && IsRun(s, actions)
    ensures Inv(After(s, actions))
    decreases |actions|
  {
    if actions != [] {
      StepKeeps(s, actions[0]);
      RunKeeps(Next(s, actions[0]), actions[1..]);
    }
  }
}
