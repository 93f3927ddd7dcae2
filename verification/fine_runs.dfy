/** Runs of the fine-grained command stream in which one thread goes through a whole piece of the
    code while the others stand still. */
module FineRuns {
  import opened Wrappers
  import opened Commands
  import opened Phases
  import opened FineStreams

  function Traced(trace: seq<Action>, a: Action): seq<Action> {
    if a.Advance? then trace else trace + [a]
  }

  /** The calls and deliveries among `actions`, in order. */
  function External(actions: seq<Action>): seq<Action> {
    if actions == [] then []
    else Traced(External(actions[..|actions| - 1]), actions[|actions| - 1])
  }

  /** Some run from `s` with these calls and deliveries ends in `s'`. */
  ghost predicate Reaches(s: State, trace: seq<Action>, s': State) {
    exists actions :: IsRun(s, actions) && After(s, actions) == s' && External(actions) == trace
  }

  lemma {:induction false} AfterSnoc(s: State, actions: seq<Action>, a: Action)
    requires IsRun(s, actions) && Enabled(After(s, actions), a)
    ensures IsRun(s, actions + [a]) && After(s, actions + [a]) == Next(After(s, actions), a)
    decreases |actions|
  {
    if actions == [] {
      assert [] + [a] == [a] && [a][1..] == [];
    } else {
      AfterSnoc(Next(s, actions[0]), actions[1..], a);
      assert (actions + [a])[1..] == actions[1..] + [a];
    }
  }

  lemma ReachesSelf(s: State)
    ensures Reaches(s, [], s)
  {
    assert IsRun(s, []) && After(s, []) == s && External([]) == [];
  }

  lemma ReachesNext(s0: State, trace: seq<Action>, s: State, a: Action)
    requires Reaches(s0, trace, s) && Enabled(s, a)
    ensures Reaches(s0, Traced(trace, a), Next(s, a))
  {
    var actions :| IsRun(s0, actions) && After(s0, actions) == s && External(actions) == trace;
    AfterSnoc(s0, actions, a);
    assert (actions + [a])[..|actions + [a]| - 1] == actions;
    assert IsRun(s0, actions + [a]) && External(actions + [a]) == Traced(trace, a);
  }

  // ---------------------------------------------------------------- a section run to its end

  function Left(at: Point): nat {
    match at
    case AtPush(_) => 7
    case AtTest => 6
    case AtClear => 5
    case AtFlush => 4
    case AtStore => 3
    case AtWrite => 2
    case AtPop => 1
    case AtUnlock => 0
  }

  ghost function SectionRun(st: Stream): (r: Stream)
    requires StreamInv(st) && st.section.Some?
    ensures r.section == None && r.phase == st.phase
    decreases Left(st.section.value.at)
  {
    SectionStepKeeps(st);
    if st.section.value.at.AtUnlock? then SectionStep(st) else SectionRun(SectionStep(st))
  }

  /** `flush_write_queue_locked` on an unlocked stream. */
  function FlushOf(st: Stream): Stream {
    if st.queue == [] || st.writing then st
    else
      st.(writing := true, submitted := st.submitted + [st.queue[0]], queue := st.queue[1..],
          writeTags := st.writeTags + 1)
  }

  function EnqueueOf(st: Stream, id: Id): Stream {
    FlushOf(st.(queue := st.queue + [id], enqueued := st.enqueued + [id]))
  }

  function WriteDoneOf(st: Stream): Stream {
    FlushOf(st.(writing := false, completing := false))
  }

  lemma FlushRun(st: Stream)
    requires StreamInv(st) && st.section.Some? && st.section.value.at.AtFlush?
    ensures SectionRun(st) == FlushOf(st.(section := None))
  {
    SectionStepKeeps(st);
    var st1 := SectionStep(st);
    if st.queue != [] && !st.writing {
      SectionStepKeeps(st1);
      var st2 := SectionStep(st1);
      SectionStepKeeps(st2);
      var st3 := SectionStep(st2);
      SectionStepKeeps(st3);
      assert SectionRun(st1) == SectionRun(st2) == SectionRun(st3);
      assert SectionRun(st3) == SectionStep(SectionStep(st3));
    }
  }

  lemma EnqueueRun(st: Stream, t: nat, id: Id)
    requires StreamInv(st) && st.section.None?
    ensures StreamInv(Lock(st, t, AtPush(id)))
    ensures SectionRun(Lock(st, t, AtPush(id))) == EnqueueOf(st, id)
  {
    var st0 := Lock(st, t, AtPush(id));
    SectionStepKeeps(st0);
    var st1 := SectionStep(st0);
    SectionStepKeeps(st1);
    var st2 := SectionStep(st1);
    assert SectionRun(st0) == SectionRun(st1) == SectionRun(st2);
    if !st.writing { FlushRun(st2); }
  }

  lemma WriteDoneRun(st: Stream, t: nat)
    requires StreamInv(st) && st.section.None? && st.completing
    ensures StreamInv(Lock(st, t, AtClear))
    ensures SectionRun(Lock(st, t, AtClear)) == WriteDoneOf(st)
  {
    var st0 := Lock(st, t, AtClear);
    SectionStepKeeps(st0);
    var st1 := SectionStep(st0);
    assert SectionRun(st0) == SectionRun(st1);
    FlushRun(st1);
  }

  /** Where a thread goes on once it has released `mu_`. */
  function AfterSection(pc: Pc): Pc {
    if pc.Moving? then Moved(pc.h) else Idle
  }

  /** Thread `t` is in a section of a stream that satisfies its invariant. */
  ghost predicate Inside(s: State, t: nat) {
    && t < |s.threads| && InSection(s.threads[t]) && s.threads[t].h < |s.streams|
    && s.streams[s.threads[t].h].section.Some? && StreamInv(s.streams[s.threads[t].h])
  }

  lemma {:induction false} SectionEnds(s0: State, trace: seq<Action>, s: State, t: nat)
    requires Reaches(s0, trace, s) && Inside(s, t)
    requires !s.streams[s.threads[t].h].section.value.at.AtPush?
    ensures var pc := s.threads[t];
      Reaches(s0, trace,
              SetThread(SetStream(s, pc.h, SectionRun(s.streams[pc.h])), t, AfterSection(pc)))
    decreases Left(s.streams[s.threads[t].h].section.value.at)
  {
    var pc := s.threads[t];
    var st := s.streams[pc.h];
    ReachesNext(s0, trace, s, Advance(t));
    SectionStepKeeps(st);
    SectionAdvances(s, t);
    if !st.section.value.at.AtUnlock? {
      var s1 := SetStream(s, pc.h, SectionStep(st));
      SectionEnds(s0, trace, s1, t);
      assert SetStream(s1, pc.h, SectionRun(st)) == SetStream(s, pc.h, SectionRun(st));
    }
  }

  /** One step inside a section that does not enqueue. */
  lemma SectionAdvances(s: State, t: nat)
    requires Inside(s, t) && !s.streams[s.threads[t].h].section.value.at.AtPush?
    ensures Enabled(s, Advance(t))
    ensures var pc := s.threads[t]; var st := s.streams[pc.h];
      AdvanceStep(s, t) == if st.section.value.at.AtUnlock?
                           then SetThread(SetStream(s, pc.h, SectionStep(st)), t, AfterSection(pc))
                           else SetStream(s, pc.h, SectionStep(st))
  {
  }

  /** Enqueueing, from inside the section to its end. */
  lemma EnqueueEnds(s0: State, trace: seq<Action>, s: State, t: nat, id: Id) returns (s': State)
    requires Reaches(s0, trace, s) && Inside(s, t) && id < |s.place|
    requires s.streams[s.threads[t].h].section.value.at == AtPush(id)
    ensures Reaches(s0, trace, s') && |s'.place| == |s.place|
    ensures var pc := s.threads[t];
      s' == SetThread(SetStream(s, pc.h, SectionRun(s.streams[pc.h])), t, AfterSection(pc)).(
              place := s'.place, moved := s.moved || pc.Moving?)
  {
    var pc := s.threads[t];
    var st := s.streams[pc.h];
    ReachesNext(s0, trace, s, Advance(t));
    SectionStepKeeps(st);
    var s1 := Next(s, Advance(t));
    SectionEnds(s0, trace, s1, t);
    s' := SetThread(SetStream(s1, pc.h, SectionRun(s1.streams[pc.h])), t, AfterSection(pc));
    assert s1.streams[pc.h := SectionRun(st)] == s.streams[pc.h := SectionRun(st)];
  }

  // ---------------------------------------------------------------- whole calls and tags

  lemma PushToPending(s0: State, trace: seq<Action>, s: State, t: nat, cmd: GatewayCommand)
    returns (s': State)
    requires Reaches(s0, trace, s) && 0 < t < |s.threads| && s.threads[t] == Idle
    requires s.active.None? && s.pendingMu.None? && |s.place| == |s.commands|
    ensures Reaches(s0, trace + [Call(t, cmd)], s') && |s'.place| == |s'.commands|
    ensures s' == s.(commands := s.commands + [cmd], pending := s.pending + [|s.commands|],
                     place := s'.place)
  {
    var more := trace + [Call(t, cmd)];
    ReachesNext(s0, trace, s, Call(t, cmd));
    var s1 := Next(s, Call(t, cmd));
    ReachesNext(s0, more, s1, Advance(t));
    var s2 := Next(s1, Advance(t));
    ReachesNext(s0, more, s2, Advance(t));
    var s3 := Next(s2, Advance(t));
    ReachesNext(s0, more, s3, Advance(t));
    s' := Next(s3, Advance(t));
    assert s'.threads == s.threads;
  }

  ghost predicate Unlocked(s: State, h: nat) {
    h < |s.streams| && s.streams[h].section.None? && StreamInv(s.streams[h])
  }

  lemma PushToStream(s0: State, trace: seq<Action>, s: State, t: nat, cmd: GatewayCommand, h: nat)
    returns (s': State)
    requires Reaches(s0, trace, s) && 0 < t < |s.threads| && s.threads[t] == Idle
    requires s.active == Some(h) && Unlocked(s, h) && |s.place| == |s.commands|
    ensures Reaches(s0, trace + [Call(t, cmd)], s') && |s'.place| == |s'.commands|
    ensures s' == SetStream(s, h, EnqueueOf(s.streams[h], |s.commands|)).(
                    commands := s.commands + [cmd], place := s'.place)
  {
    var more := trace + [Call(t, cmd)];
    var st := s.streams[h];
    var id := |s.commands|;
    ReachesNext(s0, trace, s, Call(t, cmd));
    var s1 := Next(s, Call(t, cmd));
    ReachesNext(s0, more, s1, Advance(t));
    var s2 := Next(s1, Advance(t));
    EnqueueRun(st, t, id);
    assert s2.threads[t] == InEnqueue(h) && s2.streams[h] == Lock(st, t, AtPush(id));
    s' := EnqueueEnds(s0, more, s2, t, id);
    assert s'.threads == s.threads;
    assert s'.streams == s.streams[h := EnqueueOf(st, id)];
  }

  ghost function EnqueueAllOf(st: Stream, ids: seq<Id>): Stream
    decreases |ids|
  {
    if ids == [] then st else EnqueueAllOf(EnqueueOf(st, ids[0]), ids[1..])
  }

  lemma EnqueueOfKeeps(st: Stream, id: Id)
    requires StreamInv(st) && st.section.None?
    ensures StreamInv(EnqueueOf(st, id)) && EnqueueOf(st, id).section.None?
  {
    var st1 := st.(queue := st.queue + [id], enqueued := st.enqueued + [id]);
    assert st.submitted + (st.queue + [id]) == (st.submitted + st.queue) + [id];
    if !st1.writing {
      assert (st1.submitted + [st1.queue[0]]) + st1.queue[1..] == st1.submitted + st1.queue;
    }
  }

  /** `flush_pending` from the head of its loop to the release of `pending_mu_`. */
  lemma {:induction false} FlushPendingRun(s0: State, trace: seq<Action>, s: State, h: nat)
    returns (s': State)
    requires Reaches(s0, trace, s) && 0 < |s.threads| && s.threads[0] == Flushing(h) && !s.moved
    requires Unlocked(s, h) && forall id :: id in s.pending ==> id < |s.place|
    ensures Reaches(s0, trace, s') && |s'.place| == |s.place|
    ensures s' == SetThread(SetStream(s, h, EnqueueAllOf(s.streams[h], s.pending)), 0, Flushed(h)).(
                    pending := [], pendingMu := None, place := s'.place)
    decreases |s.pending|
  {
    ReachesNext(s0, trace, s, Advance(0));
    var s1 := Next(s, Advance(0));
    if s.pending == [] {
      s' := s1;
      assert s.streams[h := s.streams[h]] == s.streams;
    } else {
      var st := s.streams[h];
      var s4 := MoveOne(s0, trace, s, s1, h);
      EnqueueOfKeeps(st, s.pending[0]);
      assert forall id :: id in s4.pending ==> id in s.pending;
      s' := FlushPendingRun(s0, trace, s4, h);
      assert s'.threads == s.threads[0 := Flushed(h)];
      assert s'.streams == s.streams[h := EnqueueAllOf(st, s.pending)];
    }
  }

  /** One turn of that loop. */
  lemma MoveOne(s0: State, trace: seq<Action>, s: State, s1: State, h: nat) returns (s4: State)
    requires Reaches(s0, trace, s1) && 0 < |s.threads| && s.threads[0] == Flushing(h) && !s.moved
    requires Unlocked(s, h) && forall id :: id in s.pending ==> id < |s.place|
    requires s.pending != [] && s1 == Next(s, Advance(0))
    ensures Reaches(s0, trace, s4) && |s4.place| == |s.place|
    ensures s4 == SetStream(s, h, EnqueueOf(s.streams[h], s.pending[0])).(
                    pending := s.pending[1..], place := s4.place)
  {
    var st := s.streams[h];
    EnqueueRun(st, 0, s.pending[0]);
    assert s.pending[0] in s.pending;
    assert s1.threads[0] == Moving(h) && s1.streams[h] == Lock(st, 0, AtPush(s.pending[0]));
    var s2 := EnqueueEnds(s0, trace, s1, 0, s.pending[0]);
    assert s2.threads[0] == Moved(h);
    ReachesNext(s0, trace, s2, Advance(0));
    s4 := Next(s2, Advance(0));
    assert s4.threads == s.threads;
    assert s4.streams == s.streams[h := EnqueueOf(st, s.pending[0])];
  }

  /** A successful accept, from the tag to the lock of the pending queue. */
  lemma AcceptUpToFlush(s0: State, trace: seq<Action>, s: State, h: nat) returns (s3: State)
    requires Reaches(s0, trace, s) && IdleQueue(s) && s.pendingMu.None?
    requires h < |s.streams| && s.streams[h].phase == Accepting
    ensures Reaches(s0, trace + [DeliverAccept(h, true)], s3)
    ensures s3 == s.(threads := s.threads[0 := Flushing(h)], streams := s.streams + [NewStream()],
                     active := Some(h), pendingMu := Some(0))
  {
    var more := trace + [DeliverAccept(h, true)];
    ReachesNext(s0, trace, s, DeliverAccept(h, true));
    var s1 := Next(s, DeliverAccept(h, true));
    ReachesNext(s0, more, s1, Advance(0));
    var s2 := Next(s1, Advance(0));
    ReachesNext(s0, more, s2, Advance(0));
    s3 := Next(s2, Advance(0));
    assert s3.threads == s.threads[0 := Flushing(h)];
  }

  /** A successful accept, from the tag to the Read. */
  lemma AcceptRun(s0: State, trace: seq<Action>, s: State, h: nat) returns (s': State)
    requires Reaches(s0, trace, s) && IdleQueue(s) && s.pendingMu.None? && !s.moved
    requires Unlocked(s, h) && s.streams[h].phase == Accepting
    requires forall id :: id in s.pending ==> id < |s.place|
    ensures Reaches(s0, trace + [DeliverAccept(h, true)], s') && |s'.place| == |s.place|
    ensures s' == s.(streams := s.streams[h := EnqueueAllOf(s.streams[h], s.pending).(phase := Reading)]
                                + [NewStream()],
                     active := Some(h), pending := [], place := s'.place)
  {
    var more := trace + [DeliverAccept(h, true)];
    var s3 := AcceptUpToFlush(s0, trace, s, h);
    assert s3.streams[h] == s.streams[h];
    var s4 := FlushPendingRun(s0, more, s3, h);
    ReachesNext(s0, more, s4, Advance(0));
    s' := Next(s4, Advance(0));
    assert s'.threads == s.threads;
    assert s'.streams == s.streams[h := EnqueueAllOf(s.streams[h], s.pending).(phase := Reading)]
                         + [NewStream()];
  }

  lemma DisconnectRun(s0: State, trace: seq<Action>, s: State, h: nat) returns (s': State)
    requires Reaches(s0, trace, s) && IdleQueue(s) && h < |s.streams| && s.streams[h].phase == Reading
    ensures Reaches(s0, trace + [DeliverRead(h, false)], s')
    ensures s' == SetStream(s, h, s.streams[h].(phase := Finishing)).(
                    active := ClearActive(s.active, h))
  {
    var more := trace + [DeliverRead(h, false)];
    ReachesNext(s0, trace, s, DeliverRead(h, false));
    var s1 := Next(s, DeliverRead(h, false));
    ReachesNext(s0, more, s1, Advance(0));
    var s2 := Next(s1, Advance(0));
    ReachesNext(s0, more, s2, Advance(0));
    s' := Next(s2, Advance(0));
    assert s'.threads == s.threads;
  }

  lemma FinishRun(s0: State, trace: seq<Action>, s: State, h: nat) returns (s': State)
    requires Reaches(s0, trace, s) && Enabled(s, DeliverFinish(h))
    ensures Reaches(s0, trace + [DeliverFinish(h)], s')
    ensures s' == SetStream(s, h, s.streams[h].(phase := Deleted)).(
                    active := ClearActive(s.active, h))
  {
    var more := trace + [DeliverFinish(h)];
    ReachesNext(s0, trace, s, DeliverFinish(h));
    var s1 := Next(s, DeliverFinish(h));
    ReachesNext(s0, more, s1, Advance(0));
    var s2 := Next(s1, Advance(0));
    ReachesNext(s0, more, s2, Advance(0));
    s' := Next(s2, Advance(0));
    assert s'.threads == s.threads;
  }

  lemma WriteFailedRun(s0: State, trace: seq<Action>, s: State, h: nat) returns (s': State)
    requires Reaches(s0, trace, s) && Enabled(s, DeliverWrite(h, false))
    ensures Reaches(s0, trace + [DeliverWrite(h, false)], s')
    ensures s' == SetStream(s, h, ClearUnlocked(TakeWriteTag(s.streams[h])))
  {
    var more := trace + [DeliverWrite(h, false)];
    ReachesNext(s0, trace, s, DeliverWrite(h, false));
    var s1 := Next(s, DeliverWrite(h, false));
    ReachesNext(s0, more, s1, Advance(0));
    s' := Next(s1, Advance(0));
    assert s'.threads == s.threads;
    assert s'.streams == s.streams[h := ClearUnlocked(TakeWriteTag(s.streams[h]))];
  }

  lemma WriteOkLocked(s0: State, trace: seq<Action>, s: State, h: nat) returns (s2: State)
    requires Reaches(s0, trace, s) && Enabled(s, DeliverWrite(h, true)) && Unlocked(s, h)
    ensures Reaches(s0, trace + [DeliverWrite(h, true)], s2)
    ensures s2 == SetThread(SetStream(s, h, Lock(TakeWriteTag(s.streams[h]), 0, AtClear)), 0,
                            InWriteDone(h))
  {
    var more := trace + [DeliverWrite(h, true)];
    ReachesNext(s0, trace, s, DeliverWrite(h, true));
    var s1 := Next(s, DeliverWrite(h, true));
    ReachesNext(s0, more, s1, Advance(0));
    s2 := Next(s1, Advance(0));
    assert s2.threads == s.threads[0 := InWriteDone(h)];
    assert s2.streams == s.streams[h := Lock(TakeWriteTag(s.streams[h]), 0, AtClear)];
  }

  lemma WriteOkRun(s0: State, trace: seq<Action>, s: State, h: nat) returns (s': State)
    requires Reaches(s0, trace, s) && Enabled(s, DeliverWrite(h, true)) && Unlocked(s, h)
    ensures Reaches(s0, trace + [DeliverWrite(h, true)], s')
    ensures s' == SetStream(s, h, WriteDoneOf(TakeWriteTag(s.streams[h])))
  {
    var more := trace + [DeliverWrite(h, true)];
    var st := TakeWriteTag(s.streams[h]);
    TakeWriteTagKeeps(s.streams[h]);
    var s2 := WriteOkLocked(s0, trace, s, h);
    WriteDoneRun(st, 0);
    SectionEnds(s0, more, s2, 0);
    s' := SetThread(SetStream(s2, h, WriteDoneOf(st)), 0, Idle);
    assert s'.threads == s.threads;
    assert s'.streams == s.streams[h := WriteDoneOf(st)];
  }
}
