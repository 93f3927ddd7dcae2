/** What still happens to a stream after its client has disconnected, at fine granularity: a
    producer that loaded the handler before can enqueue to it and issue Writes after Finish. */
module FineFinish {
  import opened Wrappers
  import opened Phases
  import opened FineStreams
  import Core = FineInvariant

  /** The stream has been handed to Finish. */
  predicate Finished(st: Stream) {
    st.phase == Finishing || st.phase == Deleted
  }

  /** The next step of thread `t` is one of the holder of `mu_` of stream `h`, at point `at`. */
  predicate StepsIn(s: State, a: Action, h: nat) {
    && a.Advance? && a.thread < |s.threads| && InSection(s.threads[a.thread])
    && s.threads[a.thread].h == h && h < |s.streams| && s.streams[h].section.Some?
  }

  // ---------------------------------------------------------------- Writes

  /** The holder of `mu_` has decided to Write and not yet done so. */
  function Deciding(st: Stream): nat {
    if st.section.Some? && (st.section.value.at.AtStore? || st.section.value.at.AtWrite?) then 1
    else 0
  }

  /** Writes issued or decided on. */
  function Decided(st: Stream): nat {
    |st.submitted| + Deciding(st)
  }

  /** `flush_write_queue_locked` finds a command, and no Write in flight. */
  predicate Decides(s: State, a: Action, h: nat) {
    && StepsIn(s, a, h) && s.streams[h].section.value.at.AtFlush?
    && s.streams[h].queue != [] && !s.streams[h].writing
  }

  function One(b: bool): nat {
    if b then 1 else 0
  }

  lemma SectionDecides(st: Stream)
    requires StreamInv(st) && st.section.Some?
    ensures Decided(SectionStep(st))
         == Decided(st) + One(st.section.value.at.AtFlush? && st.queue != [] && !st.writing)
  {
  }

  /** How stream `h` may change in a step that is not one of the holder of its `mu_`. */
  ghost predicate Quiet(st: Stream, st': Stream) {
    && st'.submitted == st.submitted && st'.enqueued == st.enqueued
    && (st'.section == st.section
        || (st.section.None? && st'.section.Some?
            && (st'.section.value.at.AtPush? || st'.section.value.at.AtClear?)))
    && (Finished(st) ==> Finished(st'))
  }

  lemma DeliveryIsQuiet(s: State, a: Action, s': State, h: nat)
    requires Core.Inv(s) && Enabled(s, a) && s' == Next(s, a) && !a.Advance? && h < |s.streams|
    ensures h < |s'.streams| && Quiet(s.streams[h], s'.streams[h])
  {
  }

  lemma OutsideIsQuiet(s: State, t: nat, s': State, h: nat)
    requires Enabled(s, Advance(t)) && s' == AdvanceStep(s, t) && h < |s.streams|
    requires !InSection(s.threads[t])
    requires s.threads[t] == Flushed(h) ==> !Finished(s.streams[h])
    ensures h < |s'.streams| && Quiet(s.streams[h], s'.streams[h])
  {
  }

  /** Inside a section the holder steps, and other streams stay as they are. */
  lemma InsideSteps(s: State, t: nat, s': State, h: nat)
    requires Core.Inv(s) && Enabled(s, Advance(t)) && s' == AdvanceStep(s, t) && h < |s.streams|
    requires InSection(s.threads[t])
    ensures h < |s'.streams|
    ensures StepsIn(s, Advance(t), h) <==> s.threads[t].h == h
    ensures s'.streams[h] == if s.threads[t].h == h then SectionStep(s.streams[h]) else s.streams[h]
  {
    assert Core.ThreadInv(s, t);
  }

  lemma StepDecides(s: State, a: Action, s': State, h: nat)
    requires Core.Inv(s) && Enabled(s, a) && s' == Next(s, a) && h < |s.streams|
    ensures h < |s'.streams|
    ensures Decided(s'.streams[h]) == Decided(s.streams[h]) + One(Decides(s, a, h))
    ensures Finished(s.streams[h]) ==> Finished(s'.streams[h])
  {
    if !a.Advance? {
      DeliveryIsQuiet(s, a, s', h);
    } else if InSection(s.threads[a.thread]) {
      InsideSteps(s, a.thread, s', h);
      assert Core.HandlerInv(s, h);
      if StepsIn(s, a, h) { SectionDecides(s.streams[h]); }
    } else {
      assert Core.ThreadInv(s, a.thread);
      OutsideIsQuiet(s, a.thread, s', h);
    }
  }

  ghost function Decisions(s: State, actions: seq<Action>, h: nat): nat
    requires IsRun(s, actions)
    decreases |actions|
  {
    if actions == [] then 0
    else One(Decides(s, actions[0], h)) + Decisions(Next(s, actions[0]), actions[1..], h)
  }

  lemma {:induction false} RunDecides(s: State, actions: seq<Action>, s': State, h: nat)
    requires Core.Inv(s) && IsRun(s, actions) && s' == After(s, actions) && h < |s.streams|
    ensures h < |s'.streams|
    ensures Decided(s'.streams[h]) == Decided(s.streams[h]) + Decisions(s, actions, h)
    ensures Finished(s.streams[h]) ==> Finished(s'.streams[h])
    decreases |actions|
  {
    if actions != [] {
      var mid := Next(s, actions[0]);
      StepDecides(s, actions[0], mid, h);
      Core.StepKeeps(s, actions[0]);
      RunDecides(mid, actions[1..], s', h);
    }
  }

  /** Who decides to Write on a finished stream: `on_write_done` of an earlier Write, or a producer
      in `enqueue`. */
  lemma DecidedBy(s: State, a: Action, h: nat)
    requires Core.Inv(s) && Enabled(s, a) && Decides(s, a, h) && Finished(s.streams[h])
    ensures if a.thread == 0 then s.threads[0] == InWriteDone(h)
            else s.threads[a.thread] == InEnqueue(h)
  {
    assert Core.ThreadInv(s, a.thread) && Core.ThreadInv(s, 0);
  }

  /** From the state before the step that calls Finish on stream `h` to the one after it. */
  ghost predicate CallsFinish(producers: nat, before: seq<Action>, h: nat, s: State) {
    && IsRun(Init(producers), before)
    && var s0 := After(Init(producers), before);
    && 0 < |s0.threads| && s0.threads[0] == Detached(h)
    && Enabled(s0, Advance(0)) && s == Next(s0, Advance(0))
  }

  lemma FinishCalled(producers: nat, before: seq<Action>, h: nat, s: State)
    requires CallsFinish(producers, before, h, s)
    ensures Core.Inv(s) && HasFinished(s, h) && s.active != Some(h)
  {
    var s0 := After(Init(producers), before);
    Core.InitInv(producers);
    Core.RunKeeps(Init(producers), before);
    Core.StepKeeps(s0, Advance(0));
  }

  predicate HasFinished(s: State, h: nat) {
    h < |s.streams| && Finished(s.streams[h])
  }

  /** Over every interleaving, the Writes issued on stream `h` after Finish was called are counted
      exactly: one for each decision taken since, one more if a holder of `mu_` had decided before
      and not written, one less if the holder has decided now and not written. */
  lemma WritesAfterFinish(producers: nat, before: seq<Action>, h: nat, s: State,
                          actions: seq<Action>, s': State)
    requires CallsFinish(producers, before, h, s)
    requires IsRun(s, actions) && s' == After(s, actions)
    ensures HasFinished(s, h) && HasFinished(s', h)
    ensures |s'.streams[h].submitted| + Deciding(s'.streams[h])
         == |s.streams[h].submitted| + Deciding(s.streams[h]) + Decisions(s, actions, h)
  {
    FinishCalled(producers, before, h, s);
    RunDecides(s, actions, s', h);
  }

  /** Once nobody is inside `mu_` of the stream, nothing was written after Finish if and only if
      nobody decided to since, and nobody had decided when Finish was called. */
  lemma NoWriteAfterFinishIff(producers: nat, before: seq<Action>, h: nat, s: State,
                              actions: seq<Action>, s': State)
    requires CallsFinish(producers, before, h, s)
    requires IsRun(s, actions) && s' == After(s, actions)
    requires h < |s'.streams| && s'.streams[h].section.None?
    ensures h < |s.streams|
    ensures |s'.streams[h].submitted| == |s.streams[h].submitted|
       <==> Decisions(s, actions, h) == 0 && Deciding(s.streams[h]) == 0
  {
    WritesAfterFinish(producers, before, h, s, actions, s');
  }

  // ---------------------------------------------------------------- commands

  /** A command leaves for stream `h`. */
  predicate Enqueues(s: State, a: Action, h: nat) {
    StepsIn(s, a, h) && s.streams[h].section.value.at.AtPush?
  }

  lemma StepEnqueues(s: State, a: Action, s': State, h: nat)
    requires Core.Inv(s) && Enabled(s, a) && s' == Next(s, a) && h < |s.streams|
    ensures h < |s'.streams| && s.streams[h].enqueued <= s'.streams[h].enqueued
    ensures |s'.streams[h].enqueued| == |s.streams[h].enqueued| + One(Enqueues(s, a, h))
  {
    if !a.Advance? {
      DeliveryIsQuiet(s, a, s', h);
    } else if InSection(s.threads[a.thread]) {
      InsideSteps(s, a.thread, s', h);
    } else {
      assert Core.ThreadInv(s, a.thread);
      OutsideIsQuiet(s, a.thread, s', h);
    }
  }

  ghost predicate NeverEnqueues(s: State, actions: seq<Action>, h: nat)
    requires IsRun(s, actions)
    decreases |actions|
  {
    actions == []
    || (!Enqueues(s, actions[0], h) && NeverEnqueues(Next(s, actions[0]), actions[1..], h))
  }

  lemma {:induction false} RunEnqueues(s: State, actions: seq<Action>, s': State, h: nat)
    requires Core.Inv(s) && IsRun(s, actions) && s' == After(s, actions) && h < |s.streams|
    ensures h < |s'.streams| && s.streams[h].enqueued <= s'.streams[h].enqueued
    ensures s'.streams[h].enqueued == s.streams[h].enqueued <==> NeverEnqueues(s, actions, h)
    decreases |actions|
  {
    if actions != [] {
      var mid := Next(s, actions[0]);
      StepEnqueues(s, actions[0], mid, h);
      Core.StepKeeps(s, actions[0]);
      RunEnqueues(mid, actions[1..], s', h);
    }
  }

  /** Over every interleaving: what a stream has been given stays the same after Finish was called
      if and only if no thread that was on its way to `enqueue` arrives there. */
  lemma FrozenAfterFinishIff(producers: nat, before: seq<Action>, h: nat, s: State,
                             actions: seq<Action>, s': State)
    requires CallsFinish(producers, before, h, s)
    requires IsRun(s, actions) && s' == After(s, actions)
    ensures HasFinished(s, h) && h < |s'.streams|
    ensures s'.streams[h].enqueued == s.streams[h].enqueued <==> NeverEnqueues(s, actions, h)
  {
    FinishCalled(producers, before, h, s);
    RunEnqueues(s, actions, s', h);
  }

  /** No thread can reach the `enqueue` of the finished stream `h` any more. */
  ghost predicate Sealed(s: State, h: nat) {
    && HasFinished(s, h) && s.active != Some(h)
    && forall t :: 0 <= t < |s.threads| ==> !Refers(s.threads[t], h)
  }

  lemma SealedStep(s: State, a: Action, s': State, h: nat)
    requires Core.Inv(s) && Sealed(s, h) && Enabled(s, a) && s' == Next(s, a)
    ensures Sealed(s', h) && !Enqueues(s, a, h)
  {
    StepDecides(s, a, s', h);
    SealedThreads(s, a, s', h);
    if a.Advance? { assert Core.ThreadInv(s, a.thread); }
  }

  /** A step inside the code gives no thread a new pointer to a handler. */
  lemma AdvanceGainsNoReference(s: State, t: nat, s': State, k: nat, h: nat)
    requires Enabled(s, Advance(t)) && s' == AdvanceStep(s, t) && k < |s.threads|
    ensures |s'.threads| == |s.threads| && (Refers(s'.threads[k], h) ==> Refers(s.threads[k], h))
  {
    match s.threads[t]
    case InEnqueue(g) => SectionFrame(s, t, g, Idle);
    case Moving(g) => SectionFrame(s, t, g, Moved(g));
    case InWriteDone(g) => SectionFrame(s, t, g, Idle);
    case _ =>
  }

  /** A thread gets a pointer to a handler only by loading `active_`. */
  lemma ReferencesStep(s: State, a: Action, s': State, k: nat, h: nat)
    requires Enabled(s, a) && s' == Next(s, a) && k < |s'.threads|
    ensures |s'.threads| == |s.threads|
    ensures Refers(s'.threads[k], h) ==> Refers(s.threads[k], h) || (a.Call? && s.active == Some(h))
  {
    if a.Advance? { AdvanceGainsNoReference(s, a.thread, s', k, h); }
  }

  lemma SealedThreads(s: State, a: Action, s': State, h: nat)
    requires Core.Inv(s) && Sealed(s, h) && Enabled(s, a) && s' == Next(s, a)
    ensures s'.active != Some(h)
    ensures forall t :: 0 <= t < |s'.threads| ==> !Refers(s'.threads[t], h)
  {
    InactiveStep(s, a, s', h);
    forall t | 0 <= t < |s'.threads| ensures !Refers(s'.threads[t], h) {
      ReferencesStep(s, a, s', t, h);
    }
  }

  /** Once no thread refers to it, what it has been given is fixed for good. */
  lemma {:induction false} SealedForGood(s: State, actions: seq<Action>, s': State, h: nat)
    requires Core.Inv(s) && Sealed(s, h) && IsRun(s, actions) && s' == After(s, actions)
    ensures Sealed(s', h) && s'.streams[h].enqueued == s.streams[h].enqueued
    decreases |actions|
  {
    if actions != [] {
      var mid := Next(s, actions[0]);
      SealedStep(s, actions[0], mid, h);
      StepEnqueues(s, actions[0], mid, h);
      Core.StepKeeps(s, actions[0]);
      SealedForGood(mid, actions[1..], s', h);
    }
  }

  /** Over every interleaving: from the first state after Finish in which no producer holds the
      handler, the stream is given nothing more. */
  lemma FrozenOnceReleased(producers: nat, before: seq<Action>, h: nat, s: State,
                           between: seq<Action>, mid: State, actions: seq<Action>, s': State)
    requires CallsFinish(producers, before, h, s)
    requires IsRun(s, between) && mid == After(s, between)
    requires forall t :: 0 <= t < |mid.threads| ==> !Refers(mid.threads[t], h)
    requires IsRun(mid, actions) && s' == After(mid, actions)
    ensures h < |mid.streams| && h < |s'.streams|
    ensures s'.streams[h].enqueued == mid.streams[h].enqueued
  {
    FinishCalled(producers, before, h, s);
    RunKeepsInactive(s, between, mid, h);
    SealedForGood(mid, actions, s', h);
  }

  lemma InactiveStep(s: State, a: Action, s': State, h: nat)
    requires Core.Inv(s) && HasFinished(s, h) && s.active != Some(h)
    requires Enabled(s, a) && s' == Next(s, a)
    ensures s'.active != Some(h)
  {
    if a.Advance? { assert Core.ThreadInv(s, a.thread); }
  }

  lemma {:induction false} RunKeepsInactive(s: State, actions: seq<Action>, s': State, h: nat)
    requires Core.Inv(s) && HasFinished(s, h) && s.active != Some(h)
    requires IsRun(s, actions) && s' == After(s, actions)
    ensures Core.Inv(s') && HasFinished(s', h) && s'.active != Some(h)
    decreases |actions|
  {
    if actions != [] {
      var mid := Next(s, actions[0]);
      StepDecides(s, actions[0], mid, h);
      InactiveStep(s, actions[0], mid, h);
      Core.StepKeeps(s, actions[0]);
      RunKeepsInactive(mid, actions[1..], s', h);
    }
  }
}
