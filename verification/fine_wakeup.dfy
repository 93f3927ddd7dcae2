/** No lost wake-up at fine granularity: however threads interleave, a stream none of whose Writes
    has failed does not come to rest with commands in its queue. */
module FineWakeup {
  import opened FineStreams
  import Core = FineInvariant

  /** Unless a completion is being handled, queued commands have a Write to wait for: one in
      flight, or the one that the holder of `mu_` is about to issue. */
  predicate Awake(st: Stream) {
    var waits := !st.completing && st.queue != [] ==> st.writing;
    match st.section
    case None => waits
    case Some(Section(_, AtPush(_))) => waits
    case Some(Section(_, AtUnlock)) => waits
    case Some(Section(_, AtPop)) => st.completing || st.writing
    case _ => true
  }

  lemma SectionStaysAwake(st: Stream)
    requires StreamInv(st) && st.section.Some? && Awake(st)
    ensures Awake(SectionStep(st))
  {
  }

  lemma LockStaysAwake(st: Stream, t: nat, at: Point)
    requires st.section.None? && Awake(st) && (at.AtPush? || at.AtClear?)
    ensures Awake(Lock(st, t, at))
  {
  }

  lemma TagStaysAwake(st: Stream)
    requires st.writeTags > 0 && Awake(st)
    ensures Awake(TakeWriteTag(st))
  {
  }

  /** Stream `h`, if it exists, is awake, and no failed Write of it is being handled. */
  ghost predicate AwakeInv(s: State, h: nat) {
    && 0 < |s.threads| && s.threads[0] != WriteFailed(h)
    && (h < |s.streams| ==> Awake(s.streams[h]))
  }

  lemma SectionAdvanceStaysAwake(s: State, t: nat, g: nat, after: Pc, h: nat)
    requires t < |s.threads| && CanStep(s, g) && h < |s.streams|
    requires StreamInv(s.streams[h]) && Awake(s.streams[h])
    ensures Awake(SectionAdvance(s, t, g, after).streams[h])
  {
    if g == h { SectionStaysAwake(s.streams[h]); }
  }

  lemma AdvanceStaysAwake(s: State, t: nat, s': State, h: nat)
    requires Enabled(s, Advance(t)) && s' == AdvanceStep(s, t) && s.threads[t] != WriteFailed(h)
    requires h < |s.streams| && StreamInv(s.streams[h]) && Awake(s.streams[h])
    ensures |s'.streams| == |s.streams| && Awake(s'.streams[h])
  {
    match s.threads[t]
    case InEnqueue(g) => SectionAdvanceStaysAwake(s, t, g, Idle, h);
    case Moving(g) => SectionAdvanceStaysAwake(s, t, g, Moved(g), h);
    case InWriteDone(g) => SectionAdvanceStaysAwake(s, t, g, Idle, h);
    case Loaded(id, Some(g)) => if g == h { LockStaysAwake(s.streams[h], t, AtPush(id)); }
    case WriteOk(g) => if g == h { LockStaysAwake(s.streams[h], t, AtClear); }
    case _ =>
  }

  lemma NoFailureAppears(s: State, t: nat, s': State, h: nat)
    requires Enabled(s, Advance(t)) && s' == AdvanceStep(s, t)
    requires 0 < |s.threads| && s.threads[0] != WriteFailed(h)
    ensures |s'.threads| == |s.threads| && |s'.streams| == |s.streams|
    ensures s'.threads[0] != WriteFailed(h)
  {
    match s.threads[t]
    case InEnqueue(g) => SectionFrame(s, t, g, Idle);
    case Moving(g) => SectionFrame(s, t, g, Moved(g));
    case InWriteDone(g) => SectionFrame(s, t, g, Idle);
    case _ =>
  }

  lemma StepStaysAwake(s: State, a: Action, s': State, h: nat)
    requires Core.Inv(s) && AwakeInv(s, h) && Enabled(s, a) && s' == Next(s, a)
    requires a != DeliverWrite(h, false)
    ensures AwakeInv(s', h)
  {
    if a.Advance? {
      assert Core.ThreadInv(s, a.thread);
      NoFailureAppears(s, a.thread, s', h);
      if h < |s.streams| {
        assert Core.HandlerInv(s, h);
        AdvanceStaysAwake(s, a.thread, s', h);
      }
    } else if a.DeliverWrite? && a.h == h {
      TagStaysAwake(s.streams[h]);
    }
  }

  lemma {:induction false} RunStaysAwake(s: State, actions: seq<Action>, h: nat)
    requires Core.Inv(s) && AwakeInv(s, h) && IsRun(s, actions)
    requires DeliverWrite(h, false) !in actions
    ensures Core.Inv(After(s, actions)) && AwakeInv(After(s, actions), h)
    decreases |actions|
  {
    if actions != [] {
      Core.StepKeeps(s, actions[0]);
      StepStaysAwake(s, actions[0], Next(s, actions[0]), h);
      RunStaysAwake(Next(s, actions[0]), actions[1..], h);
    }
  }

  /** Over every interleaving with any number of producers: if no Write of stream `h` has failed,
      nobody is inside its `mu_` and no completion is being handled, then queued commands have
      exactly one Write in flight, whose completion submits the next one. */
  lemma NoLostWakeup(producers: nat, actions: seq<Action>, s: State, h: nat)
    requires IsRun(Init(producers), actions) && s == After(Init(producers), actions)
    requires DeliverWrite(h, false) !in actions && h < |s.streams|
    requires s.streams[h].section.None? && !s.streams[h].completing
    ensures s.streams[h].queue != [] ==> s.streams[h].writing && s.streams[h].writeTags == 1
  {
    Core.InitInv(producers);
    RunStaysAwake(Init(producers), actions, h);
    assert Core.HandlerInv(s, h);
  }
}
