/** Every coarse run in which Finish completes after an outstanding Write is a run of the
    fine-grained machine, one in which the steps of different threads do not overlap. */
module StreamRefinement {
  import opened Commands
  import opened Phases
  import Coarse = Streams
  import CoarseTheorems = StreamTheorems
  import Fine = FineStreams
  import opened FineRuns

  /** The commands with the given numbers. */
  function Named(commands: seq<GatewayCommand>, ids: seq<Fine.Id>): seq<GatewayCommand>
    requires forall id :: id in ids ==> id < |commands|
  {
    seq(|ids|, i requires 0 <= i < |ids| => assert ids[i] in ids; commands[ids[i]])
  }

  ghost predicate Known(commands: seq<GatewayCommand>, ids: seq<Fine.Id>) {
    forall id :: id in ids ==> id < |commands|
  }

  ghost predicate SameStream(h: Coarse.Handler, st: Fine.Stream, commands: seq<GatewayCommand>) {
    && Fine.StreamInv(st) && st.section.None? && !st.completing
    && st.phase == h.phase && st.writing == h.writing && st.writeTags == h.writesInFlight
    && Known(commands, st.queue) && Known(commands, st.submitted)
    && Named(commands, st.queue) == h.queue
    && Named(commands, st.submitted) == h.submitted
  }

  /** The fine-grained state `f` is at rest and looks like the coarse state `c`. */
  ghost predicate Same(c: Coarse.State, f: Fine.State) {
    && |f.threads| >= 2 && (forall t :: 0 <= t < |f.threads| ==> f.threads[t] == Fine.Idle)
    && f.pendingMu.None? && !f.moved && f.active == c.active
    && f.commands == c.pushed && |f.place| == |f.commands|
    && Known(f.commands, f.pending) && Named(f.commands, f.pending) == c.pending
    && |f.streams| == |c.handlers|
    && forall h :: 0 <= h < |f.streams| ==> SameStream(c.handlers[h], f.streams[h], f.commands)
  }

  // ---------------------------------------------------------------- naming

  lemma NamedAppend(commands: seq<GatewayCommand>, ids: seq<Fine.Id>, id: Fine.Id)
    requires Known(commands, ids) && id < |commands|
    ensures Known(commands, ids + [id])
    ensures Named(commands, ids + [id]) == Named(commands, ids) + [commands[id]]
  {
  }

  lemma NamedTail(commands: seq<GatewayCommand>, ids: seq<Fine.Id>)
    requires Known(commands, ids) && ids != []
    ensures Known(commands, ids[1..]) && ids[0] < |commands|
    ensures Named(commands, ids[1..]) == Named(commands, ids)[1..]
    ensures Named(commands, ids)[0] == commands[ids[0]]
  {
    assert ids[0] in ids;
    assert forall id :: id in ids[1..] ==> id in ids;
  }

  /** A later push renames nothing. */
  lemma NamedGrows(commands: seq<GatewayCommand>, ids: seq<Fine.Id>, cmd: GatewayCommand)
    requires Known(commands, ids)
    ensures Known(commands + [cmd], ids)
    ensures Named(commands + [cmd], ids) == Named(commands, ids)
  {
    forall k | 0 <= k < |ids| ensures Named(commands + [cmd], ids)[k] == Named(commands, ids)[k] {
      assert ids[k] in ids;
    }
  }

  lemma StreamGrows(h: Coarse.Handler, st: Fine.Stream, commands: seq<GatewayCommand>,
                    cmd: GatewayCommand)
    requires SameStream(h, st, commands)
    ensures SameStream(h, st, commands + [cmd])
  {
    NamedGrows(commands, st.queue, cmd);
    NamedGrows(commands, st.submitted, cmd);
  }

  // ---------------------------------------------------------------- one stream

  /** What the two models have to agree on before a flush. */
  ghost predicate SameQueues(h: Coarse.Handler, st: Fine.Stream, commands: seq<GatewayCommand>) {
    && st.writing == h.writing && st.writeTags == h.writesInFlight && st.phase == h.phase
    && Known(commands, st.queue) && Known(commands, st.submitted)
    && Named(commands, st.queue) == h.queue
    && Named(commands, st.submitted) == h.submitted
  }

  lemma SameFlush(h: Coarse.Handler, st: Fine.Stream, commands: seq<GatewayCommand>)
    requires SameQueues(h, st, commands)
    ensures SameQueues(Coarse.Flush(h), FlushOf(st), commands)
  {
    if st.queue != [] && !st.writing {
      NamedTail(commands, st.queue);
      NamedAppend(commands, st.submitted, st.queue[0]);
    } else {
      assert h.queue == [] || h.writing;
    }
  }

  lemma SameEnqueue(h: Coarse.Handler, st: Fine.Stream, commands: seq<GatewayCommand>,
                    id: Fine.Id)
    requires SameStream(h, st, commands) && id < |commands|
    ensures SameStream(Coarse.Enqueue(h, commands[id]), EnqueueOf(st, id), commands)
  {
    EnqueueOfKeeps(st, id);
    NamedAppend(commands, st.queue, id);
    var h1 := h.(queue := h.queue + [commands[id]]);
    var st1 := st.(queue := st.queue + [id], enqueued := st.enqueued + [id]);
    SameFlush(h1, st1, commands);
    if h1.writing { assert Coarse.Enqueue(h, commands[id]) == Coarse.Flush(h1); }
  }

  lemma {:induction false} SameEnqueueAll(h: Coarse.Handler, st: Fine.Stream,
                                          commands: seq<GatewayCommand>, ids: seq<Fine.Id>)
    requires SameStream(h, st, commands) && Known(commands, ids)
    ensures SameStream(Coarse.EnqueueAll(h, Named(commands, ids)), EnqueueAllOf(st, ids), commands)
    decreases |ids|
  {
    if ids != [] {
      NamedTail(commands, ids);
      SameEnqueue(h, st, commands, ids[0]);
      SameEnqueueAll(Coarse.Enqueue(h, commands[ids[0]]), EnqueueOf(st, ids[0]), commands, ids[1..]);
    }
  }

  lemma SameWriteDone(h: Coarse.Handler, st: Fine.Stream, commands: seq<GatewayCommand>, ok: bool)
    requires SameStream(h, st, commands) && st.writeTags > 0
    ensures SameStream(Coarse.OnWriteDone(h.(writesInFlight := h.writesInFlight - 1), ok),
                       if ok then WriteDoneOf(Fine.TakeWriteTag(st))
                       else Fine.ClearUnlocked(Fine.TakeWriteTag(st)), commands)
  {
    Fine.TakeWriteTagKeeps(st);
    var st1 := Fine.TakeWriteTag(st);
    var h1 := h.(writesInFlight := h.writesInFlight - 1);
    if ok {
      WriteDoneRun(st1, 0);
      var h2 := h1.(writing := false, tally := h1.tally.(okWrites := h1.tally.okWrites + 1));
      SameFlush(h2, st1.(writing := false, completing := false), commands);
      WriteDoneOfKeeps(st1);
    } else {
      Fine.ClearUnlockedKeeps(st1);
    }
  }

  lemma WriteDoneOfKeeps(st: Fine.Stream)
    requires Fine.StreamInv(st) && st.section.None? && st.completing
    ensures Fine.StreamInv(WriteDoneOf(st))
  {
    if st.queue != [] {
      assert (st.submitted + [st.queue[0]]) + st.queue[1..] == st.submitted + st.queue;
    }
  }

  // ---------------------------------------------------------------- what both models see

  /** The call or delivery that a coarse event is; calls come from producer `t`. */
  function Label(e: Coarse.Event, t: nat): Fine.Action {
    match e
    case Push(cmd) => Fine.Call(t, cmd)
    case MainDone(i, AcceptOp, ok) => Fine.DeliverAccept(i, ok)
    case MainDone(i, ReadOp, ok) => Fine.DeliverRead(i, ok)
    case MainDone(i, FinishOp, _) => Fine.DeliverFinish(i)
    case WriteDone(i, ok) => Fine.DeliverWrite(i, ok)
  }

  function Labels(es: seq<Coarse.Event>, callers: seq<nat>): seq<Fine.Action>
    requires |callers| == |es|
    decreases |es|
  {
    if es == [] then []
    else
      var n := |es| - 1;
      Labels(es[..n], callers[..n]) + [Label(es[n], callers[n])]
  }

  // ---------------------------------------------------------------- one event

  /** Only stream `i` has changed. */
  lemma SameAfterChange(c: Coarse.State, f: Fine.State, c': Coarse.State, f': Fine.State, i: nat)
    requires Same(c, f) && i < |c.handlers|
    requires |c'.handlers| == |c.handlers| && |f'.streams| == |f.streams|
    requires SameStream(c'.handlers[i], f'.streams[i], f.commands) && f'.active == c'.active
    requires c' == c.(handlers := c.handlers[i := c'.handlers[i]], active := c'.active,
                      acceptFailed := c'.acceptFailed)
    requires f' == f.(streams := f.streams[i := f'.streams[i]], active := f'.active)
    ensures Same(c', f')
  {
    forall h | 0 <= h < |f'.streams|
      ensures SameStream(c'.handlers[h], f'.streams[h], f'.commands)
    {
      assert SameStream(c.handlers[h], f.streams[h], f.commands);
    }
  }

  lemma PushIsRun(c: Coarse.State, f: Fine.State, t: nat, cmd: GatewayCommand, f0: Fine.State,
                  trace: seq<Fine.Action>)
    returns (f': Fine.State)
    requires Coarse.Inv(c) && Same(c, f) && Reaches(f0, trace, f) && 0 < t < |f.threads|
    ensures Reaches(f0, trace + [Fine.Call(t, cmd)], f') && Same(Coarse.PushStep(c, cmd), f')
    ensures |f'.threads| == |f.threads|
  {
    var id := |f.commands|;
    var commands := f.commands + [cmd];
    forall h | 0 <= h < |f.streams| ensures SameStream(c.handlers[h], f.streams[h], commands) {
      StreamGrows(c.handlers[h], f.streams[h], f.commands, cmd);
    }
    NamedGrows(f.commands, f.pending, cmd);
    if c.active.Some? {
      var i := c.active.value;
      assert SameStream(c.handlers[i], f.streams[i], f.commands);
      f' := PushToStream(f0, trace, f, t, cmd, i);
      SameEnqueue(c.handlers[i], f.streams[i], commands, id);
      var c' := Coarse.PushStep(c, cmd);
      forall h | 0 <= h < |f'.streams|
        ensures SameStream(c'.handlers[h], f'.streams[h], f'.commands)
      {
        if h != i { assert f'.streams[h] == f.streams[h]; }
      }
    } else {
      f' := PushToPending(f0, trace, f, t, cmd);
      NamedAppend(commands, f.pending, id);
    }
  }

  lemma AcceptIsRun(c: Coarse.State, f: Fine.State, i: nat, op: Coarse.MainOp, f0: Fine.State,
                    trace: seq<Fine.Action>)
    returns (f': Fine.State)
    requires Coarse.Inv(c) && Same(c, f) && Reaches(f0, trace, f)
    requires Coarse.Enabled(c, Coarse.MainDone(i, op, true)) && c.handlers[i].phase == Accepting
    ensures Reaches(f0, trace + [Fine.DeliverAccept(i, true)], f')
    ensures Same(Coarse.ProceedStep(c, i, op, true), f') && |f'.threads| == |f.threads|
  {
    var h := Coarse.TakeMainTag(c.handlers[i], op);
    assert SameStream(c.handlers[i], f.streams[i], f.commands);
    assert SameStream(h, f.streams[i], f.commands);
    f' := AcceptRun(f0, trace, f, i);
    SameEnqueueAll(h, f.streams[i], f.commands, f.pending);
    var c' := Coarse.ProceedStep(c, i, op, true);
    assert c' == Coarse.AcceptStep(c, i, h);
    forall k | 0 <= k < |f'.streams|
      ensures SameStream(c'.handlers[k], f'.streams[k], f'.commands)
    {
      if k < |f.streams| && k != i { assert SameStream(c.handlers[k], f.streams[k], f.commands); }
    }
  }

  /** Handler `i` differs in its phase and in history that the fine-grained machine lacks. */
  ghost predicate PhaseChange(c: Coarse.State, c': Coarse.State, i: nat, phase: Phase) {
    && i < |c.handlers| == |c'.handlers|
    && c' == c.(handlers := c.handlers[i := c'.handlers[i]], active := c'.active)
    && c'.handlers[i] == c.handlers[i].(phase := phase, mainOps := c'.handlers[i].mainOps,
                                        tally := c'.handlers[i].tally)
  }

  lemma SameAfterPhase(c: Coarse.State, f: Fine.State, c': Coarse.State, f': Fine.State, i: nat,
                       phase: Phase)
    requires Same(c, f) && PhaseChange(c, c', i, phase)
    requires f' == Fine.SetStream(f, i, f.streams[i].(phase := phase)).(active := c'.active)
    ensures Same(c', f')
  {
    assert SameStream(c.handlers[i], f.streams[i], f.commands);
    SameAfterChange(c, f, c', f', i);
  }

  lemma ReadStep(c: Coarse.State, i: nat, op: Coarse.MainOp, ok: bool)
    requires Coarse.Enabled(c, Coarse.MainDone(i, op, ok)) && c.handlers[i].phase == Reading
    ensures var c' := Coarse.ProceedStep(c, i, op, ok);
      && PhaseChange(c, c', i, if ok then Reading else Finishing)
      && c'.active == if ok then c.active else Coarse.ClearActive(c, i).active
  {
  }

  lemma FinishStep(c: Coarse.State, i: nat, op: Coarse.MainOp, ok: bool)
    requires Coarse.Enabled(c, Coarse.MainDone(i, op, ok)) && c.handlers[i].phase == Finishing
    ensures var c' := Coarse.ProceedStep(c, i, op, ok);
      PhaseChange(c, c', i, Deleted) && c'.active == Coarse.ClearActive(c, i).active
  {
  }

  lemma ReadIsRun(c: Coarse.State, f: Fine.State, i: nat, op: Coarse.MainOp, ok: bool,
                  f0: Fine.State, trace: seq<Fine.Action>)
    returns (f': Fine.State)
    requires Same(c, f) && Reaches(f0, trace, f)
    requires Coarse.Enabled(c, Coarse.MainDone(i, op, ok)) && c.handlers[i].phase == Reading
    ensures Reaches(f0, trace + [Fine.DeliverRead(i, ok)], f')
    ensures Same(Coarse.ProceedStep(c, i, op, ok), f') && |f'.threads| == |f.threads|
  {
    assert SameStream(c.handlers[i], f.streams[i], f.commands);
    ReadStep(c, i, op, ok);
    if ok {
      ReachesNext(f0, trace, f, Fine.DeliverRead(i, true));
      f' := Fine.Next(f, Fine.DeliverRead(i, true));
      assert f.streams == f.streams[i := f.streams[i].(phase := Reading)];
    } else {
      f' := DisconnectRun(f0, trace, f, i);
    }
    SameAfterPhase(c, f, Coarse.ProceedStep(c, i, op, ok), f', i,
                   if ok then Reading else Finishing);
  }

  lemma FinishEnabled(c: Coarse.State, f: Fine.State, i: nat)
    requires Same(c, f) && i < |c.handlers| && c.handlers[i].phase == Finishing
    requires c.handlers[i].writesInFlight == 0
    ensures Fine.Enabled(f, Fine.DeliverFinish(i))
  {
    assert SameStream(c.handlers[i], f.streams[i], f.commands);
    assert forall t :: 0 <= t < |f.threads| ==> !Fine.Refers(f.threads[t], i);
  }

  lemma FinishIsRun(c: Coarse.State, f: Fine.State, i: nat, op: Coarse.MainOp, ok: bool,
                    f0: Fine.State, trace: seq<Fine.Action>)
    returns (f': Fine.State)
    requires Same(c, f) && Reaches(f0, trace, f)
    requires Coarse.Enabled(c, Coarse.MainDone(i, op, ok))
    requires c.handlers[i].phase == Finishing && c.handlers[i].writesInFlight == 0
    ensures Reaches(f0, trace + [Fine.DeliverFinish(i)], f')
    ensures Same(Coarse.ProceedStep(c, i, op, ok), f') && |f'.threads| == |f.threads|
  {
    FinishEnabled(c, f, i);
    FinishStep(c, i, op, ok);
    f' := FinishRun(f0, trace, f, i);
    SameAfterPhase(c, f, Coarse.ProceedStep(c, i, op, ok), f', i, Deleted);
  }

  lemma FailedAcceptIsRun(c: Coarse.State, f: Fine.State, i: nat, op: Coarse.MainOp,
                          f0: Fine.State, trace: seq<Fine.Action>)
    returns (f': Fine.State)
    requires Coarse.Inv(c) && Same(c, f) && Reaches(f0, trace, f)
    requires Coarse.Enabled(c, Coarse.MainDone(i, op, false))
    requires c.handlers[i].phase == Accepting
    ensures Reaches(f0, trace + [Fine.DeliverAccept(i, false)], f')
    ensures Same(Coarse.ProceedStep(c, i, op, false), f') && |f'.threads| == |f.threads|
  {
    assert SameStream(c.handlers[i], f.streams[i], f.commands);
    assert Coarse.HandlerInv(c.handlers[i]);
    ReachesNext(f0, trace, f, Fine.DeliverAccept(i, false));
    f' := Fine.Next(f, Fine.DeliverAccept(i, false));
    SameAfterChange(c, f, Coarse.ProceedStep(c, i, op, false), f', i);
  }

  lemma DeleteIsRun(c: Coarse.State, f: Fine.State, t: nat, i: nat, op: Coarse.MainOp, ok: bool,
                    f0: Fine.State, trace: seq<Fine.Action>)
    returns (f': Fine.State)
    requires Coarse.Inv(c) && Same(c, f) && Reaches(f0, trace, f)
    requires Coarse.Enabled(c, Coarse.MainDone(i, op, ok))
    requires CoarseTheorems.FinishAllowed(c, Coarse.MainDone(i, op, ok))
    requires c.handlers[i].phase == Finishing || (c.handlers[i].phase == Accepting && !ok)
    ensures Reaches(f0, trace + [Label(Coarse.MainDone(i, op, ok), t)], f')
    ensures Same(Coarse.ProceedStep(c, i, op, ok), f') && |f'.threads| == |f.threads|
  {
    if c.handlers[i].phase == Finishing {
      assert Coarse.HandlerInv(c.handlers[i]);
      f' := FinishIsRun(c, f, i, op, ok, f0, trace);
    } else {
      f' := FailedAcceptIsRun(c, f, i, op, f0, trace);
    }
  }

  lemma WriteDoneIsRun(c: Coarse.State, f: Fine.State, i: nat, ok: bool, f0: Fine.State,
                       trace: seq<Fine.Action>)
    returns (f': Fine.State)
    requires Coarse.Inv(c) && Same(c, f) && Reaches(f0, trace, f)
    requires Coarse.Enabled(c, Coarse.WriteDone(i, ok)) && c.handlers[i].phase != Deleted
    ensures Reaches(f0, trace + [Fine.DeliverWrite(i, ok)], f')
    ensures Same(Coarse.WriteDoneStep(c, i, ok), f') && |f'.threads| == |f.threads|
  {
    assert SameStream(c.handlers[i], f.streams[i], f.commands);
    SameWriteDone(c.handlers[i], f.streams[i], f.commands, ok);
    if ok {
      f' := WriteOkRun(f0, trace, f, i);
    } else {
      f' := WriteFailedRun(f0, trace, f, i);
    }
    SameAfterChange(c, f, Coarse.WriteDoneStep(c, i, ok), f', i);
  }

  /** Each coarse event is a run of the fine-grained machine in which that call or delivery happens
      and no other, between states that look the same. */
  lemma StepIsRun(c: Coarse.State, f: Fine.State, e: Coarse.Event, t: nat, f0: Fine.State,
                  trace: seq<Fine.Action>)
    returns (f': Fine.State)
    requires Coarse.Inv(c) && CoarseTheorems.NothingOwedToTheDead(c) && 0 < t < |f.threads|
    requires Same(c, f) && Reaches(f0, trace, f)
    requires Coarse.Enabled(c, e) && CoarseTheorems.FinishAllowed(c, e)
    ensures Reaches(f0, trace + [Label(e, t)], f')
    ensures Same(Coarse.Step(c, e), f') && |f'.threads| == |f.threads|
  {
    match e
    case Push(cmd) => f' := PushIsRun(c, f, t, cmd, f0, trace);
    case WriteDone(i, ok) => f' := WriteDoneIsRun(c, f, i, ok, f0, trace);
    case MainDone(i, op, ok) =>
      assert Coarse.HandlerInv(c.handlers[i]);
      if c.handlers[i].phase == Reading {
        f' := ReadIsRun(c, f, i, op, ok, f0, trace);
      } else if c.handlers[i].phase == Accepting && ok {
        f' := AcceptIsRun(c, f, i, op, f0, trace);
      } else {
        f' := DeleteIsRun(c, f, t, i, op, ok, f0, trace);
      }
  }

  lemma InitIsSame(producers: nat)
    requires producers > 0
    ensures Same(Coarse.Init(), Fine.Init(producers))
  {
    var f := Fine.Init(producers);
    forall t | 0 <= t < |f.threads| ensures f.threads[t] == Fine.Idle {
    }
    assert SameStream(Coarse.NewHandler(), Fine.NewStream(), []);
    assert f.streams == [Fine.NewStream()] && Coarse.Init().handlers == [Coarse.NewHandler()];
  }

  /** Every coarse run, under the assumption on Finish, is a run of the fine-grained machine, with
      the same calls and deliveries, whichever producers make the calls, up to a state at rest that
      looks the same. */
  lemma {:induction false} CoarseRunIsFineRun(es: seq<Coarse.Event>, callers: seq<nat>,
                                              producers: nat)
    returns (f: Fine.State)
    requires |callers| == |es|
    requires producers > 0 && forall i :: 0 <= i < |callers| ==> 0 < callers[i] <= producers
    requires Coarse.IsRun(Coarse.Init(), es) && CoarseTheorems.FinishComesLast(es)
    ensures Reaches(Fine.Init(producers), Labels(es, callers), f)
    ensures Same(Coarse.After(Coarse.Init(), es), f) && |f.threads| == producers + 1
    decreases |es|
  {
    if es == [] {
      f := Fine.Init(producers);
      ReachesSelf(f);
      InitIsSame(producers);
    } else {
      var n := |es| - 1;
      var front := es[..n];
      CoarseTheorems.FinishComesLastPrefix(es);
      var f1 := CoarseRunIsFineRun(front, callers[..n], producers);
      CoarseTheorems.Reachable(front);
      CoarseTheorems.NoStrayTags(front, Coarse.After(Coarse.Init(), front));
      f := StepIsRun(Coarse.After(Coarse.Init(), front), f1, es[n], callers[n],
                     Fine.Init(producers), Labels(front, callers[..n]));
    }
  }
}
