/** What the command stream promises over every coarse run from the start of the server, with
    any number of connects, overlaps and disconnects. */
module StreamTheorems {
  import opened Wrappers
  import opened Commands
  import opened Phases
  import opened Streams

  /** The arguments of the `push_command` calls among `es`, in order. */
  function Pushes(es: seq<Event>): seq<GatewayCommand>
    decreases |es|
  {
    if es == [] then []
    else
      var e := es[|es| - 1];
      Pushes(es[..|es| - 1]) + (if e.Push? then [e.cmd] else [])
  }

  lemma StartInv(s: State, h: Handler)
    requires IsNew(h) && s.handlers == [h] && s.active == None && s.accepted == []
    requires s.pending == [] && s.pushed == [] && !s.acceptFailed
    ensures Inv(s)
  {
    NewKeeps(h);
  }

  lemma InitInv()
    ensures Inv(Init())
  {
    NewIsNew();
    StartInv(Init(), NewHandler());
  }

  lemma Reachable(es: seq<Event>)
    requires IsRun(Init(), es)
    ensures Inv(After(Init(), es))
  {
    InitInv();
    RunKeeps(Init(), es);
  }

  /** The run `es` from the start of the server leads to `s`. */
  ghost predicate LeadsTo(es: seq<Event>, s: State) {
    IsRun(Init(), es) && s == After(Init(), es)
  }

  lemma {:induction false} PushedIsPushes(es: seq<Event>)
    requires IsRun(Init(), es)
    ensures After(Init(), es).pushed == Pushes(es)
  {
    if es != [] {
      PushedIsPushes(es[..|es| - 1]);
    }
  }

  // ---------------------------------------------------------------- order

  /** Nothing is lost, duplicated or reordered: the commands pushed are, stream by stream in
      accept order, those submitted to Write and those still queued, then the pending ones. */
  lemma Ordering(es: seq<Event>, s: State)
    requires LeadsTo(es, s)
    ensures
      && (forall k :: 0 <= k < |s.accepted| ==> s.accepted[k] == k < |s.handlers|)
      && Pushes(es) == Record(s.handlers, s.accepted) + s.pending
      && (s.active.Some? ==> s.pending == [])
  {
    Reachable(es);
    PushedIsPushes(es);
  }

  // ---------------------------------------------------------------- active_ and the census

  /** `active_` is the newest stream exactly while that stream is in READING, so an older
      stream's disconnect cannot unseat it. */
  lemma ActiveIsNewest(es: seq<Event>, s: State)
    requires LeadsTo(es, s)
    ensures
      && |s.accepted| < |s.handlers|
      && (s.active == None <==>
          s.accepted == [] || s.handlers[|s.accepted| - 1].phase != Reading)
      && (s.active.Some? ==>
          s.accepted != [] && s.active.value == s.accepted[|s.accepted| - 1] == |s.accepted| - 1
          && s.handlers[s.active.value].phase == Reading)
  {
    Reachable(es);
  }

  /** The compare-exchange in the FINISH branch never finds the handler in `active_`, and
      the one in the READING branch of an older stream does not either. */
  lemma FinishExchangeIsNoOp(es: seq<Event>, s: State, i: nat)
    requires LeadsTo(es, s) && i < |s.handlers|
    requires s.handlers[i].phase == Finishing || i + 1 < |s.accepted|
    ensures ClearActive(s, i) == s
  {
    Reachable(es);
    NotActive(s, i);
  }

  lemma NotActive(s: State, i: nat)
    requires ActiveInv(s) && i < |s.handlers|
    requires s.handlers[i].phase == Finishing || i + 1 < |s.accepted|
    ensures s.active != Some(i)
  {
  }

  /** One handler waits for a connection until an accept fails, and none does afterwards; a live
      handler is owed exactly one main tag, of the kind its phase expects; Finish is called at
      most once and a handler deleted at most once. */
  lemma Census(es: seq<Event>, s: State)
    requires LeadsTo(es, s)
    ensures
      && |s.handlers| == |s.accepted| + 1
      && (forall i :: 0 <= i < |s.handlers| ==>
          (s.handlers[i].phase == Accepting <==> !s.acceptFailed && i == |s.accepted|))
      && (forall i :: 0 <= i < |s.handlers| ==>
          && s.handlers[i].mainOps == OwedIn(s.handlers[i].phase)
          && (s.handlers[i].phase != Deleted ==> |s.handlers[i].mainOps| == 1)
          && s.handlers[i].tally.finishes <= 1 && s.handlers[i].tally.deletions <= 1
          && (s.handlers[i].tally.deletions == 1 <==> s.handlers[i].phase == Deleted))
  {
    Reachable(es);
    forall i | 0 <= i < |s.handlers| {
      CensusOf(s, i);
    }
  }

  lemma CensusOf(s: State, i: nat)
    requires Inv(s) && i < |s.handlers|
    ensures s.handlers[i].phase == Accepting <==> !s.acceptFailed && i == |s.accepted|
    ensures var h := s.handlers[i];
      && h.mainOps == OwedIn(h.phase)
      && (h.phase != Deleted ==> |h.mainOps| == 1)
      && h.tally.finishes <= 1 && h.tally.deletions <= 1
      && (h.tally.deletions == 1 <==> h.phase == Deleted)
  {
    assert HandlerInv(s.handlers[i]);
  }

  // ---------------------------------------------------------------- one stream over time

  function Age(phase: Phase): nat {
    match phase
    case Accepting => 0
    case Reading => 1
    case Finishing => 2
    case Deleted => 3
  }

  /** One successful write completion of stream `i` that reaches a live handler. */
  predicate Completes(s: State, e: Event, i: nat) {
    e == WriteDone(i, true) && i < |s.handlers| && s.handlers[i].phase != Deleted
  }

  function Completed(s: State, e: Event, i: nat): nat {
    if Completes(s, e, i) then 1 else 0
  }

  /** How one handler may differ after a step. */
  ghost predicate Grows(h: Handler, h': Handler) {
    && Given(h) <= Given(h')
    && Age(h.phase) <= Age(h'.phase)
    && h.tally.failedWrites <= h'.tally.failedWrites
    && h.tally.lateWrites <= h'.tally.lateWrites
    && (Age(h.phase) >= 2 ==> Given(h') == Given(h))
    && (h.phase == Deleted ==> h'.submitted == h.submitted && h'.queue == h.queue)
  }

  lemma PushGrows(s: State, cmd: GatewayCommand, i: nat)
    requires Inv(s) && i < |s.handlers|
    ensures var s' := PushStep(s, cmd);
      |s.handlers| == |s'.handlers| && Grows(s.handlers[i], s'.handlers[i])
      && s'.handlers[i].tally.okWrites == s.handlers[i].tally.okWrites
  {
    if s.active == Some(i) {
      assert HandlerInv(s.handlers[i]);
      EnqueueKeeps(s.handlers[i], cmd);
    }
  }

  lemma AcceptGrows(s: State, i: nat, h: Handler)
    requires HandlerInv(h.(mainOps := OwedIn(Accepting)))
    requires h.phase == Accepting && h.mainOps == []
    ensures Grows(h, Accepted(h, s.pending)) && Accepted(h, s.pending).tally.okWrites == h.tally.okWrites
  {
    EnqueueAllKeeps(h, s.pending);
  }

  lemma ProceedGrows(s: State, j: nat, op: MainOp, ok: bool, i: nat)
    requires Inv(s) && Enabled(s, MainDone(j, op, ok)) && i < |s.handlers|
    ensures var s' := ProceedStep(s, j, op, ok);
      |s.handlers| <= |s'.handlers| && Grows(s.handlers[i], s'.handlers[i])
      && s'.handlers[i].tally.okWrites == s.handlers[i].tally.okWrites
  {
    var h := TakeMainTag(s.handlers[j], op);
    ProceedHandlerKeeps(s.handlers[j], op);
    if h.phase == Accepting && ok {
      assert s.handlers[j] == h.(mainOps := OwedIn(Accepting));
      AcceptGrows(s, j, h);
    }
  }

  lemma OnWriteDoneGrows(h: Handler, ok: bool)
    requires HandlerInv(h) && h.phase != Deleted && h.writesInFlight > 0
    ensures var h' := OnWriteDone(h.(writesInFlight := h.writesInFlight - 1), ok);
      Grows(h, h') && h'.tally.okWrites == h.tally.okWrites + if ok then 1 else 0
  {
    OnWriteDoneKeeps(h, ok);
  }

  lemma WriteDoneGrows(s: State, j: nat, ok: bool, i: nat)
    requires Inv(s) && Enabled(s, WriteDone(j, ok)) && i < |s.handlers|
    ensures var s' := WriteDoneStep(s, j, ok);
      |s.handlers| == |s'.handlers| && Grows(s.handlers[i], s'.handlers[i])
      && s'.handlers[i].tally.okWrites == s.handlers[i].tally.okWrites + Completed(s, WriteDone(j, ok), i)
  {
    assert HandlerInv(s.handlers[j]);
    if s.handlers[j].phase != Deleted { OnWriteDoneGrows(s.handlers[j], ok); }
  }

  lemma StepGrows(s: State, e: Event, i: nat)
    requires Inv(s) && Enabled(s, e) && i < |s.handlers|
    ensures var s' := Step(s, e);
      && |s.handlers| <= |s'.handlers| && Grows(s.handlers[i], s'.handlers[i])
      && s'.handlers[i].tally.okWrites == s.handlers[i].tally.okWrites + Completed(s, e, i)
  {
    match e
    case Push(cmd) => PushGrows(s, cmd, i);
    case MainDone(j, op, ok) => ProceedGrows(s, j, op, ok, i);
    case WriteDone(j, ok) => WriteDoneGrows(s, j, ok, i);
  }

  /** Successful completions of stream `i` in the run `es` from `s`. */
  ghost function Completions(s: State, es: seq<Event>, i: nat): nat
    decreases |es|
  {
    if es == [] then 0
    else
      Completions(s, es[..|es| - 1], i) + Completed(After(s, es[..|es| - 1]), es[|es| - 1], i)
  }

  lemma {:induction false} RunGrows(s: State, es: seq<Event>, i: nat)
    requires Inv(s) && IsRun(s, es) && i < |s.handlers|
    ensures var s' := After(s, es);
      && |s.handlers| <= |s'.handlers| && Grows(s.handlers[i], s'.handlers[i])
      && s'.handlers[i].tally.okWrites == s.handlers[i].tally.okWrites + Completions(s, es, i)
    decreases |es|
  {
    if es != [] {
      var front := es[..|es| - 1];
      RunGrows(s, front, i);
      RunKeeps(s, front);
      StepGrows(After(s, front), es[|es| - 1], i);
    }
  }

  // ---------------------------------------------------------------- lifetime

  /** After a failed Read no later event reaches the handler's `enqueue`: what it has been
      given is fixed, and after deletion so is how that is split between Write and queue. */
  lemma DisconnectedStreamIsFrozen(s: State, es: seq<Event>, i: nat)
    requires Inv(s) && IsRun(s, es) && i < |s.handlers|
    requires s.handlers[i].phase == Finishing || s.handlers[i].phase == Deleted
    ensures var s' := After(s, es);
      && i < |s'.handlers| && Given(s'.handlers[i]) == Given(s.handlers[i])
      && (s'.handlers[i].phase == Finishing || s'.handlers[i].phase == Deleted)
      && (s.handlers[i].phase == Deleted ==>
          s'.handlers[i].submitted == s.handlers[i].submitted
          && s'.handlers[i].queue == s.handlers[i].queue)
  {
    RunGrows(s, es, i);
    RunKeeps(s, es);
    assert HandlerInv(s.handlers[i]) && HandlerInv(After(s, es).handlers[i]);
  }

  /** The one event that issues a Write after Finish: a successful completion of an earlier
      Write while commands are still queued. `on_write_done` does not look at `state_`. */
  predicate WritesLate(s: State, e: Event, i: nat) {
    && e == WriteDone(i, true) && i < |s.handlers|
    && s.handlers[i].phase == Finishing && s.handlers[i].queue != []
  }

  lemma PushNeverWritesLate(s: State, cmd: GatewayCommand, i: nat)
    requires Inv(s) && i < |s.handlers|
    ensures PushStep(s, cmd).handlers[i].tally == s.handlers[i].tally
  {
    assert HandlerInv(s.handlers[i]);
    if s.active == Some(i) { EnqueueKeeps(s.handlers[i], cmd); }
  }

  lemma ProceedNeverWritesLate(s: State, j: nat, op: MainOp, ok: bool, i: nat)
    requires Inv(s) && Enabled(s, MainDone(j, op, ok)) && i < |s.handlers|
    ensures ProceedStep(s, j, op, ok).handlers[i].tally.lateWrites
         == s.handlers[i].tally.lateWrites
  {
    assert HandlerInv(s.handlers[j]);
    ProceedHandlerKeeps(s.handlers[j], op);
    if s.handlers[j].phase == Accepting && ok && i == j {
      EnqueueAllKeeps(TakeMainTag(s.handlers[j], op), s.pending);
    }
  }

  lemma LateWriteIff(s: State, e: Event, s': State, i: nat)
    requires Inv(s) && Enabled(s, e) && s' == Step(s, e) && i < |s.handlers|
    ensures i < |s'.handlers|
    ensures s'.handlers[i].tally.lateWrites
         == s.handlers[i].tally.lateWrites + (if WritesLate(s, e, i) then 1 else 0)
  {
    match e
    case Push(cmd) => PushNeverWritesLate(s, cmd, i);
    case MainDone(j, op, ok) => ProceedNeverWritesLate(s, j, op, ok, i);
    case WriteDone(j, ok) => assert HandlerInv(s.handlers[i]);
  }

  ghost predicate NeverWritesLate(es: seq<Event>, i: nat) {
    forall k :: 0 <= k < |es| ==> !WritesLate(After(Init(), es[..k]), es[k], i)
  }

  lemma NeverWritesLatePrefix(es: seq<Event>, i: nat)
    requires es != []
    ensures NeverWritesLate(es, i) <==>
      NeverWritesLate(es[..|es| - 1], i)
      && !WritesLate(After(Init(), es[..|es| - 1]), es[|es| - 1], i)
  {
    var front := es[..|es| - 1];
    assert forall k :: 0 <= k < |front| ==> front[..k] == es[..k] && front[k] == es[k];
    if NeverWritesLate(es, i) {
      forall k | 0 <= k < |front| ensures !WritesLate(After(Init(), front[..k]), front[k], i) {
        assert !WritesLate(After(Init(), es[..k]), es[k], i);
      }
    }
    if NeverWritesLate(front, i) && !WritesLate(After(Init(), front), es[|es| - 1], i) {
      forall k | 0 <= k < |es| ensures !WritesLate(After(Init(), es[..k]), es[k], i) {
        if k < |front| { assert !WritesLate(After(Init(), front[..k]), front[k], i); }
      }
    }
  }

  /** No Write follows Finish on stream `i` if and only if no write of that stream completes
      successfully between the failed Read and the deletion while commands are queued. */
  lemma {:induction false} NoLateWritesIff(es: seq<Event>, i: nat)
    requires IsRun(Init(), es) && i < |After(Init(), es).handlers|
    ensures After(Init(), es).handlers[i].tally.lateWrites == 0 <==> NeverWritesLate(es, i)
    decreases |es|
  {
    if es != [] {
      var front := es[..|es| - 1];
      var s := After(Init(), front);
      Reachable(front);
      NeverWritesLatePrefix(es, i);
      if i < |s.handlers| {
        NoLateWritesIff(front, i);
        LateWriteIff(s, es[|es| - 1], Step(s, es[|es| - 1]), i);
      } else {
        UnbornNeverWrites(es, i);
        Reachable(es);
        assert HandlerInv(After(Init(), es).handlers[i]);
      }
    }
  }

  lemma BornQuiet(s: State, e: Event, s': State, i: nat)
    requires Inv(s) && Enabled(s, e) && s' == Step(s, e) && |s.handlers| <= i < |s'.handlers|
    ensures s'.handlers[i].tally.lateWrites == 0
  {
    NewIsNew();
    assert s'.handlers[i] == NewHandler();
  }

  /** A handler that does not exist before the last event has not written, late or otherwise. */
  lemma UnbornNeverWrites(es: seq<Event>, i: nat)
    requires IsRun(Init(), es) && es != [] && |After(Init(), es[..|es| - 1]).handlers| <= i
    ensures NeverWritesLate(es, i)
    ensures i < |After(Init(), es).handlers| ==> After(Init(), es).handlers[i].tally.lateWrites == 0
  {
    var front := es[..|es| - 1];
    var s' := After(Init(), es);
    if i < |s'.handlers| {
      Reachable(front);
      BornQuiet(After(Init(), front), es[|es| - 1], s', i);
    }
    forall k | 0 <= k < |es| ensures !WritesLate(After(Init(), es[..k]), es[k], i) {
      HandlersOnlyGrow(es, k);
    }
  }

  lemma {:induction false} HandlersOnlyGrow(es: seq<Event>, k: nat)
    requires IsRun(Init(), es) && k < |es|
    ensures IsRun(Init(), es[..k])
    ensures |After(Init(), es[..k]).handlers| <= |After(Init(), es[..|es| - 1]).handlers|
    decreases |es|
  {
    var front := es[..|es| - 1];
    if k < |front| {
      HandlersOnlyGrow(front, k);
      assert front[..k] == es[..k];
      var before := front[..|front| - 1];
      Reachable(before);
      StepGrows(After(Init(), before), front[|front| - 1], 0);
    }
  }

  lemma Extend(es: seq<Event>, e: Event) returns (es': seq<Event>)
    requires IsRun(Init(), es) && Enabled(After(Init(), es), e)
    ensures es' == es + [e] && IsRun(Init(), es')
    ensures After(Init(), es') == Step(After(Init(), es), e)
  {
    es' := es + [e];
    assert es'[..|es'| - 1] == es;
  }

  /** A stream with one write in flight and one command queued. */
  lemma BusyStream(c1: GatewayCommand, c2: GatewayCommand) returns (es: seq<Event>)
    ensures IsRun(Init(), es)
    ensures var s := After(Init(), es);
      |s.handlers| == 2 && s.handlers[0] == Handler(Reading, [c2], true, [ReadOp], 1, [c1],
                                                    Tally(0, 0, 0, 0, 0))
      && s.active == Some(0) && s.strayTags == 0
  {
    es := Extend([], MainDone(0, AcceptOp, true));
    assert After(Init(), es).handlers == [Accepted(TakeMainTag(NewHandler(), AcceptOp), []),
                                          NewHandler()];
    es := Extend(es, Push(c1));
    es := Extend(es, Push(c2));
  }

  /** A client that only half-closes: the Write that was in flight at the failed Read completes
      successfully, and another Write is issued after Finish. */
  lemma HalfCloseWritesLate(c1: GatewayCommand, c2: GatewayCommand) returns (es: seq<Event>)
    ensures IsRun(Init(), es) && |After(Init(), es).handlers| == 2
    ensures After(Init(), es).handlers[0].tally.finishes == 1
    ensures After(Init(), es).handlers[0].tally.lateWrites == 1
  {
    es := BusyStream(c1, c2);
    es := Extend(es, MainDone(0, ReadOp, false));
    es := Extend(es, WriteDone(0, true));
  }

  /** Without the assumption below, a Write can complete after the handler was deleted. */
  lemma WriteTagCanStray(c1: GatewayCommand, c2: GatewayCommand)
    returns (es: seq<Event>, s: State)
    ensures LeadsTo(es, s) && s.strayTags == 1
  {
    es := BusyStream(c1, c2);
    es := Extend(es, MainDone(0, ReadOp, false));
    es := Extend(es, MainDone(0, FinishOp, true));
    es := Extend(es, WriteDone(0, true));
    s := After(Init(), es);
  }

  /** The assumption on the completion queue, for one event: Finish completes after an
      outstanding Write. */
  predicate FinishAllowed(s: State, e: Event) {
    e.MainDone? && e.op == FinishOp && e.handler < |s.handlers| ==>
      s.handlers[e.handler].writesInFlight == 0
  }

  ghost predicate FinishComesLast(es: seq<Event>) {
    forall k :: 0 <= k < |es| ==> FinishAllowed(After(Init(), es[..k]), es[k])
  }

  lemma FinishComesLastPrefix(es: seq<Event>)
    requires es != []
    ensures FinishComesLast(es) <==>
      FinishComesLast(es[..|es| - 1])
      && FinishAllowed(After(Init(), es[..|es| - 1]), es[|es| - 1])
  {
    var front := es[..|es| - 1];
    assert forall k :: 0 <= k < |front| ==> front[..k] == es[..k] && front[k] == es[k];
    if FinishComesLast(es) {
      forall k | 0 <= k < |front| ensures FinishAllowed(After(Init(), front[..k]), front[k]) {
        assert FinishAllowed(After(Init(), es[..k]), es[k]);
      }
    }
    if FinishComesLast(front) && FinishAllowed(After(Init(), front), es[|es| - 1]) {
      forall k | 0 <= k < |es| ensures FinishAllowed(After(Init(), es[..k]), es[k]) {
        if k < |front| { assert FinishAllowed(After(Init(), front[..k]), front[k]); }
      }
    }
  }

  ghost predicate NothingOwedToTheDead(s: State) {
    forall i :: 0 <= i < |s.handlers| && s.handlers[i].phase == Deleted ==>
      s.handlers[i].writesInFlight == 0
  }

  /** No tag has been delivered to a deleted handler, and none is due. */
  ghost predicate NoneStray(s: State) {
    s.strayTags == 0 && NothingOwedToTheDead(s)
  }

  lemma PushStaysClean(s: State, cmd: GatewayCommand, s': State)
    requires Inv(s) && s' == PushStep(s, cmd)
    ensures NoneStray(s') <==> NoneStray(s)
  {
    forall k | 0 <= k < |s.handlers|
      ensures s'.handlers[k].phase == s.handlers[k].phase
      ensures s.handlers[k].phase == Deleted ==> s'.handlers[k] == s.handlers[k]
    {
    }
  }

  lemma WriteDoneStaysClean(s: State, i: nat, ok: bool, s': State)
    requires Inv(s) && Enabled(s, WriteDone(i, ok)) && s' == WriteDoneStep(s, i, ok)
    ensures NoneStray(s') <==> NoneStray(s)
  {
    forall k | 0 <= k < |s.handlers|
      ensures s'.handlers[k].phase == s.handlers[k].phase
      ensures k != i ==> s'.handlers[k] == s.handlers[k]
    {
    }
  }

  lemma ProceedStaysClean(s: State, i: nat, op: MainOp, ok: bool, s': State)
    requires Inv(s) && Enabled(s, MainDone(i, op, ok)) && s' == ProceedStep(s, i, op, ok)
    ensures NoneStray(s') <==> NoneStray(s) && FinishAllowed(s, MainDone(i, op, ok))
  {
    assert HandlerInv(s.handlers[i]);
    ProceedHandlerKeeps(s.handlers[i], op);
    NewIsNew();
    forall k | 0 <= k < |s.handlers| && k != i ensures s'.handlers[k] == s.handlers[k] {}
    assert |s'.handlers| > |s.handlers| ==> s'.handlers[|s.handlers|] == NewHandler();
    OwnPhase(s, i, op, ok, s');
  }

  /** Of the handler that proceeds: it is deleted by Finish, or in ACCEPTING without a write. */
  lemma OwnPhase(s: State, i: nat, op: MainOp, ok: bool, s': State)
    requires Inv(s) && Enabled(s, MainDone(i, op, ok)) && s' == ProceedStep(s, i, op, ok)
    ensures s.handlers[i].phase != Deleted && |s.handlers| <= |s'.handlers|
    ensures s'.strayTags == s.strayTags
    ensures s'.handlers[i].phase == Deleted <==>
      op == FinishOp || (s.handlers[i].phase == Accepting && !ok)
    ensures s'.handlers[i].phase == Deleted ==>
      s'.handlers[i].writesInFlight == s.handlers[i].writesInFlight
    ensures s.handlers[i].phase == Accepting ==> s.handlers[i].writesInFlight == 0
  {
    assert HandlerInv(s.handlers[i]);
    ProceedHandlerKeeps(s.handlers[i], op);
    if s.handlers[i].phase == Accepting && ok {
      EnqueueAllKeeps(TakeMainTag(s.handlers[i], op), s.pending);
    }
  }

  lemma StaysClean(s: State, e: Event, s': State)
    requires Inv(s) && Enabled(s, e) && s' == Step(s, e)
    ensures NoneStray(s') <==> NoneStray(s) && FinishAllowed(s, e)
  {
    match e
    case Push(cmd) => PushStaysClean(s, cmd, s');
    case MainDone(i, op, ok) => ProceedStaysClean(s, i, op, ok, s');
    case WriteDone(i, ok) => WriteDoneStaysClean(s, i, ok, s');
  }

  /** No tag is delivered to a deleted handler, and none is due to one, if and only if every
      Finish completed after the outstanding Write of its stream. */
  lemma {:induction false} NoStrayTags(es: seq<Event>, s: State)
    requires LeadsTo(es, s)
    ensures FinishComesLast(es) <==> NoneStray(s)
    decreases |es|
  {
    if es == [] {
      NewIsNew();
    } else {
      var front := es[..|es| - 1];
      FinishComesLastPrefix(es);
      NoStrayTags(front, After(Init(), front));
      Reachable(front);
      StaysClean(After(Init(), front), es[|es| - 1], s);
    }
  }

  // ---------------------------------------------------------------- no stall, and drain

  /** With queued commands and no write in flight, a Write has failed; while none has failed, the
      commands submitted are exactly the first ones enqueued, one more than have completed. */
  ghost predicate Quiet(h: Handler) {
    && h.writesInFlight <= 1
    && (h.writing <==> h.writesInFlight == 1)
    && (h.queue != [] && h.writesInFlight == 0 ==> h.tally.failedWrites > 0)
    && (h.tally.failedWrites == 0 ==> h.submitted == FirstOf(Given(h), h.tally.okWrites + 1))
  }

  /** No stall: at every quiescent point, every live stream is in order. */
  lemma NoStall(es: seq<Event>, s: State)
    requires LeadsTo(es, s)
    ensures forall h :: h in s.handlers && h.phase != Deleted ==> Quiet(h)
  {
    Reachable(es);
    QuietIn(s);
  }

  lemma QuietIn(s: State)
    requires Inv(s)
    ensures forall h :: h in s.handlers && h.phase != Deleted ==> Quiet(h)
  {
    forall h | h in s.handlers && h.phase != Deleted ensures Quiet(h) {
      assert HandlerInv(h);
      if h.tally.failedWrites == 0 { SubmittedIsPrefix(h); }
    }
  }

  function FirstOf<T>(xs: seq<T>, k: nat): seq<T> {
    if k <= |xs| then xs[..k] else xs
  }

  lemma PrefixOfAppend<T>(a: seq<T>, b: seq<T>)
    ensures FirstOf(a + b, |a|) == a
    ensures forall k: nat :: FirstOf(a + b, |a| + k) == a + FirstOf(b, k)
  {
  }

  lemma SubmittedIsPrefix(h: Handler)
    requires HandlerInv(h) && h.phase != Deleted && h.tally.failedWrites == 0
    ensures h.submitted == FirstOf(Given(h), h.tally.okWrites + 1)
  {
    PrefixOfAppend(h.submitted, h.queue);
  }

  /** With queued commands a Write is in flight. */
  predicate Flowing(h: Handler) {
    h.queue != [] ==> h.writing
  }

  lemma PushKeepsFlowing(s: State, cmd: GatewayCommand, s': State, i: nat)
    requires Inv(s) && s' == PushStep(s, cmd) && i < |s.handlers| && Flowing(s.handlers[i])
    ensures Flowing(s'.handlers[i])
  {
    assert HandlerInv(s.handlers[i]);
  }

  lemma ProceedKeepsFlowing(s: State, j: nat, op: MainOp, ok: bool, s': State, i: nat)
    requires Inv(s) && Enabled(s, MainDone(j, op, ok)) && s' == ProceedStep(s, j, op, ok)
    requires i < |s.handlers| && s.handlers[i].phase != Accepting && Flowing(s.handlers[i])
    ensures Flowing(s'.handlers[i])
  {
    ProceedHandlerKeeps(s.handlers[j], op);
  }

  lemma StepKeepsFlowing(s: State, e: Event, s': State, i: nat)
    requires Inv(s) && Enabled(s, e) && s' == Step(s, e) && i < |s.handlers| <= |s'.handlers|
    requires s.handlers[i].phase == Reading || s.handlers[i].phase == Finishing
    requires Flowing(s.handlers[i])
    requires s'.handlers[i].tally.failedWrites == s.handlers[i].tally.failedWrites
    ensures Flowing(s'.handlers[i])
  {
    match e
    case Push(cmd) => PushKeepsFlowing(s, cmd, s', i);
    case MainDone(j, op, ok) => ProceedKeepsFlowing(s, j, op, ok, s', i);
    case WriteDone(j, ok) => assert HandlerInv(s.handlers[i]);
  }

  lemma {:induction false} RunKeepsFlowing(s: State, es: seq<Event>, s': State, i: nat)
    requires Inv(s) && IsRun(s, es) && s' == After(s, es) && i < |s.handlers| <= |s'.handlers|
    requires s.handlers[i].phase == Reading || s.handlers[i].phase == Finishing
    requires Flowing(s.handlers[i]) && s'.handlers[i].phase != Deleted
    requires s'.handlers[i].tally.failedWrites == s.handlers[i].tally.failedWrites
    ensures Flowing(s'.handlers[i])
    decreases |es|
  {
    if es != [] {
      var front := es[..|es| - 1];
      var mid := After(s, front);
      RunGrows(s, front, i);
      RunKeeps(s, front);
      StepGrows(mid, es[|es| - 1], i);
      RunKeepsFlowing(s, front, mid, i);
      StepKeepsFlowing(mid, es[|es| - 1], s', i);
    }
  }

  /** Drain: between two points of a run, with a write in flight at the first and no Write that
      fails in between, k successful completions submit exactly the first k commands that were
      queued or have been enqueued since, in order. */
  lemma Drain(s: State, es: seq<Event>, s': State, i: nat)
    requires Inv(s) && IsRun(s, es) && s' == After(s, es) && i < |s.handlers|
    requires s.handlers[i].phase != Deleted && s.handlers[i].writesInFlight == 1
    requires i < |s'.handlers| ==>
      s'.handlers[i].phase != Deleted
      && s'.handlers[i].tally.failedWrites == s.handlers[i].tally.failedWrites
    ensures var h := s.handlers[i];
      && i < |s'.handlers|
      && Given(h) <= Given(s'.handlers[i])
      && var since := Given(s'.handlers[i])[|Given(h)|..];
      s'.handlers[i].submitted
      == h.submitted + FirstOf(h.queue + since, Completions(s, es, i))
  {
    RunGrows(s, es, i);
    RunKeeps(s, es);
    assert HandlerInv(s.handlers[i]) && HandlerInv(s'.handlers[i]);
    RunKeepsFlowing(s, es, s', i);
    DrainBetween(s.handlers[i], s'.handlers[i], Completions(s, es, i));
  }

  lemma DrainBetween(h: Handler, h': Handler, k: nat)
    requires HandlerInv(h) && h.phase != Deleted && h.writesInFlight == 1
    requires HandlerInv(h') && h'.phase != Deleted && Flowing(h')
    requires h'.tally.failedWrites == h.tally.failedWrites
    requires Given(h) <= Given(h') && |h.submitted| <= |h'.submitted|
    requires h'.tally.okWrites == h.tally.okWrites + k
    ensures var since := Given(h')[|Given(h)|..];
      h'.submitted == h.submitted + FirstOf(h.queue + since, k)
  {
    var since := Given(h')[|Given(h)|..];
    assert Given(h') == (h.submitted + h.queue) + since == h.submitted + (h.queue + since);
    assert h'.submitted == Given(h')[..|h'.submitted|];
    if h'.writesInFlight == 1 {
      PrefixOfAppend(h.submitted, h.queue + since);
    }
  }

  /** A failed write leaves the queue standing; the next `enqueue` submits its oldest command
      and keeps the rest, so order survives the failure. */
  lemma FailedWriteRecovers(h: Handler, cmd: GatewayCommand)
    requires HandlerInv(h) && h.phase != Deleted && h.writesInFlight == 1 && h.queue != []
    ensures var failed := OnWriteDone(h.(writesInFlight := 0), false);
      && failed.submitted == h.submitted && failed.queue == h.queue
      && var next := Enqueue(failed, cmd);
      && next.submitted == h.submitted + [h.queue[0]]
      && next.queue == h.queue[1..] + [cmd]
      && next.writesInFlight == 1
  {
    assert (h.queue + [cmd])[1..] == h.queue[1..] + [cmd];
  }
}
