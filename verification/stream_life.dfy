/** Which tags a stream has seen, from the phase it is in, and the other way round: over every
    coarse run a stream ends by a failed Read and by nothing else. */
module StreamLife {
  import opened Wrappers
  import opened Commands
  import opened Phases
  import opened Streams
  import opened StreamTheorems

  /** What the completion queue has delivered to handler `i`. */
  datatype Marks = Marks(connected: bool, refused: bool, failed: bool, finished: bool)

  function MarksOf(es: seq<Event>, i: nat): Marks {
    Marks(MainDone(i, AcceptOp, true) in es, MainDone(i, AcceptOp, false) in es,
          MainDone(i, ReadOp, false) in es,
          MainDone(i, FinishOp, true) in es || MainDone(i, FinishOp, false) in es)
  }

  predicate Fits(phase: Phase, m: Marks) {
    match phase
    case Accepting => m == Marks(false, false, false, false)
    case Reading => m == Marks(true, false, false, false)
    case Finishing => m == Marks(true, false, true, false)
    case Deleted => m == Marks(false, true, false, false) || m == Marks(true, false, true, true)
  }

  function PhaseOf(s: State, i: nat): Phase {
    if i < |s.handlers| then s.handlers[i].phase else Accepting
  }

  lemma MarksSnoc(es: seq<Event>, e: Event, i: nat)
    ensures var m, m' := MarksOf(es, i), MarksOf(es + [e], i);
      && m'.connected == (m.connected || e == MainDone(i, AcceptOp, true))
      && m'.refused == (m.refused || e == MainDone(i, AcceptOp, false))
      && m'.failed == (m.failed || e == MainDone(i, ReadOp, false))
      && m'.finished == (m.finished || (e.MainDone? && e.handler == i && e.op == FinishOp))
  {
  }

  /** The phase of handler `i` after it was `phase` and `e` has been delivered. */
  function PhaseAfter(phase: Phase, e: Event, i: nat): Phase {
    if e == MainDone(i, AcceptOp, true) then Reading
    else if e == MainDone(i, AcceptOp, false) then Deleted
    else if e == MainDone(i, ReadOp, false) then Finishing
    else if e.MainDone? && e.handler == i && e.op == FinishOp then Deleted
    else phase
  }

  lemma OwnTag(s: State, i: nat, op: MainOp, ok: bool, s': State)
    requires Inv(s) && Enabled(s, MainDone(i, op, ok)) && s' == ProceedStep(s, i, op, ok)
    ensures OwedIn(s.handlers[i].phase) == [op]
    ensures i < |s'.handlers|
    ensures s'.handlers[i].phase == PhaseAfter(s.handlers[i].phase, MainDone(i, op, ok), i)
  {
    assert HandlerInv(s.handlers[i]);
    if ok && op == AcceptOp { EnqueueAllKeeps(TakeMainTag(s.handlers[i], op), s.pending); }
  }

  lemma OthersTag(s: State, j: nat, op: MainOp, ok: bool, s': State, i: nat)
    requires Inv(s) && Enabled(s, MainDone(j, op, ok)) && s' == ProceedStep(s, j, op, ok) && j != i
    ensures PhaseOf(s', i) == PhaseOf(s, i)
  {
    if i == |s.handlers| < |s'.handlers| {
      NewIsNew();
      assert s'.handlers[i] == NewHandler();
    }
  }

  lemma PushTag(s: State, cmd: GatewayCommand, i: nat)
    ensures PhaseOf(PushStep(s, cmd), i) == PhaseOf(s, i)
  {
  }

  lemma WriteTag(s: State, j: nat, ok: bool, i: nat)
    requires Enabled(s, WriteDone(j, ok))
    ensures PhaseOf(WriteDoneStep(s, j, ok), i) == PhaseOf(s, i)
  {
  }

  lemma PhaseStep(s: State, e: Event, s': State, i: nat)
    requires Inv(s) && Enabled(s, e) && s' == Step(s, e)
    ensures PhaseOf(s', i) == PhaseAfter(PhaseOf(s, i), e, i)
    ensures e.MainDone? && e.handler == i ==> OwedIn(PhaseOf(s, i)) == [e.op]
  {
    match e
    case Push(cmd) => PushTag(s, cmd, i);
    case WriteDone(j, ok) => WriteTag(s, j, ok, i);
    case MainDone(j, op, ok) =>
      if j == i { OwnTag(s, i, op, ok, s'); } else { OthersTag(s, j, op, ok, s', i); }
  }

  lemma StillFits(s: State, e: Event, s': State, es: seq<Event>, i: nat)
    requires Inv(s) && Enabled(s, e) && s' == Step(s, e) && Fits(PhaseOf(s, i), MarksOf(es, i))
    ensures Fits(PhaseOf(s', i), MarksOf(es + [e], i))
  {
    PhaseStep(s, e, s', i);
    MarksSnoc(es, e, i);
  }

  /** The last event of a run. */
  lemma LastEvent(es: seq<Event>, s: State)
    returns (front: seq<Event>, before: State, e: Event)
    requires LeadsTo(es, s) && es != []
    ensures es == front + [e] && LeadsTo(front, before)
    ensures Enabled(before, e) && s == Step(before, e)
  {
    front, e := es[..|es| - 1], es[|es| - 1];
    before := After(Init(), front);
  }

  lemma {:induction false} PhaseHistory(es: seq<Event>, s: State, i: nat)
    requires LeadsTo(es, s)
    ensures Fits(PhaseOf(s, i), MarksOf(es, i))
    decreases |es|
  {
    if es == [] {
      FirstFits(i);
    } else {
      var front, before, e := LastEvent(es, s);
      Reachable(front);
      PhaseHistory(front, before, i);
      StillFits(before, e, s, front, i);
    }
  }

  lemma FirstFits(i: nat)
    ensures Fits(PhaseOf(Init(), i), MarksOf([], i))
  {
    NewIsNew();
    assert i == 0 ==> Init().handlers[i] == NewHandler();
  }

  lemma AcceptedStep(s: State, e: Event, s': State)
    requires Inv(s) && Enabled(s, e) && s' == Step(s, e)
    ensures if e.MainDone? && e.op == AcceptOp && e.ok
            then e.handler == |s.accepted| && |s'.accepted| == |s.accepted| + 1
            else |s'.accepted| == |s.accepted|
  {
    if e.MainDone? { assert HandlerInv(s.handlers[e.handler]); }
  }

  /** The streams accepted so far are the first ones. */
  lemma {:induction false} ConnectedIff(es: seq<Event>, s: State, i: nat)
    requires LeadsTo(es, s)
    ensures MainDone(i, AcceptOp, true) in es <==> i < |s.accepted|
    decreases |es|
  {
    if es != [] {
      var front, before, e := LastEvent(es, s);
      Reachable(front);
      ConnectedIff(front, before, i);
      AcceptedStep(before, e, s);
      MarksSnoc(front, e, i);
    }
  }

  /** Over every coarse run: a stream is open exactly from its accept to its first failed Read, and
      a handler is deleted exactly by a refused accept or by the completion of Finish. Messages
      that are read, commands and Writes end nothing. */
  lemma PhaseIff(es: seq<Event>, s: State, i: nat)
    requires LeadsTo(es, s) && i < |s.handlers|
    ensures s.handlers[i].phase == Reading <==>
      MainDone(i, AcceptOp, true) in es && MainDone(i, ReadOp, false) !in es
    ensures s.handlers[i].phase == Finishing <==>
      && MainDone(i, ReadOp, false) in es
      && MainDone(i, FinishOp, true) !in es && MainDone(i, FinishOp, false) !in es
    ensures s.handlers[i].phase == Deleted <==>
      || MainDone(i, AcceptOp, false) in es
      || MainDone(i, FinishOp, true) in es || MainDone(i, FinishOp, false) in es
  {
    PhaseHistory(es, s, i);
  }

  /** `active_` is a stream exactly from its accept to its first failed Read or the next accept. */
  lemma ActiveIff(es: seq<Event>, s: State, i: nat)
    requires LeadsTo(es, s)
    ensures s.active == Some(i) <==>
      && MainDone(i, AcceptOp, true) in es && MainDone(i, ReadOp, false) !in es
      && MainDone(i + 1, AcceptOp, true) !in es
  {
    Reachable(es);
    ActiveOf(s, i);
    PhaseHistory(es, s, i);
    ConnectedIff(es, s, i);
    ConnectedIff(es, s, i + 1);
  }

  lemma ActiveOf(s: State, i: nat)
    requires Inv(s)
    ensures s.active == Some(i) <==> i + 1 == |s.accepted| && PhaseOf(s, i) == Reading
  {
  }
}
