/** The command stream at coarse granularity: one completion-queue tag, or one call of
    `push_command`, is one step. `StreamService` refines this model to objects, and
    `FineStreams` splits its steps into the accesses that threads interleave. */
module Streams {
  import opened Wrappers
  import opened Commands
  import opened Phases

  /** The operations whose completion carries the handler itself as tag. */
  datatype MainOp = AcceptOp | ReadOp | FinishOp

  /** What a handler has seen so far: completions of its Writes by outcome, Writes issued after
      Finish, calls of Finish, and deletions. */
  datatype Tally = Tally(
    okWrites: nat, failedWrites: nat, lateWrites: nat, finishes: nat, deletions: nat)

  /** One handler object. `mainOps` and `writesInFlight` are the tags that the completion queue
      still owes it; the fields after them are history that no branch of the code reads. */
  datatype Handler = Handler(
    phase: Phase,
    queue: seq<GatewayCommand>,
    writing: bool,
    mainOps: seq<MainOp>,
    writesInFlight: nat,
    submitted: seq<GatewayCommand>,
    tally: Tally)

  /** `active` and `pending` are the two static members; `pushed` lists every command given to
      `push_command`, `accepted` the streams in accept order, and `strayTags` counts tags that
      were delivered to a deleted handler. */
  datatype State = State(
    handlers: seq<Handler>,
    active: Option<nat>,
    pending: seq<GatewayCommand>,
    pushed: seq<GatewayCommand>,
    accepted: seq<nat>,
    acceptFailed: bool,
    strayTags: nat)

  datatype Event =
    | Push(cmd: GatewayCommand)
    | MainDone(handler: nat, op: MainOp, ok: bool)
    | WriteDone(handler: nat, ok: bool)

  // ---------------------------------------------------------------- one handler

  /** The constructor: CREATE runs at once and asks for the next connection. */
  function NewHandler(): Handler {
    Handler(Accepting, [], false, [AcceptOp], 0, [], Tally(0, 0, 0, 0, 0))
  }

  /** `flush_write_queue_locked`. */
  function Flush(h: Handler): Handler {
    if h.queue == [] || h.writing then h
    else
      h.(writing := true,
         submitted := h.submitted + [h.queue[0]],
         queue := h.queue[1..],
         writesInFlight := h.writesInFlight + 1,
         tally := if h.phase == Finishing then h.tally.(lateWrites := h.tally.lateWrites + 1)
                  else h.tally)
  }

  /** `enqueue`. */
  function Enqueue(h: Handler, cmd: GatewayCommand): Handler {
    var pushed := h.(queue := h.queue + [cmd]);
    if !pushed.writing then Flush(pushed) else pushed
  }

  /** The loop of `flush_pending`, which enqueues from the front of the pending queue. */
  function EnqueueAll(h: Handler, cmds: seq<GatewayCommand>): Handler
    decreases |cmds|
  {
    if cmds == [] then h else EnqueueAll(Enqueue(h, cmds[0]), cmds[1..])
  }

  /** `on_write_done`, after the completion queue has taken the writer tag back. */
  function OnWriteDone(h: Handler, ok: bool): Handler {
    if !ok then h.(writing := false, tally := h.tally.(failedWrites := h.tally.failedWrites + 1))
    else Flush(h.(writing := false, tally := h.tally.(okWrites := h.tally.okWrites + 1)))
  }

  // ---------------------------------------------------------------- the whole system

  /** `GrpcServer::start` has constructed the first handler. Commands pushed before that
      differ in nothing from commands pushed before the first connection. */
  function Init(): State {
    State([NewHandler()], None, [], [], [], false, 0)
  }

  predicate Enabled(s: State, e: Event) {
    match e
    case Push(_) => true
    case MainDone(i, op, _) => i < |s.handlers| && op in s.handlers[i].mainOps
    case WriteDone(i, _) => i < |s.handlers| && s.handlers[i].writesInFlight > 0
  }

  /** `push_command`. */
  function PushStep(s: State, cmd: GatewayCommand): State {
    var s := s.(pushed := s.pushed + [cmd]);
    if s.active.Some? && s.active.value < |s.handlers| then
      var i := s.active.value;
      s.(handlers := s.handlers[i := Enqueue(s.handlers[i], cmd)])
    else
      s.(pending := s.pending + [cmd])
  }

  /** `active_.compare_exchange_strong(this, nullptr)`. */
  function ClearActive(s: State, i: nat): State {
    if s.active == Some(i) then s.(active := None) else s
  }

  /** The handler that `AcceptStep` leaves behind for the new stream. */
  function Accepted(h: Handler, pending: seq<GatewayCommand>): Handler {
    var h := EnqueueAll(h, pending);
    h.(phase := Reading, mainOps := h.mainOps + [ReadOp])
  }

  function AcceptStep(s: State, i: nat, h: Handler): State
    requires i < |s.handlers|
  {
    s.(handlers := s.handlers[i := Accepted(h, s.pending)] + [NewHandler()],
       active := Some(i),
       pending := [],
       accepted := s.accepted + [i])
  }

  /** `stream_.Read(&incoming_, this)`. */
  function StartRead(h: Handler): Handler {
    h.(mainOps := h.mainOps + [ReadOp])
  }

  /** `state_ = State::FINISH; stream_.Finish(Status::OK, this)`. */
  function StartFinish(h: Handler): Handler {
    h.(phase := Finishing,
       mainOps := h.mainOps + [FinishOp],
       tally := h.tally.(finishes := h.tally.finishes + 1))
  }

  /** `delete this`. */
  function Delete(h: Handler): Handler {
    h.(phase := Deleted, tally := h.tally.(deletions := h.tally.deletions + 1))
  }

  function WithoutOne(ops: seq<MainOp>, op: MainOp): seq<MainOp> {
    if ops == [] then []
    else if ops[0] == op then ops[1..]
    else [ops[0]] + WithoutOne(ops[1..], op)
  }

  function TakeMainTag(h: Handler, op: MainOp): Handler
    requires op in h.mainOps
  {
    h.(mainOps := WithoutOne(h.mainOps, op))
  }

  /** `Proceed(ok)` on handler `i`, whose tag `op` the completion queue has taken back. The
      branch is chosen by the handler's phase, as the code does, and not by `op`. */
  function ProceedStep(s: State, i: nat, op: MainOp, ok: bool): State
    requires i < |s.handlers| && op in s.handlers[i].mainOps
  {
    var h := TakeMainTag(s.handlers[i], op);
    match h.phase
    case Accepting =>
      if ok then AcceptStep(s, i, h)
      else s.(handlers := s.handlers[i := Delete(h)], acceptFailed := true)
    case Reading =>
      if ok then s.(handlers := s.handlers[i := StartRead(h)])
      else ClearActive(s, i).(handlers := s.handlers[i := StartFinish(h)])
    case Finishing =>
      ClearActive(s, i).(handlers := s.handlers[i := Delete(h)])
    case Deleted =>
      s.(handlers := s.handlers[i := h], strayTags := s.strayTags + 1)
  }

  function WriteDoneStep(s: State, i: nat, ok: bool): State
    requires i < |s.handlers| && s.handlers[i].writesInFlight > 0
  {
    var h := s.handlers[i].(writesInFlight := s.handlers[i].writesInFlight - 1);
    if h.phase == Deleted then s.(handlers := s.handlers[i := h], strayTags := s.strayTags + 1)
    else s.(handlers := s.handlers[i := OnWriteDone(h, ok)])
  }

  function Step(s: State, e: Event): State
    requires Enabled(s, e)
  {
    match e
    case Push(cmd) => PushStep(s, cmd)
    case MainDone(i, op, ok) => ProceedStep(s, i, op, ok)
    case WriteDone(i, ok) => WriteDoneStep(s, i, ok)
  }

  ghost predicate IsRun(s: State, es: seq<Event>) {
    es == [] || (IsRun(s, es[..|es| - 1]) && Enabled(After(s, es[..|es| - 1]), es[|es| - 1]))
  }

  /** The state after the events `es`, which must be a run. */
  ghost function After(s: State, es: seq<Event>): State
    decreases |es|
  {
    if es == [] then s
    else
      var before := After(s, es[..|es| - 1]);
      if Enabled(before, es[|es| - 1]) then Step(before, es[|es| - 1]) else before
  }

  // ---------------------------------------------------------------- the invariant

  /** What `phase` says about the tag that is in flight. */
  function OwedIn(phase: Phase): seq<MainOp> {
    match phase
    case Accepting => [AcceptOp]
    case Reading => [ReadOp]
    case Finishing => [FinishOp]
    case Deleted => []
  }

  ghost predicate WriteInv(h: Handler) {
    && h.writesInFlight <= 1
    && (h.writing <==> h.writesInFlight == 1)
    && (h.queue != [] && !h.writing ==> h.tally.failedWrites > 0)
    && |h.submitted| == h.tally.okWrites + h.tally.failedWrites + h.writesInFlight
  }

  /** Everything a stream has been given: submitted to Write, then still queued. */
  function Given(h: Handler): seq<GatewayCommand> {
    h.submitted + h.queue
  }

  ghost predicate HandlerInv(h: Handler) {
    && h.mainOps == OwedIn(h.phase)
    && (h.phase != Deleted ==> WriteInv(h))
    && (h.phase == Accepting ==> h.submitted == [] && h.queue == [] && h.writesInFlight == 0)
    && h.tally.finishes <= 1
    && (h.phase == Accepting || h.phase == Reading ==>
        h.tally.finishes == 0 && h.tally.lateWrites == 0)
    && h.tally.deletions == (if h.phase == Deleted then 1 else 0)
  }

  /** The streams opened so far are all handlers but the newest, in order of creation. */
  ghost predicate CensusInv(s: State) {
    && |s.accepted| + 1 == |s.handlers|
    && (forall k :: 0 <= k < |s.accepted| ==> s.accepted[k] == k)
    && (forall k :: 0 <= k < |s.accepted| ==> s.handlers[k].phase != Accepting)
    && s.handlers[|s.accepted|].phase == (if s.acceptFailed then Deleted else Accepting)
  }

  ghost predicate ActiveInv(s: State) {
    && |s.accepted| + 1 == |s.handlers|
    && s.active == (if s.accepted != [] && s.handlers[|s.accepted| - 1].phase == Reading
                    then Some(|s.accepted| - 1) else None)
  }

  /** What the streams in `order` have been given, each as submitted ++ still queued. */
  ghost function Record(hs: seq<Handler>, order: seq<nat>): seq<GatewayCommand>
    requires forall k :: 0 <= k < |order| ==> order[k] < |hs|
  {
    if order == [] then []
    else
      Record(hs, order[..|order| - 1]) + Given(hs[order[|order| - 1]])
  }

  ghost predicate OrderInv(s: State) {
    && (forall k :: 0 <= k < |s.accepted| ==> s.accepted[k] < |s.handlers|)
    && (s.active.Some? ==> s.pending == [])
    && s.pushed == Record(s.handlers, s.accepted) + s.pending
  }

  ghost predicate Inv(s: State) {
    && (forall i :: 0 <= i < |s.handlers| ==> HandlerInv(s.handlers[i]))
    && CensusInv(s)
    && ActiveInv(s)
    && OrderInv(s)
  }

  // ---------------------------------------------------------------- steps of one handler

  /** A handler as it is constructed. */
  predicate IsNew(h: Handler) {
    && h.phase == Accepting && h.mainOps == [AcceptOp]
    && h.queue == [] && !h.writing && h.writesInFlight == 0 && h.submitted == []
    && h.tally.okWrites == 0 && h.tally.failedWrites == 0 && h.tally.lateWrites == 0
    && h.tally.finishes == 0 && h.tally.deletions == 0
  }

  lemma NewIsNew()
    ensures IsNew(NewHandler())
  {
  }

  lemma NewKeeps(h: Handler)
    requires IsNew(h)
    ensures HandlerInv(h) && Given(h) == []
  {
  }

  lemma FlushKeeps(h: Handler)
    ensures Given(Flush(h)) == Given(h)
  {
    if h.queue != [] && !h.writing {
      assert (h.submitted + [h.queue[0]]) + h.queue[1..] == h.submitted + h.queue;
    }
  }

  /** What one `enqueue` promises of any handler that satisfies its invariant. */
  lemma EnqueueKeeps(h: Handler, cmd: GatewayCommand)
    requires WriteInv(h) && h.phase != Finishing
    ensures var r := Enqueue(h, cmd);
      && Given(r) == Given(h) + [cmd]
      && WriteInv(r) && r.phase == h.phase && r.mainOps == h.mainOps && r.tally == h.tally
  {
    var pushed := h.(queue := h.queue + [cmd]);
    assert Given(pushed) == Given(h) + [cmd];
    FlushKeeps(pushed);
  }

  lemma {:induction false} EnqueueAllKeeps(h: Handler, cmds: seq<GatewayCommand>)
    requires WriteInv(h) && h.phase != Finishing
    ensures var r := EnqueueAll(h, cmds);
      && Given(r) == Given(h) + cmds
      && WriteInv(r) && r.phase == h.phase && r.mainOps == h.mainOps && r.tally == h.tally
    decreases |cmds|
  {
    if cmds != [] {
      EnqueueKeeps(h, cmds[0]);
      EnqueueAllKeeps(Enqueue(h, cmds[0]), cmds[1..]);
      assert (Given(h) + [cmds[0]]) + cmds[1..] == Given(h) + cmds;
    }
  }

  lemma OnWriteDoneKeeps(h: Handler, ok: bool)
    requires HandlerInv(h) && h.phase != Deleted && h.writesInFlight > 0
    ensures var r := OnWriteDone(h.(writesInFlight := h.writesInFlight - 1), ok);
      HandlerInv(r) && r.phase == h.phase && Given(r) == Given(h)
  {
    var back := h.(writesInFlight := h.writesInFlight - 1);
    FlushKeeps(back.(writing := false, tally := h.tally.(okWrites := h.tally.okWrites + 1)));
  }

  // ---------------------------------------------------------------- the record of streams

  /** A change to handlers outside `order`, or one that keeps what each has been given,
      leaves the record alone. */
  lemma {:induction false} RecordFrame(hs: seq<Handler>, hs': seq<Handler>, order: seq<nat>)
    requires forall k :: 0 <= k < |order| ==> order[k] < |hs| && order[k] < |hs'|
    requires forall k :: 0 <= k < |order| ==> Given(hs[order[k]]) == Given(hs'[order[k]])
    ensures Record(hs, order) == Record(hs', order)
  {
    if order != [] {
      RecordFrame(hs, hs', order[..|order| - 1]);
    }
  }

  /** Giving more to the last stream of the record extends the record at its end. */
  lemma RecordExtend(hs: seq<Handler>, i: nat, h: Handler, order: seq<nat>,
                     more: seq<GatewayCommand>)
    requires order != [] && order[|order| - 1] == i
    requires forall k :: 0 <= k < |order| ==> order[k] < |hs|
    requires forall k :: 0 <= k < |order| - 1 ==> order[k] != i
    requires Given(h) == Given(hs[i]) + more
    ensures Record(hs[i := h], order) == Record(hs, order) + more
  {
    var front := order[..|order| - 1];
    RecordFrame(hs, hs[i := h], front);
    assert Record(hs, front) + (Given(hs[i]) + more) == (Record(hs, front) + Given(hs[i])) + more;
  }

  // ---------------------------------------------------------------- steps of the system

  /** Replacing one handler by one that has been given the same keeps the order. */
  lemma ReplaceKeepsOrder(s: State, s': State, i: nat, h: Handler)
    requires OrderInv(s) && i < |s.handlers| && Given(h) == Given(s.handlers[i])
    requires s'.handlers == s.handlers[i := h] && s'.accepted == s.accepted
    requires s'.pushed == s.pushed && s'.pending == s.pending
    requires s'.active == s.active || s'.active == None
    ensures OrderInv(s')
  {
    RecordFrame(s.handlers, s'.handlers, s.accepted);
  }

  /** Replacing one handler without a change of phase keeps the census. */
  lemma ReplaceKeepsCensus(s: State, s': State, i: nat, h: Handler)
    requires CensusInv(s) && ActiveInv(s) && i < |s.handlers|
    requires s'.handlers == s.handlers[i := h] && h.phase == s.handlers[i].phase
    requires s'.accepted == s.accepted && s'.active == s.active
    requires s'.acceptFailed == s.acceptFailed
    ensures CensusInv(s') && ActiveInv(s')
  {
  }

  lemma ReplaceKeepsHandlers(s: State, s': State, i: nat, h: Handler)
    requires forall k :: 0 <= k < |s.handlers| ==> HandlerInv(s.handlers[k])
    requires i < |s.handlers| && s'.handlers == s.handlers[i := h] && HandlerInv(h)
    ensures forall k :: 0 <= k < |s'.handlers| ==> HandlerInv(s'.handlers[k])
  {
  }

  lemma PushToActive(s: State, i: nat, cmd: GatewayCommand)
    requires Inv(s) && s.active == Some(i)
    ensures Inv(PushStep(s, cmd))
  {
    var s' := PushStep(s, cmd);
    var h := Enqueue(s.handlers[i], cmd);
    assert HandlerInv(s.handlers[i]);
    EnqueueKeeps(s.handlers[i], cmd);
    assert HandlerInv(h);
    ReplaceKeepsHandlers(s, s', i, h);
    ReplaceKeepsCensus(s, s', i, h);
    RecordExtend(s.handlers, i, h, s.accepted, [cmd]);
  }

  lemma PushStepKeeps(s: State, cmd: GatewayCommand)
    requires Inv(s)
    ensures Inv(PushStep(s, cmd))
  {
    if s.active.Some? {
      PushToActive(s, s.active.value, cmd);
    } else {
      assert (Record(s.handlers, s.accepted) + s.pending) + [cmd]
          == Record(s.handlers, s.accepted) + (s.pending + [cmd]);
    }
  }

  lemma AcceptedKeeps(h: Handler, pending: seq<GatewayCommand>)
    requires HandlerInv(h.(mainOps := OwedIn(Accepting)))
    requires h.phase == Accepting && h.mainOps == []
    ensures HandlerInv(Accepted(h, pending)) && Accepted(h, pending).phase == Reading
    ensures Given(Accepted(h, pending)) == pending
  {
    EnqueueAllKeeps(h, pending);
    assert Given(h) + pending == pending;
  }

  lemma AcceptStepKeeps(s: State, h: Handler)
    requires Inv(s) && !s.acceptFailed
    requires h == s.handlers[|s.accepted|].(mainOps := [])
    ensures Inv(AcceptStep(s, |s.accepted|, h))
  {
    var i := |s.accepted|;
    var s' := AcceptStep(s, i, h);
    var stream := Accepted(h, s.pending);
    assert s.handlers[i] == h.(mainOps := OwedIn(Accepting)) by {
      assert HandlerInv(s.handlers[i]);
    }
    AcceptedKeeps(h, s.pending);
    NewIsNew();
    AcceptStepOrder(s, s', i, stream, NewHandler());
    AcceptStepCensus(s, s', i, stream, NewHandler());
  }

  lemma AcceptStepCensus(s: State, s': State, i: nat, stream: Handler, next: Handler)
    requires forall k :: 0 <= k < |s.handlers| ==> HandlerInv(s.handlers[k])
    requires CensusInv(s) && i == |s.accepted| && !s.acceptFailed && !s'.acceptFailed
    requires HandlerInv(stream) && stream.phase == Reading && IsNew(next)
    requires s'.handlers == s.handlers[i := stream] + [next]
    requires s'.accepted == s.accepted + [i] && s'.active == Some(i)
    ensures forall k :: 0 <= k < |s'.handlers| ==> HandlerInv(s'.handlers[k])
    ensures CensusInv(s') && ActiveInv(s')
  {
    NewKeeps(next);
    assert s'.handlers[i] == stream && s'.handlers[i + 1] == next;
    assert forall k :: 0 <= k < i ==> s'.handlers[k] == s.handlers[k];
  }

  lemma AcceptStepOrder(s: State, s': State, i: nat, stream: Handler, next: Handler)
    requires OrderInv(s) && i == |s.accepted| && |s.handlers| == i + 1
    requires forall k :: 0 <= k < |s.accepted| ==> s.accepted[k] == k
    requires s'.handlers == s.handlers[i := stream] + [next]
    requires s'.accepted == s.accepted + [i] && s'.pending == [] && s'.pushed == s.pushed
    requires Given(stream) == s.pending
    ensures OrderInv(s')
  {
    RecordFrame(s.handlers, s'.handlers, s.accepted);
    assert s'.accepted[..|s'.accepted| - 1] == s.accepted;
    assert s'.handlers[i] == stream;
  }

  /** The phases that the branches of `Proceed` other than a successful accept lead to. */
  predicate Branches(s: State, s': State, i: nat, h: Handler)
    requires i < |s.handlers|
  {
    match s.handlers[i].phase
    case Accepting => h.phase == Deleted && s'.acceptFailed && s'.active == s.active
    case Reading =>
      && s'.acceptFailed == s.acceptFailed
      && if h.phase == Reading then s'.active == s.active
         else h.phase == Finishing && s'.active == ClearActive(s, i).active
    case _ =>
      && s'.acceptFailed == s.acceptFailed && h.phase == Deleted
      && s'.active == ClearActive(s, i).active
  }

  lemma BranchKeepsCensus(s: State, s': State, i: nat, h: Handler)
    requires CensusInv(s) && ActiveInv(s) && i < |s.handlers| && s.handlers[i].phase != Deleted
    requires s'.handlers == s.handlers[i := h] && s'.accepted == s.accepted
    requires Branches(s, s', i, h)
    ensures CensusInv(s') && ActiveInv(s')
  {
  }

  /** The branches of `Proceed` other than a successful accept: handler `i` becomes `h`. */
  lemma ReplaceKeeps(s: State, s': State, i: nat, h: Handler)
    requires Inv(s) && i < |s.handlers| && s.handlers[i].phase != Deleted
    requires s'.handlers == s.handlers[i := h]
    requires s'.accepted == s.accepted && s'.pushed == s.pushed && s'.pending == s.pending
    requires HandlerInv(h) && Given(h) == Given(s.handlers[i]) && Branches(s, s', i, h)
    ensures Inv(s')
  {
    BranchKeepsCensus(s, s', i, h);
    ReplaceKeepsOrder(s, s', i, h);
    ReplaceKeepsHandlers(s, s', i, h);
  }

  lemma ProceedHandlerKeeps(h: Handler, op: MainOp)
    requires HandlerInv(h) && op in h.mainOps
    ensures h.phase != Deleted && TakeMainTag(h, op).mainOps == []
    ensures h.phase == Reading ==> HandlerInv(StartRead(TakeMainTag(h, op)))
    ensures h.phase == Reading ==> HandlerInv(StartFinish(TakeMainTag(h, op)))
    ensures h.phase != Reading ==> HandlerInv(Delete(TakeMainTag(h, op)))
  {
  }

  lemma ReadStepKeeps(s: State, i: nat, op: MainOp, ok: bool)
    requires Inv(s) && Enabled(s, MainDone(i, op, ok)) && s.handlers[i].phase == Reading
    ensures Inv(ProceedStep(s, i, op, ok))
  {
    var h := TakeMainTag(s.handlers[i], op);
    ProceedHandlerKeeps(s.handlers[i], op);
    ReplaceKeeps(s, ProceedStep(s, i, op, ok), i, if ok then StartRead(h) else StartFinish(h));
  }

  lemma DeleteStepKeeps(s: State, i: nat, op: MainOp, ok: bool)
    requires Inv(s) && Enabled(s, MainDone(i, op, ok)) && s.handlers[i].phase != Reading
    requires s.handlers[i].phase == Accepting ==> !ok
    ensures Inv(ProceedStep(s, i, op, ok))
  {
    var h := TakeMainTag(s.handlers[i], op);
    ProceedHandlerKeeps(s.handlers[i], op);
    ReplaceKeeps(s, ProceedStep(s, i, op, ok), i, Delete(h));
  }

  lemma AcceptEventKeeps(s: State, i: nat, op: MainOp)
    requires Inv(s) && Enabled(s, MainDone(i, op, true)) && s.handlers[i].phase == Accepting
    ensures Inv(ProceedStep(s, i, op, true))
  {
    assert HandlerInv(s.handlers[i]) && i == |s.accepted| && !s.acceptFailed;
    assert TakeMainTag(s.handlers[i], op) == s.handlers[i].(mainOps := []);
    AcceptStepKeeps(s, TakeMainTag(s.handlers[i], op));
  }

  lemma ProceedStepKeeps(s: State, i: nat, op: MainOp, ok: bool)
    requires Inv(s) && Enabled(s, MainDone(i, op, ok))
    ensures Inv(ProceedStep(s, i, op, ok))
  {
    if s.handlers[i].phase == Accepting && ok {
      AcceptEventKeeps(s, i, op);
    } else if s.handlers[i].phase == Reading {
      ReadStepKeeps(s, i, op, ok);
    } else {
      DeleteStepKeeps(s, i, op, ok);
    }
  }

  lemma WriteDoneStepKeeps(s: State, i: nat, ok: bool)
    requires Inv(s) && Enabled(s, WriteDone(i, ok))
    ensures Inv(WriteDoneStep(s, i, ok))
  {
    assert HandlerInv(s.handlers[i]);
    var s' := WriteDoneStep(s, i, ok);
    if s.handlers[i].phase != Deleted {
      OnWriteDoneKeeps(s.handlers[i], ok);
    }
    var h := s'.handlers[i];
    assert HandlerInv(h) && Given(h) == Given(s.handlers[i]);
    ReplaceKeepsOrder(s, s', i, h);
    ReplaceKeepsHandlers(s, s', i, h);
    ReplaceKeepsCensus(s, s', i, h);
  }

  lemma StepKeeps(s: State, e: Event)
    requires Inv(s) && Enabled(s, e)
    ensures Inv(Step(s, e))
  {
    match e
    case Push(cmd) => PushStepKeeps(s, cmd);
    case MainDone(i, op, ok) => ProceedStepKeeps(s, i, op, ok);
    case WriteDone(i, ok) => WriteDoneStepKeeps(s, i, ok);
  }

  lemma {:induction false} RunKeeps(s: State, es: seq<Event>)
    requires Inv(s) && IsRun(s, es)
    ensures Inv(After(s, es))
  {
    if es != [] {
      RunKeeps(s, es[..|es| - 1]);
      StepKeeps(After(s, es[..|es| - 1]), es[|es| - 1]);
    }
  }
}
