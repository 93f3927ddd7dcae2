/** The command stream at fine granularity: the completion-queue thread and any number of
    producer threads interleave at every lock, every access to `active_` and `writing_`, and
    every Write. Atomics and mutexes are sequentially consistent. */
module FineStreams {
  import opened Wrappers
  import opened Commands
  import opened Phases

  /** Commands are told apart by the position of their `push_command` call. */
  type Id = nat

  /** Where the holder of a handler's `mu_` stands: in `enqueue` (lines 120-121 of
      vehicle_stream_handler.h), in `on_write_done` (114) or in `flush_write_queue_locked`
      (143-146). */
  datatype Point =
    | AtPush(id: Id) | AtTest | AtClear | AtFlush | AtStore | AtWrite | AtPop | AtUnlock

  datatype Section = Section(thread: nat, at: Point)

  /** A handler. `section` is `mu_` together with the program point of its holder; `completing`
      says that the writer tag has been delivered and `writing_` not yet been cleared for it. */
  datatype Stream = Stream(
    phase: Phase,
    queue: seq<Id>,
    writing: bool,
    section: Option<Section>,
    writeTags: nat,
    completing: bool,
    submitted: seq<Id>,
    enqueued: seq<Id>)

  /** The program counter of a thread. Thread 0 runs the completion queue. */
  datatype Pc =
    | Idle
    | Loaded(id: Id, target: Option<nat>)
    | PendingLocked(id: Id)
    | PendingPushed
    | InEnqueue(h: nat)
    | Accepted(h: nat)
    | Activated(h: nat)
    | Flushing(h: nat)
    | Moving(h: nat)
    | Moved(h: nat)
    | Flushed(h: nat)
    | ReadFailed(h: nat)
    | Detached(h: nat)
    | FinishDone(h: nat)
    | Freeing(h: nat)
    | WriteFailed(h: nat)
    | WriteOk(h: nat)
    | InWriteDone(h: nat)

  /** Who has a command: the producer that is pushing it, the pending queue, or a stream. */
  datatype Place = InHand(thread: nat) | InPending | InStream(h: nat)

  /** `moved` says that the front of `pending` has been copied into the stream that
      `flush_pending` serves and not yet been popped. `place` is history. */
  datatype State = State(
    threads: seq<Pc>,
    streams: seq<Stream>,
    active: Option<nat>,
    pendingMu: Option<nat>,
    pending: seq<Id>,
    moved: bool,
    commands: seq<GatewayCommand>,
    place: seq<Place>)

  datatype Action =
    | Call(thread: nat, cmd: GatewayCommand)
    | DeliverAccept(h: nat, ok: bool)
    | DeliverRead(h: nat, ok: bool)
    | DeliverFinish(h: nat)
    | DeliverWrite(h: nat, ok: bool)
    | Advance(thread: nat)

  // ---------------------------------------------------------------- one stream

  function NewStream(): Stream {
    Stream(Accepting, [], false, None, 0, false, [], [])
  }

  /** One step of the holder of `mu_`. */
  function SectionStep(st: Stream): Stream
    requires st.section.Some?
    requires st.section.value.at.AtWrite? || st.section.value.at.AtPop? ==> st.queue != []
  {
    var sec := st.section.value;
    match sec.at
    case AtPush(id) =>
      st.(queue := st.queue + [id], enqueued := st.enqueued + [id],
          section := Some(sec.(at := AtTest)))
    case AtTest =>
      st.(section := Some(sec.(at := if st.writing then AtUnlock else AtFlush)))
    case AtClear =>
      st.(writing := false, completing := false, section := Some(sec.(at := AtFlush)))
    case AtFlush =>
      st.(section := Some(sec.(at := if st.queue == [] || st.writing then AtUnlock else AtStore)))
    case AtStore =>
      st.(writing := true, section := Some(sec.(at := AtWrite)))
    case AtWrite =>
      st.(submitted := st.submitted + [st.queue[0]], writeTags := st.writeTags + 1,
          section := Some(sec.(at := AtPop)))
    case AtPop =>
      st.(queue := st.queue[1..], section := Some(sec.(at := AtUnlock)))
    case AtUnlock =>
      st.(section := None)
  }

  /** Taking `mu_`. */
  function Lock(st: Stream, t: nat, at: Point): Stream {
    st.(section := Some(Section(t, at)))
  }

  /** The completion queue takes the writer tag back. */
  function TakeWriteTag(st: Stream): Stream
    requires st.writeTags > 0
  {
    st.(writeTags := st.writeTags - 1, completing := true)
  }

  /** `writing_.store(false)` of the failed branch of `on_write_done`, without `mu_`. */
  function ClearUnlocked(st: Stream): Stream {
    st.(writing := false, completing := false)
  }

  /** What the queue holds once a pop that is due has been done. */
  function Waiting(st: Stream): seq<Id> {
    if st.section.Some? && st.section.value.at.AtPop? && st.queue != [] then st.queue[1..]
    else st.queue
  }

  function HolderAtWrite(st: Stream): nat {
    if st.section.Some? && st.section.value.at.AtWrite? then 1 else 0
  }

  /** `writing_` is true exactly when one of these holds, and never two of them: a writer tag is
      in flight, a delivered one is being handled, or the holder of `mu_` stands between the
      store and the Write. */
  ghost predicate SingleWrite(st: Stream) {
    st.writeTags + (if st.completing then 1 else 0) + HolderAtWrite(st)
    == (if st.writing then 1 else 0)
  }

  ghost predicate StreamInv(st: Stream) {
    && SingleWrite(st)
    && st.submitted + Waiting(st) == st.enqueued
    && (st.section.Some? ==>
        match st.section.value.at
        case AtStore => st.queue != [] && !st.writing
        case AtWrite => st.queue != []
        case AtPop => st.queue != []
        case AtClear => st.completing
        case _ => true)
  }

  lemma SectionStepKeeps(st: Stream)
    requires StreamInv(st) && st.section.Some?
    ensures StreamInv(SectionStep(st))
  {
    match st.section.value.at
    case AtPush(id) =>
      assert st.submitted + (st.queue + [id]) == (st.submitted + st.queue) + [id];
    case AtWrite =>
      assert (st.submitted + [st.queue[0]]) + st.queue[1..] == st.submitted + st.queue;
    case _ =>
  }

  lemma LockKeeps(st: Stream, t: nat, at: Point)
    requires StreamInv(st) && st.section.None?
    requires at.AtPush? || (at.AtClear? && st.completing)
    ensures StreamInv(Lock(st, t, at))
  {
  }

  lemma TakeWriteTagKeeps(st: Stream)
    requires StreamInv(st) && st.writeTags > 0
    ensures StreamInv(TakeWriteTag(st)) && !st.completing
  {
  }

  /** The unlocked store does no harm: while a completion is being handled nobody can stand
      between the store and the Write, and a holder about to store has already seen false. */
  lemma ClearUnlockedKeeps(st: Stream)
    requires StreamInv(st) && st.completing
    requires st.section.Some? ==> !st.section.value.at.AtClear?
    ensures StreamInv(ClearUnlocked(st)) && st.writing && HolderAtWrite(st) == 0
  {
  }

  // ---------------------------------------------------------------- the steps

  function Init(producers: nat): State {
    State(seq(producers + 1, _ => Idle), [NewStream()], None, None, [], false, [], [])
  }

  function SetThread(s: State, t: nat, pc: Pc): State
    requires t < |s.threads|
  {
    s.(threads := s.threads[t := pc])
  }

  function SetStream(s: State, h: nat, st: Stream): State
    requires h < |s.streams|
  {
    s.(streams := s.streams[h := st])
  }

  /** Whether a thread has a pointer to handler `h` that it may still dereference. */
  predicate Refers(pc: Pc, h: nat) {
    (pc.InEnqueue? && pc.h == h) || (pc.Loaded? && pc.target == Some(h))
  }

  predicate IdleQueue(s: State) {
    |s.threads| > 0 && s.threads[0] == Idle
  }

  /** The environment. A live handler is owed the one main tag of its phase. Two assumptions are
      made of Finish: it completes after an outstanding Write, and not while a producer still
      has the handler that it loaded. */
  predicate Enabled(s: State, a: Action) {
    match a
    case Call(t, _) => 0 < t < |s.threads| && s.threads[t] == Idle
    case DeliverAccept(h, _) =>
      IdleQueue(s) && h < |s.streams| && s.streams[h].phase == Accepting
    case DeliverRead(h, _) =>
      IdleQueue(s) && h < |s.streams| && s.streams[h].phase == Reading
    case DeliverFinish(h) =>
      && IdleQueue(s) && h < |s.streams| && s.streams[h].phase == Finishing
      && s.streams[h].writeTags == 0
      && forall t :: 0 <= t < |s.threads| ==> !Refers(s.threads[t], h)
    case DeliverWrite(h, _) =>
      IdleQueue(s) && h < |s.streams| && s.streams[h].phase != Deleted
      && s.streams[h].writeTags > 0
    case Advance(t) =>
      t < |s.threads| && CanAdvance(s, t, s.threads[t])
  }

  predicate MuFree(s: State, h: nat) {
    h < |s.streams| && s.streams[h].section.None?
  }

  predicate CanStep(s: State, h: nat) {
    && h < |s.streams| && s.streams[h].section.Some?
    && (s.streams[h].section.value.at.AtWrite? || s.streams[h].section.value.at.AtPop? ==>
        s.streams[h].queue != [])
  }

  predicate CanAdvance(s: State, t: nat, pc: Pc) {
    match pc
    case Idle => false
    case Loaded(_, None) => s.pendingMu.None?
    case Loaded(_, Some(h)) => MuFree(s, h)
    case PendingLocked(id) => id < |s.place|
    case PendingPushed => true
    case InEnqueue(h) => CanStep(s, h)
    case Activated(h) => s.pendingMu.None?
    case Flushing(h) => s.pending == [] || MuFree(s, h)
    case Moving(h) => CanStep(s, h)
    case Moved(h) => s.pending != []
    case WriteOk(h) => MuFree(s, h)
    case InWriteDone(h) => CanStep(s, h)
    case _ => pc.h < |s.streams|
  }

  function ClearActive(active: Option<nat>, h: nat): Option<nat> {
    if active == Some(h) then None else active
  }

  /** One step of thread `t` inside the section of stream `h`; `after` is where it goes on once
      it has released `mu_`. */
  function SectionAdvance(s: State, t: nat, h: nat, after: Pc): State
    requires t < |s.threads| && CanStep(s, h)
  {
    var at := s.streams[h].section.value.at;
    var s := SetStream(s, h, SectionStep(s.streams[h]));
    if at.AtUnlock? then SetThread(s, t, after)
    else if at.AtPush? then
      s.(place := if at.id < |s.place| then s.place[at.id := InStream(h)] else s.place,
         moved := s.moved || s.threads[t].Moving?)
    else s
  }

  /** What a step inside a section leaves alone. */
  lemma SectionFrame(s: State, t: nat, h: nat, after: Pc)
    requires t < |s.threads| && CanStep(s, h)
    ensures var s' := SectionAdvance(s, t, h, after);
      && |s'.threads| == |s.threads| && |s'.streams| == |s.streams| && s'.active == s.active
      && (forall k :: 0 <= k < |s.streams| ==> s'.streams[k].phase == s.streams[k].phase)
      && (forall k :: 0 <= k < |s.threads| && k != t ==> s'.threads[k] == s.threads[k])
      && (s'.threads[t] == s.threads[t] || s'.threads[t] == after)
  {
  }

  function AdvanceStep(s: State, t: nat): State
    requires t < |s.threads| && CanAdvance(s, t, s.threads[t])
  {
    match s.threads[t]
    case Idle => s
    case Loaded(id, None) => SetThread(s, t, PendingLocked(id)).(pendingMu := Some(t))
    case Loaded(id, Some(h)) =>
      SetThread(SetStream(s, h, Lock(s.streams[h], t, AtPush(id))), t, InEnqueue(h))
    case PendingLocked(id) =>
      SetThread(s, t, PendingPushed).(
        pending := s.pending + [id], place := s.place[id := InPending])
    case PendingPushed => SetThread(s, t, Idle).(pendingMu := None)
    case InEnqueue(h) => SectionAdvance(s, t, h, Idle)
    case Accepted(h) => SetThread(s, t, Activated(h)).(active := Some(h))
    case Activated(h) => SetThread(s, t, Flushing(h)).(pendingMu := Some(t))
    case Flushing(h) =>
      if s.pending == [] then SetThread(s, t, Flushed(h)).(pendingMu := None)
      else SetThread(SetStream(s, h, Lock(s.streams[h], t, AtPush(s.pending[0]))), t, Moving(h))
    case Moving(h) => SectionAdvance(s, t, h, Moved(h))
    case Moved(h) => SetThread(s, t, Flushing(h)).(pending := s.pending[1..], moved := false)
    case Flushed(h) => SetThread(SetStream(s, h, s.streams[h].(phase := Reading)), t, Idle)
    case ReadFailed(h) => SetThread(s, t, Detached(h)).(active := ClearActive(s.active, h))
    case Detached(h) => SetThread(SetStream(s, h, s.streams[h].(phase := Finishing)), t, Idle)
    case FinishDone(h) => SetThread(s, t, Freeing(h)).(active := ClearActive(s.active, h))
    case Freeing(h) => SetThread(SetStream(s, h, s.streams[h].(phase := Deleted)), t, Idle)
    case WriteFailed(h) => SetThread(SetStream(s, h, ClearUnlocked(s.streams[h])), t, Idle)
    case WriteOk(h) =>
      SetThread(SetStream(s, h, Lock(s.streams[h], t, AtClear)), t, InWriteDone(h))
    case InWriteDone(h) => SectionAdvance(s, t, h, Idle)
  }

  function Next(s: State, a: Action): State
    requires Enabled(s, a)
  {
    match a
    case Call(t, cmd) =>
      SetThread(s, t, Loaded(|s.commands|, s.active)).(
        commands := s.commands + [cmd], place := s.place + [InHand(t)])
    case DeliverAccept(h, ok) =>
      if ok then SetThread(s, 0, Accepted(h)).(streams := s.streams + [NewStream()])
      else SetStream(s, h, s.streams[h].(phase := Deleted))
    case DeliverRead(h, ok) => if ok then s else SetThread(s, 0, ReadFailed(h))
    case DeliverFinish(h) => SetThread(s, 0, FinishDone(h))
    case DeliverWrite(h, ok) =>
      SetThread(SetStream(s, h, TakeWriteTag(s.streams[h])), 0,
                if ok then WriteOk(h) else WriteFailed(h))
    case Advance(t) => AdvanceStep(s, t)
  }

  ghost predicate IsRun(s: State, actions: seq<Action>)
    decreases |actions|
  {
    actions == [] || (Enabled(s, actions[0]) && IsRun(Next(s, actions[0]), actions[1..]))
  }

  ghost function After(s: State, actions: seq<Action>): State
    requires IsRun(s, actions)
    decreases |actions|
  {
    if actions == [] then s else After(Next(s, actions[0]), actions[1..])
  }

  // ---------------------------------------------------------------- invariants

  /** The thread runs code of `push_command`, or nothing. */
  predicate IsProducer(pc: Pc) {
    pc.Idle? || pc.Loaded? || pc.PendingLocked? || pc.PendingPushed? || pc.InEnqueue?
  }

  /** The thread is in a section that it entered by locking `mu_` of stream `pc.h`. */
  predicate InSection(pc: Pc) {
    pc.InEnqueue? || pc.Moving? || pc.InWriteDone?
  }

  predicate HoldsPending(pc: Pc) {
    pc.PendingLocked? || pc.PendingPushed? || pc.Flushing? || pc.Moving? || pc.Moved?
  }
}
