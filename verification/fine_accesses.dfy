/** The grain of the fine-grained machine: one step writes at most one thing that threads share. */
module FineAccesses {
  import opened FineStreams

  /** What the threads share. `MuOf` to `WritesOf` are `mu_`, `write_queue_`, `writing_`, `state_`
      and the Writes of one handler. */
  datatype Shared =
    | ActivePointer
    | PendingLock
    | PendingQueue
    | Handlers
    | MuOf(h: nat)
    | QueueOf(h: nat)
    | FlagOf(h: nat)
    | StateOf(h: nat)
    | WritesOf(h: nat)

  predicate Writes(s: State, s': State, x: Shared) {
    match x
    case ActivePointer => s'.active != s.active
    case PendingLock => s'.pendingMu != s.pendingMu
    case PendingQueue => s'.pending != s.pending
    case Handlers => |s'.streams| != |s.streams|
    case MuOf(h) => Both(s, s', h) && Held(s'.streams[h]) != Held(s.streams[h])
    case QueueOf(h) => Both(s, s', h) && s'.streams[h].queue != s.streams[h].queue
    case FlagOf(h) => Both(s, s', h) && s'.streams[h].writing != s.streams[h].writing
    case StateOf(h) => Both(s, s', h) && s'.streams[h].phase != s.streams[h].phase
    case WritesOf(h) => Both(s, s', h) && s'.streams[h].submitted != s.streams[h].submitted
  }

  predicate Both(s: State, s': State, h: nat) {
    h < |s.streams| && h < |s'.streams|
  }

  predicate Held(st: Stream) {
    st.section.Some?
  }

  /** At most one field of a handler that threads share has changed. */
  predicate OneField(st: Stream, st': Stream) {
    && (Held(st') != Held(st) ==>
        st'.queue == st.queue && st'.writing == st.writing && st'.phase == st.phase
        && st'.submitted == st.submitted)
    && (st'.queue != st.queue ==>
        st'.writing == st.writing && st'.phase == st.phase && st'.submitted == st.submitted)
    && (st'.writing != st.writing ==> st'.phase == st.phase && st'.submitted == st.submitted)
    && (st'.phase != st.phase ==> st'.submitted == st.submitted)
  }

  lemma SectionWritesOne(st: Stream)
    requires st.section.Some?
    requires st.section.value.at.AtWrite? || st.section.value.at.AtPop? ==> st.queue != []
    ensures OneField(st, SectionStep(st))
  {
  }

  /** Only stream `h` has changed. */
  lemma OnStream(s: State, s': State, h: nat, st': Stream, x: Shared, y: Shared)
    requires h < |s.streams| && s'.streams == s.streams[h := st'] && OneField(s.streams[h], st')
    requires s'.active == s.active && s'.pending == s.pending && s'.pendingMu == s.pendingMu
    requires Writes(s, s', x) && Writes(s, s', y)
    ensures x == y
  {
  }

  /** No stream has changed. */
  lemma OnGlobals(s: State, s': State, x: Shared, y: Shared)
    requires s'.streams == s.streams
    requires s'.active != s.active ==> s'.pending == s.pending && s'.pendingMu == s.pendingMu
    requires s'.pending != s.pending ==> s'.pendingMu == s.pendingMu
    requires Writes(s, s', x) && Writes(s, s', y)
    ensures x == y
  {
  }

  lemma InsideWritesOne(s: State, t: nat, s': State, x: Shared, y: Shared)
    requires Enabled(s, Advance(t)) && s' == AdvanceStep(s, t) && InSection(s.threads[t])
    requires Writes(s, s', x) && Writes(s, s', y)
    ensures x == y
  {
    var h := s.threads[t].h;
    SectionWritesOne(s.streams[h]);
    OnStream(s, s', h, SectionStep(s.streams[h]), x, y);
  }

  /** The steps outside `mu_` that touch a handler. */
  predicate OnHandler(s: State, pc: Pc) {
    || (pc.Loaded? && pc.target.Some?) || (pc.Flushing? && s.pending != [])
    || pc.Flushed? || pc.Detached? || pc.Freeing? || pc.WriteFailed? || pc.WriteOk?
  }

  function HandlerOf(pc: Pc): nat
    requires pc.Loaded? ==> pc.target.Some?
    requires !pc.Idle? && !pc.PendingLocked? && !pc.PendingPushed?
  {
    if pc.Loaded? then pc.target.value else pc.h
  }

  lemma HandlerStep(s: State, t: nat, s': State, x: Shared, y: Shared)
    requires Enabled(s, Advance(t)) && s' == AdvanceStep(s, t) && OnHandler(s, s.threads[t])
    requires Writes(s, s', x) && Writes(s, s', y)
    ensures x == y
  {
    var h := HandlerOf(s.threads[t]);
    OnStream(s, s', h, s'.streams[h], x, y);
  }

  lemma GlobalStep(s: State, t: nat, s': State, x: Shared, y: Shared)
    requires Enabled(s, Advance(t)) && s' == AdvanceStep(s, t)
    requires !OnHandler(s, s.threads[t]) && !InSection(s.threads[t])
    requires Writes(s, s', x) && Writes(s, s', y)
    ensures x == y
  {
    OnGlobals(s, s', x, y);
  }

  /** In every state, a step writes at most one of these. */
  lemma OneAccess(s: State, a: Action, s': State, x: Shared, y: Shared)
    requires Enabled(s, a) && s' == Next(s, a)
    requires Writes(s, s', x) && Writes(s, s', y)
    ensures x == y
  {
    if a.Advance? {
      if InSection(s.threads[a.thread]) {
        InsideWritesOne(s, a.thread, s', x, y);
      } else if OnHandler(s, s.threads[a.thread]) {
        HandlerStep(s, a.thread, s', x, y);
      } else {
        GlobalStep(s, a.thread, s', x, y);
      }
    }
  }
}
