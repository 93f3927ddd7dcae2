/** The subscription side of `MqttClient`. Each call, and each callback that the io_context runs,
    is one step; `start` and `stop` are not called at the same time. */
module Mqtt {
  /** What was handed to `boost::asio::post` and has not run yet. */
  datatype Callback = FlushPending | Subscribe(topic: string)

  /** `sent` lists the subscriptions requested from the client of this session, and the last
      three fields the calls of `subscribe`: those that this session found pending, those since
      its start, and those since its stop began. */
  datatype State = State(
    started: bool,
    stopped: bool,
    hasClient: bool,
    pending: seq<string>,
    posted: seq<Callback>,
    receives: nat,
    sent: seq<string>,
    calls: Calls)

  datatype Calls = Calls(before: seq<string>, after: seq<string>, late: seq<string>)

  /** `stop` waits for the io_context thread between the two halves that are steps here. */
  datatype Event =
    | Start
    | SubscribeCall(topic: string)
    | RunPosted(i: nat)
    | Receive(ok: bool)
    | BeginStop
    | FinishStop

  function Init(): State {
    State(false, false, false, [], [], 0, [], Calls([], [], []))
  }

  predicate Enabled(s: State, e: Event) {
    match e
    case Start => s.started || !s.hasClient
    case SubscribeCall(_) => true
    case RunPosted(i) => i < |s.posted|
    case Receive(_) => s.receives > 0
    case BeginStop => true
    case FinishStop => s.hasClient && !s.started
  }

  function StartStep(s: State): State {
    if s.started then s
    else
      s.(started := true, stopped := false, hasClient := true, posted := [FlushPending],
         receives := 1, sent := [], calls := Calls(s.pending, [], []))
  }

  function SubscribeStep(s: State, topic: string): State {
    var s := s.(pending := s.pending + [topic]);
    if s.started && s.hasClient then
      s.(posted := s.posted + [Subscribe(topic)],
         calls := s.calls.(after := s.calls.after + [topic]))
    else if s.hasClient then s.(calls := s.calls.(late := s.calls.late + [topic]))
    else s.(calls := s.calls.(before := s.calls.before + [topic]))
  }

  function Flush(s: State): State {
    s.(sent := s.sent + s.pending, pending := [])
  }

  function RunStep(s: State, i: nat): State
    requires i < |s.posted|
  {
    var cb := s.posted[i];
    var s := s.(posted := s.posted[..i] + s.posted[i + 1..]);
    match cb
    case FlushPending => Flush(s)
    case Subscribe(topic) => s.(sent := s.sent + [topic])
  }

  /** The callback of `async_receive`, which arms itself again unless the client is stopped. */
  function ReceiveStep(s: State, ok: bool): State
    requires s.receives > 0
  {
    var s := if ok && s.pending != [] then Flush(s) else s;
    if s.stopped then s.(receives := s.receives - 1) else s
  }

  function BeginStopStep(s: State): State {
    if s.started then s.(started := false, stopped := true) else s
  }

  /** The io_context is destroyed with everything that is still posted. */
  function FinishStopStep(s: State): State {
    s.(hasClient := false, posted := [], receives := 0, sent := [],
       calls := Calls(s.pending, [], []))
  }

  function Step(s: State, e: Event): State
    requires Enabled(s, e)
  {
    match e
    case Start => StartStep(s)
    case SubscribeCall(topic) => SubscribeStep(s, topic)
    case RunPosted(i) => RunStep(s, i)
    case Receive(ok) => ReceiveStep(s, ok)
    case BeginStop => BeginStopStep(s)
    case FinishStop => FinishStopStep(s)
  }

  ghost predicate IsRun(s: State, es: seq<Event>)
    decreases |es|
  {
    es == [] || (Enabled(s, es[0]) && IsRun(Step(s, es[0]), es[1..]))
  }

  ghost function After(s: State, es: seq<Event>): State
    requires IsRun(s, es)
    decreases |es|
  {
    if es == [] then s else After(Step(s, es[0]), es[1..])
  }

  // ---------------------------------------------------------------- counting

  function Count<T(==)>(xs: seq<T>, x: T): nat {
    if xs == [] then 0 else (if xs[0] == x then 1 else 0) + Count(xs[1..], x)
  }

  lemma {:induction false} CountAppend<T>(a: seq<T>, b: seq<T>, x: T)
    ensures Count(a + b, x) == Count(a, x) + Count(b, x)
  {
    if a == [] {
      assert a + b == b;
    } else {
      assert (a + b)[1..] == a[1..] + b;
      CountAppend(a[1..], b, x);
    }
  }

  lemma CountSnoc<T>(a: seq<T>, y: T, x: T)
    ensures Count(a + [y], x) == Count(a, x) + if y == x then 1 else 0
  {
    CountAppend(a, [y], x);
  }

  lemma CountRemoved<T>(xs: seq<T>, i: nat, x: T)
    requires i < |xs|
    ensures Count(xs, x)
         == Count(xs[..i] + xs[i + 1..], x) + if xs[i] == x then 1 else 0
  {
    assert xs == xs[..i] + ([xs[i]] + xs[i + 1..]);
    CountAppend(xs[..i], [xs[i]] + xs[i + 1..], x);
    CountAppend([xs[i]], xs[i + 1..], x);
    CountAppend(xs[..i], xs[i + 1..], x);
  }

  // ---------------------------------------------------------------- the invariant

  /** A callback only runs while there is a client for it to use. */
  ghost predicate ClientInv(s: State) {
    && (s.started ==> s.hasClient && !s.stopped)
    && (s.hasClient && !s.started ==> s.stopped)
    && (s.posted != [] ==> s.hasClient)
    && s.receives <= 1 && (s.receives == 1 ==> s.hasClient)
    && (s.started ==> s.receives == 1)
  }

  /** Per topic: what was sent, is posted or is pending adds up to the calls, those of a running
      session counted twice; and how much of it can be posted or pending. */
  ghost predicate TopicInv(s: State, topic: string) {
    var before, after, late :=
      Count(s.calls.before, topic), Count(s.calls.after, topic), Count(s.calls.late, topic);
    var posted, pending := Count(s.posted, Subscribe(topic)), Count(s.pending, topic);
    if s.hasClient then
      && Count(s.sent, topic) + posted + pending == before + 2 * after + late
      && posted <= after
      && pending <= before + after + late
      && (FlushPending !in s.posted ==> pending <= after + late)
    else
      pending == before && after == 0 && late == 0
  }

  ghost predicate Inv(s: State) {
    ClientInv(s) && forall topic :: TopicInv(s, topic)
  }

  lemma FlushKeeps(s: State, topic: string)
    requires TopicInv(s, topic) && s.hasClient
    ensures TopicInv(Flush(s), topic)
  {
    CountAppend(s.sent, s.pending, topic);
  }

  lemma RunKeepsTopic(s: State, i: nat, topic: string)
    requires TopicInv(s, topic) && s.hasClient && i < |s.posted|
    ensures TopicInv(RunStep(s, i), topic)
  {
    var cb := s.posted[i];
    var rest := s.posted[..i] + s.posted[i + 1..];
    CountRemoved(s.posted, i, Subscribe(topic));
    if cb == FlushPending {
      CountAppend(s.sent, s.pending, topic);
    } else {
      CountSnoc(s.sent, cb.topic, topic);
      if FlushPending in s.posted {
        var k :| 0 <= k < |s.posted| && s.posted[k] == FlushPending;
        assert rest[if k < i then k else k - 1] == FlushPending;
      }
    }
  }

  lemma SubscribeKeepsTopic(s: State, called: string, topic: string)
    requires TopicInv(s, topic)
    ensures TopicInv(SubscribeStep(s, called), topic)
  {
    CountSnoc(s.pending, called, topic);
    if s.started && s.hasClient {
      CountSnoc(s.posted, Subscribe(called), Subscribe(topic));
      CountSnoc(s.calls.after, called, topic);
      assert FlushPending in s.posted ==> FlushPending in SubscribeStep(s, called).posted;
    } else if s.hasClient {
      CountSnoc(s.calls.late, called, topic);
    } else {
      CountSnoc(s.calls.before, called, topic);
    }
  }

  lemma StepKeepsTopic(s: State, e: Event, topic: string)
    requires Inv(s) && Enabled(s, e)
    ensures TopicInv(Step(s, e), topic)
  {
    assert TopicInv(s, topic);
    match e
    case Start => assert Count([FlushPending], Subscribe(topic)) == 0;
    case SubscribeCall(called) => SubscribeKeepsTopic(s, called, topic);
    case RunPosted(i) => RunKeepsTopic(s, i, topic);
    case Receive(ok) => FlushKeeps(s, topic);
    case BeginStop =>
    case FinishStop =>
  }

  lemma StepKeeps(s: State, e: Event)
    requires Inv(s) && Enabled(s, e)
    ensures Inv(Step(s, e))
  {
    forall topic ensures TopicInv(Step(s, e), topic) { StepKeepsTopic(s, e, topic); }
  }

  lemma InitInv()
    ensures Inv(Init())
  {
  }

  lemma {:induction false} RunKeeps(s: State, es: seq<Event>)
    requires Inv(s) && IsRun(s, es)
    ensures Inv(After(s, es))
    decreases |es|
  {
    if es != [] {
      StepKeeps(s, es[0]);
      RunKeeps(Step(s, es[0]), es[1..]);
    }
  }

  // ---------------------------------------------------------------- what runs guarantee

  lemma ReachableInv(es: seq<Event>)
    requires IsRun(Init(), es)
    ensures Inv(After(Init(), es))
  {
    InitInv();
    RunKeeps(Init(), es);
  }

  /** While a session lasts, per topic: subscriptions sent, posted and pending are the calls it
      found at its start, twice the calls since, and the calls since its stop began; between
      sessions every call is pending. Callbacks only run with a client. */
  lemma Conservation(es: seq<Event>, topic: string)
    requires IsRun(Init(), es)
    ensures var s := After(Init(), es);
      && (s.hasClient ==>
          Count(s.sent, topic) + Count(s.posted, Subscribe(topic)) + Count(s.pending, topic)
          == Count(s.calls.before, topic) + 2 * Count(s.calls.after, topic)
             + Count(s.calls.late, topic))
      && (!s.hasClient ==> Count(s.pending, topic) == Count(s.calls.before, topic))
      && (s.posted != [] || s.receives > 0 ==> s.hasClient)
  {
    ReachableInv(es);
    assert TopicInv(After(Init(), es), topic);
  }

  /** Once the posted work of a session has drained, each topic was sent at least as often as it
      was called before the start and since, and at most once more for each call since. */
  lemma Drained(es: seq<Event>, topic: string)
    requires IsRun(Init(), es) && After(Init(), es).hasClient && After(Init(), es).posted == []
    ensures var s := After(Init(), es);
      && Count(s.calls.before, topic) + Count(s.calls.after, topic) <= Count(s.sent, topic)
      && Count(s.sent, topic) <= Count(s.calls.before, topic) + 2 * Count(s.calls.after, topic)
                                 + Count(s.calls.late, topic)
  {
    ReachableInv(es);
    assert TopicInv(After(Init(), es), topic);
  }

  /** A topic that was only requested before the start is sent that often, exactly, once the
      flush that `start` posts has run. */
  lemma BeforeStartIsExact(es: seq<Event>, topic: string)
    requires IsRun(Init(), es) && After(Init(), es).hasClient
    requires FlushPending !in After(Init(), es).posted
    requires Count(After(Init(), es).calls.after, topic) == 0
    requires Count(After(Init(), es).calls.late, topic) == 0
    ensures Count(After(Init(), es).sent, topic) == Count(After(Init(), es).calls.before, topic)
  {
    ReachableInv(es);
    assert TopicInv(After(Init(), es), topic);
  }

  lemma SentTwice(topic: string)
    ensures exists es :: IsRun(Init(), es) && Single(After(Init(), es), topic, 2)
  {
    var started := StartStep(Init());
    var called := SubscribeStep(started, topic);
    assert called.posted == [FlushPending, Subscribe(topic)] && called.pending == [topic];
    var flushed := RunStep(called, 0);
    assert flushed.posted == [Subscribe(topic)] && flushed.sent == [topic];
    var twice := RunStep(flushed, 0);
    CountSnoc([topic], topic, topic);
    assert twice.posted == [] && Single(twice, topic, 2);
    RunOfFour(Start, SubscribeCall(topic), RunPosted(0), RunPosted(0));
  }

  lemma SentOnce(topic: string)
    ensures exists es :: IsRun(Init(), es) && Single(After(Init(), es), topic, 1)
  {
    var started := StartStep(Init());
    var flushed := RunStep(started, 0);
    assert flushed.posted == [] && flushed.sent == [] && flushed.pending == [];
    var called := SubscribeStep(flushed, topic);
    assert called.posted == [Subscribe(topic)];
    var once := RunStep(called, 0);
    assert once.sent == [topic] && once.posted == [];
    assert Single(once, topic, 1);
    RunOfFour(Start, RunPosted(0), SubscribeCall(topic), RunPosted(0));
  }

  /** A topic requested once after the start can be sent once, and it can be sent twice. */
  lemma OnceOrTwice(topic: string, n: nat)
    ensures (exists es :: IsRun(Init(), es) && Single(After(Init(), es), topic, n))
       <==> n == 1 || n == 2
  {
    SentOnce(topic);
    SentTwice(topic);
    forall es | IsRun(Init(), es) && Single(After(Init(), es), topic, n) ensures n == 1 || n == 2 {
      Drained(es, topic);
    }
  }

  lemma {:induction false} CountIffMember<T>(xs: seq<T>, x: T)
    ensures Count(xs, x) > 0 <==> x in xs
  {
    if xs != [] { CountIffMember(xs[1..], x); }
  }

  /** In a session that has drained, a topic called once, since the start, was sent once if it is
      still pending and twice if it is not. */
  lemma SentTwiceIff(es: seq<Event>, s: State, topic: string)
    requires IsRun(Init(), es) && s == After(Init(), es) && s.hasClient && s.posted == []
    requires Count(s.calls.before, topic) == 0 && Count(s.calls.after, topic) == 1
    requires Count(s.calls.late, topic) == 0
    ensures Count(s.sent, topic) == if topic in s.pending then 1 else 2
  {
    ReachableInv(es);
    assert TopicInv(s, topic);
    CountIffMember(s.pending, topic);
  }

  /** The steps that flush the pending topics: a posted flush, and a message. */
  predicate Flushes(s: State, e: Event) {
    (e.RunPosted? && e.i < |s.posted| && s.posted[e.i] == FlushPending) || e == Receive(true)
  }

  ghost predicate NeverFlushes(s: State, es: seq<Event>)
    requires IsRun(s, es)
    decreases |es|
  {
    es == [] || (!Flushes(s, es[0]) && NeverFlushes(Step(s, es[0]), es[1..]))
  }

  /** A topic that is not called again stays pending exactly until a flush. */
  lemma {:induction false} PendingUntilFlush(s: State, es: seq<Event>, topic: string)
    requires IsRun(s, es) && SubscribeCall(topic) !in es
    ensures topic in After(s, es).pending <==> topic in s.pending && NeverFlushes(s, es)
    decreases |es|
  {
    if es != [] {
      assert es[0] in es;
      PendingUntilFlush(Step(s, es[0]), es[1..], topic);
    }
  }

  lemma {:induction false} RunSplits(s: State, a: seq<Event>, b: seq<Event>)
    requires IsRun(s, a) && IsRun(After(s, a), b)
    ensures IsRun(s, a + b) && After(s, a + b) == After(After(s, a), b)
    decreases |a|
  {
    if a == [] {
      assert a + b == b;
    } else {
      RunSplits(Step(s, a[0]), a[1..], b);
      assert (a + b)[1..] == a[1..] + b;
    }
  }

  /** The same by events: once drained, a topic called once since the start was sent twice if and
      only if a posted flush or a message ran after the call, and else once. */
  lemma TwiceIffFlushed(before: seq<Event>, s1: State, after: seq<Event>, s: State, topic: string)
    requires IsRun(Init(), before) && s1 == SubscribeStep(After(Init(), before), topic)
    requires IsRun(s1, after) && s == After(s1, after) && SubscribeCall(topic) !in after
    requires s.hasClient && s.posted == []
    requires Count(s.calls.before, topic) == 0 && Count(s.calls.after, topic) == 1
    requires Count(s.calls.late, topic) == 0
    ensures Count(s.sent, topic) == if NeverFlushes(s1, after) then 1 else 2
  {
    var call := [SubscribeCall(topic)];
    assert call[1..] == [];
    assert IsRun(s1, []) && After(s1, []) == s1;
    assert IsRun(After(Init(), before), call) && After(After(Init(), before), call) == s1;
    RunSplits(Init(), before, call);
    RunSplits(Init(), before + call, after);
    SentTwiceIff(before + call + after, s, topic);
    PendingUntilFlush(s1, after, topic);
  }

  /** Drained, with one call since the start and `n` subscriptions sent. */
  ghost predicate Single(s: State, topic: string, n: nat) {
    s.hasClient && s.posted == [] && s.calls == Calls([], [topic], []) && Count(s.sent, topic) == n
  }

  lemma RunOfFour(a: Event, b: Event, c: Event, d: Event)
    requires Enabled(Init(), a)
    requires var s := Step(Init(), a); Enabled(s, b)
    requires var s := Step(Step(Init(), a), b); Enabled(s, c)
    requires var s := Step(Step(Step(Init(), a), b), c); Enabled(s, d)
    ensures IsRun(Init(), [a, b, c, d])
    ensures After(Init(), [a, b, c, d]) == Step(Step(Step(Step(Init(), a), b), c), d)
  {
    var s1, s2, s3 := Step(Init(), a), Step(Step(Init(), a), b), Step(Step(Step(Init(), a), b), c);
    assert [a, b, c, d][1..] == [b, c, d] && [b, c, d][1..] == [c, d] && [c, d][1..] == [d];
    assert [d][1..] == [] && IsRun(Step(s3, d), []) && After(Step(s3, d), []) == Step(s3, d);
    assert IsRun(s3, [d]) && After(s3, [d]) == Step(s3, d);
    assert IsRun(s2, [c, d]) && After(s2, [c, d]) == After(s3, [d]);
    assert IsRun(s1, [b, c, d]) && After(s1, [b, c, d]) == After(s2, [c, d]);
  }

  /** A session that sees no further call sends the pending topics once each, in order: before
      the flush none has been sent, after it all have, and nothing stays pending. */
  ghost predicate InOrder(s: State, topics: seq<string>) {
    && s.started
    && (s.posted == [] || s.posted == [FlushPending])
    && if s.sent == [] then s.pending == topics && (s.posted == [] ==> topics == [])
       else s.sent == topics && s.pending == []
  }

  lemma {:induction false} PendingAreSentInOrder(s: State, es: seq<Event>, topics: seq<string>)
    requires InOrder(s, topics) && IsRun(s, es)
    requires forall e :: e in es ==> e.RunPosted? || e.Receive?
    ensures InOrder(After(s, es), topics)
    decreases |es|
  {
    if es != [] {
      assert es[0] in es;
      PendingAreSentInOrder(Step(s, es[0]), es[1..], topics);
    }
  }

  function SubscribeAll(s: State, topics: seq<string>): State
    decreases |topics|
  {
    if topics == [] then s else SubscribeAll(SubscribeStep(s, topics[0]), topics[1..])
  }

  lemma {:induction false} AllArePending(s: State, topics: seq<string>)
    requires !s.hasClient && !s.started
    ensures var r := SubscribeAll(s, topics);
      r.pending == s.pending + topics && !r.hasClient && !r.started
    decreases |topics|
  {
    if topics != [] {
      AllArePending(SubscribeStep(s, topics[0]), topics[1..]);
      assert (s.pending + [topics[0]]) + topics[1..] == s.pending + topics;
    }
  }

  /** `main` subscribes to its topics and starts the client: whatever callbacks run and however
      messages and errors arrive, each topic is requested once, in that order, by the time the
      posted flush has run. */
  lemma TopicsOfMain(topics: seq<string>, es: seq<Event>)
    requires IsRun(StartStep(SubscribeAll(Init(), topics)), es)
    requires forall e :: e in es ==> e.RunPosted? || e.Receive?
    ensures var s := After(StartStep(SubscribeAll(Init(), topics)), es);
      && (s.sent == [] || s.sent == topics)
      && (s.posted == [] ==> s.sent == topics)
  {
    AllArePending(Init(), topics);
    PendingAreSentInOrder(StartStep(SubscribeAll(Init(), topics)), es, topics);
  }
}
