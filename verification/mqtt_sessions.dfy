/** From one session of the MQTT client to the next: what a stop ends, and what a new start takes
    over. */
module MqttSessions {
  import opened Mqtt

  lemma StepsOfStop(s: State)
    requires Inv(s) && s.started
    ensures IsRun(s, [BeginStop, FinishStop, Start])
    ensures var s' := After(s, [BeginStop, FinishStop, Start]);
      && s'.started && !s'.stopped && s'.hasClient && s'.receives == 1
      && s'.pending == s.pending && s'.sent == [] && s'.posted == [FlushPending]
  {
    var s1 := Step(s, BeginStop);
    assert Enabled(s1, FinishStop);
    var s2 := Step(s1, FinishStop);
    var s3 := Step(s2, Start);
    assert [BeginStop, FinishStop, Start][1..] == [FinishStop, Start];
    assert [FinishStop, Start][1..] == [Start] && [Start][1..] == [];
    assert IsRun(s3, []) && After(s3, []) == s3;
    assert IsRun(s2, [Start]) && After(s2, [Start]) == s3;
    assert IsRun(s1, [FinishStop, Start]) && After(s1, [FinishStop, Start]) == s3;
  }

  /** A stop and a new start, from any running session: a new session, with one receive armed, that
      requests what stayed pending, once each and in order, by the time its flush has run. */
  lemma RestartSends(es: seq<Event>, s: State, more: seq<Event>, s': State)
    requires IsRun(Init(), es) && s == After(Init(), es) && s.started
    requires IsRun(s, [BeginStop, FinishStop, Start])
    requires IsRun(After(s, [BeginStop, FinishStop, Start]), more)
    requires s' == After(After(s, [BeginStop, FinishStop, Start]), more)
    requires forall e :: e in more ==> e.RunPosted? || e.Receive?
    ensures s'.started && s'.receives == 1
    ensures s'.sent == [] || s'.sent == s.pending
    ensures s'.posted == [] ==> s'.sent == s.pending && s'.pending == []
  {
    ReachableInv(es);
    StepsOfStop(s);
    var s3 := After(s, [BeginStop, FinishStop, Start]);
    PendingAreSentInOrder(s3, more, s.pending);
    RunKeeps(s, [BeginStop, FinishStop, Start]);
    RunKeeps(s3, more);
  }

  /** Such a restart is always possible. */
  lemma RestartIsPossible(es: seq<Event>, s: State)
    requires IsRun(Init(), es) && s == After(Init(), es) && s.started
    ensures IsRun(s, [BeginStop, FinishStop, Start])
  {
    ReachableInv(es);
    StepsOfStop(s);
  }

  function Receives(es: seq<Event>): nat {
    if es == [] then 0 else (if es[0].Receive? then 1 else 0) + Receives(es[1..])
  }

  lemma {:induction false} StoppedStays(s: State, es: seq<Event>, s': State)
    requires s.stopped && !s.started && IsRun(s, es) && s' == After(s, es) && Start !in es
    ensures s'.stopped && !s'.started && s'.receives + Receives(es) <= s.receives
    decreases |es|
  {
    if es != [] {
      assert es[0] in es;
      StoppedStays(Step(s, es[0]), es[1..], s');
    }
  }

  /** After a stop has begun, and until a new start, nothing arms a receive again: at most the one
      that was armed still completes. */
  lemma StopDisarms(es: seq<Event>, s: State, more: seq<Event>, s': State)
    requires IsRun(Init(), es) && s == After(Init(), es) && s.started
    requires IsRun(Step(s, BeginStop), more) && s' == After(Step(s, BeginStop), more)
    requires Start !in more
    ensures !s'.started && Receives(more) <= 1 && (Receives(more) == 1 ==> s'.receives == 0)
  {
    ReachableInv(es);
    StoppedStays(Step(s, BeginStop), more, s');
  }

  /** A second start, and a stop of a client that has not been started, change nothing. */
  lemma SecondCallsAreIgnored(es: seq<Event>, s: State)
    requires IsRun(Init(), es) && s == After(Init(), es)
    ensures s.started ==> Enabled(s, Start) && Step(s, Start) == s
    ensures !s.started ==> Step(s, BeginStop) == s
  {
  }
}
