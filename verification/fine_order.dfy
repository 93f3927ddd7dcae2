/** Call order at fine granularity, for any number of producers. The commands of one producer keep
    the order of its `push_command` calls in every run but those in which it takes one of the
    steps here called overtaking. */
module FineOrder {
  import opened Wrappers
  import opened Phases
  import opened FineStreams
  import Core = FineInvariant
  import Places = FinePlaces

  /** What the streams have been given, in accept order. */
  function Given(streams: seq<Stream>): seq<Id> {
    if streams == [] then []
    else Given(streams[..|streams| - 1]) + streams[|streams| - 1].enqueued
  }

  /** All commands that have left the hands of their producers, in the order in which clients
      see them: stream by stream, then the pending queue. */
  function Placed(s: State): seq<Id> {
    Given(s.streams) + Places.Pending(s)
  }

  predicate Increasing(ids: seq<Id>) {
    forall i, j :: 0 <= i < j < |ids| ==> ids[i] < ids[j]
  }

  predicate AtEnqueue(s: State, t: nat) {
    && t < |s.threads| && s.threads[t].InEnqueue?
    && s.threads[t].h < |s.streams| && s.streams[s.threads[t].h].section.Some?
    && s.streams[s.threads[t].h].section.value.at.AtPush?
  }

  /** `callers` has the producer of each `push_command` call. */
  predicate IsOwn(id: Id, callers: seq<nat>, t: nat) {
    id < |callers| && callers[id] == t
  }

  /** The commands of producer `t` among `ids`, in the order they have there. */
  function Own(ids: seq<Id>, callers: seq<nat>, t: nat): seq<Id> {
    if ids == [] then []
    else
      var id := ids[|ids| - 1];
      Own(ids[..|ids| - 1], callers, t) + (if IsOwn(id, callers, t) then [id] else [])
  }

  predicate HasOwn(ids: seq<Id>, callers: seq<nat>, t: nat) {
    exists id :: id in ids && IsOwn(id, callers, t)
  }

  /** Producer `t` puts its command into a stream although an earlier one of its own is still
      pending or has gone to a later stream. */
  ghost predicate Overtakes(s: State, callers: seq<nat>, a: Action, t: nat) {
    && a == Advance(t) && AtEnqueue(s, t)
    && (HasOwn(Places.Pending(s), callers, t)
        || exists k :: s.threads[t].h < k < |s.streams| && HasOwn(s.streams[k].enqueued, callers, t))
  }

  // ---------------------------------------------------------------- what the streams were given

  lemma {:induction false} GivenFrame(a: seq<Stream>, b: seq<Stream>)
    requires |a| == |b| && forall k :: 0 <= k < |a| ==> a[k].enqueued == b[k].enqueued
    ensures Given(a) == Given(b)
  {
    if a != [] { GivenFrame(a[..|a| - 1], b[..|b| - 1]); }
  }

  lemma GivenSnoc(a: seq<Stream>, st: Stream)
    ensures Given(a + [st]) == Given(a) + st.enqueued
  {
    assert (a + [st])[..|a|] == a;
  }

  lemma {:induction false} GivenSplit(a: seq<Stream>, b: seq<Stream>)
    ensures Given(a + b) == Given(a) + Given(b)
    decreases |b|
  {
    if b == [] {
      assert a + b == a;
    } else {
      var front := b[..|b| - 1];
      assert b == front + [b[|b| - 1]] && a + b == (a + front) + [b[|b| - 1]];
      GivenSplit(a, front);
      GivenSnoc(a + front, b[|b| - 1]);
      GivenSnoc(front, b[|b| - 1]);
    }
  }

  /** Stream `h` is given `id` at its end. */
  lemma GivenInsert(ss: seq<Stream>, h: nat, st: Stream, id: Id)
    requires h < |ss| && st.enqueued == ss[h].enqueued + [id]
    ensures Given(ss) == Given(ss[..h + 1]) + Given(ss[h + 1..])
    ensures Given(ss[h := st]) == (Given(ss[..h + 1]) + [id]) + Given(ss[h + 1..])
  {
    var rest := ss[h + 1..];
    assert ss == ss[..h + 1] + rest && ss[..h + 1] == ss[..h] + [ss[h]];
    assert ss[h := st] == (ss[..h] + [st]) + rest;
    GivenSplit(ss[..h + 1], rest);
    GivenSplit(ss[..h] + [st], rest);
    GivenSnoc(ss[..h], ss[h]);
    GivenSnoc(ss[..h], st);
  }

  lemma {:induction false} NothingGiven(ss: seq<Stream>)
    requires forall k :: 0 <= k < |ss| ==> ss[k].enqueued == []
    ensures Given(ss) == []
  {
    if ss != [] {
      var front := ss[..|ss| - 1];
      assert forall k :: 0 <= k < |front| ==> front[k].enqueued == ss[k].enqueued;
      NothingGiven(front);
    }
  }

  lemma {:induction false} GivenNothing(ss: seq<Stream>, k: nat)
    requires Given(ss) == [] && k < |ss|
    ensures ss[k].enqueued == []
    decreases |ss|
  {
    if k < |ss| - 1 { GivenNothing(ss[..|ss| - 1], k); }
  }

  lemma NothingGivenIff(ss: seq<Stream>)
    ensures Given(ss) == [] <==> forall k :: 0 <= k < |ss| ==> ss[k].enqueued == []
  {
    if Given(ss) == [] {
      forall k | 0 <= k < |ss| ensures ss[k].enqueued == [] { GivenNothing(ss, k); }
    }
    if forall k :: 0 <= k < |ss| ==> ss[k].enqueued == [] { NothingGiven(ss); }
  }

  lemma {:induction false} GivenMember(ss: seq<Stream>, id: Id)
    ensures id in Given(ss) <==> exists k :: 0 <= k < |ss| && id in ss[k].enqueued
  {
    if ss != [] {
      var front := ss[..|ss| - 1];
      GivenMember(front, id);
      assert forall k :: 0 <= k < |front| ==> front[k] == ss[k];
    }
  }

  // ---------------------------------------------------------------- the commands of one producer

  lemma {:induction false} OwnMember(ids: seq<Id>, callers: seq<nat>, t: nat, x: Id)
    ensures x in Own(ids, callers, t) <==> x in ids && IsOwn(x, callers, t)
  {
    if ids != [] {
      var front := ids[..|ids| - 1];
      OwnMember(front, callers, t, x);
      assert ids == front + [ids[|ids| - 1]];
    }
  }

  lemma NoneOwnIff(ids: seq<Id>, callers: seq<nat>, t: nat)
    ensures Own(ids, callers, t) == [] <==> !HasOwn(ids, callers, t)
  {
    var own := Own(ids, callers, t);
    if own != [] {
      OwnMember(ids, callers, t, own[0]);
    }
    if HasOwn(ids, callers, t) {
      var id :| id in ids && IsOwn(id, callers, t);
      OwnMember(ids, callers, t, id);
    }
  }

  lemma {:induction false} OwnConcat(a: seq<Id>, b: seq<Id>, callers: seq<nat>, t: nat)
    ensures Own(a + b, callers, t) == Own(a, callers, t) + Own(b, callers, t)
    decreases |b|
  {
    if b == [] {
      assert a + b == a;
    } else {
      assert (a + b)[..|a + b| - 1] == a + b[..|b| - 1];
      OwnConcat(a, b[..|b| - 1], callers, t);
    }
  }

  lemma OwnOne(id: Id, callers: seq<nat>, t: nat)
    ensures Own([id], callers, t) == if IsOwn(id, callers, t) then [id] else []
  {
    assert [id][..0] == [];
    assert Own([], callers, t) == [];
  }

  /** A further call changes nothing for the commands there are. */
  lemma {:induction false} OwnOfMore(ids: seq<Id>, callers: seq<nat>, caller: nat, t: nat)
    requires forall i :: 0 <= i < |ids| ==> ids[i] < |callers|
    ensures Own(ids, callers + [caller], t) == Own(ids, callers, t)
  {
    if ids != [] {
      OwnOfMore(ids[..|ids| - 1], callers, caller, t);
    }
  }

  /** If all calls are those of `t`, all commands are its own. */
  lemma {:induction false} AllOwn(ids: seq<Id>, callers: seq<nat>, t: nat)
    requires forall i :: 0 <= i < |ids| ==> IsOwn(ids[i], callers, t)
    ensures Own(ids, callers, t) == ids
  {
    if ids != [] {
      AllOwn(ids[..|ids| - 1], callers, t);
      assert ids == ids[..|ids| - 1] + [ids[|ids| - 1]];
    }
  }

  // ---------------------------------------------------------------- one more command

  /** Among `a + b` all below `id`: inserting it keeps the order exactly at the end. */
  lemma InsertIff(a: seq<Id>, b: seq<Id>, id: Id)
    requires forall x :: x in a || x in b ==> x < id
    ensures Increasing((a + [id]) + b) <==> Increasing(a + b) && b == []
  {
    if b == [] {
      assert (a + [id]) + b == a + [id] && a + b == a;
      AppendIff(a, id);
    } else {
      var with := (a + [id]) + b;
      assert with[|a|] == id && with[|a| + 1] == b[0] && b[0] in b;
    }
  }

  lemma AppendIff(a: seq<Id>, id: Id)
    requires forall x :: x in a ==> x < id
    ensures Increasing(a + [id]) <==> Increasing(a)
  {
    var with := a + [id];
    assert forall i :: 0 <= i < |a| ==> with[i] == a[i] && a[i] in a;
    if Increasing(with) {
      forall i, j | 0 <= i < j < |a| ensures a[i] < a[j] { assert with[i] < with[j]; }
    }
    if Increasing(a) {
      forall i, j | 0 <= i < j < |with| ensures with[i] < with[j] {
        if j < |a| { assert a[i] < a[j]; } else { assert a[i] in a; }
      }
    }
  }

  // ---------------------------------------------------------------- the newest stream

  predicate Accepting(pc: Pc) {
    pc.Accepted? || pc.Activated? || pc.Flushing? || pc.Moving? || pc.Moved? || pc.Flushed?
  }

  /** Only the newest handler waits for a connection, and the stream whose accept is under way is
      the one before it. */
  ghost predicate NewestInv(s: State) {
    && 0 < |s.threads|
    && (forall k :: 0 <= k < |s.streams| && s.streams[k].phase == Phase.Accepting ==>
        k + 1 == |s.streams| || (Accepting(s.threads[0]) && s.threads[0].h == k))
    && (Accepting(s.threads[0]) ==>
        s.threads[0].h + 2 == |s.streams|
        && s.streams[|s.streams| - 1].phase == Phase.Accepting)
  }

  ghost predicate SamePhases(s: State, s': State) {
    && |s'.threads| == |s.threads| && |s'.streams| == |s.streams|
    && forall k :: 0 <= k < |s.streams| ==> s'.streams[k].phase == s.streams[k].phase
  }

  lemma ProducerKeepsNewest(s: State, t: nat, s': State)
    requires NewestInv(s) && Enabled(s, Advance(t)) && s' == AdvanceStep(s, t)
    requires 0 < t && IsProducer(s.threads[t])
    ensures NewestInv(s')
  {
    if s.threads[t].InEnqueue? { SectionFrame(s, t, s.threads[t].h, Idle); }
    assert SamePhases(s, s') && s'.threads[0] == s.threads[0];
  }

  lemma DeliveryKeepsNewest(s: State, a: Action, s': State)
    requires Core.Inv(s) && NewestInv(s) && Enabled(s, a) && s' == Next(s, a) && !a.Advance?
    ensures NewestInv(s')
  {
  }

  lemma AcceptKeepsNewest(s: State, s': State)
    requires NewestInv(s) && Enabled(s, Advance(0)) && s' == AdvanceStep(s, 0)
    requires Accepting(s.threads[0])
    ensures NewestInv(s')
  {
    var h := s.threads[0].h;
    if s.threads[0].Moving? { SectionFrame(s, 0, h, Moved(h)); }
    if !s.threads[0].Flushed? {
      assert SamePhases(s, s') && Accepting(s'.threads[0]) && s'.threads[0].h == h;
    }
  }

  lemma QueueThreadKeepsNewest(s: State, s': State)
    requires NewestInv(s) && Enabled(s, Advance(0)) && s' == AdvanceStep(s, 0)
    requires !Accepting(s.threads[0]) && !IsProducer(s.threads[0])
    ensures NewestInv(s')
  {
    if s.threads[0].InWriteDone? { SectionFrame(s, 0, s.threads[0].h, Idle); }
    assert !Accepting(s'.threads[0]) && |s'.streams| == |s.streams|;
    assert forall k :: 0 <= k < |s.streams| && s'.streams[k].phase == Phase.Accepting ==>
      s.streams[k].phase == Phase.Accepting;
  }

  lemma NewestStep(s: State, a: Action, s': State)
    requires Core.Inv(s) && NewestInv(s) && Enabled(s, a) && s' == Next(s, a)
    ensures NewestInv(s')
  {
    if !a.Advance? {
      DeliveryKeepsNewest(s, a, s');
    } else {
      assert Core.ThreadInv(s, a.thread);
      if a.thread > 0 {
        ProducerKeepsNewest(s, a.thread, s');
      } else if Accepting(s.threads[0]) {
        AcceptKeepsNewest(s, s');
      } else {
        QueueThreadKeepsNewest(s, s');
      }
    }
  }

  /** While `flush_pending` runs, no later stream has been given anything. */
  lemma NothingBehind(s: State)
    requires Core.Inv(s) && NewestInv(s) && Accepting(s.threads[0])
    ensures Given(s.streams[s.threads[0].h + 1..]) == []
  {
    var h := s.threads[0].h;
    assert s.streams[h + 1..] == [s.streams[h + 1]];
    assert Core.HandlerInv(s, h + 1);
    NothingGivenIff(s.streams[h + 1..]);
  }

  // ---------------------------------------------------------------- who has called

  function CallersNext(callers: seq<nat>, a: Action): seq<nat> {
    if a.Call? then callers + [a.thread] else callers
  }

  /** A command in a producer's hand is that of its latest call. */
  ghost predicate LatestInv(s: State, callers: seq<nat>, t: nat)
    requires t < |s.threads|
  {
    Places.Hand(s, t).Some? ==>
      var id := Places.Hand(s, t).value;
      IsOwn(id, callers, t) && forall later :: id < later < |callers| ==> callers[later] != t
  }

  ghost predicate CallersInv(s: State, callers: seq<nat>) {
    && |callers| == |s.commands|
    && (forall t :: 0 <= t < |s.threads| ==> LatestInv(s, callers, t))
    && (forall id :: 0 <= id < |callers| ==> 0 < callers[id] < |s.threads|)
  }

  ghost predicate OrderInv(s: State, callers: seq<nat>) {
    Core.Inv(s) && Places.PlaceInv(s) && NewestInv(s) && CallersInv(s, callers)
  }

  lemma PlacedIsCalled(s: State, id: Id)
    requires Places.PlaceInv(s) && id in Placed(s)
    ensures id < |s.commands| && !s.place[id].InHand?
  {
    if id in Given(s.streams) {
      GivenMember(s.streams, id);
      var k :| 0 <= k < |s.streams| && id in s.streams[k].enqueued;
      assert Places.StreamPlaceInv(s, k) && Places.At(s, id, InStream(k));
    } else {
      assert Places.At(s, id, InPending);
    }
  }

  /** What a producer has placed is older than the command in its hand. */
  lemma OwnIsOlder(s: State, callers: seq<nat>, t: nat)
    requires OrderInv(s, callers) && t < |s.threads| && Places.Hand(s, t).Some?
    ensures forall x :: x in Placed(s) && IsOwn(x, callers, t) ==> x < Places.Hand(s, t).value
  {
    var id := Places.Hand(s, t).value;
    assert LatestInv(s, callers, t) && Places.At(s, id, InHand(t));
    forall x | x in Placed(s) && IsOwn(x, callers, t) ensures x < id { PlacedIsCalled(s, x); }
  }

  // ---------------------------------------------------------------- the steps

  /** A step that changes nothing placed. */
  lemma SamePlaced(s: State, s': State)
    requires Places.SamePlaces(s, s')
    ensures Placed(s') == Placed(s)
  {
    var old_, more := s'.streams[..|s.streams|], s'.streams[|s.streams|..];
    assert s'.streams == old_ + more;
    GivenSplit(old_, more);
    GivenFrame(s.streams, old_);
    NothingGivenIff(more);
  }

  /** What producer `t` has placed. */
  function Mine(s: State, callers: seq<nat>, t: nat): seq<Id> {
    Own(Placed(s), callers, t)
  }

  /** A producer pushes to the pending queue: its command goes to the end. */
  lemma PendingPushOrder(s: State, callers: seq<nat>, k: nat, s': State, t: nat)
    requires OrderInv(s, callers) && Enabled(s, Advance(k)) && s' == AdvanceStep(s, k)
    requires s.threads[k].PendingLocked?
    ensures Increasing(Mine(s', callers, t)) <==> Increasing(Mine(s, callers, t))
  {
    var id := PendingPushParts(s, k, s');
    assert LatestInv(s, callers, k);
    OwnConcat(Placed(s), [id], callers, t);
    OwnOne(id, callers, t);
    if k == t {
      OwnIsOlder(s, callers, t);
      forall x | x in Mine(s, callers, t) ensures x < id { OwnMember(Placed(s), callers, t, x); }
      AppendIff(Mine(s, callers, t), id);
    } else {
      assert Mine(s', callers, t) == Mine(s, callers, t);
    }
  }

  lemma PendingPushParts(s: State, k: nat, s': State) returns (id: Id)
    requires Core.Inv(s) && Enabled(s, Advance(k)) && s' == AdvanceStep(s, k)
    requires s.threads[k].PendingLocked?
    ensures Places.Hand(s, k) == Some(id) && Placed(s') == Placed(s) + [id]
  {
    assert Core.ThreadInv(s, k) && Core.ThreadInv(s, 0);
    id := s.threads[k].id;
    assert Places.Pending(s') == Places.Pending(s) + [id];
  }

  /** What one enqueue to stream `h` does to the streams. */
  lemma EnqueueStreams(s: State, t: nat, s': State)
    requires Core.Inv(s) && Enabled(s, Advance(t)) && s' == AdvanceStep(s, t)
    requires InSection(s.threads[t]) && s.streams[s.threads[t].h].section.value.at.AtPush?
    ensures var h := s.threads[t].h; var id := s.streams[h].section.value.at.id;
      && h < |s.streams| && Given(s.streams) == Given(s.streams[..h + 1]) + Given(s.streams[h + 1..])
      && Given(s'.streams) == (Given(s.streams[..h + 1]) + [id]) + Given(s.streams[h + 1..])
      && s'.pending == s.pending && s'.moved == (s.moved || s.threads[t].Moving?)
  {
    assert Core.ThreadInv(s, t);
    var h := s.threads[t].h;
    GivenInsert(s.streams, h, SectionStep(s.streams[h]), s.streams[h].section.value.at.id);
  }

  lemma InsertBefore(front: seq<Id>, later: seq<Id>, pending: seq<Id>, id: Id)
    requires forall x :: x in (front + later) + pending ==> x < id
    ensures Increasing(((front + [id]) + later) + pending)
       <==> Increasing((front + later) + pending) && later == [] && pending == []
  {
    var rest := later + pending;
    assert (front + later) + pending == front + rest;
    assert ((front + [id]) + later) + pending == (front + [id]) + rest;
    assert forall x :: x in front || x in rest ==> x in front + rest;
    InsertIff(front, rest, id);
  }

  /** What is placed around the command that a producer enqueues, before and after. */
  lemma EnqueueParts(s: State, k: nat, s': State) returns (front: seq<Id>, later: seq<Id>, id: Id)
    requires Core.Inv(s) && Enabled(s, Advance(k)) && s' == AdvanceStep(s, k) && AtEnqueue(s, k)
    ensures Places.Hand(s, k) == Some(id)
    ensures later == Given(s.streams[s.threads[k].h + 1..])
    ensures Placed(s) == (front + later) + Places.Pending(s)
    ensures Placed(s') == ((front + [id]) + later) + Places.Pending(s)
  {
    EnqueueStreams(s, k, s');
    var h := s.threads[k].h;
    front, later := Given(s.streams[..h + 1]), Given(s.streams[h + 1..]);
    id := s.streams[h].section.value.at.id;
  }

  lemma OwnParts(a: seq<Id>, b: seq<Id>, c: seq<Id>, callers: seq<nat>, t: nat)
    ensures Own((a + b) + c, callers, t)
         == (Own(a, callers, t) + Own(b, callers, t)) + Own(c, callers, t)
  {
    OwnConcat(a, b, callers, t);
    OwnConcat(a + b, c, callers, t);
  }

  /** Another producer's enqueue. */
  lemma OthersEnqueue(s: State, callers: seq<nat>, k: nat, s': State, t: nat)
    requires OrderInv(s, callers) && Enabled(s, Advance(k)) && s' == AdvanceStep(s, k)
    requires AtEnqueue(s, k) && k != t
    ensures Mine(s', callers, t) == Mine(s, callers, t)
  {
    var front, later, id := EnqueueParts(s, k, s');
    assert LatestInv(s, callers, k);
    NotOwnInserted(front, later, Places.Pending(s), id, callers, t);
  }

  lemma NotOwnInserted(front: seq<Id>, later: seq<Id>, pending: seq<Id>, id: Id,
                       callers: seq<nat>, t: nat)
    requires !IsOwn(id, callers, t)
    ensures Own(((front + [id]) + later) + pending, callers, t)
         == Own((front + later) + pending, callers, t)
  {
    OwnParts(front, later, pending, callers, t);
    OwnParts(front + [id], later, pending, callers, t);
    OwnConcat(front, [id], callers, t);
    OwnOne(id, callers, t);
  }

  lemma OwnEnqueue(s: State, callers: seq<nat>, s': State, t: nat)
    requires OrderInv(s, callers) && Enabled(s, Advance(t)) && s' == AdvanceStep(s, t)
    requires AtEnqueue(s, t)
    ensures Increasing(Mine(s', callers, t)) <==>
      && Increasing(Mine(s, callers, t))
      && Own(Given(s.streams[s.threads[t].h + 1..]), callers, t) == []
      && Own(Places.Pending(s), callers, t) == []
  {
    var front, later, id := EnqueueParts(s, t, s');
    var pending := Places.Pending(s);
    assert LatestInv(s, callers, t);
    OwnIsOlder(s, callers, t);
    forall x | x in Mine(s, callers, t) ensures x < id { OwnMember(Placed(s), callers, t, x); }
    OwnParts(front, later, pending, callers, t);
    OwnParts(front + [id], later, pending, callers, t);
    OwnConcat(front, [id], callers, t);
    OwnOne(id, callers, t);
    InsertBefore(Own(front, callers, t), Own(later, callers, t), Own(pending, callers, t), id);
  }

  lemma LaterOwn(ss: seq<Stream>, h: nat, callers: seq<nat>, t: nat)
    requires h < |ss|
    ensures HasOwn(Given(ss[h + 1..]), callers, t)
       <==> exists k :: h < k < |ss| && HasOwn(ss[k].enqueued, callers, t)
  {
    var rest := ss[h + 1..];
    assert forall k :: h < k < |ss| ==> ss[k] == rest[k - h - 1];
    if HasOwn(Given(rest), callers, t) {
      var id :| id in Given(rest) && IsOwn(id, callers, t);
      GivenMember(rest, id);
      var j :| 0 <= j < |rest| && id in rest[j].enqueued;
      assert HasOwn(ss[h + 1 + j].enqueued, callers, t);
    }
    if k :| h < k < |ss| && HasOwn(ss[k].enqueued, callers, t) {
      var id :| id in ss[k].enqueued && IsOwn(id, callers, t);
      assert id in rest[k - h - 1].enqueued;
      GivenMember(rest, id);
    }
  }

  lemma OvertakesIff(s: State, callers: seq<nat>, t: nat)
    requires AtEnqueue(s, t)
    ensures !Overtakes(s, callers, Advance(t), t) <==>
      && Own(Given(s.streams[s.threads[t].h + 1..]), callers, t) == []
      && Own(Places.Pending(s), callers, t) == []
  {
    NoneOwnIff(Given(s.streams[s.threads[t].h + 1..]), callers, t);
    NoneOwnIff(Places.Pending(s), callers, t);
    LaterOwn(s.streams, s.threads[t].h, callers, t);
  }

  /** The producer enqueues: its command ends up behind its others unless it overtakes. */
  lemma EnqueueOrder(s: State, callers: seq<nat>, s': State, t: nat)
    requires OrderInv(s, callers) && Enabled(s, Advance(t)) && s' == AdvanceStep(s, t)
    requires AtEnqueue(s, t)
    ensures Increasing(Mine(s', callers, t)) <==>
      Increasing(Mine(s, callers, t)) && !Overtakes(s, callers, Advance(t), t)
  {
    OwnEnqueue(s, callers, s', t);
    OvertakesIff(s, callers, t);
  }

  lemma MovedFront(s: State, id: Id)
    requires Core.Inv(s) && s.threads[0].Moving? && CanStep(s, s.threads[0].h)
    requires s.streams[s.threads[0].h].section.value.at == AtPush(id)
    ensures s.pending != [] && s.pending[0] == id && !s.moved
  {
    assert Core.ThreadInv(s, 0);
  }

  lemma MoveAcross(front: seq<Id>, pending: seq<Id>)
    requires pending != []
    ensures (front + []) + pending == ((front + [pending[0]]) + []) + pending[1..]
  {
  }

  /** `flush_pending` moves a command from the front of the pending queue to the end of the
      streams, which does not change its place in the order. */
  lemma MoveOrder(s: State, s': State)
    requires Core.Inv(s) && NewestInv(s) && Enabled(s, Advance(0)) && s' == AdvanceStep(s, 0)
    requires s.threads[0].Moving? && s.streams[s.threads[0].h].section.value.at.AtPush?
    ensures Placed(s') == Placed(s)
  {
    NothingBehind(s);
    EnqueueStreams(s, 0, s');
    var h := s.threads[0].h;
    MovedFront(s, s.streams[h].section.value.at.id);
    MoveAcross(Given(s.streams[..h + 1]), s.pending);
  }

  /** Any other step leaves the order, and what is placed, alone. */
  lemma OtherStepOrder(s: State, a: Action, s': State)
    requires Core.Inv(s) && Places.PlaceInv(s) && Enabled(s, a) && s' == Next(s, a) && !a.Call?
    requires a.Advance? ==>
      && !s.threads[a.thread].PendingLocked?
      && (InSection(s.threads[a.thread]) ==>
          !s.streams[s.threads[a.thread].h].section.value.at.AtPush?)
    ensures Placed(s') == Placed(s)
  {
    if a.Advance? { Places.OtherStepsStay(s, a.thread); } else { Places.DeliveriesStay(s, a); }
    SamePlaced(s, s');
  }

  /** One step of a thread: what producer `t` has placed stays in call order unless it overtakes. */
  lemma AdvanceOrder(s: State, callers: seq<nat>, k: nat, s': State, t: nat)
    requires OrderInv(s, callers) && Enabled(s, Advance(k)) && s' == AdvanceStep(s, k)
    ensures Increasing(Mine(s', callers, t)) <==>
      Increasing(Mine(s, callers, t)) && !Overtakes(s, callers, Advance(k), t)
  {
    assert Core.ThreadInv(s, k);
    if s.threads[k].PendingLocked? {
      PendingPushOrder(s, callers, k, s', t);
    } else if InSection(s.threads[k]) && s.streams[s.threads[k].h].section.value.at.AtPush? {
      if k == 0 {
        MoveOrder(s, s');
      } else if k == t {
        EnqueueOrder(s, callers, s', t);
      } else {
        OthersEnqueue(s, callers, k, s', t);
      }
    } else {
      OtherStepOrder(s, Advance(k), s');
    }
  }

  /** Step by step, for each producer: its commands are placed in the order of its calls after a
      step if and only if they were before and the step does not overtake. */
  lemma StepOrder(s: State, callers: seq<nat>, a: Action, s': State, t: nat)
    requires OrderInv(s, callers) && Enabled(s, a) && s' == Next(s, a)
    ensures Increasing(Mine(s', CallersNext(callers, a), t)) <==>
      Increasing(Mine(s, callers, t)) && !Overtakes(s, callers, a, t)
  {
    if a.Call? {
      GivenFrame(s.streams, s'.streams);
      forall i | 0 <= i < |Placed(s)| ensures Placed(s)[i] < |callers| {
        PlacedIsCalled(s, Placed(s)[i]);
      }
      OwnOfMore(Placed(s), callers, a.thread, t);
    } else if a.Advance? {
      AdvanceOrder(s, callers, a.thread, s', t);
    } else {
      OtherStepOrder(s, a, s');
    }
  }

  /** A thread takes its command from step to step until it has put it somewhere. */
  lemma OwnStepKeepsHand(s: State, t: nat, s': State)
    requires Core.Inv(s) && Enabled(s, Advance(t)) && s' == AdvanceStep(s, t)
    ensures |s'.threads| == |s.threads| && s'.commands == s.commands
    ensures Places.Hand(s', t) == None || Places.Hand(s', t) == Places.Hand(s, t)
  {
    assert Core.ThreadInv(s, t);
    if InSection(s.threads[t]) { SectionKeepsHand(s, t, s'); }
  }

  lemma SectionKeepsHand(s: State, t: nat, s': State)
    requires Enabled(s, Advance(t)) && s' == AdvanceStep(s, t) && InSection(s.threads[t])
    ensures |s'.threads| == |s.threads| && s'.commands == s.commands
    ensures Places.Hand(s', t) == None || Places.Hand(s', t) == Places.Hand(s, t)
  {
    var h := s.threads[t].h;
    assert s'.streams == s.streams[h := SectionStep(s.streams[h])];
    assert !s'.streams[h].section.Some? || !s'.streams[h].section.value.at.AtPush?;
  }

  lemma LatestStep(s: State, callers: seq<nat>, a: Action, s': State, t: nat)
    requires Core.Inv(s) && CallersInv(s, callers) && Enabled(s, a) && s' == Next(s, a)
    requires t < |s.threads|
    ensures |s'.threads| == |s.threads| && LatestInv(s', CallersNext(callers, a), t)
    ensures |s'.commands| == |CallersNext(callers, a)|
  {
    assert LatestInv(s, callers, t);
    if a.Advance? {
      OwnStepKeepsHand(s, a.thread, s');
      if a.thread != t { Places.OthersKeepTheirHand(s, a.thread, t); }
    } else if !a.Call? {
      Places.DeliveryKeepsHand(s, a, t);
    }
  }

  lemma CallersStep(s: State, callers: seq<nat>, a: Action, s': State)
    requires Core.Inv(s) && CallersInv(s, callers) && Enabled(s, a) && s' == Next(s, a)
    ensures CallersInv(s', CallersNext(callers, a))
  {
    LatestStep(s, callers, a, s', 0);
    forall t | 0 <= t < |s'.threads| ensures LatestInv(s', CallersNext(callers, a), t) {
      LatestStep(s, callers, a, s', t);
    }
  }

  lemma OrderStep(s: State, callers: seq<nat>, a: Action, s': State)
    requires OrderInv(s, callers) && Enabled(s, a) && s' == Next(s, a)
    ensures OrderInv(s', CallersNext(callers, a))
  {
    Core.StepKeeps(s, a);
    Places.StepKeeps(s, a);
    NewestStep(s, a, s');
    CallersStep(s, callers, a, s');
  }

  // ---------------------------------------------------------------- over runs

  /** The producers of the `push_command` calls of a run. */
  function CallersOf(callers: seq<nat>, actions: seq<Action>): seq<nat>
    decreases |actions|
  {
    if actions == [] then callers else CallersOf(CallersNext(callers, actions[0]), actions[1..])
  }

  ghost predicate NeverOvertakes(s: State, callers: seq<nat>, actions: seq<Action>, t: nat)
    requires IsRun(s, actions)
    decreases |actions|
  {
    actions == []
    || (!Overtakes(s, callers, actions[0], t)
        && NeverOvertakes(Next(s, actions[0]), CallersNext(callers, actions[0]), actions[1..], t))
  }

  lemma {:induction false} OrderFrom(s: State, callers: seq<nat>, actions: seq<Action>, t: nat)
    requires OrderInv(s, callers) && IsRun(s, actions)
    ensures OrderInv(After(s, actions), CallersOf(callers, actions))
    ensures Increasing(Mine(After(s, actions), CallersOf(callers, actions), t)) <==>
      Increasing(Mine(s, callers, t)) && NeverOvertakes(s, callers, actions, t)
    decreases |actions|
  {
    if actions != [] {
      var s' := Next(s, actions[0]);
      StepOrder(s, callers, actions[0], s', t);
      OrderStep(s, callers, actions[0], s');
      OrderFrom(s', CallersNext(callers, actions[0]), actions[1..], t);
    }
  }

  lemma InitOrder(producers: nat)
    ensures OrderInv(Init(producers), []) && Placed(Init(producers)) == []
  {
    var s := Init(producers);
    Core.InitInv(producers);
    Places.InitPlaces(producers);
    assert s.streams == [] + [NewStream()];
    GivenSnoc([], NewStream());
    assert forall t :: 0 <= t < |s.threads| ==> s.threads[t] == Idle;
  }

  /** For every interleaving of the completion queue with any number of producers, and each
      producer: its commands, as clients are given them stream by stream and then the pending
      ones, are in the order of its `push_command` calls if and only if it never overtakes. */
  lemma OrderIff(producers: nat, actions: seq<Action>, s: State, t: nat)
    requires IsRun(Init(producers), actions) && s == After(Init(producers), actions)
    ensures Increasing(Mine(s, CallersOf([], actions), t))
       <==> NeverOvertakes(Init(producers), [], actions, t)
  {
    InitOrder(producers);
    OrderFrom(Init(producers), [], actions, t);
  }

  lemma {:induction false} RunKeepsThreads(s: State, actions: seq<Action>)
    requires IsRun(s, actions)
    ensures |After(s, actions).threads| == |s.threads|
    decreases |actions|
  {
    if actions != [] { RunKeepsThreads(Next(s, actions[0]), actions[1..]); }
  }

  lemma AllPlacedAreMine(s: State, callers: seq<nat>)
    requires OrderInv(s, callers) && |s.threads| == 2
    ensures Mine(s, callers, 1) == Placed(s)
  {
    var placed := Placed(s);
    forall i | 0 <= i < |placed| ensures IsOwn(placed[i], callers, 1) {
      PlacedIsCalled(s, placed[i]);
    }
    AllOwn(placed, callers, 1);
  }

  /** With one producer, as `main` has, these are all commands. */
  lemma OneProducerOrderIff(actions: seq<Action>, s: State)
    requires IsRun(Init(1), actions) && s == After(Init(1), actions)
    ensures Increasing(Placed(s)) <==> NeverOvertakes(Init(1), [], actions, 1)
  {
    InitOrder(1);
    OrderFrom(Init(1), [], actions, 1);
    RunKeepsThreads(Init(1), actions);
    AllPlacedAreMine(s, CallersOf([], actions));
  }
}
