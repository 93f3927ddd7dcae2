/** Where each pushed command is at every moment of a fine-grained run: in a producer's hand, in
    the pending queue, or with one stream. */
module FinePlaces {
  import opened Wrappers
  import opened Commands
  import opened FineStreams
  import Core = FineInvariant

  /** The command that thread `t` has taken on and not yet put anywhere. */
  function Hand(s: State, t: nat): Option<Id>
    requires t < |s.threads|
  {
    match s.threads[t]
    case Loaded(id, _) => Some(id)
    case PendingLocked(id) => Some(id)
    case InEnqueue(h) =>
      if h < |s.streams| && s.streams[h].section.Some? && s.streams[h].section.value.at.AtPush?
      then Some(s.streams[h].section.value.at.id) else None
    case _ => None
  }

  /** The pending queue without a front that has already been moved to a stream. */
  function Pending(s: State): seq<Id> {
    if s.moved && s.pending != [] then s.pending[1..] else s.pending
  }

  predicate NoDuplicates(xs: seq<Id>) {
    forall i, j :: 0 <= i < j < |xs| ==> xs[i] != xs[j]
  }

  predicate At(s: State, id: Id, place: Place) {
    id < |s.place| && s.place[id] == place
  }

  ghost predicate HandInv(s: State) {
    && (forall t :: 0 <= t < |s.threads| && Hand(s, t).Some? ==>
        At(s, Hand(s, t).value, InHand(t)))
    && (forall id :: 0 <= id < |s.place| && s.place[id].InHand? ==>
        s.place[id].thread < |s.threads| && Hand(s, s.place[id].thread) == Some(id))
  }

  ghost predicate PendingInv(s: State) {
    && NoDuplicates(Pending(s))
    && (forall id :: id in Pending(s) <==> At(s, id, InPending))
  }

  ghost predicate StreamPlaceInv(s: State, h: nat)
    requires h < |s.streams|
  {
    && NoDuplicates(s.streams[h].enqueued)
    && (forall id :: id in s.streams[h].enqueued <==> At(s, id, InStream(h)))
  }

  ghost predicate PlaceInv(s: State) {
    && |s.place| == |s.commands|
    && HandInv(s)
    && PendingInv(s)
    && (forall h :: 0 <= h < |s.streams| ==> StreamPlaceInv(s, h))
    && (forall id :: 0 <= id < |s.place| && s.place[id].InStream? ==> s.place[id].h < |s.streams|)
  }

  /** A step that moves no command. */
  ghost predicate SamePlaces(s: State, s': State) {
    && s'.place == s.place && |s'.commands| == |s.commands| && Pending(s') == Pending(s)
    && |s'.threads| == |s.threads|
    && (forall t :: 0 <= t < |s.threads| ==> Hand(s', t) == Hand(s, t))
    && |s.streams| <= |s'.streams|
    && (forall h :: 0 <= h < |s.streams| ==> s'.streams[h].enqueued == s.streams[h].enqueued)
    && (forall h :: |s.streams| <= h < |s'.streams| ==> s'.streams[h].enqueued == [])
  }

  lemma SamePlacesKeeps(s: State, s': State)
    requires PlaceInv(s) && SamePlaces(s, s')
    ensures PlaceInv(s')
  {
    forall h | 0 <= h < |s'.streams| ensures StreamPlaceInv(s', h) {
      if h < |s.streams| { assert StreamPlaceInv(s, h); }
    }
  }

  lemma DeliveriesStay(s: State, a: Action)
    requires Core.Inv(s) && Enabled(s, a) && !a.Call? && !a.Advance?
    ensures SamePlaces(s, Next(s, a))
  {
    var s' := Next(s, a);
    forall t | 0 <= t < |s.threads| ensures Hand(s', t) == Hand(s, t) {
      DeliveryKeepsHand(s, a, t);
    }
  }

  lemma DeliveryKeepsHand(s: State, a: Action, t: nat)
    requires Core.Inv(s) && Enabled(s, a) && !a.Call? && !a.Advance? && t < |s.threads|
    ensures |Next(s, a).threads| == |s.threads| && Hand(Next(s, a), t) == Hand(s, t)
  {
    assert Core.ThreadInv(s, 0) && Core.ThreadInv(s, t);
  }

  lemma CallKeeps(s: State, t: nat, cmd: GatewayCommand)
    requires Core.Inv(s) && PlaceInv(s) && Enabled(s, Call(t, cmd))
    ensures PlaceInv(Next(s, Call(t, cmd)))
  {
    var s' := Next(s, Call(t, cmd));
    var id := |s.place|;
    assert forall k, p :: At(s', k, p) <==> At(s, k, p) || (k == id && p == InHand(t));
    forall h | 0 <= h < |s'.streams| ensures StreamPlaceInv(s', h) {
      assert StreamPlaceInv(s, h);
    }
  }

  lemma AppendFresh(xs: seq<Id>, id: Id)
    requires NoDuplicates(xs) && id !in xs
    ensures NoDuplicates(xs + [id])
    ensures forall k :: k in xs + [id] <==> k in xs || k == id
  {
  }

  lemma DropFront(xs: seq<Id>)
    requires NoDuplicates(xs) && xs != []
    ensures NoDuplicates(xs[1..])
    ensures forall k :: k in xs[1..] <==> k in xs && k != xs[0]
  {
    assert xs == [xs[0]] + xs[1..];
  }

  /** Command `id` goes from where it was to `place`; all other commands stay. */
  ghost predicate Goes(s: State, s': State, id: Id, place: Place) {
    && |s'.place| == |s.place| && |s'.commands| == |s.commands|
    && forall k, p :: At(s', k, p) <==> (k == id && p == place) || (k != id && At(s, k, p))
  }

  lemma OthersKeepTheirHand(s: State, t: nat, k: nat)
    requires Core.Inv(s) && Enabled(s, Advance(t)) && k < |s.threads| && k != t
    ensures Hand(AdvanceStep(s, t), k) == Hand(s, k)
  {
    assert Core.ThreadInv(s, t) && Core.ThreadInv(s, k);
    if s.threads[k].InEnqueue? { OthersKeepTheirSection(s, t, k); }
  }

  lemma OthersKeepTheirSection(s: State, t: nat, k: nat)
    requires Core.Inv(s) && Enabled(s, Advance(t)) && k < |s.threads| && k != t
    requires s.threads[k].InEnqueue?
    ensures var s' := AdvanceStep(s, t); var h := s.threads[k].h;
      h < |s.streams| == |s'.streams| && s'.streams[h].section == s.streams[h].section
      && s'.threads[k] == s.threads[k]
  {
    assert Core.ThreadInv(s, t) && Core.ThreadInv(s, k);
  }

  lemma PushPendingKeeps(s: State, t: nat)
    requires Core.Inv(s) && PlaceInv(s) && Enabled(s, Advance(t)) && s.threads[t].PendingLocked?
    ensures PlaceInv(AdvanceStep(s, t))
  {
    var s' := AdvanceStep(s, t);
    var id := s.threads[t].id;
    assert Core.ThreadInv(s, t) && Core.ThreadInv(s, 0);
    assert Hand(s, t) == Some(id) && At(s, id, InHand(t));
    assert Goes(s, s', id, InPending);
    assert Pending(s') == Pending(s) + [id];
    assert !At(s, id, InPending);
    AppendFresh(Pending(s), id);
    forall h | 0 <= h < |s'.streams| ensures StreamPlaceInv(s', h) {
      assert StreamPlaceInv(s, h);
    }
  }

  /** The streams after command `id`, which no stream has, went to stream `h`. */
  lemma StreamsAfterEnqueue(s: State, s': State, h: nat, id: Id)
    requires PlaceInv(s) && h < |s.streams| == |s'.streams| && Goes(s, s', id, InStream(h))
    requires id < |s.place| && !s.place[id].InStream?
    requires forall k :: 0 <= k < |s.streams| ==>
      s'.streams[k].enqueued == s.streams[k].enqueued + (if k == h then [id] else [])
    ensures forall k :: 0 <= k < |s'.streams| ==> StreamPlaceInv(s', k)
  {
    forall k | 0 <= k < |s'.streams| ensures StreamPlaceInv(s', k) {
      assert StreamPlaceInv(s, k);
      if k == h { AppendFresh(s.streams[h].enqueued, id); }
    }
  }

  /** `enqueue` puts the command of a producer into the stream that it loaded. */
  lemma EnqueueKeeps(s: State, t: nat)
    requires Core.Inv(s) && PlaceInv(s) && Enabled(s, Advance(t)) && s.threads[t].InEnqueue?
    requires s.streams[s.threads[t].h].section.value.at.AtPush?
    ensures PlaceInv(AdvanceStep(s, t))
  {
    var s' := AdvanceStep(s, t);
    var h := s.threads[t].h;
    var id := s.streams[h].section.value.at.id;
    assert Core.ThreadInv(s, t) && Core.ThreadInv(s, 0);
    assert Hand(s, t) == Some(id) && At(s, id, InHand(t));
    assert Goes(s, s', id, InStream(h));
    StreamsAfterEnqueue(s, s', h, id);
    forall k | 0 <= k < |s'.threads| && k != t ensures Hand(s', k) == Hand(s, k) {
      OthersKeepTheirHand(s, t, k);
    }
    assert !At(s, id, InPending) && Pending(s') == Pending(s);
  }

  /** `flush_pending` enqueues the front of the pending queue before it pops it. */
  lemma MoveKeeps(s: State, t: nat)
    requires Core.Inv(s) && PlaceInv(s) && Enabled(s, Advance(t)) && s.threads[t].Moving?
    requires s.streams[s.threads[t].h].section.value.at.AtPush?
    ensures PlaceInv(AdvanceStep(s, t))
  {
    var s' := AdvanceStep(s, t);
    var h := s.threads[t].h;
    var id := s.streams[h].section.value.at.id;
    assert Core.ThreadInv(s, t) && Core.ThreadInv(s, 0);
    assert Pending(s) == s.pending && Pending(s') == s.pending[1..] && s.pending[0] == id;
    assert At(s, id, InPending);
    DropFront(s.pending);
    assert Goes(s, s', id, InStream(h));
    StreamsAfterEnqueue(s, s', h, id);
    forall k | 0 <= k < |s'.threads| && k != t ensures Hand(s', k) == Hand(s, k) {
      OthersKeepTheirHand(s, t, k);
    }
  }

  lemma OtherStepsStay(s: State, t: nat)
    requires Core.Inv(s) && Enabled(s, Advance(t))
    requires !s.threads[t].PendingLocked?
    requires InSection(s.threads[t]) ==> !s.streams[s.threads[t].h].section.value.at.AtPush?
    ensures SamePlaces(s, AdvanceStep(s, t))
  {
    var s' := AdvanceStep(s, t);
    assert Core.ThreadInv(s, t) && Core.ThreadInv(s, 0);
    forall k | 0 <= k < |s.threads| ensures Hand(s', k) == Hand(s, k) {
      if k != t { OthersKeepTheirHand(s, t, k); } else { OwnHandStays(s, t); }
    }
    PendingStays(s, t);
    StreamsStay(s, t);
  }

  lemma OwnHandStays(s: State, t: nat)
    requires Core.Inv(s) && Enabled(s, Advance(t)) && !s.threads[t].PendingLocked?
    requires InSection(s.threads[t]) ==> !s.streams[s.threads[t].h].section.value.at.AtPush?
    ensures Hand(AdvanceStep(s, t), t) == Hand(s, t)
  {
    assert Core.ThreadInv(s, t);
  }

  lemma PendingStays(s: State, t: nat)
    requires Core.Inv(s) && Enabled(s, Advance(t)) && !s.threads[t].PendingLocked?
    requires InSection(s.threads[t]) ==> !s.streams[s.threads[t].h].section.value.at.AtPush?
    ensures Pending(AdvanceStep(s, t)) == Pending(s)
  {
    assert Core.ThreadInv(s, t) && Core.ThreadInv(s, 0);
  }

  ghost predicate StreamsStayed(s: State, s': State) {
    && s'.place == s.place && s'.commands == s.commands && |s'.threads| == |s.threads|
    && |s'.streams| == |s.streams|
    && forall h :: 0 <= h < |s.streams| ==> s'.streams[h].enqueued == s.streams[h].enqueued
  }

  lemma StreamsStay(s: State, t: nat)
    requires Core.Inv(s) && Enabled(s, Advance(t)) && !s.threads[t].PendingLocked?
    requires InSection(s.threads[t]) ==> !s.streams[s.threads[t].h].section.value.at.AtPush?
    ensures StreamsStayed(s, AdvanceStep(s, t))
  {
    if InSection(s.threads[t]) {
      SectionStays(s, t, s.threads[t].h);
    } else {
      OutsideStays(s, t);
    }
  }

  /** Outside the sections no step enqueues anything. */
  lemma OutsideStays(s: State, t: nat)
    requires Enabled(s, Advance(t)) && !s.threads[t].PendingLocked? && !InSection(s.threads[t])
    ensures StreamsStayed(s, AdvanceStep(s, t))
  {
  }

  lemma SectionStays(s: State, t: nat, h: nat)
    requires t < |s.threads| && CanStep(s, h) && !s.streams[h].section.value.at.AtPush?
    ensures forall after :: StreamsStayed(s, SectionAdvance(s, t, h, after))
  {
  }

  lemma StepKeeps(s: State, a: Action)
    requires Core.Inv(s) && PlaceInv(s) && Enabled(s, a)
    ensures PlaceInv(Next(s, a))
  {
    match a
    case Call(t, cmd) => CallKeeps(s, t, cmd);
    case Advance(t) =>
      assert Core.ThreadInv(s, t);
      if s.threads[t].PendingLocked? {
        PushPendingKeeps(s, t);
      } else if InSection(s.threads[t])
                && s.streams[s.threads[t].h].section.value.at.AtPush? {
        if s.threads[t].Moving? { MoveKeeps(s, t); } else { EnqueueKeeps(s, t); }
      } else {
        OtherStepsStay(s, t);
        SamePlacesKeeps(s, Next(s, a));
      }
    case _ =>
      DeliveriesStay(s, a);
      SamePlacesKeeps(s, Next(s, a));
  }

  lemma InitPlaces(producers: nat)
    ensures PlaceInv(Init(producers))
  {
    var s := Init(producers);
    forall h | 0 <= h < |s.streams| ensures StreamPlaceInv(s, h) {
      assert s.streams[h] == NewStream();
    }
    forall t | 0 <= t < |s.threads| ensures Hand(s, t).None? { assert s.threads[t] == Idle; }
  }

  lemma {:induction false} RunKeeps(s: State, actions: seq<Action>)
    requires Core.Inv(s) && PlaceInv(s) && IsRun(s, actions)
    ensures Core.Inv(After(s, actions)) && PlaceInv(After(s, actions))
    decreases |actions|
  {
    if actions != [] {
      Core.StepKeeps(s, actions[0]);
      StepKeeps(s, actions[0]);
      RunKeeps(Next(s, actions[0]), actions[1..]);
    }
  }

  // ---------------------------------------------------------------- the theorems

  /** All places that have command `id`, read off the threads and queues themselves. A stream
      has it if it was submitted to Write or waits in `write_queue_`. */
  ghost function Holders(s: State, id: Id): set<Place> {
    (set t | 0 <= t < |s.threads| && Hand(s, t) == Some(id) :: InHand(t))
    + (if id in Pending(s) then {InPending} else {})
    + (set h | 0 <= h < |s.streams|
             && id in s.streams[h].submitted + Waiting(s.streams[h]) :: InStream(h))
  }

  lemma HoldersIsPlace(s: State, id: Id)
    requires Core.Inv(s) && PlaceInv(s) && id < |s.commands|
    ensures Holders(s, id) == {s.place[id]}
  {
    forall p ensures p in Holders(s, id) <==> p == s.place[id] {
      match p
      case InHand(t) =>
      case InPending =>
      case InStream(h) =>
        if h < |s.streams| {
          assert Core.HandlerInv(s, h) && StreamPlaceInv(s, h);
        }
    }
  }

  /** At every moment of every interleaving each pushed command is in exactly one place, and
      there only once; what a stream has submitted, followed by what it still queues, is in the
      order in which commands were enqueued. */
  lemma ExactlyOnePlace(producers: nat, actions: seq<Action>)
    requires IsRun(Init(producers), actions)
    ensures var s := After(Init(producers), actions);
      && (forall id :: 0 <= id < |s.commands| ==> |Holders(s, id)| == 1)
      && NoDuplicates(Pending(s))
      && (forall h :: 0 <= h < |s.streams| ==>
          && s.streams[h].submitted + Waiting(s.streams[h]) == s.streams[h].enqueued
          && NoDuplicates(s.streams[h].enqueued))
  {
    Core.InitInv(producers);
    InitPlaces(producers);
    RunKeeps(Init(producers), actions);
    var s := After(Init(producers), actions);
    forall id | 0 <= id < |s.commands| ensures |Holders(s, id)| == 1 {
      HoldersIsPlace(s, id);
    }
    forall h | 0 <= h < |s.streams|
      ensures StreamInv(s.streams[h]) && NoDuplicates(s.streams[h].enqueued)
    {
      assert Core.HandlerInv(s, h) && StreamPlaceInv(s, h);
    }
  }

  /** `writing_` is true exactly when a writer tag is in flight, or a delivered one has not been
      cleared, or the holder of `mu_` is between the store and the Write; never two of these, so
      at most one Write per stream is outstanding. */
  lemma AtMostOneWrite(producers: nat, actions: seq<Action>, h: nat)
    requires IsRun(Init(producers), actions) && h < |After(Init(producers), actions).streams|
    ensures var st := After(Init(producers), actions).streams[h];
      && st.writeTags <= 1
      && (st.writing <==> st.writeTags == 1 || st.completing || HolderAtWrite(st) == 1)
      && !(st.writeTags == 1 && st.completing)
      && !(st.writeTags == 1 && HolderAtWrite(st) == 1)
      && !(st.completing && HolderAtWrite(st) == 1)
  {
    Core.InitInv(producers);
    Core.RunKeeps(Init(producers), actions);
    assert Core.HandlerInv(After(Init(producers), actions), h);
  }
}
