/** Lock discipline of the fine-grained command stream: who waits for whom. */
module FineLocks {
  import opened Wrappers
  import opened Phases
  import opened FineStreams
  import Core = FineInvariant
  import Places = FinePlaces

  /** `pending_mu_`, or `mu_` of handler `h`. */
  datatype LockId = PendingMu | Mu(h: nat)

  predicate Holds(s: State, t: nat, l: LockId) {
    match l
    case PendingMu => s.pendingMu == Some(t)
    case Mu(h) =>
      h < |s.streams| && s.streams[h].section.Some? && s.streams[h].section.value.thread == t
  }

  /** The lock that the next step of thread `t` takes. */
  function Wants(s: State, t: nat): Option<LockId>
    requires t < |s.threads|
  {
    match s.threads[t]
    case Loaded(_, None) => Some(PendingMu)
    case Loaded(_, Some(h)) => Some(Mu(h))
    case Activated(_) => Some(PendingMu)
    case Flushing(h) => if s.pending == [] then None else Some(Mu(h))
    case WriteOk(h) => Some(Mu(h))
    case _ => None
  }

  function Rank(l: LockId): nat {
    if l.PendingMu? then 0 else 1
  }

  ghost predicate Reachable(s: State) {
    exists producers, actions ::
      IsRun(Init(producers), actions) && After(Init(producers), actions) == s
  }

  lemma ReachableInv(s: State)
    requires Reachable(s)
    ensures Core.Inv(s) && Places.PlaceInv(s)
  {
    var producers, actions :|
      IsRun(Init(producers), actions) && After(Init(producers), actions) == s;
    Core.InitInv(producers);
    Places.InitPlaces(producers);
    Places.RunKeeps(Init(producers), actions);
  }

  /** A thread takes a lock only while every lock it has comes before: `pending_mu_`, if at all,
      is taken before a handler's `mu_`, and nothing is taken under a `mu_`. */
  lemma LocksAreOrdered(s: State, t: nat, held: LockId, wanted: LockId)
    requires Reachable(s) && t < |s.threads|
    requires Holds(s, t, held) && Wants(s, t) == Some(wanted)
    ensures Rank(held) < Rank(wanted)
  {
    ReachableInv(s);
    assert Core.ThreadInv(s, t);
    forall h | 0 <= h < |s.streams| ensures Holds(s, t, Mu(h)) ==> InSection(s.threads[t]) {
      assert Core.HandlerInv(s, h);
    }
  }

  /** Each thread of `ts` waits for a lock that the next one holds. */
  ghost predicate WaitChain(s: State, ts: seq<nat>) {
    && (forall i :: 0 <= i < |ts| ==> ts[i] < |s.threads|)
    && (forall i :: 0 <= i < |ts| - 1 ==>
        Wants(s, ts[i]).Some? && Holds(s, ts[i + 1], Wants(s, ts[i]).value))
  }

  lemma {:induction false} RanksRise(s: State, ts: seq<nat>, n: nat)
    requires Reachable(s) && WaitChain(s, ts) && 0 < n < |ts| && Wants(s, ts[n]).Some?
    ensures Wants(s, ts[0]).Some? && Rank(Wants(s, ts[0]).value) < Rank(Wants(s, ts[n]).value)
  {
    assert Holds(s, ts[n - 1 + 1], Wants(s, ts[n - 1]).value);
    LocksAreOrdered(s, ts[n], Wants(s, ts[n - 1]).value, Wants(s, ts[n]).value);
    if n > 1 { RanksRise(s, ts, n - 1); }
  }

  /** The waits-for graph has no cycle, of any length, in any reachable state. */
  lemma NoWaitCycle(s: State, ts: seq<nat>)
    requires Reachable(s) && |ts| >= 2 && ts[0] == ts[|ts| - 1]
    ensures !WaitChain(s, ts)
  {
    if WaitChain(s, ts) {
      RanksRise(s, ts, |ts| - 1);
    }
  }

  /** A thread that wants no lock can go on. */
  lemma FreeThreadAdvances(s: State, t: nat)
    requires Reachable(s) && t < |s.threads| && s.threads[t] != Idle && Wants(s, t).None?
    ensures Enabled(s, Advance(t))
  {
    ReachableInv(s);
    assert Core.ThreadInv(s, t) && Core.ThreadInv(s, 0);
    if InSection(s.threads[t]) { assert Core.HandlerInv(s, s.threads[t].h); }
    if s.threads[t].PendingLocked? { assert Places.Hand(s, t).Some?; }
  }

  /** A thread that wants a lock can go on, or somebody else holds the lock. */
  lemma BlockedByHolder(s: State, t: nat) returns (holder: nat)
    requires Reachable(s) && t < |s.threads| && Wants(s, t).Some?
    requires !Enabled(s, Advance(t))
    ensures holder < |s.threads| && Holds(s, holder, Wants(s, t).value)
    ensures s.threads[holder] != Idle
  {
    ReachableInv(s);
    assert Core.ThreadInv(s, t) && Core.ThreadInv(s, 0);
    match Wants(s, t).value
    case PendingMu => holder := s.pendingMu.value;
    case Mu(h) =>
      holder := s.streams[h].section.value.thread;
      assert Core.HandlerInv(s, h);
  }

  /** No deadlock: while any thread is inside the code, some thread can take its next step. */
  lemma SomebodyAdvances(s: State, t: nat) returns (mover: nat)
    requires Reachable(s) && t < |s.threads| && s.threads[t] != Idle
    ensures mover < |s.threads| && Enabled(s, Advance(mover))
    decreases if Wants(s, t).Some? then 2 - Rank(Wants(s, t).value) else 0
  {
    if Enabled(s, Advance(t)) {
      mover := t;
    } else if Wants(s, t).None? {
      FreeThreadAdvances(s, t);
      mover := t;
    } else {
      var holder := BlockedByHolder(s, t);
      if Wants(s, holder).Some? {
        LocksAreOrdered(s, holder, Wants(s, t).value, Wants(s, holder).value);
      }
      mover := SomebodyAdvances(s, holder);
    }
  }

  /** Under the two assumptions on Finish a deleted handler is out of reach: nobody has locked it
      or can enqueue to it, and the completion queue owes it nothing. */
  lemma DeletedIsUnused(s: State, h: nat)
    requires Reachable(s) && h < |s.streams| && s.streams[h].phase == Deleted
    ensures s.streams[h].section == None && s.streams[h].writeTags == 0
    ensures s.active != Some(h)
    ensures forall t :: 0 <= t < |s.threads| ==>
      !Refers(s.threads[t], h) && Wants(s, t) != Some(Mu(h))
  {
    ReachableInv(s);
    assert Core.HandlerInv(s, h) && Core.ThreadInv(s, 0);
    forall t | 0 <= t < |s.threads|
      ensures !Refers(s.threads[t], h) && Wants(s, t) != Some(Mu(h))
    {
      assert Core.ThreadInv(s, t);
    }
  }
}
