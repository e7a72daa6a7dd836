/** What a blade that is reprogrammed in the middle of a round does to its barrier.  The
    register write changes the mask and clears BST and LBSY; the PEs that remain go on from
    where they are.  The barrier survives exactly under a condition on their places. */
module Shrinking {
  import opened Invariant
  import opened DriverState
  import opened Barrier
  import opened Progress

  /** The barrier after its blade is reprogrammed with the mask `m`.  The history counter,
      which no step reads, follows the round that the remaining PEs are then in. */
  function Shrunk(b: BState, m: set<int>): BState {
    BState(BladeReg(m, {}, false), map p | p in b.local && p in m :: b.local[p],
           if b.reg.lbsy && exists p :: p in b.local && p in m && !b.local[p].pc.Idle? then b.flips + 1 else b.flips)
  }

  /** The one remaining PE has yet to write the bit that the register already shows. */
  ghost predicate Alone(s: BState) {
    && s.reg.bst == {} && !s.reg.lbsy && s.local.Keys == s.reg.mask
    && exists p ::
        p in s.local && s.reg.mask == {p} && s.local[p].pc == Ready(false) && s.flips == s.local[p].rounds + 1
  }

  /** The invariant of a barrier that may be shrunk. */
  ghost predicate Healthy(s: BState) {
    BInv(s) || Alone(s)
  }

  lemma HealthyStep(s: BState, e: Event)
    requires Healthy(s) && CanDo(s, e)
    ensures Healthy(Do(s, e)) && Do(s, e).reg.mask == s.reg.mask
  {
    if BInv(s) { StepKeeps(s, e); }
  }

  // ---------- what a barrier owes its participants ----------

  /** A PE that has written for its current round counts one more. */
  function Written(l: Local): nat {
    l.rounds + if l.pc.Waiting? then 1 else 0
  }

  /** No PE can leave a round that another one has not written for. */
  ghost predicate Safe(s: BState) {
    forall p, q | p in s.local && q in s.local && Leaves(s, Poll(p), p) :: Written(s.local[q]) > s.local[p].rounds
  }

  /** Some step is possible until all PEs are done with their `n` rounds. */
  ghost predicate CanGoOn(s: BState) {
    forall n: nat | Within(s, n) && !Done(s, n) :: exists e :: Changes(s, e, n)
  }

  /** Every state of every run is safe and live. */
  ghost predicate Correct(s: BState) {
    forall es | CanRun(s, es) :: Safe(Run(s, es)) && CanGoOn(Run(s, es))
  }

  lemma HealthyMoves(s: BState, n: nat) returns (e: Event)
    requires Healthy(s) && Within(s, n) && !Done(s, n)
    ensures Changes(s, e, n)
  {
    if BInv(s) {
      e := NoDeadlock(s, n);
    } else {
      var p :| p in s.local && s.reg.mask == {p} && s.local[p].pc == Ready(false);
      e := Write(p);
    }
  }

  lemma HealthySafe(s: BState)
    requires Healthy(s)
    ensures Safe(s) && CanGoOn(s)
  {
    forall p, q | p in s.local && q in s.local && Leaves(s, Poll(p), p)
      ensures Written(s.local[q]) > s.local[p].rounds
    {
      if BInv(s) {
        assert LocalOk(s.local[p], p in s.reg.bst, s.reg.lbsy, s.flips);
        assert LocalOk(s.local[q], q in s.reg.bst, s.reg.lbsy, s.flips);
      }
    }
    forall n: nat | Within(s, n) && !Done(s, n) ensures exists e :: Changes(s, e, n) {
      var e := HealthyMoves(s, n);
    }
  }

  lemma {:induction false} HealthyRun(s: BState, es: seq<Event>)
    requires Healthy(s) && CanRun(s, es)
    ensures Healthy(Run(s, es)) && Run(s, es).reg.mask == s.reg.mask
    decreases |es|
  {
    if es != [] {
      HealthyStep(s, es[0]);
      HealthyRun(Do(s, es[0]), es[1..]);
    }
  }

  lemma HealthyCorrect(s: BState)
    requires Healthy(s)
    ensures Correct(s)
  {
    forall es | CanRun(s, es) ensures Safe(Run(s, es)) && CanGoOn(Run(s, es)) {
      HealthyRun(s, es);
      HealthySafe(Run(s, es));
    }
  }

  // ---------- a PE that can never leave ----------

  /** PE `p` waits for a 1 but its own BST bit is 0: LBSY can never become 1. */
  ghost predicate Stuck(s: BState, p: int) {
    && p in s.local && p in s.reg.mask && p !in s.reg.bst && !s.reg.lbsy
    && s.local[p].pc == Waiting(true)
  }

  lemma StuckStep(s: BState, p: int, e: Event)
    requires Stuck(s, p) && CanDo(s, e)
    ensures Stuck(Do(s, e), p)
  {
  }

  /** While `p` is stuck every changing step is a PE's own and uses up one unit. */
  lemma StuckUses(s: BState, p: int, e: Event, n: nat)
    requires Stuck(s, p) && Within(s, n) && Changes(s, e, n)
    ensures Stuck(Do(s, e), p) && Within(Do(s, e), n) && Do(s, e).local.Keys == s.local.Keys
    ensures Total(Do(s, e).local, s.local.Keys, n) == Total(s.local, s.local.Keys, n) - 1
  {
    StuckStep(s, p, e);
    var s' := Do(s, e);
    assert s'.local == s.local[e.p := s'.local[e.p]];
    TotalSet(s.local, e.p, s'.local[e.p], n);
  }

  /** With a stuck PE every way to go on ends in a deadlock. */
  lemma {:induction false} StuckDeadlocks(s: BState, p: int, n: nat) returns (es: seq<Event>)
    requires Stuck(s, p) && Within(s, n)
    ensures CanRun(s, es) && Within(Run(s, es), n) && !Done(Run(s, es), n)
    ensures forall e :: !Changes(Run(s, es), e, n)
    decreases Total(s.local, s.local.Keys, n)
  {
    TotalNonNegative(s.local, s.local.Keys, n);
    if e :| Changes(s, e, n) {
      StuckUses(s, p, e, n);
      TotalNonNegative(Do(s, e).local, s.local.Keys, n);
      var rest := StuckDeadlocks(Do(s, e), p, n);
      es := [e] + rest;
      assert es[0] == e && es[1..] == rest;
    } else {
      es := [];
    }
  }

  // ---------- the exact condition ----------

  /** The PEs in `m` are at places from which the barrier can go on after the write: with
      LBSY at 0 none waits for a 1; with LBSY at 1 either all are at work, or all wait for
      a 0, or there is only one and it has yet to write its 0. */
  ghost predicate Resumable(b: BState, m: set<int>) {
    if !b.reg.lbsy then forall p | p in b.local && p in m :: b.local[p].pc != Waiting(true)
    else
      || (forall p | p in b.local && p in m :: b.local[p].pc.Idle?)
      || (forall p | p in b.local && p in m :: b.local[p].pc == Waiting(false))
      || (exists p :: p in b.local && m == {p} && b.local[p].pc == Ready(false))
  }

  lemma ResumableHealthy(b: BState, m: set<int>)
    requires BInv(b) && m != {} && m <= b.reg.mask && Resumable(b, m)
    ensures Healthy(Shrunk(b, m))
  {
    var s := Shrunk(b, m);
    EmptyOrNot(m);
    var q :| q in m;
    assert LocalOk(b.local[q], q in b.reg.bst, b.reg.lbsy, b.flips);
    if p :| b.reg.lbsy && p in b.local && m == {p} && b.local[p].pc == Ready(false) {
      assert LocalOk(b.local[p], p in b.reg.bst, b.reg.lbsy, b.flips);
      assert Alone(s);
    } else {
      forall p | p in s.local ensures LocalOk(s.local[p], p in s.reg.bst, s.reg.lbsy, s.flips) {
        assert LocalOk(b.local[p], p in b.reg.bst, b.reg.lbsy, b.flips);
      }
      assert s.local.Keys == m;
    }
  }

  /** Otherwise some run breaks the barrier: a PE leaves too early, or all are blocked. */
  lemma NotResumable(b: BState, m: set<int>) returns (es: seq<Event>)
    requires BInv(b) && m != {} && m <= b.reg.mask && !Resumable(b, m)
    ensures CanRun(Shrunk(b, m), es) && !(Safe(Run(Shrunk(b, m), es)) && CanGoOn(Run(Shrunk(b, m), es)))
  {
    var s := Shrunk(b, m);
    assert s.local.Keys == m;
    forall p | p in m ensures LocalOk(b.local[p], p in b.reg.bst, b.reg.lbsy, b.flips) && s.local[p] == b.local[p] { }
    if p :| p in m && s.local[p].pc == Waiting(true) {
      assert Stuck(s, p) && Within(s, b.flips + 1);
      es := StuckDeadlocks(s, p, b.flips + 1);
    } else {
      es := LeavesEarly(b, m);
    }
  }

  lemma LeavesAlone(s: BState, p: int, q: int)
    requires p in s.local && q in s.local && Leaves(s, Poll(p), p) && Written(s.local[q]) <= s.local[p].rounds
    ensures !Safe(s)
  {
  }

  lemma LeavesEarly(b: BState, m: set<int>) returns (es: seq<Event>)
    requires BInv(b) && m != {} && m <= b.reg.mask && !Resumable(b, m)
    requires forall p | p in m && p in b.local :: b.local[p].pc != Waiting(true)
    ensures CanRun(Shrunk(b, m), es) && !Safe(Run(Shrunk(b, m), es))
  {
    var s := Shrunk(b, m);
    assert s.local.Keys == m;
    forall p | p in m ensures LocalOk(b.local[p], p in b.reg.bst, b.reg.lbsy, b.flips) && s.local[p] == b.local[p] { }
    if p :| p in m && s.local[p].pc == Waiting(false) {
      var q :| q in b.local && q in m && b.local[q].pc != Waiting(false);
      es := [];
      LeavesAlone(s, p, q);
    } else {
      var p :| p in b.local && p in m && !b.local[p].pc.Idle?;
      assert b.local[p].pc == Ready(false) && m != {p};
      EmptyOrNot(m - {p});
      assert m == (m - {p}) + {p};
      var q :| q in m - {p};
      es := [Write(p)];
      assert es[1..] == [] && Run(s, es) == Do(s, Write(p));
      LeavesAlone(Do(s, Write(p)), p, q);
    }
  }

  /** The exact condition: after the blade is reprogrammed with a part of its mask, all runs
      are safe and live if and only if the remaining PEs were at suitable places. */
  lemma ShrinkExact(b: BState, m: set<int>)
    requires BInv(b) && m != {} && m <= b.reg.mask
    ensures Resumable(b, m) <==> Correct(Shrunk(b, m))
    ensures Resumable(b, m) <==> Healthy(Shrunk(b, m))
  {
    if Resumable(b, m) {
      ResumableHealthy(b, m);
      HealthyCorrect(Shrunk(b, m));
    } else {
      var es := NotResumable(b, m);
      if Healthy(Shrunk(b, m)) { HealthyCorrect(Shrunk(b, m)); }
    }
  }

  /** The inductive invariant of an undisturbed barrier is re-established, for some value of
      the history counter, in the same cases except that of a single PE yet to write. */
  lemma ShrinkKeepsInvariant(b: BState, m: set<int>)
    requires BInv(b) && m != {} && m <= b.reg.mask
    ensures (exists f: nat :: BInv(Shrunk(b, m).(flips := f))) <==>
            if !b.reg.lbsy then forall p | p in m :: p in b.local && b.local[p].pc != Waiting(true)
            else (forall p | p in m :: p in b.local && b.local[p].pc.Idle?)
                 || (forall p | p in m :: p in b.local && b.local[p].pc == Waiting(false))
  {
    var s := Shrunk(b, m);
    assert s.local.Keys == m;
    forall p | p in m ensures LocalOk(b.local[p], p in b.reg.bst, b.reg.lbsy, b.flips) && s.local[p] == b.local[p] { }
    if f: nat :| BInv(s.(flips := f)) {
      forall p | p in m ensures LocalOk(s.local[p], false, false, f) { }
    }
    if if !b.reg.lbsy then forall p | p in m :: b.local[p].pc != Waiting(true)
       else (forall p | p in m :: b.local[p].pc.Idle?) || (forall p | p in m :: b.local[p].pc == Waiting(false)) {
      EmptyOrNot(m);
      var q :| q in m;
      assert BInv(s.(flips := s.flips));
    }
  }
}
