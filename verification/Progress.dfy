/** Progress of the barrier: when every participant is to do `n` rounds, some step that
    changes the state is possible until all are done, and every such step uses up one unit
    of a measure, so that every run that does not idle ends with all participants done. */
module Progress {
  import opened Invariant
  import opened Barrier

  /** The step changes the state: a read by a PE with rounds left, a write, a poll that
      leaves, or an update of LBSY. */
  predicate Changes(s: BState, e: Event, n: nat) {
    CanDo(s, e) &&
    match e
    case Read(p) => s.local[p].rounds < n
    case Write(p) => true
    case Poll(p) => s.reg.lbsy == s.local[p].pc.sense
    case Update => Lbsy(s.reg) != s.reg.lbsy
  }

  /** No PE has done, or started, more than its `n` rounds. */
  ghost predicate Within(s: BState, n: nat) {
    forall p | p in s.local :: if s.local[p].pc.Idle? then s.local[p].rounds <= n else s.local[p].rounds < n
  }

  ghost predicate Done(s: BState, n: nat) {
    forall p | p in s.local :: s.local[p] == Local(Idle, n)
  }

  /** Steps that a PE still has to take. */
  function Weight(l: Local, n: nat): int {
    3 * (n - l.rounds) - (match l.pc case Idle => 0 case Ready(_) => 1 case Waiting(_) => 2)
  }

  ghost function Total(local: map<int, Local>, ps: set<int>, n: nat): int
    requires ps <= local.Keys
    decreases |ps|
  {
    EmptyOrNot(ps);
    if ps == {} then 0 else var p :| p in ps; Weight(local[p], n) + Total(local, ps - {p}, n)
  }

  /** The steps left: those of the PEs, and one LBSY change per round. */
  ghost function Left(s: BState, n: nat): int {
    Total(s.local, s.local.Keys, n) + n - s.flips
  }

  lemma {:induction false} TotalSplit(local: map<int, Local>, ps: set<int>, n: nat, q: int)
    requires ps <= local.Keys && q in ps
    ensures Total(local, ps, n) == Weight(local[q], n) + Total(local, ps - {q}, n)
    decreases |ps|
  {
    var p :| p in ps && Total(local, ps, n) == Weight(local[p], n) + Total(local, ps - {p}, n);
    if p != q {
      TotalSplit(local, ps - {p}, n, q);
      TotalSplit(local, ps - {q}, n, p);
      assert ps - {p} - {q} == ps - {q} - {p};
    }
  }

  lemma {:induction false} TotalSame(local: map<int, Local>, local': map<int, Local>, ps: set<int>, n: nat)
    requires ps <= local.Keys && ps <= local'.Keys && forall p | p in ps :: local[p] == local'[p]
    ensures Total(local, ps, n) == Total(local', ps, n)
    decreases |ps|
  {
    EmptyOrNot(ps);
    if p :| p in ps {
      TotalSplit(local, ps, n, p);
      TotalSplit(local', ps, n, p);
      TotalSame(local, local', ps - {p}, n);
    }
  }

  lemma TotalSet(local: map<int, Local>, p: int, l: Local, n: nat)
    requires p in local
    ensures Total(local[p := l], local.Keys, n) == Total(local, local.Keys, n) - Weight(local[p], n) + Weight(l, n)
  {
    var local' := local[p := l];
    TotalSplit(local, local.Keys, n, p);
    TotalSplit(local', local.Keys, n, p);
    TotalSame(local, local', local.Keys - {p}, n);
  }

  /** Every step that changes the state uses up exactly one unit. */
  lemma StepProgress(s: BState, e: Event, n: nat)
    requires BInv(s) && Within(s, n) && Changes(s, e, n)
    ensures BInv(Do(s, e)) && Within(Do(s, e), n)
    ensures Left(Do(s, e), n) == Left(s, n) - 1
  {
    StepKeeps(s, e);
    var s' := Do(s, e);
    if e != Update {
      assert s'.local == s.local[e.p := s'.local[e.p]];
      TotalSet(s.local, e.p, s'.local[e.p], n);
      assert s'.local.Keys == s.local.Keys;
    }
  }

  /** There is no deadlock: unless all PEs are done, some step changes the state. */
  lemma NoDeadlock(s: BState, n: nat) returns (e: Event)
    requires BInv(s) && Within(s, n) && !Done(s, n)
    ensures Changes(s, e, n)
  {
    if p :| p in s.local && s.local[p].pc.Ready? {
      e := Write(p);
    } else if p :| p in s.local && s.local[p].pc.Idle? && s.local[p].rounds < n {
      e := Read(p);
    } else if p :| p in s.local && s.local[p].pc.Waiting? && s.local[p].pc.sense == s.reg.lbsy {
      e := Poll(p);
    } else {
      e := Update;
      AllWaiting(s, n);
    }
  }

  /** If no PE can move by itself, all wait for the value that LBSY does not have. */
  lemma AllWaiting(s: BState, n: nat)
    requires BInv(s) && Within(s, n) && !Done(s, n)
    requires forall p | p in s.local :: !s.local[p].pc.Ready?
    requires forall p | p in s.local && s.local[p].pc.Idle? :: s.local[p].rounds >= n
    requires forall p | p in s.local && s.local[p].pc.Waiting? :: s.local[p].pc.sense != s.reg.lbsy
    ensures Lbsy(s.reg) != s.reg.lbsy
  {
    var q :| q in s.local && s.local[q] != Local(Idle, n);
    assert LocalOk(s.local[q], q in s.reg.bst, s.reg.lbsy, s.flips);
    forall p | p in s.reg.mask ensures p in s.reg.bst <==> !s.reg.lbsy {
      assert LocalOk(s.local[p], p in s.reg.bst, s.reg.lbsy, s.flips);
    }
    assert q in s.reg.mask;
  }

  lemma {:induction false} TotalNonNegative(local: map<int, Local>, ps: set<int>, n: nat)
    requires ps <= local.Keys
    requires forall p | p in ps :: if local[p].pc.Idle? then local[p].rounds <= n else local[p].rounds < n
    ensures Total(local, ps, n) >= 0
    ensures Total(local, ps, n) == 0 <==> forall p | p in ps :: local[p] == Local(Idle, n)
    decreases |ps|
  {
    EmptyOrNot(ps);
    if p :| p in ps {
      TotalSplit(local, ps, n, p);
      TotalNonNegative(local, ps - {p}, n);
      assert Weight(local[p], n) >= 0 && (Weight(local[p], n) == 0 <==> local[p] == Local(Idle, n));
      if forall q | q in ps - {p} :: local[q] == Local(Idle, n) {
        assert (forall q | q in ps :: local[q] == Local(Idle, n)) <==> local[p] == Local(Idle, n);
      } 
    }
  }

  /** The measure is never negative, and zero exactly when all PEs are done. */
  lemma LeftZero(s: BState, n: nat)
    requires BInv(s) && Within(s, n)
    ensures Left(s, n) >= 0
    ensures Left(s, n) == 0 <==> Done(s, n)
  {
    TotalNonNegative(s.local, s.local.Keys, n);
    EmptyOrNot(s.reg.mask);
    var p :| p in s.reg.mask;
    assert LocalOk(s.local[p], p in s.reg.bst, s.reg.lbsy, s.flips);
  }

  /** Every step of the run changes the state. */
  predicate Busy(s: BState, es: seq<Event>, n: nat)
    requires CanRun(s, es)
    decreases |es|
  {
    es == [] || (Changes(s, es[0], n) && Busy(Do(s, es[0]), es[1..], n))
  }

  lemma {:induction false} BusyRun(s: BState, es: seq<Event>, n: nat)
    requires BInv(s) && Within(s, n) && CanRun(s, es) && Busy(s, es, n)
    ensures BInv(Run(s, es)) && Within(Run(s, es), n)
    ensures Left(Run(s, es), n) == Left(s, n) - |es|
    decreases |es|
  {
    if es != [] {
      StepProgress(s, es[0], n);
      BusyRun(Do(s, es[0]), es[1..], n);
    }
  }

  lemma OneMoreTime(m: nat, x: int)
    ensures (m + 1) * x == m * x + x
  {
  }

  lemma {:induction false} FreshTotal(local: map<int, Local>, ps: set<int>, n: nat)
    requires ps <= local.Keys && forall p | p in ps :: local[p] == Local(Idle, 0)
    ensures Total(local, ps, n) == |ps| * (3 * n)
    decreases |ps|
  {
    EmptyOrNot(ps);
    if p :| p in ps {
      TotalSplit(local, ps, n, p);
      FreshTotal(local, ps - {p}, n);
      assert |ps - {p}| == |ps| - 1;
      OneMoreTime(|ps| - 1, 3 * n);
    }
  }

  /** Barrier progress: from a fresh blade a run of `n` rounds has at most, and when it
      ends exactly, three steps per participant and round plus one LBSY change per round;
      it can be continued exactly as long as some participant is not done. */
  lemma Termination(s: BState, es: seq<Event>, n: nat)
    requires Fresh(s) && CanRun(s, es) && Busy(s, es, n)
    ensures |es| <= |s.reg.mask| * (3 * n) + n
    ensures |es| == |s.reg.mask| * (3 * n) + n <==> Done(Run(s, es), n)
    ensures (exists e :: Changes(Run(s, es), e, n)) <==> !Done(Run(s, es), n)
  {
    FreshInv(s);
    BusyRun(s, es, n);
    FreshTotal(s.local, s.local.Keys, n);
    var s' := Run(s, es);
    LeftZero(s', n);
    if !Done(s', n) {
      var e := NoDeadlock(s', n);
    } else {
      forall e ensures !Changes(s', e, n) {
        if Changes(s', e, n) {
          StepProgress(s', e, n);
          LeftZero(Do(s', e), n);
        }
      }
    }
  }
}
