/** The window properties over whole runs of the driver, and the assignment counters. */
module Accounting {
  import opened Topology
  import opened DriverState
  import opened LiveMap
  import opened Invariant
  import opened Abstract
  import opened Refinement
  import opened Windows

  lemma LiveOwners(t: Topology, s: State)
    requires SoftInv(t, s)
    ensures forall k | k in Live(s.tasks) :: Live(s.tasks)[k].tgid in Owners(s.tasks)
  {
    hide KeysDistinct, IsLive, EntriesOk, BladesOk, WindowsOk;
    forall k | k in Live(s.tasks) ensures Live(s.tasks)[k].tgid in Owners(s.tasks) {
      var i, j := LivePosition(s.tasks, k);
    }
  }

  /** What a used window of the abstract map stands for. */
  lemma UsesAt(t: Topology, live: map<Bb, Entry>, bw: map<Pe, set<int>>, k: Bb, pe: Pe, w: int)
    requires t.Valid() && EntriesOk(t, live) && Reserved(live, bw) && k in live && Uses(AbsBarrier(live[k]), k, pe, w)
    ensures HasWindow(live[k].a, pe, w) && pe in bw && w in bw[pe]
    ensures t.HasPe(pe) && t.Cpu(pe) in live[k].a.cpumask
  {
    assert AllocOk(t, live[k].a) && KeyOf(live[k].a) == k;
    UsesIsHasWindow(t, live[k], k);
    ReservedAt(live, bw, k, pe, w);
  }

  lemma UsesOkAbs(t: Topology, live: map<Bb, Entry>, bw: map<Pe, set<int>>)
    requires t.Valid() && EntriesOk(t, live) && Reserved(live, bw) && Exclusive(live)
    ensures UsesOk(t, AbsMap(live), bw) && UsedOnce(AbsMap(live))
  {
    hide EntriesOk, Reserved, Exclusive;
    var m := AbsMap(live);
    forall k, pe, w {:trigger Uses(m[k], k, pe, w)} | k in m && Uses(m[k], k, pe, w)
      ensures pe in bw && w in bw[pe] && t.HasPe(pe) && t.Cpu(pe) in m[k].members
    {
      UsesAt(t, live, bw, k, pe, w);
    }
    forall k, k', pe, w | k in m && k' in m && Uses(m[k], k, pe, w) && Uses(m[k'], k', pe, w) ensures k == k' {
      UsesAt(t, live, bw, k, pe, w);
      UsesAt(t, live, bw, k', pe, w);
      ExclusiveAt(live, k, k', pe, w);
    }
  }

  lemma BarriersOkAbs(t: Topology, live: map<Bb, Entry>, owners: map<int, int>)
    requires EntriesOk(t, live)
    requires forall k | k in live :: live[k].tgid in owners && live[k].a.cpumask != {}
    ensures forall k | k in AbsMap(live) :: BarrierOk(t, owners, k, AbsMap(live)[k])
  {
    forall k | k in AbsMap(live) ensures BarrierOk(t, owners, k, AbsMap(live)[k]) {
      assert AllocOk(t, live[k].a) && KeyOf(live[k].a) == k;
    }
  }

  lemma InvAbs(t: Topology, s: State)
    requires Inv(t, s)
    ensures AbsInv(t, Abs(s))
  {
    hide KeysDistinct, IsLive, IsOwners, GroupsDistinct, BladesOk, EntriesOk, Reserved, Exclusive, UsesOk, UsedOnce,
      BarrierOk;
    LiveOwners(t, s);
    UsesOkAbs(t, Live(s.tasks), s.bwMap);
    BarriersOkAbs(t, Live(s.tasks), Owners(s.tasks));
  }

  /** The assignment counter of every live allocation is the number of assigned CPUs. */
  ghost predicate CountsExact(live: map<Bb, Entry>) {
    forall k | k in live :: live[k].a.assignCount == |live[k].a.assignMask|
  }

  /** No window has leaked: the bitmaps hold exactly the held windows and the counters
      exactly the assigned CPUs. */
  ghost predicate Exact(s: State)
    requires ListsOk(s.tasks)
  {
    Tight(Abs(s)) && CountsExact(Live(s.tasks))
  }

  /** Some live allocation holds window `w` of `pe`. */
  ghost predicate Held(live: map<Bb, Entry>, pe: Pe, w: int) {
    exists k :: k in live && HasWindow(live[k].a, pe, w)
  }

  /** In a state without leaks, the bitmap of a PE is the set of windows held there. */
  lemma ExactBitmap(t: Topology, s: State, pe: Pe, w: int)
    requires Inv(t, s) && Exact(s) && pe in s.bwMap
    ensures w in s.bwMap[pe] <==> Held(Live(s.tasks), pe, w)
  {
    hide KeysDistinct, IsLive, IsOwners, GroupsDistinct, BladesOk;
    var live, a := Live(s.tasks), Abs(s);
    if w in s.bwMap[pe] {
      assert InUse(a, pe, w);
      var k :| k in a.barriers && Uses(a.barriers[k], k, pe, w);
      UsesIsHasWindow(t, live[k], k);
      assert k in live && HasWindow(live[k].a, pe, w);
    }
  }

  lemma ReplaceCount(live: map<Bb, Entry>, k: Bb, e: Entry)
    requires CountsExact(live) && e.a.assignCount == |e.a.assignMask|
    ensures CountsExact(live[k := e])
  {
  }

  lemma LeaveCounts(t: Topology, s: State, who: Caller, i: nat, j: nat)
    requires Inv(t, s) && CallerOk(t, who) && At(s.tasks, i, j) && CountsExact(Live(s.tasks))
    requires Inv(t, Leave(t, s, i, j, s.tasks[i].allocs[j].cmg, who.pe))
    ensures CountsExact(Live(Leave(t, s, i, j, s.tasks[i].allocs[j].cmg, who.pe).tasks))
  {
    hide KeysDistinct, IsLive, IsOwners, GroupsDistinct, BladesOk, EntriesOk, WindowsOk, MasksOk, AllocOk,
      FreeAndReap;
    var a := s.tasks[i].allocs[j];
    Facts(t, s, i, j);
    RemoveCpuCard(a.assignMask, t.Cpu(who.pe));
    if t.Cpu(who.pe) in a.cpumask {
      var s2 := LeaveParts(t, s, who.pe, i, j);
      ReplaceCount(Live(s.tasks), KeyOf(a), Live(s2.tasks)[KeyOf(a)]);
      if a.cpumask - {t.Cpu(who.pe)} == {} { LastLeaves(t, s2, i, j); }
    }
  }

  lemma TakeCounts(t: Topology, s: State, i: nat, j: nat, pe: Pe, w: nat, blade: int)
    requires Inv(t, s) && At(s.tasks, i, j) && t.HasPe(pe) && pe.ppe < t.maxPe && w < t.nWindows
    requires pe in s.bwMap && w !in s.bwMap[pe] && pe.cmg == s.tasks[i].allocs[j].cmg
    requires t.Cpu(pe) in s.tasks[i].allocs[j].cpumask && t.Cpu(pe) !in s.tasks[i].allocs[j].assignMask
    requires CountsExact(Live(s.tasks))
    ensures Inv(t, TakeWindow(t, s, i, j, pe, w, blade))
    ensures CountsExact(Live(TakeWindow(t, s, i, j, pe, w, blade).tasks))
  {
    hide KeysDistinct, IsLive, IsOwners, GroupsDistinct, BladesOk, EntriesOk, WindowsOk, MasksOk, AllocOk;
    var a := s.tasks[i].allocs[j];
    Facts(t, s, i, j);
    TakeWindowInv(t, s, i, j, pe, w, blade);
    ReplaceCount(Live(s.tasks), KeyOf(a),
        Entry(s.tasks[i].tgid, TakeWindow(t, s, i, j, pe, w, blade).tasks[i].allocs[j]));
  }

  lemma GiveCounts(t: Topology, s: State, i: nat, j: nat, pe: Pe, w: nat)
    requires Inv(t, s) && At(s.tasks, i, j) && t.HasPe(pe) && pe.ppe < t.maxPe && w < t.nWindows
    requires pe in s.bwMap && pe.cmg == s.tasks[i].allocs[j].cmg && pe.ppe < |s.tasks[i].allocs[j].window|
    requires t.Cpu(pe) in s.tasks[i].allocs[j].assignMask && s.tasks[i].allocs[j].window[pe.ppe] == w
    requires CountsExact(Live(s.tasks))
    ensures Inv(t, GiveWindow(t, s, i, j, pe, w)) && CountsExact(Live(GiveWindow(t, s, i, j, pe, w).tasks))
  {
    hide KeysDistinct, IsLive, IsOwners, GroupsDistinct, BladesOk, EntriesOk, WindowsOk, MasksOk, AllocOk;
    var a := s.tasks[i].allocs[j];
    Facts(t, s, i, j);
    RemoveCpuCard(a.assignMask, t.Cpu(pe));
    ClearWindowInv(t, s, GiveWindow(t, s, i, j, pe, w), i, j, pe);
    ReplaceCount(Live(s.tasks), KeyOf(a), Entry(s.tasks[i].tgid, GiveWindow(t, s, i, j, pe, w).tasks[i].allocs[j]));
  }

  lemma AssignCounts(t: Topology, s: State, who: Caller, blade: int, window: int)
    requires Inv(t, s) && CallerOk(t, who) && CountsExact(Live(s.tasks)) && who.pe in s.bwMap && who.pe in s.wreg
    requires !Leaks(t, Abs(s), AssignOp(who, blade, window))
    requires Inv(t, Assign(t, s, who, blade, window).0)
    ensures CountsExact(Live(Assign(t, s, who, blade, window).0.tasks))
  {
    hide KeysDistinct, IsLive, IsOwners, GroupsDistinct, BladesOk, EntriesOk, WindowsOk, TakeWindow, MasksOk,
      AllocShape;
    var k := Bb(who.pe.cmg, blade);
    Lookup(s.tasks, who.tgid, k);
    var i := FindTask(s.tasks, who.tgid);
    var r := Assign(t, s, who, blade, window).1;
    if r.status == Success {
      var j := FindAlloc(s.tasks[i].allocs, k);
      AtPosition(t, s, i, j, who.pe);
      Facts(t, s, i, j);
      AssignedIffWindow(t, s.tasks[i].allocs[j], who.pe);
      assert Has(Abs(s), who.tgid, k);
      TakeCounts(t, s, i, j, who.pe, r.value, blade);
    }
  }

  lemma UnassignCounts(t: Topology, s: State, who: Caller, blade: int)
    requires Inv(t, s) && CallerOk(t, who) && CountsExact(Live(s.tasks)) && who.pe in s.bwMap && who.pe in s.wreg
    requires Inv(t, Unassign(t, s, who, blade).0)
    ensures CountsExact(Live(Unassign(t, s, who, blade).0.tasks))
  {
    hide KeysDistinct, IsLive, IsOwners, GroupsDistinct, BladesOk, EntriesOk, WindowsOk, GiveWindow, MasksOk,
      AllocShape;
    var k := Bb(who.pe.cmg, blade);
    var i := FindTask(s.tasks, who.tgid);
    if Unassign(t, s, who, blade).1.status == Success {
      var j := FindAlloc(s.tasks[i].allocs, k);
      AtPosition(t, s, i, j, who.pe);
      Facts(t, s, i, j);
      AssignedIffWindow(t, s.tasks[i].allocs[j], who.pe);
      GiveCounts(t, s, i, j, who.pe, s.tasks[i].allocs[j].window[who.pe.ppe]);
    }
  }

  lemma FreeCounts(t: Topology, s: State, who: Caller, k: Bb)
    requires Inv(t, s) && CallerOk(t, who) && CountsExact(Live(s.tasks)) && Inv(t, Free(t, s, who, k).0)
    ensures CountsExact(Live(Free(t, s, who, k).0.tasks))
  {
    hide KeysDistinct, IsLive, IsOwners, GroupsDistinct, BladesOk, EntriesOk, WindowsOk, MasksOk, AllocShape,
      FreeAndReap, Leave;
    var i := FindTask(s.tasks, who.tgid);
    if i < |s.tasks| && FindAlloc(s.tasks[i].allocs, k) < |s.tasks[i].allocs| {
      var j := FindAlloc(s.tasks[i].allocs, k);
      if who.pid == s.tasks[i].pid {
        MasksWeaken(t, s, {k});
        FreeAndReapInv(t, s, i, j);
      } else { LeaveCounts(t, s, who, i, j); }
    }
  }

  lemma AllocateCounts(t: Topology, s: State, who: Caller, cpumask: set<int>)
    requires Inv(t, s) && CountsExact(Live(s.tasks)) && Inv(t, Allocate(t, s, who, cpumask).0)
    ensures CountsExact(Live(Allocate(t, s, who, cpumask).0.tasks))
  {
    hide KeysDistinct, IsLive, IsOwners, GroupsDistinct, EntriesOk, WindowsOk, MasksOk, NewAllocation;
    RegisterLive(t, s, who);
    var s1, c := Register(s, who), CheckCpumask(t, cpumask);
    var i := FindTask(s1.tasks, who.tgid);
    if c >= 0 && FirstZero(s1.bbActive[c], 0, t.nBlades) < t.nBlades {
      var k := Bb(c, FirstZero(s1.bbActive[c], 0, t.nBlades));
      NewAllocationInv(t, s1, i, k, cpumask);
      ReplaceCount(Live(s.tasks), k, Entry(s1.tasks[i].tgid, FreshAlloc(t, k, cpumask)));
    }
  }

  lemma CloseCounts(t: Topology, s: State, who: Caller)
    requires Inv(t, s) && CountsExact(Live(s.tasks)) && Inv(t, Close(t, s, who).0)
    ensures CountsExact(Live(Close(t, s, who).0.tasks))
  {
    hide KeysDistinct, IsLive, IsOwners, GroupsDistinct, BladesOk, EntriesOk, WindowsOk, UnregisterTask;
    var s1 := s.(active := s.active - 1);
    var i := FindTask(s1.tasks, who.tgid);
    if s.active > 0 && i < |s1.tasks| { UnregisterInv(t, s1, i); }
  }

  lemma StepCounts(t: Topology, s: State, op: Op)
    requires Inv(t, s) && OpOk(t, op) && CountsExact(Live(s.tasks)) && !Leaks(t, Abs(s), op)
    ensures Inv(t, Step(t, s, op).0) && CountsExact(Live(Step(t, s, op).0.tasks))
  {
    hide KeysDistinct, IsLive, IsOwners, GroupsDistinct, BladesOk, EntriesOk, WindowsOk, MasksOk, Next, Abs, Leaks,
      Free, Allocate, Assign, Unassign, Close, CountsExact;
    StepRefines(t, s, op);
    match op
    case Open =>
    case CloseOp(who) => CloseCounts(t, s, who);
    case AllocateOp(who, cpumask) => AllocateCounts(t, s, who, cpumask);
    case FreeOp(who, k) => FreeCounts(t, s, who, k);
    case AssignOp(who, blade, window) => AssignCounts(t, s, who, blade, window);
    case UnassignOp(who, blade) => UnassignCounts(t, s, who, blade);
    case ResetOp => EmptyLive(Reset(t, s).tasks); NoCounts();
  }

  lemma NoCounts()
    ensures CountsExact(map[])
  {
  }

  /** One call from an exact state leaves an exact state exactly if it is not a re-assign. */
  lemma StepExact(t: Topology, s: State, op: Op)
    requires Inv(t, s) && OpOk(t, op) && Exact(s)
    ensures Inv(t, Step(t, s, op).0)
    ensures Exact(Step(t, s, op).0) <==> !Leaks(t, Abs(s), op)
  {
    hide KeysDistinct, IsLive, IsOwners, GroupsDistinct, BladesOk, EntriesOk, WindowsOk, MasksOk, Next, Abs, Leaks,
      Step, Tight, CountsExact;
    StepRefines(t, s, op);
    InvAbs(t, s);
    StepTight(t, Abs(s), op, Abs(Step(t, s, op).0), Step(t, s, op).1);
    if !Leaks(t, Abs(s), op) { StepCounts(t, s, op); }
  }

  // ---------- whole runs ----------

  /** Every state along the run satisfies `Exact`. */
  ghost predicate ExactThroughout(t: Topology, s: State, ops: seq<Op>)
    requires Inv(t, s) && (forall op | op in ops :: OpOk(t, op))
    decreases |ops|
  {
    Exact(s) && (ops != [] ==> (StepRefines(t, s, ops[0]); ExactThroughout(t, Step(t, s, ops[0]).0, ops[1..])))
  }

  /** No call of the run is a re-assign. */
  ghost predicate NoReassign(t: Topology, s: State, ops: seq<Op>)
    requires Inv(t, s) && (forall op | op in ops :: OpOk(t, op))
    decreases |ops|
  {
    ops != [] ==>
      !Leaks(t, Abs(s), ops[0]) && (StepRefines(t, s, ops[0]); NoReassign(t, Step(t, s, ops[0]).0, ops[1..]))
  }

  /** Along a run from an exact state the accounting is exact throughout if and only if
      the run has no re-assign. */
  lemma {:induction false} RunExact(t: Topology, s: State, ops: seq<Op>)
    requires Inv(t, s) && Exact(s) && (forall op | op in ops :: OpOk(t, op))
    ensures ExactThroughout(t, s, ops) <==> NoReassign(t, s, ops)
    ensures NoReassign(t, s, ops) ==> (RunRefines(t, s, ops); Exact(Exec(t, s, ops).0))
    decreases |ops|
  {
    hide KeysDistinct, GroupsDistinct, BladesOk, EntriesOk, WindowsOk, MasksOk, Exact, Leaks, Abs, Step;
    if ops != [] {
      StepExact(t, s, ops[0]);
      if !Leaks(t, Abs(s), ops[0]) { RunExact(t, Step(t, s, ops[0]).0, ops[1..]); }
    }
  }

  /** Bitmaps and window registers agree. */
  ghost predicate HwAgrees(t: Topology, s: State)
    requires Inv(t, s)
  {
    InvAbs(t, s);
    Agree(t, Abs(s))
  }

  /** While bitmaps and registers agree, every valid window register names the blade of a
      live allocation that holds that window, if and only if no window has leaked. */
  lemma RegistersOwned(t: Topology, s: State)
    requires Inv(t, s) && HwAgrees(t, s)
    ensures forall pe | pe in s.wreg :: |s.wreg[pe]| == t.nWindows
    ensures Tight(Abs(s)) <==>
            forall pe, w {:trigger s.wreg[pe][w]} | pe in s.wreg && 0 <= w < t.nWindows && s.wreg[pe][w].valid ::
              var k := Bb(pe.cmg, s.wreg[pe][w].blade);
              k in Live(s.tasks) && HasWindow(Live(s.tasks)[k].a, pe, w)
  {
    hide KeysDistinct, IsLive, IsOwners, GroupsDistinct, BladesOk, WindowsOk, MasksOk, Tight, Agree, AbsInv;
    InvAbs(t, s);
    OwnedIffTight(t, Abs(s));
    forall k, pe, w | k in Live(s.tasks)
      ensures Uses(Abs(s).barriers[k], k, pe, w) <==> HasWindow(Live(s.tasks)[k].a, pe, w)
    {
      UsesIsHasWindow(t, Live(s.tasks)[k], k);
    }
  }

  lemma StepHwAgrees(t: Topology, s: State, op: Op)
    requires Inv(t, s) && OpOk(t, op) && HwAgrees(t, s)
    ensures Inv(t, Step(t, s, op).0)
    ensures HwAgrees(t, Step(t, s, op).0) <==> !Misdirected(t, Abs(s), op)
  {
    hide KeysDistinct, IsLive, IsOwners, GroupsDistinct, BladesOk, EntriesOk, WindowsOk, MasksOk, Next, Abs,
      Misdirected, Step, Agree;
    StepRefines(t, s, op);
    InvAbs(t, s);
    InvAbs(t, Step(t, s, op).0);
    StepAgree(t, Abs(s), op, Abs(Step(t, s, op).0), Step(t, s, op).1);
  }

  ghost predicate AgreesThroughout(t: Topology, s: State, ops: seq<Op>)
    requires Inv(t, s) && (forall op | op in ops :: OpOk(t, op))
    decreases |ops|
  {
    HwAgrees(t, s) && (ops != [] ==> (StepRefines(t, s, ops[0]); AgreesThroughout(t, Step(t, s, ops[0]).0, ops[1..])))
  }

  /** No call of the run sends the register write of a free to the wrong window. */
  ghost predicate NoMisdirected(t: Topology, s: State, ops: seq<Op>)
    requires Inv(t, s) && (forall op | op in ops :: OpOk(t, op))
    decreases |ops|
  {
    ops != [] ==>
      !Misdirected(t, Abs(s), ops[0]) && (StepRefines(t, s, ops[0]); NoMisdirected(t, Step(t, s, ops[0]).0, ops[1..]))
  }

  /** Along a run from an agreeing state, bitmaps and registers agree throughout if and
      only if no free by another thread releases a window other than window 0. */
  lemma {:induction false} RunHwAgrees(t: Topology, s: State, ops: seq<Op>)
    requires Inv(t, s) && HwAgrees(t, s) && (forall op | op in ops :: OpOk(t, op))
    ensures AgreesThroughout(t, s, ops) <==> NoMisdirected(t, s, ops)
    ensures NoMisdirected(t, s, ops) ==> (RunRefines(t, s, ops); HwAgrees(t, Exec(t, s, ops).0))
    decreases |ops|
  {
    hide KeysDistinct, GroupsDistinct, BladesOk, EntriesOk, WindowsOk, MasksOk, HwAgrees, Misdirected, Abs, Step;
    if ops != [] {
      StepHwAgrees(t, s, ops[0]);
      if !Misdirected(t, Abs(s), ops[0]) { RunHwAgrees(t, Step(t, s, ops[0]).0, ops[1..]); }
    }
  }

  /** Right after module load the accounting is exact and bitmaps and registers agree. */
  lemma InitExact(t: Topology, s: State)
    requires t.Valid() && Init(t, s)
    ensures Inv(t, s) && Exact(s) && HwAgrees(t, s)
  {
    InitInv(t, s);
    EmptyLive(s.tasks);
  }
}
