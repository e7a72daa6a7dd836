/** The assignment counters call by call, on every state that the invariant allows. */
module Counters {
  import opened Topology
  import opened DriverState
  import opened LiveMap
  import opened Invariant
  import opened Abstract
  import opened Refinement
  import opened Windows
  import opened Accounting
  import opened Counting
  import opened Properties

  /** What a call adds to the counter of an allocation that stays: a successful assign of
      its blade adds one, also on a PE that has a window already; a successful unassign, or
      a leave by an assigned CPU, takes one away. */
  ghost function Change(t: Topology, s: State, op: Op, k: Bb): int
    requires Inv(t, s) && OpOk(t, op) && k in Live(s.tasks)
  {
    match op
    case AssignOp(who, blade, _) =>
      if Step(t, s, op).1.status == Success && k == Bb(who.pe.cmg, blade) then 1 else 0
    case UnassignOp(who, blade) =>
      if Step(t, s, op).1.status == Success && k == Bb(who.pe.cmg, blade) then -1 else 0
    case FreeOp(who, _) =>
      if LeavesBy(t, Abs(s), op, k) && t.Cpu(who.pe) in Live(s.tasks)[k].a.assignMask then -1 else 0
    case _ => 0
  }

  /** The counters in `live'` are those in `live`, except that blade `k0` counts `d` more. */
  ghost predicate CountsMove(live: map<Bb, Entry>, live': map<Bb, Entry>, k0: Bb, d: int) {
    forall k | k in live && k in live' ::
      live'[k].a.assignCount == live[k].a.assignCount + if k == k0 then d else 0
  }

  lemma AssignCounter(t: Topology, s: State, who: Caller, blade: int, window: int)
    requires Inv(t, s) && CallerOk(t, who) && who.pe in s.bwMap && who.pe in s.wreg
    requires Inv(t, Assign(t, s, who, blade, window).0)
    ensures var (s', r) := Assign(t, s, who, blade, window);
            && Live(s'.tasks).Keys == Live(s.tasks).Keys
            && CountsMove(Live(s.tasks), Live(s'.tasks), Bb(who.pe.cmg, blade), if r.status == Success then 1 else 0)
  {
    hide KeysDistinct, IsLive, IsOwners, GroupsDistinct, BladesOk, EntriesOk, WindowsOk, MasksOk, TakeWindow,
      AllocShape;
    var k := Bb(who.pe.cmg, blade);
    Lookup(s.tasks, who.tgid, k);
    var i := FindTask(s.tasks, who.tgid);
    var r := Assign(t, s, who, blade, window).1;
    if r.status == Success {
      var j := FindAlloc(s.tasks[i].allocs, k);
      AtPosition(t, s, i, j, who.pe);
      TakeWindowInv(t, s, i, j, who.pe, r.value, blade);
      TakeWindowForm(t, s, i, j, who.pe, r.value, blade);
    }
  }

  lemma UnassignCounter(t: Topology, s: State, who: Caller, blade: int)
    requires Inv(t, s) && CallerOk(t, who) && who.pe in s.bwMap && who.pe in s.wreg
    requires Inv(t, Unassign(t, s, who, blade).0)
    ensures var (s', r) := Unassign(t, s, who, blade);
            && Live(s'.tasks).Keys == Live(s.tasks).Keys
            && CountsMove(Live(s.tasks), Live(s'.tasks), Bb(who.pe.cmg, blade), if r.status == Success then -1 else 0)
  {
    hide KeysDistinct, IsLive, IsOwners, GroupsDistinct, BladesOk, EntriesOk, WindowsOk, GiveWindow, MasksOk,
      AllocShape;
    var k := Bb(who.pe.cmg, blade);
    Lookup(s.tasks, who.tgid, k);
    var i := FindTask(s.tasks, who.tgid);
    if Unassign(t, s, who, blade).1.status == Success {
      var j := FindAlloc(s.tasks[i].allocs, k);
      AtPosition(t, s, i, j, who.pe);
      Facts(t, s, i, j);
      AssignedIffWindow(t, s.tasks[i].allocs[j], who.pe);
      GiveCounter(t, s, i, j, who.pe, s.tasks[i].allocs[j].window[who.pe.ppe]);
    }
  }

  lemma GiveCounter(t: Topology, s: State, i: nat, j: nat, pe: Pe, w: nat)
    requires Inv(t, s) && At(s.tasks, i, j) && t.HasPe(pe) && pe.ppe < t.maxPe && w < t.nWindows
    requires pe in s.bwMap && pe.cmg == s.tasks[i].allocs[j].cmg && pe.ppe < |s.tasks[i].allocs[j].window|
    requires t.Cpu(pe) in s.tasks[i].allocs[j].assignMask && s.tasks[i].allocs[j].window[pe.ppe] == w
    ensures var s' := GiveWindow(t, s, i, j, pe, w);
            && Inv(t, s') && Live(s'.tasks).Keys == Live(s.tasks).Keys
            && CountsMove(Live(s.tasks), Live(s'.tasks), KeyOf(s.tasks[i].allocs[j]), -1)
  {
    hide KeysDistinct, IsLive, IsOwners, GroupsDistinct, BladesOk, EntriesOk, WindowsOk, MasksOk, AllocOk;
    Facts(t, s, i, j);
    ClearWindowInv(t, s, GiveWindow(t, s, i, j, pe, w), i, j, pe);
  }

  lemma LeaveCounter(t: Topology, s: State, pe: Pe, i: nat, j: nat)
    requires Inv(t, s) && At(s.tasks, i, j) && t.HasPe(pe) && pe.ppe < t.maxPe
    requires Inv(t, Leave(t, s, i, j, s.tasks[i].allocs[j].cmg, pe))
    ensures var a, s' := s.tasks[i].allocs[j], Leave(t, s, i, j, s.tasks[i].allocs[j].cmg, pe);
            CountsMove(Live(s.tasks), Live(s'.tasks), KeyOf(a),
                       if t.Cpu(pe) in a.cpumask && t.Cpu(pe) in a.assignMask then -1 else 0)
  {
    hide KeysDistinct, IsLive, IsOwners, GroupsDistinct, BladesOk, EntriesOk, WindowsOk, MasksOk, AllocOk,
      FreeAndReap, Leave, Shrink, ReleaseOwnWindow, WriteAssign, WindowMap, AllocShape, CountsMove, Shape;
    var a := s.tasks[i].allocs[j];
    Facts(t, s, i, j);
    if t.Cpu(pe) !in a.cpumask {
      LeaveNothing(t, s, pe, i, j);
      SetMoves(Live(s.tasks), KeyOf(a), Live(s.tasks)[KeyOf(a)], 0);
    } else {
      var s2 := LeaveParts(t, s, pe, i, j);
      SetMoves(Live(s.tasks), KeyOf(a), Live(s2.tasks)[KeyOf(a)], if t.Cpu(pe) in a.assignMask then -1 else 0);
      if a.cpumask - {t.Cpu(pe)} == {} { LastLeaves(t, s2, i, j); }
    }
  }

  lemma SetMoves(live: map<Bb, Entry>, k: Bb, e: Entry, d: int)
    requires k in live && e.a.assignCount == live[k].a.assignCount + d
    ensures CountsMove(live, live[k := e], k, d) && CountsMove(live, live[k := e] - {k}, k, d)
    ensures CountsMove(live, live, k, 0)
  {
  }

  lemma LeaveNothing(t: Topology, s: State, pe: Pe, i: nat, j: nat)
    requires Shape(t, s) && At(s.tasks, i, j) && t.HasPe(pe) && pe.ppe < t.maxPe
    requires t.Cpu(pe) !in s.tasks[i].allocs[j].cpumask
    ensures Leave(t, s, i, j, s.tasks[i].allocs[j].cmg, pe) == s
  {
  }

  lemma FreeCounter(t: Topology, s: State, who: Caller, key: Bb)
    requires Inv(t, s) && CallerOk(t, who) && Inv(t, Free(t, s, who, key).0)
    ensures var s', leaves := Free(t, s, who, key).0, LeavesBy(t, Abs(s), FreeOp(who, key), key);
            CountsMove(Live(s.tasks), Live(s'.tasks), key,
                       if leaves && t.Cpu(who.pe) in Live(s.tasks)[key].a.assignMask then -1 else 0)
  {
    hide KeysDistinct, IsLive, IsOwners, GroupsDistinct, BladesOk, EntriesOk, WindowsOk, MasksOk, AllocShape,
      FreeAndReap, Leave;
    Lookup(s.tasks, who.tgid, key);
    var i := FindTask(s.tasks, who.tgid);
    if i < |s.tasks| && FindAlloc(s.tasks[i].allocs, key) < |s.tasks[i].allocs| {
      var j := FindAlloc(s.tasks[i].allocs, key);
      Facts(t, s, i, j);
      if who.pid == s.tasks[i].pid {
        MasksWeaken(t, s, {key});
        FreeAndReapInv(t, s, i, j);
      } else {
        LeaveCounter(t, s, who.pe, i, j);
      }
    }
  }

  lemma AllocateCounter(t: Topology, s: State, who: Caller, cpumask: set<int>)
    requires Inv(t, s) && Inv(t, Allocate(t, s, who, cpumask).0)
    ensures var live, live' := Live(s.tasks), Live(Allocate(t, s, who, cpumask).0.tasks);
            && (forall k | k in live :: k in live' && live'[k] == live[k])
            && (forall k | k in live' && k !in live :: live'[k].a.assignCount == 0)
  {
    hide KeysDistinct, IsLive, IsOwners, GroupsDistinct, EntriesOk, WindowsOk, MasksOk, NewAllocation;
    RegisterLive(t, s, who);
    var s1, c := Register(s, who), CheckCpumask(t, cpumask);
    var i := FindTask(s1.tasks, who.tgid);
    if c >= 0 && FirstZero(s1.bbActive[c], 0, t.nBlades) < t.nBlades {
      var k := Bb(c, FirstZero(s1.bbActive[c], 0, t.nBlades));
      NewAllocationInv(t, s1, i, k, cpumask);
    }
  }

  lemma CloseCounter(t: Topology, s: State, who: Caller)
    requires Inv(t, s) && Inv(t, Close(t, s, who).0)
    ensures forall k | k in Live(Close(t, s, who).0.tasks) ::
              k in Live(s.tasks) && Live(Close(t, s, who).0.tasks)[k] == Live(s.tasks)[k]
  {
    hide KeysDistinct, IsLive, IsOwners, GroupsDistinct, BladesOk, EntriesOk, WindowsOk, UnregisterTask;
    var s1 := s.(active := s.active - 1);
    var i := FindTask(s1.tasks, who.tgid);
    if s.active > 0 && i < |s1.tasks| { UnregisterInv(t, s1, i); }
  }

  /** In every state with the invariant, whether accounting is exact or not, each counter
      moves exactly as `Change` says, and a new allocation starts at zero. */
  lemma StepCounters(t: Topology, s: State, op: Op, k: Bb)
    requires Inv(t, s) && OpOk(t, op)
    ensures Inv(t, Step(t, s, op).0)
    ensures var live, live' := Live(s.tasks), Live(Step(t, s, op).0.tasks);
            k in live' ==>
              live'[k].a.assignCount == if k in live then live[k].a.assignCount + Change(t, s, op, k) else 0
  {
    hide KeysDistinct, IsLive, IsOwners, GroupsDistinct, BladesOk, EntriesOk, WindowsOk, MasksOk, Next, Free,
      Allocate, Assign, Unassign, Close;
    StepRefines(t, s, op);
    match op
    case Open =>
    case CloseOp(who) => CloseCounter(t, s, who);
    case AllocateOp(who, cpumask) => AllocateCounter(t, s, who, cpumask);
    case FreeOp(who, key) => FreeCounter(t, s, who, key); FreeKeepsKeys(t, s, op, k);
    case AssignOp(who, blade, window) => AssignCounter(t, s, who, blade, window);
    case UnassignOp(who, blade) => UnassignCounter(t, s, who, blade);
    case ResetOp => EmptyLive(Reset(t, s).tasks);
  }

  lemma FreeKeepsKeys(t: Topology, s: State, op: Op, k: Bb)
    requires Inv(t, s) && OpOk(t, op) && op.FreeOp?
    ensures Inv(t, Step(t, s, op).0) && (k in Live(Step(t, s, op).0.tasks) ==> k in Live(s.tasks))
  {
    hide KeysDistinct, IsLive, IsOwners, GroupsDistinct, BladesOk, EntriesOk, WindowsOk, MasksOk, Next, Step, AbsInv;
    StepRefines(t, s, op);
    InvAbs(t, s);
    if k in Live(Step(t, s, op).0.tasks) && k !in Live(s.tasks) {
      StepNewBarrier(t, Abs(s), op, Abs(Step(t, s, op).0), Step(t, s, op).1, k);
    }
  }

  /** From exact counters, with or without leaked windows, a call leaves exact counters if
      and only if it is not a re-assign. */
  lemma CountersExact(t: Topology, s: State, op: Op)
    requires Inv(t, s) && OpOk(t, op) && CountsExact(Live(s.tasks))
    ensures Inv(t, Step(t, s, op).0)
    ensures CountsExact(Live(Step(t, s, op).0.tasks)) <==> !Leaks(t, Abs(s), op)
  {
    hide KeysDistinct, IsLive, IsOwners, GroupsDistinct, BladesOk, EntriesOk, WindowsOk, MasksOk, Next, Step, Leaks;
    StepRefines(t, s, op);
    if Leaks(t, Abs(s), op) { LeakCounts(t, s, op); } else { StepCounts(t, s, op); }
  }

  /** A re-assign is granted and changes no PE's having a window. */
  lemma LeakIs(t: Topology, a: AbsState, op: Op, a': AbsState, r: Reply)
    requires OpOk(t, op) && a.reserved.Keys == t.Pes() == a.regs.Keys && Next(t, a, op, a', r) && Leaks(t, a, op)
    ensures var k := Bb(op.who.pe.cmg, op.blade);
            && r.status == Success && k in a.barriers && k in a'.barriers
            && a'.barriers[k].windows.Keys == a.barriers[k].windows.Keys
  {
  }

  lemma SameCpuWindows(t: Topology, a: AbsState, a': AbsState, k: Bb, cpu: int)
    requires k in a.barriers && k in a'.barriers && a'.barriers[k].windows.Keys == a.barriers[k].windows.Keys
    ensures HasCpuWindow(t, a, k, cpu) <==> HasCpuWindow(t, a', k, cpu)
  {
    if p :| p in a.barriers[k].windows && t.HasPe(Pe(k.cmg, p)) && t.Cpu(Pe(k.cmg, p)) == cpu {
      assert p in a'.barriers[k].windows;
    }
    if p :| p in a'.barriers[k].windows && t.HasPe(Pe(k.cmg, p)) && t.Cpu(Pe(k.cmg, p)) == cpu {
      assert p in a.barriers[k].windows;
    }
  }

  /** A re-assign counts one more for the same assigned CPUs. */
  lemma LeakCounts(t: Topology, s: State, op: Op)
    requires Inv(t, s) && OpOk(t, op) && CountsExact(Live(s.tasks)) && Leaks(t, Abs(s), op)
    ensures Inv(t, Step(t, s, op).0) && !CountsExact(Live(Step(t, s, op).0.tasks))
  {
    hide KeysDistinct, IsLive, IsOwners, GroupsDistinct, BladesOk, EntriesOk, WindowsOk, MasksOk, Next, Step, Leaks,
      HasCpuWindow, AbsInv;
    LeakIsAssign(t, Abs(s), op);
    var k, s' := Bb(op.who.pe.cmg, op.blade), Step(t, s, op).0;
    StepRefines(t, s, op);
    InvAbs(t, s);
    assert Abs(s).reserved.Keys == t.Pes() == Abs(s).regs.Keys by { AbsKeys(t, Abs(s)); }
    LeakIs(t, Abs(s), op, Abs(s'), Step(t, s, op).1);
    StepCounters(t, s, op, k);
    MaskIsAbstract(t, s, k);
    MaskIsAbstract(t, s', k);
    var m, m' := Live(s.tasks)[k].a.assignMask, Live(s'.tasks)[k].a.assignMask;
    forall cpu ensures cpu in m <==> cpu in m' {
      SameCpuWindows(t, Abs(s), Abs(s'), k, cpu);
    }
    assert m' == m;
  }

  lemma LeakIsAssign(t: Topology, a: AbsState, op: Op)
    ensures Leaks(t, a, op) ==> op.AssignOp?
  {
  }

  lemma AbsKeys(t: Topology, a: AbsState)
    requires AbsInv(t, a)
    ensures a.reserved.Keys == t.Pes() == a.regs.Keys
  {
  }
}
