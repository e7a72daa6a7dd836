/** The driver's functions on the device object, statement by statement.  Each is proved to
    compute the state-machine step of the same name, to which all theorems about runs apply. */
module Driver {
  import opened Topology
  import opened DriverState
  import opened LiveMap
  import opened Invariant
  import opened Device
  import opened MaskCheck

  // ---------- free ----------

  /** An allocation of which the CPUs `gone` have given their windows back. */
  ghost function PartlyFreed(t: Topology, a: Alloc, gone: set<int>): Alloc {
    a.(window := seq(|a.window|, p requires 0 <= p < |a.window| =>
                   if t.HasPe(Pe(a.cmg, p)) && t.Cpu(Pe(a.cmg, p)) in gone then UNASSIGNED_WIN else a.window[p]),
       assignMask := a.assignMask - gone, assignCount := a.assignCount - |gone|)
  }

  /** The state after the windows of the CPUs `gone` of one allocation are released. */
  ghost function Partly(t: Topology, s: State, i: nat, j: nat, gone: set<int>): State
    requires Shape(t, s) && At(s.tasks, i, j)
  {
    var a := s.tasks[i].allocs[j];
    s.(tasks := SetAlloc(s.tasks, i, j, PartlyFreed(t, a, gone)),
       bwMap := ReleaseBits(t, a.(assignMask := gone), s.bwMap),
       wreg := ReleaseRegs(t, a.(assignMask := gone), s.wreg))
  }

  lemma PartlyNone(t: Topology, s: State, i: nat, j: nat)
    requires Shape(t, s) && At(s.tasks, i, j)
    ensures Partly(t, s, i, j, {}) == s
  {
    hide ReleaseBits, ReleaseRegs, PartlyFreed;
    var a := s.tasks[i].allocs[j];
    ReleaseNone(t, a.(assignMask := {}), s.bwMap, s.wreg);
    PartlyFreedNone(t, a);
    SetSame(s.tasks, i, j);
  }

  lemma PartlyFreedNone(t: Topology, a: Alloc)
    ensures PartlyFreed(t, a, {}) == a
  {
    assert PartlyFreed(t, a, {}).window == a.window;
  }

  lemma ReleaseNone(t: Topology, a: Alloc, bw: map<Pe, set<int>>, wreg: map<Pe, seq<WinReg>>)
    requires a.assignMask == {} && forall pe | pe in wreg :: |wreg[pe]| == t.nWindows
    ensures ReleaseBits(t, a, bw) == bw && ReleaseRegs(t, a, wreg) == wreg
  {
  }

  lemma SetSame(tasks: seq<TaskMap>, i: nat, j: nat)
    requires At(tasks, i, j)
    ensures SetAlloc(tasks, i, j, tasks[i].allocs[j]) == tasks
  {
    assert tasks[i].allocs[j := tasks[i].allocs[j]] == tasks[i].allocs;
  }

  lemma PartlyAlloc(t: Topology, a: Alloc, gone: set<int>, pe: Pe)
    requires t.Valid() && t.HasPe(pe) && pe.cmg == a.cmg && pe.ppe < |a.window| && t.Cpu(pe) !in gone
    ensures var b := PartlyFreed(t, a, gone);
            && |b.window| == |a.window| && b.window[pe.ppe] == a.window[pe.ppe]
            && PartlyFreed(t, a, gone + {t.Cpu(pe)}) ==
               b.(window := b.window[pe.ppe := UNASSIGNED_WIN], assignMask := b.assignMask - {t.Cpu(pe)},
                  assignCount := b.assignCount - 1)
  {
    var b, c := PartlyFreed(t, a, gone), PartlyFreed(t, a, gone + {t.Cpu(pe)});
    forall p | 0 <= p < |a.window| && p != pe.ppe ensures c.window[p] == b.window[p] {
      if t.HasPe(Pe(a.cmg, p)) { assert t.Cpu(Pe(a.cmg, p)) != t.Cpu(pe); }
    }
    assert c.window == b.window[pe.ppe := UNASSIGNED_WIN];
    assert a.assignMask - (gone + {t.Cpu(pe)}) == a.assignMask - gone - {t.Cpu(pe)};
  }

  lemma PartlyBits(t: Topology, a: Alloc, gone: set<int>, pe: Pe, bw: map<Pe, set<int>>)
    requires t.Valid() && t.HasPe(pe) && pe.cmg == a.cmg && pe.ppe < |a.window| && pe in bw
    requires t.Cpu(pe) !in gone && 0 <= a.window[pe.ppe] < t.nWindows
    ensures var bw1 := ReleaseBits(t, a.(assignMask := gone), bw);
            ReleaseBits(t, a.(assignMask := gone + {t.Cpu(pe)}), bw) == bw1[pe := bw1[pe] - {a.window[pe.ppe]}]
  {
    var bw1, bw2 := ReleaseBits(t, a.(assignMask := gone), bw),
        ReleaseBits(t, a.(assignMask := gone + {t.Cpu(pe)}), bw);
    forall x | x in bw && x != pe ensures bw2[x] == bw1[x] {
      if t.HasPe(x) { assert t.Cpu(x) != t.Cpu(pe); }
    }
  }

  lemma PartlyRegs(t: Topology, a: Alloc, gone: set<int>, pe: Pe, wreg: map<Pe, seq<WinReg>>)
    requires t.Valid() && t.HasPe(pe) && pe.cmg == a.cmg && pe.ppe < |a.window| && pe in wreg
    requires forall x | x in wreg :: |wreg[x]| == t.nWindows
    requires t.Cpu(pe) !in gone && 0 <= a.window[pe.ppe] < t.nWindows
    ensures var r1 := ReleaseRegs(t, a.(assignMask := gone), wreg);
            ReleaseRegs(t, a.(assignMask := gone + {t.Cpu(pe)}), wreg) ==
            DriverState.WriteAssign(t, r1, pe, a.window[pe.ppe], false, 0)
  {
    var r1, r2 := ReleaseRegs(t, a.(assignMask := gone), wreg),
        ReleaseRegs(t, a.(assignMask := gone + {t.Cpu(pe)}), wreg);
    forall x | x in wreg && x != pe ensures r2[x] == r1[x] {
      if t.HasPe(x) { assert t.Cpu(x) != t.Cpu(pe); }
    }
  }

  lemma ShapeRegs(t: Topology, s: State)
    requires Shape(t, s)
    ensures forall x | x in s.wreg :: |s.wreg[x]| == t.nWindows
  {
  }

  /** Releasing the window of one more CPU. */
  lemma PartlyMore(t: Topology, s: State, i: nat, j: nat, gone: set<int>, pe: Pe)
    requires Shape(t, s) && t.Valid() && At(s.tasks, i, j) && t.HasPe(pe) && pe in s.bwMap && pe in s.wreg
    requires pe.cmg == s.tasks[i].allocs[j].cmg && pe.ppe < |s.tasks[i].allocs[j].window|
    requires t.Cpu(pe) !in gone && 0 <= s.tasks[i].allocs[j].window[pe.ppe] < t.nWindows
    ensures var s1, w := Partly(t, s, i, j, gone), s.tasks[i].allocs[j].window[pe.ppe];
            var b := s1.tasks[i].allocs[j];
            && pe in s1.bwMap && pe in s1.wreg && |s1.wreg[pe]| == t.nWindows
                && |b.window| == |s.tasks[i].allocs[j].window|
            && b.window[pe.ppe] == w
            && Partly(t, s, i, j, gone + {t.Cpu(pe)}) ==
               s1.(tasks := SetAlloc(s1.tasks, i, j,
                              b.(window := b.window[pe.ppe := UNASSIGNED_WIN], assignMask := b.assignMask - {t.Cpu(pe)},
                                 assignCount := b.assignCount - 1)),
                   bwMap := s1.bwMap[pe := s1.bwMap[pe] - {w}],
                   wreg := DriverState.WriteAssign(t, s1.wreg, pe, w, false, 0))
  {
    hide Shape, ReleaseBits, ReleaseRegs, DriverState.WriteAssign, PartlyFreed;
    var a := s.tasks[i].allocs[j];
    ShapeRegs(t, s);
    PartlyAlloc(t, a, gone, pe);
    PartlyBits(t, a, gone, pe, s.bwMap);
    PartlyRegs(t, a, gone, pe, s.wreg);
    SetTwice(s.tasks, i, j, PartlyFreed(t, a, gone), PartlyFreed(t, a, gone + {t.Cpu(pe)}));
  }

  lemma SetTwice(tasks: seq<TaskMap>, i: nat, j: nat, a: Alloc, b: Alloc)
    requires At(tasks, i, j)
    ensures SetAlloc(SetAlloc(tasks, i, j, a), i, j, b) == SetAlloc(tasks, i, j, b)
  {
    assert tasks[i].allocs[j := a][j := b] == tasks[i].allocs[j := b];
  }

  lemma DropSet(tasks: seq<TaskMap>, i: nat, j: nat, a: Alloc)
    requires At(tasks, i, j)
    ensures DropAlloc(SetAlloc(tasks, i, j, a), i, j) == DropAlloc(tasks, i, j)
  {
    var allocs := tasks[i].allocs;
    assert allocs[j := a][..j] + allocs[j := a][j+1..] == allocs[..j] + allocs[j+1..];
  }

  /** An assigned CPU of an allocation sits on exactly one PE, which is in the allocation's
      CMG and has a window recorded. */
  lemma AssignedPe(t: Topology, s: State, i: nat, j: nat, cpu: int) returns (p: int)
    requires SoftInv(t, s) && At(s.tasks, i, j) && cpu in s.tasks[i].allocs[j].assignMask
    ensures var a := s.tasks[i].allocs[j];
            && t.HasPe(Pe(a.cmg, p)) && Pe(a.cmg, p) in s.bwMap && Pe(a.cmg, p) in s.wreg
            && p < |a.window| && 0 <= a.window[p] < t.nWindows
            && forall q :: (0 <= q < |t.cpus[a.cmg]| && t.cpus[a.cmg][q] == cpu) <==> q == p
  {
    hide KeysDistinct, IsLive, GroupsDistinct, BladesOk, EntriesOk, Bounded, Reserved, Exclusive;
    Facts(t, s, i, j);
    var a := s.tasks[i].allocs[j];
    assert cpu in t.Cpus(a.cmg);
    p :| 0 <= p < |t.cpus[a.cmg]| && t.cpus[a.cmg][p] == cpu;
    assert Pe(a.cmg, p) in t.Pes();
    forall q | 0 <= q < |t.cpus[a.cmg]| && t.cpus[a.cmg][q] == cpu ensures q == p {
      assert t.Cpu(Pe(a.cmg, q)) == t.Cpu(Pe(a.cmg, p));
    }
  }

  lemma PartlyLists(t: Topology, s: State, i: nat, j: nat, gone: set<int>)
    requires SoftInv(t, s) && At(s.tasks, i, j)
    ensures ListsOk(Partly(t, s, i, j, gone).tasks) && At(Partly(t, s, i, j, gone).tasks, i, j)
  {
    hide KeysDistinct, IsLive, GroupsDistinct, BladesOk, EntriesOk, WindowsOk, Shape;
    SetAllocLive(s.tasks, i, j, PartlyFreed(t, s.tasks[i].allocs[j], gone));
  }

  /** Give back the window of one assigned CPU: search its PE, invalidate the register,
      clear the bookkeeping. */
  method ReleaseCpu(dev: HwbDevice, c: int, ghost i: nat, ghost j: nat, alloc: Allocation, cpu: int,
                    ghost s0: State, ghost gone: set<int>)
    requires dev.Valid() && SoftInv(dev.t, s0) && At(s0.tasks, i, j) && c == s0.tasks[i].allocs[j].cmg
    requires i < |dev.taskList| && j < |dev.taskList[i].allocs| && dev.taskList[i].allocs[j] == alloc
    requires dev.model == Partly(dev.t, s0, i, j, gone)
    requires cpu in s0.tasks[i].allocs[j].assignMask && cpu !in gone
    requires alloc in dev.als
    modifies dev`model, dev.hw, dev.cmgs, dev.maps, dev.als, dev.wins
    ensures dev.Valid()
    ensures dev.model == Partly(dev.t, s0, i, j, gone + {cpu})
  {
    hide KeysDistinct, IsLive, GroupsDistinct, BladesOk, EntriesOk, WindowsOk, Shape, Partly, dev.ListsAre;
    ghost var q := AssignedPe(dev.t, s0, i, j, cpu);
    assert dev.CmgIs(dev.cmgs[c], c, dev.model.bbActive[c], dev.model.bwMap);
    var p := 0;
    while dev.cmgs[c].cpus[p] != cpu
      invariant 0 <= p <= q < |dev.cmgs[c].cpus| && dev.cmgs[c].cpus[q] == cpu
      decreases q - p
    {
      p := p + 1;
    }
    var pe := Pe(c, p);
    assert dev.t.Cpu(pe) == cpu;
    PartlyMore(dev.t, s0, i, j, gone, pe);
    PartlyLists(dev.t, s0, i, j, gone);
    dev.NodeAt(i, j);
    var w := alloc.window[p];
    if 0 <= w < dev.t.nWindows {
      dev.WriteAssign(pe, w, false, 0);
      dev.SetRecord(i, j, alloc, p, UNASSIGNED_WIN, alloc.assignMask - {cpu}, alloc.assignCount - 1);
      dev.SetWindows(c, p, dev.cmgs[c].bwMap[p] - {w});
    }
  }

  lemma PartlyAll(t: Topology, s: State, i: nat, j: nat)
    requires Shape(t, s) && At(s.tasks, i, j)
    ensures var a, s1 := s.tasks[i].allocs[j], Partly(t, s, i, j, s.tasks[i].allocs[j].assignMask);
            && DropAlloc(s1.tasks, i, j) == DropAlloc(s.tasks, i, j)
            && s1.bwMap == ReleaseBits(t, a, s.bwMap) && s1.wreg == ReleaseRegs(t, a, s.wreg)
            && s1 == s.(tasks := s1.tasks, bwMap := s1.bwMap, wreg := s1.wreg)
  {
    var a := s.tasks[i].allocs[j];
    assert a.(assignMask := a.assignMask) == a;
    DropSet(s.tasks, i, j, PartlyFreed(t, a, a.assignMask));
  }

  /** Release the windows of all CPUs that are still assigned.  The loop walks the CPU mask
      while its body clears bits of that same mask. */
  method ReleaseAll(dev: HwbDevice, c: int, ghost i: nat, ghost j: nat, alloc: Allocation)
    requires dev.Valid() && SoftInv(dev.t, dev.model) && alloc in dev.als
    requires i < |dev.taskList| && j < |dev.taskList[i].allocs| && dev.taskList[i].allocs[j] == alloc
    requires At(dev.model.tasks, i, j) && c == dev.model.tasks[i].allocs[j].cmg
    modifies dev`model, dev.hw, dev.cmgs, dev.maps, dev.als, dev.wins
    ensures dev.Valid()
    ensures dev.model == Partly(dev.t, old(dev.model), i, j, old(dev.model).tasks[i].allocs[j].assignMask)
  {
    hide SoftInv, Shape, Partly, IsNext, dev.ListsAre, dev.CmgsAre;
    ghost var s0 := dev.model;
    ghost var all := s0.tasks[i].allocs[j].assignMask;
    ghost var gone: set<int> := {};
    PartlyNone(dev.t, s0, i, j);
    PartlyMask(dev, s0, i, j, alloc, gone);
    Nonnegative(dev.t, s0, i, j);
    assert alloc.assignMask == all;
    var more, cpu := NextCpu(alloc.assignMask, -1);
    AheadFirst(all, more, cpu);
    while more
      invariant dev.Valid()
      invariant dev.model == Partly(dev.t, s0, i, j, gone) && alloc.assignMask == all - gone
      invariant Ahead(all, gone, more, cpu)
      decreases |all - gone|
    {
      ReleaseCpu(dev, c, i, j, alloc, cpu, s0, gone);
      PartlyMask(dev, s0, i, j, alloc, gone + {cpu});
      ghost var last := cpu;
      more, cpu := NextCpu(alloc.assignMask, cpu);
      AheadNext(all, gone, last, more, cpu);
      gone := gone + {last};
    }
    AheadOver(all, gone, cpu);
  }

  lemma PartlyMask(dev: HwbDevice, s0: State, i: nat, j: nat, alloc: Allocation, gone: set<int>)
    requires dev.Valid() && SoftInv(dev.t, s0) && At(s0.tasks, i, j) && dev.model == Partly(dev.t, s0, i, j, gone)
    requires i < |dev.taskList| && j < |dev.taskList[i].allocs| && dev.taskList[i].allocs[j] == alloc
    ensures alloc.assignMask == s0.tasks[i].allocs[j].assignMask - gone
  {
    hide KeysDistinct, IsLive, GroupsDistinct, BladesOk, EntriesOk, WindowsOk, Shape;
    PartlyLists(dev.t, s0, i, j, gone);
    dev.NodeAt(i, j);
  }

  lemma Nonnegative(t: Topology, s: State, i: nat, j: nat)
    requires SoftInv(t, s) && At(s.tasks, i, j)
    ensures forall cpu | cpu in s.tasks[i].allocs[j].cpumask :: cpu >= 0
    ensures s.tasks[i].allocs[j].assignMask <= s.tasks[i].allocs[j].cpumask
  {
    hide KeysDistinct, IsLive, GroupsDistinct, BladesOk, EntriesOk, WindowsOk, Shape;
    Facts(t, s, i, j);
    var a := s.tasks[i].allocs[j];
    forall cpu | cpu in a.cpumask ensures cpu >= 0 {
      assert cpu in t.Cpus(a.cmg);
      var p :| 0 <= p < |t.cpus[a.cmg]| && t.cpus[a.cmg][p] == cpu;
      assert t.HasPe(Pe(a.cmg, p)) && t.Cpu(Pe(a.cmg, p)) == cpu;
    }
  }

  /** Free an allocation: its windows, its blade, its place in the list. */
  method FreeAllocation(dev: HwbDevice, c: int, ghost i: nat, tm: TaskMapping, j: nat)
    requires dev.Valid() && SoftInv(dev.t, dev.model)
    requires i < |dev.taskList| && dev.taskList[i] == tm && j < |tm.allocs| && tm in dev.tms
    requires At(dev.model.tasks, i, j) && c == dev.model.tasks[i].allocs[j].cmg
    modifies dev`model, dev.hw, dev.cmgs, dev.maps, dev.als, dev.wins, tm
    ensures dev.Valid() && dev.taskList == old(dev.taskList) && dev.tms == old(dev.tms)
    ensures dev.als == old(dev.als) && dev.wins == old(dev.wins)
    ensures Shape(dev.t, old(dev.model)) && dev.model == DriverState.FreeAllocation(dev.t, old(dev.model), i, j)
  {
    hide KeysDistinct, IsLive, GroupsDistinct, BladesOk, EntriesOk, WindowsOk, Shape, Partly, dev.ListsAre,
      dev.CmgsAre;
    ghost var s0 := dev.model;
    dev.NodeAt(i, j);
    dev.CmgAt(c);
    PartlyAll(dev.t, s0, i, j);
    PartlyLists(dev.t, s0, i, j, s0.tasks[i].allocs[j].assignMask);
    var alloc := tm.allocs[j];
    if alloc.blade in dev.cmgs[c].bbActive {
      if alloc.assignCount > 0 { ReleaseAll(dev, c, i, j, alloc); }
      dev.WriteInit(Bb(alloc.cmg, alloc.blade), {});
      dev.CmgAt(c);
      dev.SetBlade(c, dev.cmgs[c].bbActive - {alloc.blade});
    }
    dev.RemoveAlloc(i, tm, j);
  }

  lemma FreeFirst(t: Topology, s: State, i: nat)
    requires Inv(t, s) && At(s.tasks, i, 0)
    ensures Inv(t, DriverState.FreeAllocation(t, s, i, 0))
    ensures FreeAll(t, DriverState.FreeAllocation(t, s, i, 0), i) == FreeAll(t, s, i)
  {
    hide KeysDistinct, IsLive, GroupsDistinct, BladesOk, EntriesOk, WindowsOk, MasksOk, DriverState.FreeAllocation;
    MasksWeaken(t, s, {KeyOf(s.tasks[i].allocs[0])});
    FreeAllocationInv(t, s, i, 0);
  }

  /** Remove a task: free its allocations from the list head on, then its mapping. */
  method UnregisterTask(dev: HwbDevice, i: nat)
    requires dev.Valid() && Inv(dev.t, dev.model) && i < |dev.taskList|
    modifies dev`model, dev`taskList, dev`numTasks, dev.hw, dev.cmgs, dev.maps, dev.als, dev.wins, dev.tms
    ensures dev.Valid() && dev.tms == old(dev.tms) && dev.als == old(dev.als) && dev.wins == old(dev.wins)
    ensures i < |old(dev.model).tasks| && Shape(dev.t, old(dev.model))
    ensures dev.model == DriverState.UnregisterTask(dev.t, old(dev.model), i)
  {
    hide KeysDistinct, IsLive, GroupsDistinct, BladesOk, EntriesOk, WindowsOk, MasksOk, Shape,
      DriverState.FreeAllocation, dev.CmgsAre;
    ghost var s0 := dev.model;
    var tm := dev.taskList[i];
    dev.TaskAt(i);
    if tm.numAllocs > 0 {
      while tm.allocs != []
        invariant dev.Valid() && Inv(dev.t, dev.model)
        invariant dev.taskList == old(dev.taskList) && dev.tms == old(dev.tms) && dev.als == old(dev.als)
        invariant dev.wins == old(dev.wins)
        invariant FreeAll(dev.t, dev.model, i) == FreeAll(dev.t, s0, i)
        decreases |tm.allocs|
      {
        dev.TaskAt(i);
        dev.NodeAt(i, 0);
        FreeFirst(dev.t, dev.model, i);
        FreeAllocation(dev, tm.allocs[0].cmg, i, tm, 0);
        dev.TaskAt(i);
      }
      dev.TaskAt(i);
    }
    dev.RemoveTask(i);
  }

  /** Free one allocation and drop the task mapping if it has none left. */
  method FreeAndReap(dev: HwbDevice, c: int, i: nat, tm: TaskMapping, j: nat)
    requires dev.Valid() && SoftInv(dev.t, dev.model)
    requires i < |dev.taskList| && dev.taskList[i] == tm && j < |tm.allocs| && tm in dev.tms
    requires At(dev.model.tasks, i, j) && c == dev.model.tasks[i].allocs[j].cmg
    requires MasksOk(dev.t, dev.model, {KeyOf(dev.model.tasks[i].allocs[j])})
    modifies dev`model, dev`taskList, dev`numTasks, dev.hw, dev.cmgs, dev.maps, dev.als, dev.wins, dev.tms
    ensures dev.Valid() && dev.tms == old(dev.tms) && dev.als == old(dev.als) && dev.wins == old(dev.wins)
    ensures Shape(dev.t, old(dev.model)) && dev.model == DriverState.FreeAndReap(dev.t, old(dev.model), i, j)
  {
    hide KeysDistinct, IsLive, GroupsDistinct, BladesOk, EntriesOk, WindowsOk, MasksOk, Shape,
      DriverState.FreeAllocation, DriverState.UnregisterTask, dev.CmgsAre;
    FreeAllocationInv(dev.t, dev.model, i, j);
    FreeAllocation(dev, c, i, tm, j);
    dev.TaskAt(i);
    if tm.numAllocs == 0 { UnregisterTask(dev, i); }
  }
}
