/** The entry points of the driver on the device object: allocate, free, assign, unassign,
    open, close and reset.  Each computes the step of the state machine and its reply. */
module Ioctl {
  import opened Topology
  import opened DriverState
  import opened LiveMap
  import opened Invariant
  import opened Device
  import opened MaskCheck
  import Driver
  import Refinement

  // ---------- one window of one PE ----------

  /** The window release inside a free by a thread that did not allocate. */
  method ReleaseOwnWindow(dev: HwbDevice, ghost i: nat, ghost j: nat, alloc: Allocation, pe: Pe)
    requires dev.Valid() && ListsOk(dev.model.tasks) && dev.t.HasPe(pe) && pe.ppe < dev.t.maxPe
    requires i < |dev.taskList| && j < |dev.taskList[i].allocs| && dev.taskList[i].allocs[j] == alloc
    requires alloc in dev.als
    modifies dev`model, dev.hw, dev.cmgs, dev.maps, dev.als, dev.wins
    ensures dev.Valid() && dev.SameLists()
    ensures Shape(dev.t, old(dev.model)) && At(old(dev.model).tasks, i, j)
    ensures dev.model == DriverState.ReleaseOwnWindow(dev.t, old(dev.model), i, j, pe)
  {
    hide KeysDistinct, GroupsDistinct, Shape, dev.CmgsAre, dev.ListsAre;
    dev.NodeAt(i, j);
    dev.CmgAt(pe.cmg);
    ShapeFacts(dev.t, dev.model, pe);
    dev.SetWindows(pe.cmg, pe.ppe, dev.cmgs[pe.cmg].bwMap[pe.ppe] - {alloc.window[pe.ppe]});
    dev.WriteAssign(pe, 0, false, 0);
    dev.SetRecord(i, j, alloc, pe.ppe, UNASSIGNED_WIN, alloc.assignMask - {dev.t.Cpu(pe)}, alloc.assignCount - 1);
  }

  lemma ShapeFacts(t: Topology, s: State, pe: Pe)
    requires Shape(t, s) && t.HasPe(pe)
    ensures pe in s.bwMap && pe in s.wreg && |s.wreg[pe]| == t.nWindows && |s.bbActive| == |t.cpus|
  {
    assert pe in t.Pes();
  }

  /** The window release of an unassign. */
  method GiveWindow(dev: HwbDevice, ghost i: nat, ghost j: nat, alloc: Allocation, pe: Pe, w: int)
    requires dev.Valid() && ListsOk(dev.model.tasks) && dev.t.HasPe(pe) && pe.ppe < dev.t.maxPe
    requires 0 <= w < dev.t.nWindows
    requires i < |dev.taskList| && j < |dev.taskList[i].allocs| && dev.taskList[i].allocs[j] == alloc
    requires alloc in dev.als
    modifies dev`model, dev.hw, dev.cmgs, dev.maps, dev.als, dev.wins
    ensures dev.Valid() && dev.SameLists()
    ensures Shape(dev.t, old(dev.model)) && At(old(dev.model).tasks, i, j)
    ensures dev.model == DriverState.GiveWindow(dev.t, old(dev.model), i, j, pe, w)
  {
    hide KeysDistinct, GroupsDistinct, Shape, dev.CmgsAre, dev.ListsAre;
    dev.NodeAt(i, j);
    dev.CmgAt(pe.cmg);
    ShapeFacts(dev.t, dev.model, pe);
    dev.SetWindows(pe.cmg, pe.ppe, dev.cmgs[pe.cmg].bwMap[pe.ppe] - {w});
    dev.WriteAssign(pe, w, false, 0);
    dev.SetRecord(i, j, alloc, pe.ppe, UNASSIGNED_WIN, alloc.assignMask - {dev.t.Cpu(pe)}, alloc.assignCount - 1);
  }

  /** Programming a window in an assign. */
  method TakeWindow(dev: HwbDevice, ghost i: nat, ghost j: nat, alloc: Allocation, pe: Pe, w: int, blade: int)
    requires dev.Valid() && ListsOk(dev.model.tasks) && dev.t.HasPe(pe) && pe.ppe < dev.t.maxPe
    requires 0 <= w < dev.t.nWindows
    requires i < |dev.taskList| && j < |dev.taskList[i].allocs| && dev.taskList[i].allocs[j] == alloc
    requires alloc in dev.als
    modifies dev`model, dev.hw, dev.cmgs, dev.maps, dev.als, dev.wins
    ensures dev.Valid() && dev.SameLists()
    ensures Shape(dev.t, old(dev.model)) && At(old(dev.model).tasks, i, j)
    ensures dev.model == DriverState.TakeWindow(dev.t, old(dev.model), i, j, pe, w, blade)
  {
    hide KeysDistinct, GroupsDistinct, Shape, dev.CmgsAre, dev.ListsAre;
    dev.NodeAt(i, j);
    dev.CmgAt(pe.cmg);
    ShapeFacts(dev.t, dev.model, pe);
    dev.WriteAssign(pe, w, true, blade);
    dev.CmgAt(pe.cmg);
    dev.SetRecord(i, j, alloc, pe.ppe, w, alloc.assignMask + {dev.t.Cpu(pe)}, alloc.assignCount + 1);
    dev.CmgAt(pe.cmg);
    dev.SetWindows(pe.cmg, pe.ppe, dev.cmgs[pe.cmg].bwMap[pe.ppe] + {w});
  }

  // ---------- free ----------

  /** Take a CPU out of the participants and reprogram the blade. */
  method Shrink(dev: HwbDevice, ghost i: nat, ghost j: nat, alloc: Allocation, c: int, cpu: int)
    requires dev.Valid() && ListsOk(dev.model.tasks) && 0 <= c < |dev.t.cpus|
    requires i < |dev.taskList| && j < |dev.taskList[i].allocs| && dev.taskList[i].allocs[j] == alloc
    requires alloc in dev.als
    requires At(dev.model.tasks, i, j) && forall x | x in dev.model.tasks[i].allocs[j].cpumask :: x >= 0
    modifies dev`model, dev.hw, dev.als, dev.wins
    ensures dev.Valid() && dev.SameLists()
    ensures Shape(dev.t, old(dev.model)) && At(old(dev.model).tasks, i, j)
    ensures dev.model == DriverState.Shrink(dev.t, old(dev.model), i, j, c, cpu)
    ensures alloc.cpumask == old(dev.model).tasks[i].allocs[j].cpumask - {cpu}
  {
    hide KeysDistinct, GroupsDistinct, Shape, dev.CmgsAre, dev.ListsAre;
    dev.NodeAt(i, j);
    dev.CmgAt(c);
    ghost var a := dev.model.tasks[i].allocs[j];
    SetAllocLive(dev.model.tasks, i, j, a.(cpumask := a.cpumask - {cpu}));
    dev.SetCpumask(i, j, alloc, alloc.cpumask - {cpu});
    dev.NodeAt(i, j);
    var mask := CpumaskToPpemask(dev, c, alloc.cpumask);
    dev.WriteInit(Bb(alloc.cmg, alloc.blade), mask);
    dev.NodeAt(i, j);
  }

  /** Free by a thread of the group that is not the allocating one. */
  method Leave(dev: HwbDevice, i: nat, tm: TaskMapping, j: nat, c: int, pe: Pe)
    requires dev.Valid() && Inv(dev.t, dev.model) && dev.t.HasPe(pe) && pe.ppe < dev.t.maxPe
    requires i < |dev.taskList| && dev.taskList[i] == tm && j < |tm.allocs| && tm in dev.tms
    requires At(dev.model.tasks, i, j) && c == dev.model.tasks[i].allocs[j].cmg
    modifies dev`model, dev`taskList, dev`numTasks, dev.hw, dev.cmgs, dev.maps, dev.als, dev.wins, dev.tms
    ensures dev.Valid() && dev.tms == old(dev.tms) && dev.als == old(dev.als) && dev.wins == old(dev.wins)
    ensures Shape(dev.t, old(dev.model)) && dev.model == DriverState.Leave(dev.t, old(dev.model), i, j, c, pe)
  {
    hide KeysDistinct, IsLive, IsOwners, GroupsDistinct, BladesOk, EntriesOk, WindowsOk, MasksOk, Shape, AllocOk,
      WriteAssign, DriverState.ReleaseOwnWindow, DriverState.Shrink, DriverState.FreeAndReap, dev.CmgsAre;
    dev.NodeAt(i, j);
    var cpu, alloc := dev.t.Cpu(pe), tm.allocs[j];
    if cpu in alloc.cpumask {
      ghost var s2 := Refinement.LeaveParts(dev.t, dev.model, pe, i, j);
      ghost var s1 := Refinement.ReleasePart(dev.t, dev.model, pe, i, j);
      Driver.Nonnegative(dev.t, s1, i, j);
      if cpu in alloc.assignMask { ReleaseOwnWindow(dev, i, j, alloc, pe); }
      Shrink(dev, i, j, alloc, c, cpu);
      if alloc.cpumask == {} { Driver.FreeAndReap(dev, c, i, tm, j); }
    }
  }

  method Free(dev: HwbDevice, who: Caller, key: Bb) returns (r: Reply)
    requires dev.Valid() && Inv(dev.t, dev.model) && CallerOk(dev.t, who)
    modifies dev`model, dev`taskList, dev`numTasks, dev.hw, dev.cmgs, dev.maps, dev.als, dev.wins, dev.tms
    ensures dev.Valid() && dev.tms == old(dev.tms) && dev.als == old(dev.als) && dev.wins == old(dev.wins)
    ensures Shape(dev.t, old(dev.model)) && (dev.model, r) == DriverState.Free(dev.t, old(dev.model), who, key)
  {
    hide KeysDistinct, IsLive, IsOwners, GroupsDistinct, BladesOk, EntriesOk, WindowsOk, MasksOk, Shape, AllocOk,
      DriverState.Leave, DriverState.FreeAndReap, dev.CmgsAre;
    var i := dev.GetTaskmap(who.tgid);
    if i == |dev.taskList| { return EINVAL; }
    dev.TaskAt(i);
    var tm := dev.taskList[i];
    var j := dev.GetAllocation(i, tm, key);
    if j == |tm.allocs| { return EINVAL; }
    dev.NodeAt(i, j);
    if who.pid == tm.pid {
      MasksWeaken(dev.t, dev.model, {key});
      Driver.FreeAndReap(dev, key.cmg, i, tm, j);
    } else {
      Leave(dev, i, tm, j, key.cmg, who.pe);
    }
    r := OK;
  }

  // ---------- assign and unassign ----------

  /** Which window an assign tries: the recorded one, the least free one, or the one asked for. */
  method Choose(alloc: Allocation, ghost a: Alloc, t: Topology, used: set<int>, ppe: int,
      window: int) returns (c: Choice)
    requires alloc.Is(a) && 0 <= ppe < |a.window|
    ensures c == ChooseWindow(t, a, used, ppe, window)
  {
    if window < 0 {
      if alloc.window[ppe] == UNASSIGNED_WIN {
        var w := FindFirstZeroBit(used, t.nWindows);
        c := Try(w);
      } else if alloc.window[ppe] in used {
        c := Try(alloc.window[ppe]);
      } else {
        c := Refuse;
      }
    } else {
      c := if window in used then Refuse else Try(window);
    }
  }

  /** Assign with the allocation at hand: the caller participates and gets a free window. */
  method AssignAt(dev: HwbDevice, ghost i: nat, ghost j: nat, alloc: Allocation, pe: Pe, blade: int, window: int)
    returns (r: Reply)
    requires dev.Valid() && ListsOk(dev.model.tasks) && dev.t.HasPe(pe) && pe.ppe < dev.t.maxPe
    requires i < |dev.taskList| && j < |dev.taskList[i].allocs| && dev.taskList[i].allocs[j] == alloc
    requires alloc in dev.als
    modifies dev`model, dev.hw, dev.cmgs, dev.maps, dev.als, dev.wins
    ensures dev.Valid() && dev.SameLists()
    ensures Shape(dev.t, old(dev.model)) && At(old(dev.model).tasks, i, j)
    ensures (dev.model, r) == DriverState.AssignAt(dev.t, old(dev.model), i, j, pe, blade, window)
  {
    hide KeysDistinct, GroupsDistinct, Shape, DriverState.TakeWindow, ChooseWindow, dev.CmgsAre, dev.ListsAre;
    dev.NodeAt(i, j);
    dev.CmgAt(pe.cmg);
    ShapeFacts(dev.t, dev.model, pe);
    var used := dev.cmgs[pe.cmg].bwMap[pe.ppe];
    if dev.t.Cpu(pe) !in alloc.cpumask { return ENODEV; }
    var c := Choose(alloc, dev.model.tasks[i].allocs[j], dev.t, used, pe.ppe, window);
    if c == Refuse { return EINVAL; }
    var w := c.window;
    if 0 <= w < dev.t.nWindows && w !in used {
      TakeWindow(dev, i, j, alloc, pe, w, blade);
      r := Reply(Success, w);
    } else {
      r := ENODEV;
    }
  }

  method Assign(dev: HwbDevice, who: Caller, blade: int, window: int) returns (r: Reply)
    requires dev.Valid() && Inv(dev.t, dev.model) && CallerOk(dev.t, who)
    modifies dev`model, dev.hw, dev.cmgs, dev.maps, dev.als, dev.wins
    ensures dev.Valid() && dev.SameLists()
    ensures Shape(dev.t, old(dev.model))
    ensures (dev.model, r) == DriverState.Assign(dev.t, old(dev.model), who, blade, window)
  {
    hide KeysDistinct, GroupsDistinct, BladesOk, EntriesOk, WindowsOk, MasksOk, Shape, DriverState.AssignAt,
      dev.CmgsAre;
    if !who.pinned { return EINVAL; }
    var i := dev.GetTaskmap(who.tgid);
    if i == |dev.taskList| { return ENODEV; }
    dev.TaskAt(i);
    var tm := dev.taskList[i];
    var j := dev.GetAllocation(i, tm, Bb(who.pe.cmg, blade));
    if j == |tm.allocs| { return ENODEV; }
    dev.NodeAt(i, j);
    r := AssignAt(dev, i, j, tm.allocs[j], who.pe, blade, window);
  }

  method Unassign(dev: HwbDevice, who: Caller, blade: int) returns (r: Reply)
    requires dev.Valid() && Inv(dev.t, dev.model) && CallerOk(dev.t, who)
    modifies dev`model, dev.hw, dev.cmgs, dev.maps, dev.als, dev.wins
    ensures dev.Valid() && dev.SameLists()
    ensures Shape(dev.t, old(dev.model)) && (dev.model, r) == DriverState.Unassign(dev.t, old(dev.model), who, blade)
  {
    hide KeysDistinct, IsLive, IsOwners, GroupsDistinct, BladesOk, EntriesOk, WindowsOk, MasksOk, Shape, AllocOk,
      DriverState.GiveWindow, dev.CmgsAre;
    if !who.pinned { return EINVAL; }
    var i := dev.GetTaskmap(who.tgid);
    if i == |dev.taskList| { return ENODEV; }
    dev.TaskAt(i);
    var tm, pe := dev.taskList[i], who.pe;
    var j := dev.GetAllocation(i, tm, Bb(pe.cmg, blade));
    if j == |tm.allocs| { return EINVAL; }
    dev.NodeAt(i, j);
    dev.CmgAt(pe.cmg);
    ShapeFacts(dev.t, dev.model, pe);
    var w := tm.allocs[j].window[pe.ppe];
    r := EINVAL;
    if 0 <= w < dev.t.nWindows && w in dev.cmgs[pe.cmg].bwMap[pe.ppe] && dev.hw.wreg[pe][w].blade == blade {
      GiveWindow(dev, i, j, tm.allocs[j], pe, w);
      r := OK;
    }
  }

  // ---------- open and close ----------

  method Open(dev: HwbDevice) returns (r: Reply)
    requires dev.Valid()
    modifies dev`activeCount, dev`model
    ensures dev.Valid() && dev.SameLists() && r == Reply(Success, -1)
    ensures dev.model == old(dev.model).(active := old(dev.model).active + 1)
  {
    dev.SetActive(dev.activeCount + 1);
    r := OK;
  }

  method Close(dev: HwbDevice, who: Caller) returns (r: Reply)
    requires dev.Valid() && Inv(dev.t, dev.model) && CallerOk(dev.t, who)
    modifies dev`model, dev`activeCount, dev`taskList, dev`numTasks, dev.hw, dev.cmgs, dev.maps, dev.als, dev.wins,
        dev.tms
    ensures dev.Valid() && dev.tms == old(dev.tms) && dev.als == old(dev.als) && dev.wins == old(dev.wins)
    ensures Shape(dev.t, old(dev.model)) && (dev.model, r) == DriverState.Close(dev.t, old(dev.model), who)
  {
    hide KeysDistinct, IsLive, IsOwners, GroupsDistinct, BladesOk, EntriesOk, WindowsOk, MasksOk, Shape, AllocOk,
      DriverState.UnregisterTask, dev.CmgsAre;
    if dev.activeCount > 0 {
      ActiveInv(dev.t, dev.model, dev.activeCount - 1);
      dev.SetActive(dev.activeCount - 1);
      var i := dev.GetTaskmap(who.tgid);
      if i < |dev.taskList| {
        dev.TaskAt(i);
        if who.pid == dev.taskList[i].pid { Driver.UnregisterTask(dev, i); }
      }
    }
    r := OK;
  }

  // ---------- allocate ----------

  /** Create the caller's task mapping if its thread group has none; returns it. */
  method RegisterTask(dev: HwbDevice, who: Caller) returns (ghost i: nat, tm: TaskMapping)
    requires dev.Valid()
    modifies dev`model, dev`taskList, dev`numTasks, dev`tms
    ensures dev.Valid() && fresh(dev.tms - old(dev.tms)) && dev.als == old(dev.als) && dev.wins == old(dev.wins)
    ensures dev.model == Register(old(dev.model), who)
    ensures i == FindTask(dev.model.tasks, who.tgid) < |dev.taskList| && dev.taskList[i] == tm && tm in dev.tms
  {
    hide Shape, dev.CmgsAre;
    var k := dev.GetTaskmap(who.tgid);
    if k < |dev.taskList| { return k, dev.taskList[k]; }
    tm := new TaskMapping(who);
    dev.PushTask(tm);
    i := 0;
  }

  /** The list entry of a new allocation. */
  method NewEntry(dev: HwbDevice, ghost i: nat, tm: TaskMapping, key: Bb, cpumask: set<int>)
    requires dev.Valid() && ListsOk(dev.model.tasks) && i < |dev.taskList| && dev.taskList[i] == tm
    requires 0 <= key.cmg < |dev.t.cpus| && 0 <= key.blade < dev.t.nBlades
    modifies dev`model, dev`als, dev`wins, tm
    ensures dev.Valid() && fresh(dev.als - old(dev.als)) && fresh(dev.wins - old(dev.wins))
    ensures dev.taskList == old(dev.taskList) && dev.tms == old(dev.tms)
    ensures i < |old(dev.model).tasks|
    ensures dev.model == old(dev.model).(tasks := AddAlloc(old(dev.model).tasks, i, FreshAlloc(dev.t, key, cpumask)))
  {
    hide KeysDistinct, GroupsDistinct, Shape, dev.CmgsAre, dev.ListsAre;
    var alloc := new Allocation(dev.t, key, cpumask);
    dev.PushAlloc(i, tm, alloc, FreshAlloc(dev.t, key, cpumask));
  }

  /** Add an allocation to a task: list entry, blade register, active bit.  Does nothing if
      the mapping already has the blade. */
  method NewAllocation(dev: HwbDevice, ghost i: nat, tm: TaskMapping, key: Bb, cpumask: set<int>)
    requires dev.Valid() && ListsOk(dev.model.tasks)
    requires i < |dev.taskList| && dev.taskList[i] == tm && tm in dev.tms
    requires 0 <= key.cmg < |dev.t.cpus| && 0 <= key.blade < dev.t.nBlades && forall cpu | cpu in cpumask :: cpu >= 0
    modifies dev`model, dev`als, dev`wins, dev.hw, dev.cmgs, dev.maps, tm
    ensures dev.Valid() && fresh(dev.als - old(dev.als)) && fresh(dev.wins - old(dev.wins))
    ensures dev.taskList == old(dev.taskList) && dev.tms == old(dev.tms)
    ensures i < |old(dev.model).tasks| && key.cmg < |old(dev.model).bbActive|
    ensures var allocs := old(dev.model).tasks[i].allocs;
            dev.model == if FindAlloc(allocs, key) < |allocs| then old(dev.model)
                         else DriverState.NewAllocation(dev.t, old(dev.model), i, key, cpumask)
  {
    hide KeysDistinct, GroupsDistinct, Shape, WriteInit, FreshAlloc, dev.CmgsAre, dev.ListsAre;
    dev.TaskAt(i);
    dev.CmgAt(key.cmg);
    var j := dev.GetAllocation(i, tm, key);
    if j < |tm.allocs| { return; }
    NewEntry(dev, i, tm, key, cpumask);
    var mask := CpumaskToPpemask(dev, key.cmg, cpumask);
    dev.WriteInit(key, mask);
    dev.CmgAt(key.cmg);
    dev.SetBlade(key.cmg, dev.cmgs[key.cmg].bbActive + {key.blade});
  }

  lemma RegisterLists(t: Topology, s: State, who: Caller)
    requires Inv(t, s)
    ensures ListsOk(Register(s, who).tasks)
  {
    RegisterLive(t, s, who);
  }

  /** Allocate on a CMG: the caller's task mapping, then the least inactive blade. */
  method AllocateOn(dev: HwbDevice, who: Caller, cmg: int, cpumask: set<int>) returns (r: Reply)
    requires dev.Valid() && Inv(dev.t, dev.model) && 0 <= cmg < |dev.t.cpus| && forall cpu | cpu in cpumask :: cpu >= 0
    modifies dev`model, dev`taskList, dev`numTasks, dev`tms, dev`als, dev`wins, dev.hw, dev.cmgs, dev.maps, dev.tms
    ensures dev.Valid() && fresh(dev.tms - old(dev.tms)) && fresh(dev.als - old(dev.als))
    ensures fresh(dev.wins - old(dev.wins))
    ensures Shape(dev.t, old(dev.model))
    ensures (dev.model, r) == DriverState.AllocateOn(dev.t, old(dev.model), who, cmg, cpumask)
  {
    hide KeysDistinct, IsLive, IsOwners, GroupsDistinct, BladesOk, EntriesOk, WindowsOk, MasksOk, Shape,
      DriverState.NewAllocation, Register, dev.CmgsAre;
    RegisterLists(dev.t, dev.model, who);
    dev.CmgAt(cmg);
    ghost var i: nat;
    var tm: TaskMapping;
    i, tm := RegisterTask(dev, who);
    dev.CmgAt(cmg);
    var bit := FindFirstZeroBit(dev.cmgs[cmg].bbActive, dev.t.nBlades);
    if bit < dev.t.nBlades {
      NewAllocation(dev, i, tm, Bb(cmg, bit), cpumask);
      r := Reply(Success, bit);
    } else {
      r := ENODEV;
    }
  }

  /** The allocate call: the mask check picks the CMG or refuses. */
  method Allocate(dev: HwbDevice, who: Caller, online: set<int>, cpumask: set<int>) returns (r: Reply)
    requires dev.Valid() && Inv(dev.t, dev.model)
    requires online == dev.t.AllCpus() && forall cpu | cpu in cpumask :: cpu >= 0
    modifies dev`model, dev`taskList, dev`numTasks, dev`tms, dev`als, dev`wins, dev.hw, dev.cmgs, dev.maps, dev.tms
    ensures dev.Valid() && fresh(dev.tms - old(dev.tms)) && fresh(dev.als - old(dev.als))
    ensures fresh(dev.wins - old(dev.wins))
    ensures Shape(dev.t, old(dev.model)) && (dev.model, r) == DriverState.Allocate(dev.t, old(dev.model), who, cpumask)
  {
    hide SoftInv, MasksOk, Shape, DriverState.AllocateOn, dev.CmgsAre, dev.ListsAre;
    TopologyValid(dev.t, dev.model);
    var cmg := MaskCheck.CheckCpumask(dev, online, cpumask);
    if |cpumask| >= 2 { CheckIsStep(dev.t, cpumask, cmg); }
    if cmg < 0 { return EINVAL; }
    r := AllocateOn(dev, who, cmg, cpumask);
  }

  lemma TopologyValid(t: Topology, s: State)
    requires SoftInv(t, s)
    ensures t.Valid() && Shape(t, s)
  {
  }
}
