/** The driver's records as objects, and the kernel primitives that update them: list
    insertion and removal, bit and CPU-mask updates, register writes.  `model` is the
    value-level state that the objects stand for; every primitive says how it changes. */
module Device {
  import opened Topology
  import opened DriverState
  import opened LiveMap

  class Allocation {
    const cmg: int
    const blade: int
    const window: array<int>
    var assignCount: int
    var assignMask: set<int>
    var cpumask: set<int>

    ghost predicate Is(a: Alloc)
      reads this, window
    {
      && cmg == a.cmg && blade == a.blade && window[..] == a.window
      && assignCount == a.assignCount && assignMask == a.assignMask && cpumask == a.cpumask
    }

    method Record(p: int, w: int, mask: set<int>, count: int, ghost a: Alloc)
      requires Is(a) && 0 <= p < window.Length
      modifies this, window
      ensures Is(a.(window := a.window[p := w], assignMask := mask, assignCount := count))
    {
      window[p] := w;
      assignMask := mask;
      assignCount := count;
    }

    /** A new allocation: no window is assigned on any PE. */
    constructor (t: Topology, key: Bb, cpus: set<int>)
      ensures Is(FreshAlloc(t, key, cpus)) && fresh(window)
    {
      cmg, blade, assignCount, assignMask, cpumask := key.cmg, key.blade, 0, {}, cpus;
      window := new int[t.maxPe];
      new;
      for i := 0 to t.maxPe
        invariant forall p | 0 <= p < i :: window[p] == UNASSIGNED_WIN
        invariant assignCount == 0 && assignMask == {} && cpumask == cpus
      {
        window[i] := UNASSIGNED_WIN;
      }
    }
  }

  class TaskMapping {
    const pid: int
    const tgid: int
    var allocs: seq<Allocation>
    var numAllocs: int

    constructor (who: Caller)
      ensures pid == who.pid && tgid == who.tgid && allocs == [] && numAllocs == 0
    {
      pid, tgid, allocs, numAllocs := who.pid, who.tgid, [], 0;
    }
  }

  /** A CMG: the CPUs of its PEs, which blades are active, which windows each PE has in use. */
  class CmgDevice {
    const cmgId: int
    const cpus: seq<int>
    var bbActive: set<int>
    const bwMap: array<set<int>>

    constructor (cmgId: int, cpus: seq<int>)
      ensures this.cmgId == cmgId && this.cpus == cpus && bbActive == {} && fresh(bwMap)
      ensures bwMap.Length == |cpus| && forall p | 0 <= p < |cpus| :: bwMap[p] == {}
    {
      this.cmgId, this.cpus, bbActive := cmgId, cpus, {};
      bwMap := new set<int>[|cpus|](_ => {});
    }
  }

  /** The hardware registers of all CMGs and PEs. */
  class Hardware {
    var wreg: map<Pe, seq<WinReg>>
    var breg: map<Bb, BladeReg>
  }

  class HwbDevice {
    const t: Topology
    const cmgs: seq<CmgDevice>
    ghost const maps: set<array<set<int>>>
    const hw: Hardware
    var activeCount: int
    var numTasks: int
    var taskList: seq<TaskMapping>
    ghost var model: State
    ghost var tms: set<TaskMapping>
    ghost var als: set<Allocation>
    ghost var wins: set<array<int>>

    /** Every allocation has a window table of its own, and `wins` holds them. */
    ghost predicate Apart()
      reads this`als, this`wins
    {
      && (forall a | a in als :: a.window in wins)
      && (forall a, b | a in als && b in als && a.window == b.window :: a == b)
    }

    /** The CMG objects carry these bitmaps. */
    ghost predicate CmgsAre(bb: seq<set<int>>, bw: map<Pe, set<int>>)
      reads cmgs, maps
    {
      && |cmgs| == |t.cpus| == |bb|
      && (forall c | 0 <= c < |cmgs| :: cmgs[c].bwMap in maps)
      && (forall c, d | 0 <= c < |cmgs| && 0 <= d < |cmgs| && cmgs[c].bwMap == cmgs[d].bwMap :: c == d)
      && (forall c | 0 <= c < |cmgs| :: CmgIs(cmgs[c], c, bb[c], bw))
    }

    ghost predicate CmgIs(cmg: CmgDevice, c: int, bits: set<int>, bw: map<Pe, set<int>>)
      requires 0 <= c < |t.cpus|
      reads cmg, cmg.bwMap
    {
      && cmg.cmgId == c && cmg.cpus == t.cpus[c] && cmg.bbActive == bits && cmg.bwMap.Length == |cmg.cpus|
      && (forall p | 0 <= p < |cmg.cpus| :: Pe(c, p) in bw && cmg.bwMap[p] == bw[Pe(c, p)])
    }

    /** The lists consist of nodes in `tms` and `als` that carry these values. */
    ghost predicate ListsAre(tasks: seq<TaskMap>)
      reads this`taskList, this`tms, this`als, this`wins, tms, als, wins
    {
      && |taskList| == |tasks|
      && (forall i | 0 <= i < |taskList| :: taskList[i] in tms && HeadIs(taskList[i], tasks[i]))
      && (forall i, j | 0 <= i < |taskList| && 0 <= j < |taskList[i].allocs| ::
            taskList[i].allocs[j] in als && taskList[i].allocs[j].window in wins
                && taskList[i].allocs[j].Is(tasks[i].allocs[j]))
    }

    ghost predicate HeadIs(tm: TaskMapping, v: TaskMap)
      reads tm
    {
      tm.pid == v.pid && tm.tgid == v.tgid && tm.numAllocs == v.numAllocs && |tm.allocs| == |v.allocs|
    }

    /** The objects stand for `model`. */
    ghost predicate Valid()
      reads this, hw, cmgs, maps, tms, als, wins
    {
      && ListsAre(model.tasks) && Apart()
      && CmgsAre(model.bbActive, model.bwMap)
      && Shape(t, model)
      && hw.wreg == model.wreg && hw.breg == model.breg
      && numTasks == model.numTasks && activeCount == model.active
    }

    /** The lists hold the same objects as before. */
    twostate predicate SameLists()
      reads this, taskList
    {
      taskList == old(taskList) && tms == old(tms) && als == old(als) && wins == old(wins)
      && forall i | 0 <= i < |taskList| :: taskList[i].allocs == old(taskList[i].allocs)
    }

    static lemma LoadedState(t: Topology, wreg: map<Pe, seq<WinReg>>, breg: map<Bb, BladeReg>) returns (s: State)
      requires wreg.Keys == t.Pes() && forall pe | pe in wreg :: wreg[pe] == seq(t.nWindows, _ => WinReg(false, 0))
      ensures s.tasks == [] && s.numTasks == 0 && s.active == 0 && s.wreg == wreg && s.breg == breg
      ensures |s.bbActive| == |t.cpus| && forall c | 0 <= c < |t.cpus| :: s.bbActive[c] == {}
      ensures Init(t, s) && Shape(t, s)
      ensures forall c, p | 0 <= c < |t.cpus| && 0 <= p < |t.cpus[c]| :: Pe(c, p) in s.bwMap && s.bwMap[Pe(c, p)] == {}
    {
      s := State([], 0, 0, seq(|t.cpus|, _ => {}), map pe | pe in t.Pes() :: {}, wreg, breg);
    }

    /** The device after module load: the topology tables are filled, the bitmaps and the
        window registers are clear, and there is no task. */
    constructor (t: Topology, cmgs: seq<CmgDevice>, hw: Hardware)
      requires |cmgs| == |t.cpus|
      requires forall c | 0 <= c < |cmgs| ::
                 cmgs[c].cmgId == c && cmgs[c].cpus == t.cpus[c] && cmgs[c].bbActive == {}
                 && cmgs[c].bwMap.Length == |t.cpus[c]| && forall p | 0 <= p < |t.cpus[c]| :: cmgs[c].bwMap[p] == {}
      requires forall c, d | 0 <= c < |cmgs| && 0 <= d < |cmgs| && cmgs[c].bwMap == cmgs[d].bwMap :: c == d
      requires hw.wreg.Keys == t.Pes()
      requires forall pe | pe in hw.wreg :: hw.wreg[pe] == seq(t.nWindows, _ => WinReg(false, 0))
      ensures Valid() && Init(t, model) && this.t == t
    {
      hide Init, Shape, Allocation.Is, HeadIs;
      ghost var loaded := LoadedState(t, hw.wreg, hw.breg);
      this.t, this.cmgs, this.hw, maps := t, cmgs, hw, set cmg | cmg in cmgs :: cmg.bwMap;
      activeCount, numTasks, taskList, tms, als, wins := 0, 0, [], {}, {}, {};
      model := loaded;
      new;
      forall c | 0 <= c < |cmgs| ensures cmgs[c].bwMap in maps && CmgIs(cmgs[c], c, model.bbActive[c], model.bwMap) {
        assert cmgs[c] in cmgs;
      }
      assert CmgsAre(model.bbActive, model.bwMap);
    }

    // ---------- registers ----------

    method WriteInit(key: Bb, mask: set<int>)
      requires Valid()
      modifies hw, this`model
      ensures Valid() && SameLists()
      ensures model == old(model).(breg := DriverState.WriteInit(t, old(model).breg, key, mask))
    {
      if key.blade < 0 || key.blade >= t.nBlades || mask == {} { return; }
      hw.breg := hw.breg[key := BladeReg(mask, {}, false)];
      model := model.(breg := hw.breg);
    }

    lemma ShapeReg(s: State, pe: Pe, w: int, r: WinReg)
      requires Shape(t, s) && t.HasPe(pe)
      ensures pe in s.wreg && |s.wreg[pe]| == t.nWindows
      ensures 0 <= w < t.nWindows ==> Shape(t, s.(wreg := s.wreg[pe := s.wreg[pe][w := r]]))
    {
      assert pe in t.Pes();
    }

    method WriteAssign(pe: Pe, window: int, valid: bool, blade: int)
      requires Valid() && t.HasPe(pe)
      modifies hw, this`model
      ensures Valid() && SameLists()
      ensures pe in old(model).wreg && |old(model).wreg[pe]| == t.nWindows
      ensures model == old(model).(wreg := DriverState.WriteAssign(t, old(model).wreg, pe, window, valid, blade))
    {
      hide Shape;
      ShapeReg(model, pe, window, WinReg(valid, blade));
      if window < 0 || window >= t.nWindows || blade < 0 || blade >= t.nBlades { return; }
      hw.wreg := hw.wreg[pe := hw.wreg[pe][window := WinReg(valid, blade)]];
      model := model.(wreg := hw.wreg);
    }

    method WriteSync(pe: Pe, window: int, on: bool)
      requires Valid() && t.HasPe(pe)
      modifies hw, this`model
      ensures Valid() && SameLists()
      ensures pe in old(model).wreg && |old(model).wreg[pe]| == t.nWindows
      ensures model == old(model).(breg := DriverState.WriteSync(t, old(model).wreg, old(model).breg, pe, window, on))
    {
      hide Shape;
      ShapeReg(model, pe, -1, WinReg(false, 0));
      if window < 0 || window >= t.nWindows || !hw.wreg[pe][window].valid { return; }
      var key := Bb(pe.cmg, hw.wreg[pe][window].blade);
      if key in hw.breg {
        var bst := hw.breg[key].bst;
        hw.breg := hw.breg[key := hw.breg[key].(bst := if on then bst + {pe.ppe} else bst - {pe.ppe})];
        ShapeBlades(model, hw.breg);
        model := model.(breg := hw.breg);
      }
    }

    lemma ShapeBlades(s: State, breg: map<Bb, BladeReg>)
      requires Shape(t, s)
      ensures Shape(t, s.(breg := breg))
    {
    }

    // ---------- bitmaps ----------

    method SetBlade(c: int, bits: set<int>)
      requires Valid() && 0 <= c < |cmgs|
      modifies cmgs[c], this`model
      ensures Valid() && SameLists()
      ensures c < |old(model).bbActive| && model == old(model).(bbActive := old(model).bbActive[c := bits])
    {
      hide ListsAre;
      cmgs[c].bbActive := bits;
      model := model.(bbActive := model.bbActive[c := bits]);
    }

    method SetWindows(c: int, p: int, bits: set<int>)
      requires Valid() && 0 <= c < |cmgs| && 0 <= p < |cmgs[c].cpus|
      modifies cmgs[c].bwMap, this`model
      ensures Valid() && SameLists()
      ensures model == old(model).(bwMap := old(model).bwMap[Pe(c, p) := bits])
    {
      hide ListsAre;
      assert CmgIs(cmgs[c], c, model.bbActive[c], model.bwMap);
      cmgs[c].bwMap[p] := bits;
      model := model.(bwMap := model.bwMap[Pe(c, p) := bits]);
    }

    // ---------- one allocation ----------

    lemma ShapeSet(s: State, i: nat, j: nat, a: Alloc)
      requires Shape(t, s) && At(s.tasks, i, j) && AllocShape(t, a)
      ensures Shape(t, s.(tasks := SetAlloc(s.tasks, i, j, a)))
    {
    }

    /** The node at a list position stands for the allocation there, and occurs only there. */
    lemma NodeAt(i: nat, j: nat)
      requires Valid() && KeysDistinct(model.tasks) && i < |taskList| && j < |taskList[i].allocs|
      ensures taskList[i] in tms && taskList[i].allocs[j] in als
      ensures At(model.tasks, i, j) && taskList[i].allocs[j].Is(model.tasks[i].allocs[j])
      ensures AllocShape(t, model.tasks[i].allocs[j])
      ensures HeadIs(taskList[i], model.tasks[i])
      ensures forall k, l | 0 <= k < |taskList| && 0 <= l < |taskList[k].allocs|
                && taskList[k].allocs[l] == taskList[i].allocs[j] ::
                k == i && l == j
    {
      forall k, l | 0 <= k < |taskList| && 0 <= l < |taskList[k].allocs|
          && taskList[k].allocs[l] == taskList[i].allocs[j]
        ensures k == i && l == j
      {
        assert At(model.tasks, k, l) && At(model.tasks, i, j);
        assert taskList[k].allocs[l].Is(model.tasks[k].allocs[l]);
      }
    }

    lemma CmgAt(c: int)
      requires Valid() && 0 <= c < |t.cpus|
      ensures c < |cmgs| == |model.bbActive| && CmgIs(cmgs[c], c, model.bbActive[c], model.bwMap)
      ensures cmgs[c].bwMap in maps
    {
    }

    lemma Sizes()
      requires Valid()
      ensures |cmgs| == |t.cpus| == |model.bbActive|
    {
    }

    /** A task mapping's node occurs once in the list. */
    lemma TaskAt(i: nat)
      requires Valid() && GroupsDistinct(model.tasks) && i < |taskList|
      ensures taskList[i] in tms && HeadIs(taskList[i], model.tasks[i])
      ensures forall k | 0 <= k < |taskList| && taskList[k] == taskList[i] :: k == i
    {
    }

    /** All nodes of the lists other than `alloc` carry these values. */
    ghost predicate OthersAre(tasks: seq<TaskMap>, alloc: Allocation)
      reads this`taskList, this`tms, this`als, this`wins, tms, als - {alloc}, wins - {alloc.window}
    {
      && |taskList| == |tasks|
      && (forall i | 0 <= i < |taskList| :: taskList[i] in tms && HeadIs(taskList[i], tasks[i]))
      && (forall i, j | 0 <= i < |taskList| && 0 <= j < |taskList[i].allocs| && taskList[i].allocs[j] != alloc ::
            && taskList[i].allocs[j] in als
            && taskList[i].allocs[j].window in wins && taskList[i].allocs[j].window != alloc.window
            && taskList[i].allocs[j].Is(tasks[i].allocs[j]))
    }

    lemma OthersOf(alloc: Allocation)
      requires Valid() && alloc in als
      ensures OthersAre(model.tasks, alloc)
    {
      hide CmgsAre, Shape;
    }

    /** One node changed and the others are as before. */
    lemma OneChanged(tasks: seq<TaskMap>, i: nat, j: nat, alloc: Allocation, a: Alloc)
      requires OthersAre(tasks, alloc) && At(tasks, i, j) && alloc in als && alloc.window in wins && alloc.Is(a)
      requires forall k, l | 0 <= k < |taskList| && 0 <= l < |taskList[k].allocs| ::
                 taskList[k].allocs[l] == alloc <==> k == i && l == j
      ensures ListsAre(SetAlloc(tasks, i, j, a))
    {
      hide Allocation.Is;
      var tasks' := SetAlloc(tasks, i, j, a);
      forall k | 0 <= k < |taskList| ensures HeadIs(taskList[k], tasks'[k]) { }
    }

    /** Record window `w` for PE `p`, with the given assignment mask and counter. */
    method SetRecord(ghost i: nat, ghost j: nat, alloc: Allocation, p: int, w: int, mask: set<int>, count: int)
      requires Valid() && ListsOk(model.tasks) && i < |taskList| && j < |taskList[i].allocs|
      requires taskList[i].allocs[j] == alloc
      requires 0 <= p < alloc.window.Length
      modifies alloc, alloc.window, this`model
      ensures Valid() && SameLists()
      ensures At(old(model).tasks, i, j) && p < |old(model).tasks[i].allocs[j].window|
      ensures var a := old(model).tasks[i].allocs[j];
              model == old(model).(tasks := SetAlloc(old(model).tasks, i, j,
                                     a.(window := a.window[p := w], assignMask := mask, assignCount := count)))
    {
      hide CmgsAre, Shape, KeysDistinct, GroupsDistinct, ListsAre, OthersAre;
      NodeAt(i, j);
      ghost var a := model.tasks[i].allocs[j];
      ghost var a1 := a.(window := a.window[p := w], assignMask := mask, assignCount := count);
      ShapeSet(model, i, j, a1);
      OthersOf(alloc);
      alloc.Record(p, w, mask, count, a);
      OneChanged(model.tasks, i, j, alloc, a1);
      model := model.(tasks := SetAlloc(model.tasks, i, j, a1));
    }

    /** Replace the participants of an allocation. */
    method SetCpumask(ghost i: nat, ghost j: nat, alloc: Allocation, cpus: set<int>)
      requires Valid() && ListsOk(model.tasks) && i < |taskList| && j < |taskList[i].allocs|
      requires taskList[i].allocs[j] == alloc
      modifies alloc, this`model
      ensures Valid() && SameLists()
      ensures At(old(model).tasks, i, j)
      ensures model ==
                old(model).(tasks := SetAlloc(old(model).tasks, i, j, old(model).tasks[i].allocs[j].(cpumask := cpus)))
    {
      hide CmgsAre, Shape, KeysDistinct, GroupsDistinct, ListsAre, OthersAre;
      NodeAt(i, j);
      ghost var a1 := model.tasks[i].allocs[j].(cpumask := cpus);
      ShapeSet(model, i, j, a1);
      OthersOf(alloc);
      alloc.cpumask := cpus;
      OneChanged(model.tasks, i, j, alloc, a1);
      model := model.(tasks := SetAlloc(model.tasks, i, j, a1));
    }

    // ---------- list insertion and removal ----------

    /** Insert a task mapping without allocations at the list head. */
    method PushTask(tm: TaskMapping)
      requires Valid() && tm !in tms && tm.allocs == [] && tm.numAllocs == 0
      modifies this`taskList, this`numTasks, this`model, this`tms
      ensures Valid() && taskList == [tm] + old(taskList) && tms == old(tms) + {tm} && als == old(als)
      ensures wins == old(wins)
      ensures model == old(model).(tasks := [TaskMap(tm.pid, tm.tgid, [], 0)] + old(model).tasks,
                                   numTasks := old(model).numTasks + 1)
    {
      hide CmgsAre;
      taskList, numTasks, tms := [tm] + taskList, numTasks + 1, tms + {tm};
      model := model.(tasks := [TaskMap(tm.pid, tm.tgid, [], 0)] + model.tasks, numTasks := numTasks);
    }

    lemma ShapeAdd(s: State, i: nat, a: Alloc)
      requires Shape(t, s) && i < |s.tasks| && AllocShape(t, a)
      ensures Shape(t, s.(tasks := AddAlloc(s.tasks, i, a)))
    {
    }

    /** Insert an allocation at the head of a task's list and count it. */
    method PushAlloc(ghost i: nat, tm: TaskMapping, alloc: Allocation, ghost a: Alloc)
      requires Valid() && ListsOk(model.tasks) && i < |taskList| && taskList[i] == tm
      requires alloc !in als && alloc.window !in wins && alloc.Is(a) && AllocShape(t, a)
      modifies tm, this`model, this`als, this`wins
      ensures Valid() && taskList == old(taskList) && tms == old(tms)
      ensures als == old(als) + {alloc} && wins == old(wins) + {alloc.window}
      ensures |old(model).tasks| == |taskList| && model == old(model).(tasks := AddAlloc(old(model).tasks, i, a))
    {
      hide CmgsAre, Shape, KeysDistinct, GroupsDistinct;
      TaskAt(i);
      ShapeAdd(model, i, a);
      ghost var before := tm.allocs;
      tm.allocs := [alloc] + tm.allocs;
      tm.numAllocs := tm.numAllocs + 1;
      als, wins := als + {alloc}, wins + {alloc.window};
      model := model.(tasks := AddAlloc(model.tasks, i, a));
      assert Apart();
      forall k | 0 <= k < |taskList| ensures taskList[k] in tms && HeadIs(taskList[k], model.tasks[k]) { }
      forall k, l | 0 <= k < |taskList| && 0 <= l < |taskList[k].allocs|
        ensures taskList[k].allocs[l] in als && taskList[k].allocs[l].window in wins
        ensures taskList[k].allocs[l].Is(model.tasks[k].allocs[l])
      {
        if k == i && l > 0 { assert tm.allocs[l] == before[l-1]; }
      }
    }

    /** Take an allocation out of a task's list and count it. */
    method RemoveAlloc(ghost i: nat, tm: TaskMapping, j: nat)
      requires Valid() && ListsOk(model.tasks) && i < |taskList| && taskList[i] == tm && j < |tm.allocs|
      modifies tm, this`model
      ensures Valid() && taskList == old(taskList) && tms == old(tms) && als == old(als) && wins == old(wins)
      ensures At(old(model).tasks, i, j) && model == old(model).(tasks := DropAlloc(old(model).tasks, i, j))
    {
      hide CmgsAre, Shape, KeysDistinct, GroupsDistinct;
      TaskAt(i);
      ShapeDrop(model, i, j);
      ghost var before := tm.allocs;
      tm.allocs := tm.allocs[..j] + tm.allocs[j+1..];
      tm.numAllocs := tm.numAllocs - 1;
      model := model.(tasks := DropAlloc(model.tasks, i, j));
      forall k, l | 0 <= k < |taskList| && 0 <= l < |taskList[k].allocs|
        ensures taskList[k].allocs[l] in als && taskList[k].allocs[l].window in wins
        ensures taskList[k].allocs[l].Is(model.tasks[k].allocs[l])
      {
        if k == i { assert tm.allocs[l] == before[if l < j then l else l + 1]; }
      }
    }

    lemma ShapeDrop(s: State, i: nat, j: nat)
      requires Shape(t, s) && At(s.tasks, i, j)
      ensures Shape(t, s.(tasks := DropAlloc(s.tasks, i, j)))
    {
    }

    /** Take a task mapping out of the list and count it. */
    method RemoveTask(i: nat)
      requires Valid() && i < |taskList|
      modifies this`taskList, this`numTasks, this`model
      ensures Valid() && taskList == old(taskList)[..i] + old(taskList)[i+1..] && tms == old(tms)
      ensures als == old(als) && wins == old(wins)
      ensures i < |old(model).tasks|
      ensures model == old(model).(tasks := DropTask(old(model).tasks, i), numTasks := old(model).numTasks - 1)
    {
      hide CmgsAre;
      taskList, numTasks := taskList[..i] + taskList[i+1..], numTasks - 1;
      model := model.(tasks := DropTask(model.tasks, i), numTasks := numTasks);
    }

    method SetActive(n: int)
      requires Valid()
      modifies this`activeCount, this`model
      ensures Valid() && SameLists() && model == old(model).(active := n)
    {
      activeCount := n;
      model := model.(active := n);
    }

    method ClearCounters()
      requires Valid()
      modifies this`activeCount, this`numTasks, this`model
      ensures Valid() && SameLists() && model == old(model).(numTasks := 0, active := 0)
    {
      numTasks, activeCount := 0, 0;
      model := model.(numTasks := 0, active := 0);
    }

    // ---------- searches ----------

    /** The task mapping of a thread group, if there is one. */
    method GetTaskmap(tgid: int) returns (i: nat)
      requires Valid()
      ensures i == FindTask(model.tasks, tgid) && i <= |taskList|
    {
      i := 0;
      while i < |taskList|
        invariant i <= |taskList|
        invariant forall k | 0 <= k < i :: model.tasks[k].tgid != tgid
      {
        if taskList[i].tgid == tgid { break; }
        i := i + 1;
      }
      FindTaskUnique(model.tasks, tgid, i);
    }

    lemma FindTaskUnique(tasks: seq<TaskMap>, tgid: int, i: nat)
      requires i <= |tasks| && (forall k | 0 <= k < i :: tasks[k].tgid != tgid)
                 && (i < |tasks| ==> tasks[i].tgid == tgid)
      ensures FindTask(tasks, tgid) == i
    {
    }

    /** The allocation of a blade in a task's list, if there is one. */
    method GetAllocation(ghost i: nat, tm: TaskMapping, key: Bb) returns (j: nat)
      requires Valid() && ListsOk(model.tasks) && i < |taskList| && taskList[i] == tm
      ensures i < |model.tasks| && j == FindAlloc(model.tasks[i].allocs, key) && j <= |tm.allocs|
    {
      j := 0;
      assert HeadIs(tm, model.tasks[i]);
      while j < |tm.allocs|
        invariant j <= |tm.allocs|
        invariant forall k | 0 <= k < j :: KeyOf(model.tasks[i].allocs[k]) != key
      {
        NodeAt(i, j);
        if tm.allocs[j].cmg == key.cmg && tm.allocs[j].blade == key.blade { break; }
        j := j + 1;
      }
      FindAllocUnique(model.tasks[i].allocs, key, j);
    }

    lemma FindAllocUnique(allocs: seq<Alloc>, key: Bb, j: nat)
      requires j <= |allocs| && (forall k | 0 <= k < j :: KeyOf(allocs[k]) != key)
                 && (j < |allocs| ==> KeyOf(allocs[j]) == key)
      ensures FindAlloc(allocs, key) == j
    {
    }
  }

  /** The least clear bit below `n`, or `n`. */
  method FindFirstZeroBit(bits: set<int>, n: nat) returns (b: nat)
    ensures b == FirstZero(bits, 0, n)
  {
    b := 0;
    while b < n && b in bits
      invariant b <= n
      invariant forall k | 0 <= k < b :: k in bits
    {
      b := b + 1;
    }
  }
}
