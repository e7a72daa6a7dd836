/** The reset call: clears every PE's registers, empties the lists, clears the tables. */
module Teardown {
  import opened Topology
  import opened DriverState
  import opened LiveMap
  import opened Device
  import opened Ioctl

  function Clear(t: Topology): seq<WinReg> {
    seq(t.nWindows, _ => WinReg(false, 0))
  }

  /** What every PE executes in a reset.  The BST writes come right after the window was
      made invalid, and the blade writes carry the rejected empty mask, so neither has an
      effect: only the window registers are cleared. */
  method ResetPe(dev: HwbDevice, pe: Pe)
    requires dev.Valid() && dev.t.HasPe(pe) && dev.t.Valid()
    modifies dev`model, dev.hw
    ensures dev.Valid() && dev.SameLists()
    ensures dev.model == old(dev.model).(wreg := old(dev.model).wreg[pe := Clear(dev.t)])
  {
    hide dev.CmgsAre, dev.ListsAre, Shape;
    ghost var s0 := dev.model;
    ShapeFacts(dev.t, s0, pe);
    ghost var now := s0.wreg[pe];
    assert s0.wreg[pe := now] == s0.wreg;
    for w := 0 to dev.t.nWindows
      invariant dev.Valid() && dev.SameLists() && |now| == dev.t.nWindows
      invariant dev.model == s0.(wreg := s0.wreg[pe := now])
      invariant forall k | 0 <= k < w :: now[k] == WinReg(false, 0)
    {
      dev.WriteAssign(pe, w, false, 0);
      now := now[w := WinReg(false, 0)];
      dev.WriteSync(pe, w, false);
    }
    assert now == Clear(dev.t);
    for b := 0 to dev.t.nBlades
      invariant dev.Valid() && dev.SameLists() && dev.model == s0.(wreg := s0.wreg[pe := now])
    {
      dev.WriteInit(Bb(pe.cmg, b), {});
    }
  }

  /** The PEs before PE `p` of CMG `c`. */
  predicate Before(pe: Pe, c: int, p: int) {
    pe.cmg < c || (pe.cmg == c && pe.ppe < p)
  }

  function ClearedRegs(t: Topology, wreg: map<Pe, seq<WinReg>>, c: int, p: int): map<Pe, seq<WinReg>> {
    map pe | pe in wreg :: if Before(pe, c, p) then Clear(t) else wreg[pe]
  }

  function ClearedBits(bw: map<Pe, set<int>>, c: int, p: int): map<Pe, set<int>> {
    map pe | pe in bw :: if Before(pe, c, p) then {} else bw[pe]
  }

  lemma BeforeFacts(t: Topology)
    ensures forall pe | pe in t.Pes() :: !Before(pe, 0, 0) && Before(pe, |t.cpus|, 0)
    ensures forall pe, c | pe in t.Pes() && 0 <= c < |t.cpus| :: Before(pe, c, |t.cpus[c]|) <==> Before(pe, c + 1, 0)
  {
  }

  lemma BeforeMore(pe: Pe, c: int, p: int)
    ensures Before(pe, c, p + 1) <==> Before(pe, c, p) || pe == Pe(c, p)
    ensures !Before(Pe(c, p), c, p)
  {
  }

  lemma ClearedEnds(t: Topology, s: State)
    requires Shape(t, s)
    ensures ClearedRegs(t, s.wreg, 0, 0) == s.wreg && ClearedRegs(t, s.wreg, |t.cpus|, 0) == ResetRegs(t, s.wreg)
    ensures ClearedBits(s.bwMap, 0, 0) == s.bwMap && ClearedBits(s.bwMap, |t.cpus|, 0) == map pe | pe in s.bwMap :: {}
    ensures forall c | 0 <= c < |t.cpus| ::
              && ClearedRegs(t, s.wreg, c, |t.cpus[c]|) == ClearedRegs(t, s.wreg, c + 1, 0)
              && ClearedBits(s.bwMap, c, |t.cpus[c]|) == ClearedBits(s.bwMap, c + 1, 0)
  {
    hide Before, AllocShape, ResetRegs, Clear;
    BeforeFacts(t);
    assert s.wreg.Keys == t.Pes() && s.bwMap.Keys == t.Pes();
    RegsEnds(t, s.wreg);
    BitsEnds(t, s.bwMap);
  }

  lemma RegsEnds(t: Topology, wreg: map<Pe, seq<WinReg>>)
    requires wreg.Keys == t.Pes()
    ensures ClearedRegs(t, wreg, 0, 0) == wreg && ClearedRegs(t, wreg, |t.cpus|, 0) == ResetRegs(t, wreg)
    ensures forall c | 0 <= c < |t.cpus| :: ClearedRegs(t, wreg, c, |t.cpus[c]|) == ClearedRegs(t, wreg, c + 1, 0)
  {
    hide Before;
    BeforeFacts(t);
  }

  lemma BitsEnds(t: Topology, bw: map<Pe, set<int>>)
    requires bw.Keys == t.Pes()
    ensures ClearedBits(bw, 0, 0) == bw && ClearedBits(bw, |t.cpus|, 0) == map pe | pe in bw :: {}
    ensures forall c | 0 <= c < |t.cpus| :: ClearedBits(bw, c, |t.cpus[c]|) == ClearedBits(bw, c + 1, 0)
  {
    hide Before;
    BeforeFacts(t);
  }

  lemma ClearedMore(t: Topology, s: State, c: int, p: int)
    requires Shape(t, s) && t.HasPe(Pe(c, p))
    ensures ClearedRegs(t, s.wreg, c, p)[Pe(c, p) := Clear(t)] == ClearedRegs(t, s.wreg, c, p + 1)
    ensures ClearedBits(s.bwMap, c, p)[Pe(c, p) := {}] == ClearedBits(s.bwMap, c, p + 1)
  {
    hide Shape;
    ShapeFacts(t, s, Pe(c, p));
    RegsMore(t, s.wreg, c, p);
    BitsMore(s.bwMap, c, p);
  }

  lemma RegsMore(t: Topology, wreg: map<Pe, seq<WinReg>>, c: int, p: int)
    requires Pe(c, p) in wreg
    ensures ClearedRegs(t, wreg, c, p)[Pe(c, p) := Clear(t)] == ClearedRegs(t, wreg, c, p + 1)
  {
    hide Clear, Before;
    var r, r' := ClearedRegs(t, wreg, c, p)[Pe(c, p) := Clear(t)], ClearedRegs(t, wreg, c, p + 1);
    assert r.Keys == r'.Keys;
    forall pe | pe in wreg ensures r[pe] == r'[pe] { BeforeMore(pe, c, p); }
  }

  lemma BitsMore(bw: map<Pe, set<int>>, c: int, p: int)
    requires Pe(c, p) in bw
    ensures ClearedBits(bw, c, p)[Pe(c, p) := {}] == ClearedBits(bw, c, p + 1)
  {
    hide Before;
    var r, r' := ClearedBits(bw, c, p)[Pe(c, p) := {}], ClearedBits(bw, c, p + 1);
    assert r.Keys == r'.Keys;
    forall pe | pe in bw ensures r[pe] == r'[pe] { BeforeMore(pe, c, p); }
  }

  method ResetRegisters(dev: HwbDevice)
    requires dev.Valid() && dev.t.Valid()
    modifies dev`model, dev.hw
    ensures dev.Valid() && dev.SameLists()
    ensures dev.model == old(dev.model).(wreg := ResetRegs(dev.t, old(dev.model).wreg))
  {
    hide dev.CmgsAre, dev.ListsAre, Shape, ClearedRegs, ClearedBits, ResetRegs;
    ghost var s0 := dev.model;
    ClearedEnds(dev.t, s0);
    for c := 0 to |dev.t.cpus|
      invariant dev.Valid() && dev.SameLists()
      invariant dev.model == s0.(wreg := ClearedRegs(dev.t, s0.wreg, c, 0))
    {
      for p := 0 to |dev.t.cpus[c]|
        invariant dev.Valid() && dev.SameLists()
        invariant dev.model == s0.(wreg := ClearedRegs(dev.t, s0.wreg, c, p))
      {
        ResetPe(dev, Pe(c, p));
        ClearedMore(dev.t, s0, c, p);
      }
    }
  }

  /** Delete all allocations of all tasks, and the tasks. */
  method DeleteTasks(dev: HwbDevice)
    requires dev.Valid() && ListsOk(dev.model.tasks)
    modifies dev`model, dev`taskList, dev`numTasks, dev.tms
    ensures dev.Valid() && dev.tms == old(dev.tms) && dev.als == old(dev.als) && dev.wins == old(dev.wins)
    ensures dev.model == old(dev.model).(tasks := [], numTasks := dev.model.numTasks)
  {
    hide dev.CmgsAre, Shape, KeysDistinct, GroupsDistinct, IsOwners;
    while dev.taskList != []
      invariant dev.Valid() && dev.tms == old(dev.tms) && dev.als == old(dev.als) && dev.wins == old(dev.wins)
      invariant ListsOk(dev.model.tasks)
      invariant dev.model == old(dev.model).(tasks := dev.model.tasks, numTasks := dev.model.numTasks)
      decreases |dev.taskList|
    {
      var tm := dev.taskList[0];
      ghost var list := dev.taskList;
      dev.TaskAt(0);
      while tm.allocs != []
        invariant dev.Valid() && dev.tms == old(dev.tms) && dev.als == old(dev.als) && dev.wins == old(dev.wins)
        invariant ListsOk(dev.model.tasks)
        invariant dev.taskList == list
        invariant dev.model == old(dev.model).(tasks := dev.model.tasks, numTasks := dev.model.numTasks)
        decreases |tm.allocs|
      {
        dev.NodeAt(0, 0);
        DropAllocLists(dev.model.tasks, 0, 0);
        dev.RemoveAlloc(0, tm, 0);
      }
      DropTaskLists(dev.model.tasks, 0);
      dev.RemoveTask(0);
    }
  }

  function ClearedBlades(bb: seq<set<int>>, c: int): seq<set<int>> {
    seq(|bb|, k requires 0 <= k < |bb| => if k < c then {} else bb[k])
  }

  lemma ClearedBladesMore(bb: seq<set<int>>)
    ensures ClearedBlades(bb, 0) == bb && ClearedBlades(bb, |bb|) == seq(|bb|, _ => {})
    ensures forall c | 0 <= c < |bb| :: ClearedBlades(bb, c)[c := {}] == ClearedBlades(bb, c + 1)
  {
  }

  method ClearTables(dev: HwbDevice)
    requires dev.Valid()
    modifies dev`model, dev.cmgs, dev.maps
    ensures dev.Valid() && dev.SameLists()
    ensures dev.model == old(dev.model).(bbActive := seq(|old(dev.model).bbActive|, _ => {}),
                                         bwMap := map pe | pe in old(dev.model).bwMap :: {})
  {
    hide dev.CmgsAre, dev.ListsAre, Shape, ClearedRegs, ClearedBits;
    ghost var s0 := dev.model;
    ClearedEnds(dev.t, s0);
    ClearedBladesMore(s0.bbActive);
    dev.Sizes();
    for c := 0 to |dev.cmgs|
      invariant dev.Valid() && dev.SameLists()
      invariant dev.model == s0.(bbActive := ClearedBlades(s0.bbActive, c), bwMap := ClearedBits(s0.bwMap, c, 0))
    {
      dev.SetBlade(c, {});
      dev.CmgAt(c);
      for p := 0 to |dev.cmgs[c].cpus|
        invariant dev.Valid() && dev.SameLists()
        invariant dev.model == s0.(bbActive := ClearedBlades(s0.bbActive, c + 1), bwMap := ClearedBits(s0.bwMap, c, p))
      {
        dev.SetWindows(c, p, {});
        ClearedMore(dev.t, s0, c, p);
      }
    }
  }

  method Reset(dev: HwbDevice) returns (r: Reply)
    requires dev.Valid() && dev.t.Valid() && ListsOk(dev.model.tasks)
    modifies dev`model, dev`taskList, dev`numTasks, dev`activeCount, dev.hw, dev.cmgs, dev.maps, dev.tms
    ensures dev.Valid() && dev.tms == old(dev.tms) && dev.als == old(dev.als) && dev.wins == old(dev.wins)
    ensures dev.model == DriverState.Reset(dev.t, old(dev.model)) && r == Reply(Success, -1)
  {
    hide dev.CmgsAre, dev.ListsAre, Shape, KeysDistinct, GroupsDistinct;
    ResetRegisters(dev);
    DeleteTasks(dev);
    dev.ClearCounters();
    ClearTables(dev);
    r := OK;
  }
}
