/** The invariant that ties the redundant parts of the driver's state together, and
    its preservation by every step. */
module Invariant {
  import opened Topology
  import opened DriverState
  import opened LiveMap

  // ---------- the invariant ----------

  /** One allocation by itself: windows are recorded exactly for the assigned CPUs, those
      participate, and the assignment counter is at least their number. */
  ghost predicate AllocOk(t: Topology, a: Alloc) {
    && AllocShape(t, a)
    && a.cpumask <= t.Cpus(a.cmg)
    && a.assignMask <= a.cpumask
    && a.assignCount >= |a.assignMask|
    && (forall p | 0 <= p < t.maxPe :: a.window[p] == UNASSIGNED_WIN || 0 <= a.window[p] < t.nWindows)
    && (forall p | 0 <= p < t.maxPe ::
          a.window[p] != UNASSIGNED_WIN <==> (p < |t.cpus[a.cmg]| && t.cpus[a.cmg][p] in a.assignMask))
  }

  /** Allocation `a` holds window `w` of PE `pe`. */
  predicate HasWindow(a: Alloc, pe: Pe, w: int) {
    pe.cmg == a.cmg && 0 <= pe.ppe < |a.window| && a.window[pe.ppe] == w && w != UNASSIGNED_WIN
  }

  ghost predicate EntriesOk(t: Topology, live: map<Bb, Entry>) {
    forall k | k in live :: KeyOf(live[k].a) == k && AllocOk(t, live[k].a)
  }

  /** The active bitmaps hold exactly the live blades. */
  ghost predicate BladesOk(t: Topology, live: map<Bb, Entry>, bb: seq<set<int>>) {
    |bb| == |t.cpus| && (forall c, b | 0 <= c < |bb| :: b in bb[c] <==> Bb(c, b) in live)
  }

  ghost predicate Bounded(t: Topology, bw: map<Pe, set<int>>) {
    bw.Keys == t.Pes() && (forall pe, w | pe in bw && w in bw[pe] :: 0 <= w < t.nWindows)
  }

  /** A held window is reserved in its PE's bitmap. */
  ghost predicate Reserved(live: map<Bb, Entry>, bw: map<Pe, set<int>>) {
    forall k, pe, w | k in live && HasWindow(live[k].a, pe, w) :: pe in bw && w in bw[pe]
  }

  /** No two live allocations hold the same window of the same PE. */
  ghost predicate Exclusive(live: map<Bb, Entry>) {
    forall k, k', pe, w | k in live && k' in live && HasWindow(live[k].a, pe, w) && HasWindow(live[k'].a, pe, w) ::
        k == k'
  }

  ghost predicate WindowsOk(t: Topology, live: map<Bb, Entry>, bw: map<Pe, set<int>>) {
    Bounded(t, bw) && Reserved(live, bw) && Exclusive(live)
  }

  ghost predicate SoftInv(t: Topology, s: State) {
    && t.Valid() && Shape(t, s)
    && ListsOk(s.tasks) && s.numTasks == |s.tasks|
    && EntriesOk(t, Live(s.tasks))
    && BladesOk(t, Live(s.tasks), s.bbActive)
    && WindowsOk(t, Live(s.tasks), s.bwMap)
  }

  /** Every live allocation outside `except` has participants, and its blade register is
      programmed with exactly their image, all BST bits and LBSY clear. */
  ghost predicate MasksOk(t: Topology, s: State, except: set<Bb>)
    requires KeysDistinct(s.tasks)
  {
    forall k | k in Live(s.tasks) && k !in except ::
      && Live(s.tasks)[k].a.cpumask != {}
      && k in s.breg && s.breg[k] == BladeReg(t.PpeMask(k.cmg, Live(s.tasks)[k].a.cpumask), {}, false)
  }

  ghost predicate Inv(t: Topology, s: State) {
    SoftInv(t, s) && MasksOk(t, s, {})
  }

  lemma MasksWeaken(t: Topology, s: State, e: set<Bb>)
    requires ListsOk(s.tasks) && MasksOk(t, s, {})
    ensures MasksOk(t, s, e)
  {
  }

  /** The open counter takes no part in the invariant. */
  lemma ActiveInv(t: Topology, s: State, n: int)
    requires Inv(t, s)
    ensures Inv(t, s.(active := n))
  {
  }

  // ---------- updates of the live map ----------

  lemma EmptyOrNot(m: set<int>)
    ensures m == {} || exists x :: x in m
  {
    if forall x :: x !in m { assert m == {}; }
  }

  lemma PpeMaskNonEmpty(t: Topology, c: int, cpumask: set<int>)
    requires 0 <= c < |t.cpus| && cpumask <= t.Cpus(c) && cpumask != {}
    ensures t.PpeMask(c, cpumask) != {}
  {
    EmptyOrNot(cpumask);
    var cpu :| cpu in cpumask;
    assert cpu in t.Cpus(c);
    var p :| 0 <= p < |t.cpus[c]| && t.cpus[c][p] == cpu;
    assert p in t.PpeMask(c, cpumask);
  }

  lemma FreshAllocOk(t: Topology, k: Bb, cpumask: set<int>)
    requires 0 <= k.cmg < |t.cpus| && 0 <= k.blade < t.nBlades && cpumask <= t.Cpus(k.cmg)
    ensures AllocOk(t, FreshAlloc(t, k, cpumask)) && KeyOf(FreshAlloc(t, k, cpumask)) == k
    ensures forall pe, w :: !HasWindow(FreshAlloc(t, k, cpumask), pe, w)
  {
  }

  /** An entry without windows on a new blade. */
  lemma AddEntry(t: Topology, live: map<Bb, Entry>, bb: seq<set<int>>, bw: map<Pe, set<int>>, k: Bb, e: Entry)
    requires EntriesOk(t, live) && BladesOk(t, live, bb) && WindowsOk(t, live, bw)
    requires AllocOk(t, e.a) && KeyOf(e.a) == k && (forall pe, w :: !HasWindow(e.a, pe, w))
    ensures EntriesOk(t, live[k := e]) && WindowsOk(t, live[k := e], bw)
    ensures BladesOk(t, live[k := e], bb[k.cmg := bb[k.cmg] + {k.blade}])
  {
  }

  lemma ReservedAt(live: map<Bb, Entry>, bw: map<Pe, set<int>>, k: Bb, pe: Pe, w: int)
    requires Reserved(live, bw) && k in live && HasWindow(live[k].a, pe, w)
    ensures pe in bw && w in bw[pe]
  {
  }

  lemma ExclusiveAt(live: map<Bb, Entry>, k: Bb, k': Bb, pe: Pe, w: int)
    requires Exclusive(live) && k in live && k' in live && HasWindow(live[k].a, pe, w) && HasWindow(live[k'].a, pe, w)
    ensures k == k'
  {
  }

  lemma SetReserved(live: map<Bb, Entry>, bw: map<Pe, set<int>>, bw': map<Pe, set<int>>, k: Bb, e: Entry)
    requires Reserved(live, bw) && Exclusive(live) && k in live && bw'.Keys == bw.Keys
    requires forall pe, w | HasWindow(e.a, pe, w) :: pe in bw' && w in bw'[pe]
    requires forall pe, w | pe in bw && w in bw[pe] && w !in bw'[pe] :: HasWindow(live[k].a, pe, w)
    ensures Reserved(live[k := e], bw')
  {
    hide Exclusive;
    var live' := live[k := e];
    forall k', pe, w {:trigger HasWindow(live'[k'].a, pe, w)} | k' in live' && HasWindow(live'[k'].a, pe, w)
      ensures pe in bw' && w in bw'[pe]
    {
      if k' != k {
        ReservedAt(live, bw, k', pe, w);
        if HasWindow(live[k].a, pe, w) { ExclusiveAt(live, k, k', pe, w); }
      }
    }
  }

  lemma SetExclusive(live: map<Bb, Entry>, bw: map<Pe, set<int>>, k: Bb, e: Entry)
    requires Reserved(live, bw) && Exclusive(live) && k in live
    requires forall pe, w | HasWindow(e.a, pe, w) && !HasWindow(live[k].a, pe, w) :: pe in bw && w !in bw[pe]
    ensures Exclusive(live[k := e])
  {
    hide Reserved;
    var live' := live[k := e];
    forall k1, k2, pe, w | k1 in live' && k2 in live' && HasWindow(live'[k1].a, pe, w) && HasWindow(live'[k2].a, pe, w)
      ensures k1 == k2
    {
      if k1 != k { SetExclusiveOne(live, bw, k, e, k1, pe, w); }
      if k2 != k { SetExclusiveOne(live, bw, k, e, k2, pe, w); }
    }
  }

  lemma SetExclusiveOne(live: map<Bb, Entry>, bw: map<Pe, set<int>>, k: Bb, e: Entry, k': Bb, pe: Pe, w: int)
    requires Reserved(live, bw) && Exclusive(live) && k in live && k' in live && k' != k
    requires HasWindow(e.a, pe, w) && !HasWindow(live[k].a, pe, w) ==> pe in bw && w !in bw[pe]
    requires HasWindow(live[k'].a, pe, w)
    ensures !HasWindow(e.a, pe, w)
  {
    hide Reserved, Exclusive;
    ReservedAt(live, bw, k', pe, w);
    if HasWindow(live[k].a, pe, w) { ExclusiveAt(live, k, k', pe, w); }
  }

  /** An entry replaced on its blade: it keeps windows it had, and a window it gains was free. */
  lemma SetEntry(t: Topology, live: map<Bb, Entry>, bb: seq<set<int>>, bw: map<Pe, set<int>>,
                 bw': map<Pe, set<int>>, k: Bb, e: Entry)
    requires EntriesOk(t, live) && BladesOk(t, live, bb) && WindowsOk(t, live, bw)
    requires k in live && AllocOk(t, e.a) && KeyOf(e.a) == k
    requires Bounded(t, bw')
    requires forall pe, w | HasWindow(e.a, pe, w) :: pe in bw' && w in bw'[pe]
    requires forall pe, w | HasWindow(e.a, pe, w) && !HasWindow(live[k].a, pe, w) :: pe in bw && w !in bw[pe]
    requires forall pe, w | pe in bw && w in bw[pe] && w !in bw'[pe] :: HasWindow(live[k].a, pe, w)
    ensures EntriesOk(t, live[k := e]) && BladesOk(t, live[k := e], bb) && WindowsOk(t, live[k := e], bw')
  {
    hide AllocOk, Reserved, Exclusive;
    SetReserved(live, bw, bw', k, e);
    SetExclusive(live, bw, k, e);
  }

  lemma RemoveEntry(t: Topology, live: map<Bb, Entry>, bb: seq<set<int>>, bw: map<Pe, set<int>>,
                    bw': map<Pe, set<int>>, k: Bb)
    requires EntriesOk(t, live) && BladesOk(t, live, bb) && WindowsOk(t, live, bw)
    requires k in live && bw'.Keys == bw.Keys
    requires forall pe, w | pe in bw :: w in bw'[pe] <==> (w in bw[pe] && !HasWindow(live[k].a, pe, w))
    ensures EntriesOk(t, live - {k}) && WindowsOk(t, live - {k}, bw')
    ensures 0 <= k.cmg < |bb| && BladesOk(t, live - {k}, bb[k.cmg := bb[k.cmg] - {k.blade}])
  {
    var live' := live - {k};
    forall k', pe, w | k' in live' && HasWindow(live'[k'].a, pe, w) ensures pe in bw' && w in bw'[pe] {
      assert HasWindow(live[k'].a, pe, w);
    }
  }

  lemma BladeRange(t: Topology, live: map<Bb, Entry>)
    requires EntriesOk(t, live)
    ensures forall k | k in live :: 0 <= k.cmg < |t.cpus| && 0 <= k.blade < t.nBlades
  {
    assert forall k | k in live :: AllocOk(t, live[k].a) && KeyOf(live[k].a) == k;
  }

  // ---------- the single updates ----------

  /** What the invariant says about the allocation at a list position. */
  lemma Facts(t: Topology, s: State, i: int, j: int)
    requires SoftInv(t, s) && At(s.tasks, i, j)
    ensures var a := s.tasks[i].allocs[j];
            && AllocOk(t, a) && a.blade in s.bbActive[a.cmg]
            && KeyOf(a) in Live(s.tasks) && Live(s.tasks)[KeyOf(a)] == Entry(s.tasks[i].tgid, a)
  {
    LiveAt(s.tasks, i, j);
  }

  lemma RegisterLive(t: Topology, s: State, who: Caller)
    requires SoftInv(t, s)
    ensures SoftInv(t, Register(s, who))
    ensures Live(Register(s, who).tasks) == Live(s.tasks)
    ensures MasksOk(t, s, {}) ==> MasksOk(t, Register(s, who), {})
    ensures Owners(Register(s, who).tasks) ==
            if who.tgid in Owners(s.tasks) then Owners(s.tasks) else Owners(s.tasks)[who.tgid := who.pid]
  {
    hide KeysDistinct, IsLive, IsOwners, GroupsDistinct;
    Lookup(s.tasks, who.tgid, Bb(0, 0));
    if FindTask(s.tasks, who.tgid) == |s.tasks| {
      AddTaskLive(s.tasks, who.pid, who.tgid);
    }
  }

  lemma NewAllocationInv(t: Topology, s: State, i: nat, k: Bb, cpumask: set<int>)
    requires Inv(t, s) && i < |s.tasks|
    requires 0 <= k.cmg < |t.cpus| && 0 <= k.blade < t.nBlades && k.blade !in s.bbActive[k.cmg]
    requires cpumask <= t.Cpus(k.cmg) && cpumask != {}
    ensures Inv(t, NewAllocation(t, s, i, k, cpumask))
    ensures Live(NewAllocation(t, s, i, k, cpumask).tasks) ==
            Live(s.tasks)[k := Entry(s.tasks[i].tgid, FreshAlloc(t, k, cpumask))]
    ensures Owners(NewAllocation(t, s, i, k, cpumask).tasks) == Owners(s.tasks)
    ensures NewAllocation(t, s, i, k, cpumask).breg == s.breg[k := BladeReg(t.PpeMask(k.cmg, cpumask), {}, false)]
  {
    hide KeysDistinct, IsLive, IsOwners, GroupsDistinct, WindowsOk, EntriesOk;
    var e := Entry(s.tasks[i].tgid, FreshAlloc(t, k, cpumask));
    assert k !in Live(s.tasks);
    FreshAllocOk(t, k, cpumask);
    AddEntry(t, Live(s.tasks), s.bbActive, s.bwMap, k, e);
    AddAllocLive(s.tasks, i, e.a);
    PpeMaskNonEmpty(t, k.cmg, cpumask);
  }

  lemma NothingReleased(t: Topology, a: Alloc, bw: map<Pe, set<int>>, wreg: map<Pe, seq<WinReg>>)
    requires a.assignCount >= |a.assignMask| && a.assignCount <= 0
    requires forall pe | pe in wreg :: |wreg[pe]| == t.nWindows
    ensures ReleaseBits(t, a, bw) == bw && ReleaseRegs(t, a, wreg) == wreg
  {
    assert a.assignMask == {};
  }

  /** On a state with the invariant the guards of the free do not matter: the windows of
      all assigned CPUs are released, the blade bit is cleared, the mask register stays. */
  lemma FreeAllocationForm(t: Topology, s: State, i: nat, j: nat)
    requires SoftInv(t, s) && At(s.tasks, i, j)
    ensures var a := s.tasks[i].allocs[j];
            FreeAllocation(t, s, i, j) ==
            s.(tasks := DropAlloc(s.tasks, i, j),
               bwMap := ReleaseBits(t, a, s.bwMap),
               wreg := ReleaseRegs(t, a, s.wreg),
               bbActive := s.bbActive[a.cmg := s.bbActive[a.cmg] - {a.blade}])
  {
    hide KeysDistinct, IsLive, IsOwners, GroupsDistinct, WindowsOk, EntriesOk, BladesOk, ReleaseBits, ReleaseRegs;
    Facts(t, s, i, j);
    var a := s.tasks[i].allocs[j];
    if a.assignCount <= 0 { NothingReleased(t, a, s.bwMap, s.wreg); }
  }

  /** An assigned CPU's recorded window is exactly what a free releases. */
  lemma HoldsIsHasWindow(t: Topology, a: Alloc, pe: Pe)
    requires t.Valid() && AllocOk(t, a) && t.HasPe(pe)
    ensures Holds(t, a, pe) <==> (pe.cmg == a.cmg && a.window[pe.ppe] != UNASSIGNED_WIN)
    ensures Holds(t, a, pe) ==> HasWindow(a, pe, a.window[pe.ppe])
  {
  }

  lemma ReleaseBitsSpec(t: Topology, a: Alloc, bw: map<Pe, set<int>>)
    requires t.Valid() && AllocOk(t, a) && bw.Keys == t.Pes()
    ensures forall pe, w | pe in bw :: w in ReleaseBits(t, a, bw)[pe] <==> (w in bw[pe] && !HasWindow(a, pe, w))
  {
    forall pe, w | pe in bw ensures w in ReleaseBits(t, a, bw)[pe] <==> (w in bw[pe] && !HasWindow(a, pe, w)) {
      HoldsIsHasWindow(t, a, pe);
    }
  }

  lemma ReleaseRegsSpec(t: Topology, a: Alloc, wreg: map<Pe, seq<WinReg>>)
    requires t.Valid() && AllocOk(t, a) && wreg.Keys == t.Pes()
    requires forall pe | pe in wreg :: |wreg[pe]| == t.nWindows
    ensures forall pe, w | pe in wreg && 0 <= w < t.nWindows ::
              ReleaseRegs(t, a, wreg)[pe][w] == if HasWindow(a, pe, w) then WinReg(false, 0) else wreg[pe][w]
  {
    forall pe, w | pe in wreg && 0 <= w < t.nWindows
      ensures ReleaseRegs(t, a, wreg)[pe][w] == if HasWindow(a, pe, w) then WinReg(false, 0) else wreg[pe][w]
    {
      HoldsIsHasWindow(t, a, pe);
    }
  }

  lemma FreeAllocationInv(t: Topology, s: State, i: nat, j: nat)
    requires SoftInv(t, s) && At(s.tasks, i, j)
    requires MasksOk(t, s, {KeyOf(s.tasks[i].allocs[j])})
    ensures Inv(t, FreeAllocation(t, s, i, j))
    ensures Live(FreeAllocation(t, s, i, j).tasks) == Live(s.tasks) - {KeyOf(s.tasks[i].allocs[j])}
    ensures Owners(FreeAllocation(t, s, i, j).tasks) == Owners(s.tasks)
  {
    hide KeysDistinct, IsLive, IsOwners, GroupsDistinct, Bounded, Reserved, Exclusive, EntriesOk, BladesOk;
    var a := s.tasks[i].allocs[j];
    var s' := FreeAllocation(t, s, i, j);
    Facts(t, s, i, j);
    FreeAllocationForm(t, s, i, j);
    DropAllocLive(s.tasks, i, j);
    assert Shape(t, s');
    ReleaseBitsSpec(t, a, s.bwMap);
    RemoveEntry(t, Live(s.tasks), s.bbActive, s.bwMap, s'.bwMap, KeyOf(a));
  }

  lemma RemoveCpuCard(m: set<int>, cpu: int)
    ensures cpu in m ==> |m - {cpu}| == |m| - 1
  {
    if cpu in m { assert m == (m - {cpu}) + {cpu}; }
  }

  function ClearRecord(t: Topology, a: Alloc, pe: Pe): Alloc
    requires t.HasPe(pe) && pe.ppe < |a.window|
  {
    a.(window := a.window[pe.ppe := UNASSIGNED_WIN],
       assignMask := a.assignMask - {t.Cpu(pe)}, assignCount := a.assignCount - 1)
  }

  /** Clearing the record of one PE keeps an allocation well-formed. */
  lemma ClearRecordOk(t: Topology, a: Alloc, pe: Pe)
    requires t.Valid() && AllocOk(t, a) && t.HasPe(pe) && pe.cmg == a.cmg && t.Cpu(pe) in a.assignMask
    ensures AllocOk(t, ClearRecord(t, a, pe))
    ensures forall pe', w :: HasWindow(ClearRecord(t, a, pe), pe', w) <==> (HasWindow(a, pe', w) && pe' != pe)
    ensures HasWindow(a, pe, a.window[pe.ppe])
  {
    RemoveCpuCard(a.assignMask, t.Cpu(pe));
    var a1 := ClearRecord(t, a, pe);
    forall p | 0 <= p < t.maxPe
      ensures a1.window[p] != UNASSIGNED_WIN <==> (p < |t.cpus[a.cmg]| && t.cpus[a.cmg][p] in a1.assignMask)
    {
      if p < |t.cpus[a.cmg]| && p != pe.ppe {
        assert t.Cpu(Pe(a.cmg, p)) != t.Cpu(pe);
      }
    }
  }

  /** Giving a held window back keeps the invariant, whatever the register write is. */
  lemma ClearWindowInv(t: Topology, s: State, s': State, i: nat, j: nat, pe: Pe)
    requires Inv(t, s) && At(s.tasks, i, j) && t.HasPe(pe) && pe.ppe < |s.tasks[i].allocs[j].window|
    requires pe.cmg == s.tasks[i].allocs[j].cmg && t.Cpu(pe) in s.tasks[i].allocs[j].assignMask
    requires pe in s.bwMap
    requires var a := s.tasks[i].allocs[j];
             s' == s.(wreg := s'.wreg,
                      tasks := SetAlloc(s.tasks, i, j, ClearRecord(t, a, pe)),
                      bwMap := s.bwMap[pe := s.bwMap[pe] - {a.window[pe.ppe]}])
    requires Shape(t, s')
    ensures Inv(t, s')
    ensures Live(s'.tasks) ==
            Live(s.tasks)[KeyOf(s.tasks[i].allocs[j]) := Entry(s.tasks[i].tgid, s'.tasks[i].allocs[j])]
    ensures Owners(s'.tasks) == Owners(s.tasks)
  {
    hide KeysDistinct, IsLive, IsOwners, GroupsDistinct, Reserved, Exclusive, EntriesOk, BladesOk;
    var a := s.tasks[i].allocs[j];
    Facts(t, s, i, j);
    ClearRecordOk(t, a, pe);
    var e := Entry(s.tasks[i].tgid, ClearRecord(t, a, pe));
    SetAllocLive(s.tasks, i, j, e.a);
    HeldReserved(t, s, KeyOf(a));
    ClearKeepsOthers(a, e.a, s.bwMap, s'.bwMap, pe);
    SetEntry(t, Live(s.tasks), s.bbActive, s.bwMap, s'.bwMap, KeyOf(a), e);
  }

  lemma HeldReserved(t: Topology, s: State, k: Bb)
    requires SoftInv(t, s) && k in Live(s.tasks)
    ensures forall pe, w | HasWindow(Live(s.tasks)[k].a, pe, w) :: pe in s.bwMap && w in s.bwMap[pe]
  {
  }

  lemma ClearKeepsOthers(a: Alloc, a1: Alloc, bw: map<Pe, set<int>>, bw': map<Pe, set<int>>, pe: Pe)
    requires forall pe', w :: HasWindow(a1, pe', w) <==> (HasWindow(a, pe', w) && pe' != pe)
    requires forall pe', w | HasWindow(a, pe', w) :: pe' in bw && w in bw[pe']
    requires pe in bw && 0 <= pe.ppe < |a.window| && bw' == bw[pe := bw[pe] - {a.window[pe.ppe]}]
    ensures forall pe', w | HasWindow(a1, pe', w) :: pe' in bw' && w in bw'[pe']
  {
  }

  lemma ShrinkInv(t: Topology, s: State, i: nat, j: nat, cpu: int)
    requires Inv(t, s) && At(s.tasks, i, j) && cpu !in s.tasks[i].allocs[j].assignMask
    ensures var s' := Shrink(t, s, i, j, s.tasks[i].allocs[j].cmg, cpu);
            && SoftInv(t, s')
            && MasksOk(t, s', if s'.tasks[i].allocs[j].cpumask == {} then {KeyOf(s.tasks[i].allocs[j])} else {})
            && Live(s'.tasks) == Live(s.tasks)[KeyOf(s.tasks[i].allocs[j]) :=
                                   Entry(s.tasks[i].tgid, s'.tasks[i].allocs[j])]
            && Owners(s'.tasks) == Owners(s.tasks)
  {
    hide KeysDistinct, IsLive, IsOwners, GroupsDistinct, Reserved, Exclusive, EntriesOk, BladesOk;
    var a := s.tasks[i].allocs[j];
    var s' := Shrink(t, s, i, j, a.cmg, cpu);
    var e := Entry(s.tasks[i].tgid, a.(cpumask := a.cpumask - {cpu}));
    Facts(t, s, i, j);
    assert AllocOk(t, e.a);
    SetAllocLive(s.tasks, i, j, e.a);
    assert forall pe, w :: HasWindow(e.a, pe, w) <==> HasWindow(a, pe, w);
    HeldReserved(t, s, KeyOf(a));
    SetEntry(t, Live(s.tasks), s.bbActive, s.bwMap, s.bwMap, KeyOf(a), e);
    if e.a.cpumask != {} { PpeMaskNonEmpty(t, a.cmg, e.a.cpumask); }
  }

  function TakeRecord(t: Topology, a: Alloc, pe: Pe, w: int): Alloc
    requires t.HasPe(pe) && pe.ppe < |a.window|
  {
    a.(window := a.window[pe.ppe := w],
       assignMask := a.assignMask + {t.Cpu(pe)}, assignCount := a.assignCount + 1)
  }

  lemma TakeRecordOk(t: Topology, a: Alloc, pe: Pe, w: nat)
    requires t.Valid() && AllocOk(t, a) && t.HasPe(pe) && pe.cmg == a.cmg && w < t.nWindows
    requires t.Cpu(pe) in a.cpumask
    ensures AllocOk(t, TakeRecord(t, a, pe, w))
    ensures forall pe', w' :: HasWindow(TakeRecord(t, a, pe, w), pe', w') <==>
                              (if pe' == pe then w' == w else HasWindow(a, pe', w'))
  {
    var a1 := TakeRecord(t, a, pe, w);
    assert |a1.assignMask| <= |a.assignMask| + 1;
    forall p | 0 <= p < t.maxPe
      ensures a1.window[p] != UNASSIGNED_WIN <==> (p < |t.cpus[a.cmg]| && t.cpus[a.cmg][p] in a1.assignMask)
    {
      if p < |t.cpus[a.cmg]| && p != pe.ppe { assert t.Cpu(Pe(a.cmg, p)) != t.Cpu(pe); }
    }
  }

  lemma TakeWindowForm(t: Topology, s: State, i: nat, j: nat, pe: Pe, w: nat, blade: int)
    requires Shape(t, s) && At(s.tasks, i, j) && t.HasPe(pe) && pe.ppe < t.maxPe && w < t.nWindows
    ensures pe in s.bwMap && pe.ppe < |s.tasks[i].allocs[j].window|
    ensures var s' := TakeWindow(t, s, i, j, pe, w, blade);
            s' == s.(wreg := s'.wreg, bwMap := s.bwMap[pe := s.bwMap[pe] + {w}],
                     tasks := SetAlloc(s.tasks, i, j, TakeRecord(t, s.tasks[i].allocs[j], pe, w)))
  {
    assert pe in t.Pes();
  }

  lemma TakeWindowInv(t: Topology, s: State, i: nat, j: nat, pe: Pe, w: nat, blade: int)
    requires Inv(t, s) && At(s.tasks, i, j) && t.HasPe(pe) && pe.ppe < t.maxPe && w < t.nWindows
    requires pe in s.bwMap && w !in s.bwMap[pe]
    requires pe.cmg == s.tasks[i].allocs[j].cmg && t.Cpu(pe) in s.tasks[i].allocs[j].cpumask
    ensures var s' := TakeWindow(t, s, i, j, pe, w, blade);
            && Inv(t, s')
            && Live(s'.tasks) == Live(s.tasks)[KeyOf(s.tasks[i].allocs[j]) :=
                                   Entry(s.tasks[i].tgid, s'.tasks[i].allocs[j])]
            && Owners(s'.tasks) == Owners(s.tasks)
  {
    hide KeysDistinct, IsLive, IsOwners, GroupsDistinct, Reserved, Exclusive, EntriesOk, BladesOk, TakeWindow;
    var a := s.tasks[i].allocs[j];
    var s' := TakeWindow(t, s, i, j, pe, w, blade);
    Facts(t, s, i, j);
    TakeRecordOk(t, a, pe, w);
    TakeWindowForm(t, s, i, j, pe, w, blade);
    var e := Entry(s.tasks[i].tgid, TakeRecord(t, a, pe, w));
    SetAllocLive(s.tasks, i, j, e.a);
    HeldReserved(t, s, KeyOf(a));
    SetEntry(t, Live(s.tasks), s.bbActive, s.bwMap, s'.bwMap, KeyOf(a), e);
  }

  // ---------- composite updates ----------

  lemma NoEntries(tasks: seq<TaskMap>, i: nat)
    requires ListsOk(tasks) && i < |tasks| && tasks[i].allocs == []
    ensures forall k | k in Live(tasks) :: Live(tasks)[k].tgid != tasks[i].tgid
  {
    forall k | k in Live(tasks) ensures Live(tasks)[k].tgid != tasks[i].tgid {
      var p, q := LivePosition(tasks, k);
    }
  }

  /** Freeing from the list head removes exactly the group's own blades. */
  lemma {:induction false} FreeAllInv(t: Topology, s: State, i: nat)
    requires Inv(t, s) && i < |s.tasks|
    ensures Inv(t, FreeAll(t, s, i))
    ensures Live(FreeAll(t, s, i).tasks) ==
            map k | k in Live(s.tasks) && Live(s.tasks)[k].tgid != s.tasks[i].tgid :: Live(s.tasks)[k]
    ensures Owners(FreeAll(t, s, i).tasks) == Owners(s.tasks)
    ensures FreeAll(t, s, i).tasks[i].tgid == s.tasks[i].tgid && FreeAll(t, s, i).tasks[i].numAllocs == 0
    ensures FreeAll(t, s, i).breg == s.breg && FreeAll(t, s, i).active == s.active
    decreases |s.tasks[i].allocs|
  {
    hide KeysDistinct, IsLive, IsOwners, GroupsDistinct, BladesOk, EntriesOk, WindowsOk, AllocShape;
    if s.tasks[i].allocs == [] {
      NoEntries(s.tasks, i);
    } else {
      var s1 := FreeAllocation(t, s, i, 0);
      LiveAt(s.tasks, i, 0);
      FreeAllocationForm(t, s, i, 0);
      FreeAllocationInv(t, s, i, 0);
      FreeAllInv(t, s1, i);
      assert Live(s1.tasks) == Live(s.tasks) - {KeyOf(s.tasks[i].allocs[0])};
    }
  }

  lemma UnregisterForm(t: Topology, s: State, i: nat)
    requires Shape(t, s) && ListsOk(s.tasks) && i < |s.tasks|
    ensures var s1 := FreeAll(t, s, i);
            UnregisterTask(t, s, i) == s1.(tasks := DropTask(s1.tasks, i), numTasks := s1.numTasks - 1)
  {
  }

  lemma UnregisterInv(t: Topology, s: State, i: nat)
    requires Inv(t, s) && i < |s.tasks|
    ensures Inv(t, UnregisterTask(t, s, i))
    ensures Live(UnregisterTask(t, s, i).tasks) ==
            map k | k in Live(s.tasks) && Live(s.tasks)[k].tgid != s.tasks[i].tgid :: Live(s.tasks)[k]
    ensures Owners(UnregisterTask(t, s, i).tasks) == Owners(s.tasks) - {s.tasks[i].tgid}
    ensures UnregisterTask(t, s, i).breg == s.breg && UnregisterTask(t, s, i).active == s.active
  {
    hide KeysDistinct, IsLive, IsOwners, GroupsDistinct;
    hide BladesOk, EntriesOk, WindowsOk;
    FreeAllInv(t, s, i);
    UnregisterForm(t, s, i);
    var s1 := FreeAll(t, s, i);
    DropTaskLive(s1.tasks, i);
    assert Live(DropTask(s1.tasks, i)) == Live(s1.tasks);
  }

  /** Freeing one allocation removes its blade; the group goes when it has no other. */
  lemma FreeAndReapInv(t: Topology, s: State, i: nat, j: nat)
    requires SoftInv(t, s) && At(s.tasks, i, j)
    requires MasksOk(t, s, {KeyOf(s.tasks[i].allocs[j])})
    ensures Inv(t, FreeAndReap(t, s, i, j))
    ensures Live(FreeAndReap(t, s, i, j).tasks) == Live(s.tasks) - {KeyOf(s.tasks[i].allocs[j])}
    ensures Owners(FreeAndReap(t, s, i, j).tasks) ==
            if exists k :: k in Live(FreeAndReap(t, s, i, j).tasks)
                           && Live(FreeAndReap(t, s, i, j).tasks)[k].tgid == s.tasks[i].tgid
            then Owners(s.tasks) else Owners(s.tasks) - {s.tasks[i].tgid}
  {
    hide KeysDistinct, IsLive, IsOwners, GroupsDistinct, BladesOk, EntriesOk, WindowsOk, MasksOk, FreeAllocation,
      UnregisterTask;
    var s1 := FreeAllocation(t, s, i, j);
    FreeAllocationInv(t, s, i, j);
    if s1.tasks[i].numAllocs == 0 {
      UnregisterInv(t, s1, i);
      NoEntries(s1.tasks, i);
    } else {
      LiveAt(s1.tasks, i, 0);
      var k := KeyOf(s1.tasks[i].allocs[0]);
      assert k in Live(s1.tasks) && Live(s1.tasks)[k].tgid == s.tasks[i].tgid;
    }
  }
}
