/** Every step of the driver, on every state its invariant allows, is a step of the
    abstract machine with the same reply; so is every run from module load on. */
module Refinement {
  import opened Topology
  import opened DriverState
  import opened LiveMap
  import opened Invariant
  import opened Release
  import opened Abstract

  function WindowMap(a: Alloc): map<int, int> {
    map p | 0 <= p < |a.window| && a.window[p] != UNASSIGNED_WIN :: a.window[p]
  }

  function AbsBarrier(e: Entry): Barrier {
    Barrier(e.tgid, e.a.cpumask, WindowMap(e.a))
  }

  ghost function AbsMap(live: map<Bb, Entry>): map<Bb, Barrier> {
    map k | k in live :: AbsBarrier(live[k])
  }

  ghost function Abs(s: State): AbsState
    requires ListsOk(s.tasks)
  {
    AbsState(AbsMap(Live(s.tasks)), Owners(s.tasks), s.bwMap, s.wreg, s.active)
  }

  lemma AbsMapSet(live: map<Bb, Entry>, k: Bb, e: Entry)
    ensures AbsMap(live[k := e]) == AbsMap(live)[k := AbsBarrier(e)]
  {
  }

  lemma AbsMapDrop(live: map<Bb, Entry>, gone: set<Bb>)
    ensures AbsMap(live - gone) == AbsMap(live) - gone
  {
  }

  lemma UsesIsHasWindow(t: Topology, e: Entry, k: Bb)
    requires AllocOk(t, e.a) && KeyOf(e.a) == k
    ensures forall pe, w :: Uses(AbsBarrier(e), k, pe, w) <==> HasWindow(e.a, pe, w)
  {
  }

  lemma UsedByIsHeldBy(t: Topology, s: State, gone: set<Bb>)
    requires SoftInv(t, s)
    ensures forall pe, w :: UsedBy(Abs(s), gone, pe, w) <==> HeldBy(Live(s.tasks), gone, pe, w)
  {
    hide KeysDistinct, IsLive, IsOwners, GroupsDistinct;
    var live, a := Live(s.tasks), Abs(s);
    forall pe, w ensures UsedBy(a, gone, pe, w) <==> HeldBy(live, gone, pe, w) {
      if UsedBy(a, gone, pe, w) {
        var k :| k in gone && k in a.barriers && Uses(a.barriers[k], k, pe, w);
        UsesIsHasWindow(t, live[k], k);
      }
      if HeldBy(live, gone, pe, w) {
        var k :| k in gone && k in live && HasWindow(live[k].a, pe, w);
        UsesIsHasWindow(t, live[k], k);
        assert k in a.barriers;
      }
    }
  }

  lemma FreedIsRemoved(t: Topology, s: State, s': State, gone: set<Bb>)
    requires SoftInv(t, s) && SoftInv(t, s') && Freed(t, s, s', gone)
    ensures Removed(t, Abs(s), Abs(s'), gone)
  {
    hide KeysDistinct, IsLive, IsOwners, GroupsDistinct, BladesOk, EntriesOk, WindowsOk;
    UsedByIsHeldBy(t, s, gone);
  }

  lemma ReapIs(s': State, tgid: int)
    requires ListsOk(s'.tasks)
    ensures HasAny(Abs(s'), tgid) <==> exists k :: k in Live(s'.tasks) && Live(s'.tasks)[k].tgid == tgid
  {
    hide KeysDistinct, IsLive, IsOwners, GroupsDistinct;
    if k :| k in Live(s'.tasks) && Live(s'.tasks)[k].tgid == tgid { assert Has(Abs(s'), tgid, k); }
    if k :| Has(Abs(s'), tgid, k) { assert k in Live(s'.tasks); }
  }

  // ---------- the operations one by one ----------

  lemma OwnerCloseRefines(t: Topology, s: State, i: nat)
    requires Inv(t, s) && i < |s.tasks|
    ensures Inv(t, UnregisterTask(t, s, i))
    ensures var a, a', g := Abs(s), Abs(UnregisterTask(t, s, i)), s.tasks[i].tgid;
            Removed(t, a, a', set k | k in a.barriers && Has(a, g, k)) && a'.owners == a.owners - {g}
  {
    hide KeysDistinct, IsLive, IsOwners, GroupsDistinct, BladesOk, EntriesOk, WindowsOk;
    var a, g := Abs(s), s.tasks[i].tgid;
    UnregisterFreed(t, s, i);
    FreedIsRemoved(t, s, UnregisterTask(t, s, i), GroupKeys(Live(s.tasks), g));
    assert (set k | k in a.barriers && Has(a, g, k)) == GroupKeys(Live(s.tasks), g);
  }

  lemma CloseRefines(t: Topology, s: State, who: Caller)
    requires Inv(t, s) && CallerOk(t, who)
    ensures Inv(t, Close(t, s, who).0)
    ensures CloseNext(t, Abs(s), Abs(Close(t, s, who).0), who, Close(t, s, who).1)
  {
    hide KeysDistinct, IsLive, IsOwners, GroupsDistinct, BladesOk, EntriesOk, WindowsOk, MasksOk, Removed, Shape,
      UnregisterTask;
    if s.active > 0 {
      var s1 := s.(active := s.active - 1);
      ActiveInv(t, s, s.active - 1);
      Lookup(s.tasks, who.tgid, Bb(0, 0));
      var i := FindTask(s.tasks, who.tgid);
      if i < |s.tasks| && who.pid == s.tasks[i].pid {
        UnregisterInv(t, s1, i);
        OwnerCloseRefines(t, s1, i);
        var a, a1 := Abs(s), Abs(s1);
        assert (set k | k in a.barriers && Has(a, who.tgid, k)) == (set k | k in a1.barriers && Has(a1, who.tgid, k));
      }
    }
  }

  lemma OwnerFreeRefines(t: Topology, s: State, i: nat, j: nat)
    requires Inv(t, s) && At(s.tasks, i, j)
    ensures Inv(t, FreeAndReap(t, s, i, j))
    ensures Removed(t, Abs(s), Abs(FreeAndReap(t, s, i, j)), {KeyOf(s.tasks[i].allocs[j])})
    ensures Reaped(Abs(s), Abs(FreeAndReap(t, s, i, j)), s.tasks[i].tgid)
  {
    hide KeysDistinct, IsLive, IsOwners, GroupsDistinct, BladesOk, EntriesOk, WindowsOk, MasksOk, FreeAndReap,
      Removed, HasAny, Freed;
    var k := KeyOf(s.tasks[i].allocs[j]);
    var s' := FreeAndReap(t, s, i, j);
    MasksWeaken(t, s, {k});
    FreeAndReapInv(t, s, i, j);
    FreeAndReapFreed(t, s, i, j);
    FreedIsRemoved(t, s, s', {k});
    ReapIs(s', s.tasks[i].tgid);
  }

  lemma FreeRefines(t: Topology, s: State, who: Caller, k: Bb)
    requires Inv(t, s) && CallerOk(t, who) && who.pe in s.bwMap && who.pe in s.wreg
    ensures Inv(t, Free(t, s, who, k).0)
    ensures FreeNext(t, Abs(s), Abs(Free(t, s, who, k).0), who, k, Free(t, s, who, k).1)
  {
    hide KeysDistinct, IsLive, IsOwners, GroupsDistinct, BladesOk, EntriesOk, WindowsOk, MasksOk, FreeAndReap, Leave,
      Removed, Reaped, LeaveNext;
    Lookup(s.tasks, who.tgid, k);
    var i := FindTask(s.tasks, who.tgid);
    if i < |s.tasks| && FindAlloc(s.tasks[i].allocs, k) < |s.tasks[i].allocs| {
      var j := FindAlloc(s.tasks[i].allocs, k);
      if who.pid == s.tasks[i].pid { OwnerFreeRefines(t, s, i, j); } else { LeaveRefines(t, s, who, i, j); }
    }
  }

  /** The first part of leaving: an assigned CPU gives its window back. */
  lemma ReleasePart(t: Topology, s: State, pe: Pe, i: nat, j: nat) returns (s1: State)
    requires Inv(t, s) && At(s.tasks, i, j) && t.HasPe(pe) && pe.ppe < t.maxPe
    requires t.Cpu(pe) in s.tasks[i].allocs[j].cpumask
    ensures var a := s.tasks[i].allocs[j];
            && pe in t.Pes() && pe.ppe < |a.window| && pe.cmg == a.cmg
            && s1 == (if t.Cpu(pe) in a.assignMask then ReleaseOwnWindow(t, s, i, j, pe) else s)
            && Inv(t, s1) && At(s1.tasks, i, j)
            && s1.tasks[i].tgid == s.tasks[i].tgid
            && s1.tasks[i].allocs[j] == (if t.Cpu(pe) in a.assignMask then ClearRecord(t, a, pe) else a)
            && WindowMap(s1.tasks[i].allocs[j]) == WindowMap(a) - {pe.ppe}
            && Live(s1.tasks) == Live(s.tasks)[KeyOf(a) := Entry(s.tasks[i].tgid, s1.tasks[i].allocs[j])]
            && Owners(s1.tasks) == Owners(s.tasks)
            && s1.active == s.active
            && (pe.ppe in WindowMap(a) ==>
                  && s1.bwMap == s.bwMap[pe := s.bwMap[pe] - {a.window[pe.ppe]}]
                  && s1.wreg == WriteAssign(t, s.wreg, pe, 0, false, 0))
            && (pe.ppe !in WindowMap(a) ==> s1.bwMap == s.bwMap && s1.wreg == s.wreg)
  {
    hide KeysDistinct, IsLive, IsOwners, GroupsDistinct, BladesOk, EntriesOk, WindowsOk, MasksOk, WindowMap, AllocOk;
    var a := s.tasks[i].allocs[j];
    Facts(t, s, i, j);
    SameCmg(t, a.cmg, pe);
    assert pe in t.Pes() && AllocShape(t, a);
    AssignedIffWindow(t, a, pe);
    if t.Cpu(pe) in a.assignMask {
      s1 := ReleaseOwnWindow(t, s, i, j, pe);
      ClearWindowInv(t, s, s1, i, j, pe);
      ClearMap(t, a, pe);
    } else {
      s1 := s;
      assert WindowMap(a) == WindowMap(a) - {pe.ppe};
    }
  }

  /** On a participant's CPU the two parts of leaving keep the invariant; this is the state
      before the possible free of the emptied allocation. */
  lemma LeaveParts(t: Topology, s: State, pe: Pe, i: nat, j: nat) returns (s2: State)
    requires Inv(t, s) && At(s.tasks, i, j) && t.HasPe(pe) && pe.ppe < t.maxPe
    requires t.Cpu(pe) in s.tasks[i].allocs[j].cpumask
    ensures var a := s.tasks[i].allocs[j];
            && pe in t.Pes() && pe.ppe < |a.window| && pe.cmg == a.cmg
            && s2 == Shrink(t, if t.Cpu(pe) in a.assignMask then ReleaseOwnWindow(t, s, i, j, pe) else s, i, j,
                a.cmg, t.Cpu(pe))
            && SoftInv(t, s2) && At(s2.tasks, i, j)
            && s2.tasks[i].tgid == s.tasks[i].tgid
            && KeyOf(s2.tasks[i].allocs[j]) == KeyOf(a)
            && s2.tasks[i].allocs[j].cpumask == a.cpumask - {t.Cpu(pe)}
            && s2.tasks[i].allocs[j].assignMask == a.assignMask - {t.Cpu(pe)}
            && s2.tasks[i].allocs[j].assignCount == a.assignCount - (if t.Cpu(pe) in a.assignMask then 1 else 0)
            && WindowMap(s2.tasks[i].allocs[j]) == WindowMap(a) - {pe.ppe}
            && MasksOk(t, s2, if a.cpumask - {t.Cpu(pe)} == {} then {KeyOf(a)} else {})
            && Live(s2.tasks) == Live(s.tasks)[KeyOf(a) := Entry(s.tasks[i].tgid, s2.tasks[i].allocs[j])]
            && Owners(s2.tasks) == Owners(s.tasks)
            && s2.active == s.active
            && (pe.ppe in WindowMap(a) ==>
                  && s2.bwMap == s.bwMap[pe := s.bwMap[pe] - {a.window[pe.ppe]}]
                  && s2.wreg == WriteAssign(t, s.wreg, pe, 0, false, 0))
            && (pe.ppe !in WindowMap(a) ==> s2.bwMap == s.bwMap && s2.wreg == s.wreg)
            && Leave(t, s, i, j, a.cmg, pe) == (if a.cpumask - {t.Cpu(pe)} == {} then FreeAndReap(t, s2, i, j) else s2)
  {
    hide KeysDistinct, IsLive, IsOwners, GroupsDistinct, BladesOk, EntriesOk, WindowsOk, MasksOk, AllocOk,
      WriteAssign, ReleaseOwnWindow, FreeAndReap, WindowMap;
    var a, cpu := s.tasks[i].allocs[j], t.Cpu(pe);
    var s1 := ReleasePart(t, s, pe, i, j);
    ShrinkInv(t, s1, i, j, cpu);
    s2 := Shrink(t, s1, i, j, a.cmg, cpu);
    SameWindows(s1.tasks[i].allocs[j], s2.tasks[i].allocs[j]);
    assert Live(s2.tasks) == Live(s.tasks)[KeyOf(a) := Entry(s.tasks[i].tgid, s2.tasks[i].allocs[j])];
  }

  lemma WindowMapAt(a: Alloc, p: int)
    ensures p in WindowMap(a) ==> 0 <= p < |a.window| && WindowMap(a)[p] == a.window[p]
  {
  }

  lemma SameWindows(a: Alloc, a': Alloc)
    requires a.window == a'.window
    ensures WindowMap(a) == WindowMap(a')
  {
  }

  lemma AssignedIffWindow(t: Topology, a: Alloc, pe: Pe)
    requires t.Valid() && AllocOk(t, a) && t.HasPe(pe) && pe.cmg == a.cmg
    ensures t.Cpu(pe) in a.assignMask <==> pe.ppe in WindowMap(a)
    ensures pe.ppe in WindowMap(a) ==> 0 <= a.window[pe.ppe] < t.nWindows
  {
  }

  lemma OneMemberLeaves(t: Topology, s: State, who: Caller, i: nat, j: nat)
    requires Inv(t, s) && CallerOk(t, who) && who.pe in s.bwMap && who.pe in s.wreg && At(s.tasks, i, j)
    requires s.tasks[i].tgid == who.tgid && KeyOf(s.tasks[i].allocs[j]) in Live(s.tasks)
    requires Live(s.tasks)[KeyOf(s.tasks[i].allocs[j])] == Entry(who.tgid, s.tasks[i].allocs[j])
    requires t.Cpu(who.pe) in s.tasks[i].allocs[j].cpumask
    requires s.tasks[i].allocs[j].cpumask - {t.Cpu(who.pe)} != {}
    ensures var k := KeyOf(s.tasks[i].allocs[j]);
            && Inv(t, Leave(t, s, i, j, k.cmg, who.pe))
            && LeaveNext(t, Abs(s), Abs(Leave(t, s, i, j, k.cmg, who.pe)), who, k)
  {
    hide KeysDistinct, IsLive, IsOwners, GroupsDistinct, BladesOk, EntriesOk, WindowsOk, MasksOk, AllocOk,
      FreeAndReap, Leave, AllocShape, WindowMap, HasAny;
    var a, k := s.tasks[i].allocs[j], KeyOf(s.tasks[i].allocs[j]);
    var s2 := LeaveParts(t, s, who.pe, i, j);
    WindowMapAt(a, who.pe.ppe);
    AbsMapSet(Live(s.tasks), k, Live(s2.tasks)[k]);
  }

  lemma LastMemberLeaves(t: Topology, s: State, who: Caller, i: nat, j: nat)
    requires Inv(t, s) && CallerOk(t, who) && who.pe in s.bwMap && who.pe in s.wreg && At(s.tasks, i, j)
    requires s.tasks[i].tgid == who.tgid && KeyOf(s.tasks[i].allocs[j]) in Live(s.tasks)
    requires Live(s.tasks)[KeyOf(s.tasks[i].allocs[j])] == Entry(who.tgid, s.tasks[i].allocs[j])
    requires t.Cpu(who.pe) in s.tasks[i].allocs[j].cpumask
    requires s.tasks[i].allocs[j].cpumask - {t.Cpu(who.pe)} == {}
    ensures var k := KeyOf(s.tasks[i].allocs[j]);
            && Inv(t, Leave(t, s, i, j, k.cmg, who.pe))
            && LeaveNext(t, Abs(s), Abs(Leave(t, s, i, j, k.cmg, who.pe)), who, k)
  {
    hide KeysDistinct, IsLive, IsOwners, GroupsDistinct, BladesOk, EntriesOk, WindowsOk, MasksOk, AllocOk,
      FreeAndReap, Leave, AllocShape, WindowMap, HasAny;
    var a, k := s.tasks[i].allocs[j], KeyOf(s.tasks[i].allocs[j]);
    var s2 := LeaveParts(t, s, who.pe, i, j);
    WindowMapAt(a, who.pe.ppe);
    LastLeaves(t, s2, i, j);
    ReapIs(FreeAndReap(t, s2, i, j), who.tgid);
    AbsMapDrop(Live(s.tasks), {k});
    assert Live(FreeAndReap(t, s2, i, j).tasks) == Live(s.tasks) - {k};
  }

  lemma LeaveRefines(t: Topology, s: State, who: Caller, i: nat, j: nat)
    requires Inv(t, s) && CallerOk(t, who) && who.pe in s.bwMap && who.pe in s.wreg && At(s.tasks, i, j)
    requires s.tasks[i].tgid == who.tgid && KeyOf(s.tasks[i].allocs[j]) in Live(s.tasks)
    ensures var k := KeyOf(s.tasks[i].allocs[j]);
            && Inv(t, Leave(t, s, i, j, k.cmg, who.pe))
            && LeaveNext(t, Abs(s), Abs(Leave(t, s, i, j, k.cmg, who.pe)), who, k)
  {
    hide KeysDistinct, IsLive, IsOwners, GroupsDistinct, BladesOk, EntriesOk, WindowsOk, MasksOk, AllocOk, WindowMap;
    Facts(t, s, i, j);
    if t.Cpu(who.pe) in s.tasks[i].allocs[j].cpumask {
      if s.tasks[i].allocs[j].cpumask - {t.Cpu(who.pe)} == {} { LastMemberLeaves(t, s, who, i, j); }
      else { OneMemberLeaves(t, s, who, i, j); }
    }
  }

  /** An allocation without participants holds no window, so freeing it releases none. */
  lemma LastLeaves(t: Topology, s: State, i: nat, j: nat)
    requires SoftInv(t, s) && At(s.tasks, i, j) && s.tasks[i].allocs[j].cpumask == {}
    requires MasksOk(t, s, {KeyOf(s.tasks[i].allocs[j])})
    ensures FreeAndReap(t, s, i, j).bwMap == s.bwMap && FreeAndReap(t, s, i, j).wreg == s.wreg
    ensures FreeAndReap(t, s, i, j).active == s.active
    ensures Inv(t, FreeAndReap(t, s, i, j))
    ensures Live(FreeAndReap(t, s, i, j).tasks) == Live(s.tasks) - {KeyOf(s.tasks[i].allocs[j])}
    ensures Owners(FreeAndReap(t, s, i, j).tasks) ==
            if exists k :: k in Live(FreeAndReap(t, s, i, j).tasks)
                           && Live(FreeAndReap(t, s, i, j).tasks)[k].tgid == s.tasks[i].tgid
            then Owners(s.tasks) else Owners(s.tasks) - {s.tasks[i].tgid}
  {
    hide KeysDistinct, IsLive, IsOwners, GroupsDistinct, BladesOk, EntriesOk, WindowsOk, MasksOk, FreeAndReap, Freed;
    var a := s.tasks[i].allocs[j];
    var s' := FreeAndReap(t, s, i, j);
    Facts(t, s, i, j);
    FreeAndReapInv(t, s, i, j);
    FreeAndReapFreed(t, s, i, j);
    HeldByOne(Live(s.tasks), KeyOf(a));
    assert forall pe, w :: !HasWindow(a, pe, w);
    FreedNoWindow(t, s, s', {KeyOf(a)});
  }

  lemma FreedNoWindow(t: Topology, s: State, s': State, gone: set<Bb>)
    requires KeysDistinct(s.tasks) && KeysDistinct(s'.tasks) && Shape(t, s) && Shape(t, s') && Freed(t, s, s', gone)
    requires forall pe, w :: !HeldBy(Live(s.tasks), gone, pe, w)
    ensures s'.bwMap == s.bwMap && s'.wreg == s.wreg && s'.active == s.active
  {
    hide KeysDistinct, HeldBy, AllocShape;
    forall pe | pe in s.bwMap ensures s'.bwMap[pe] == s.bwMap[pe] {
      forall w ensures w in s'.bwMap[pe] <==> w in s.bwMap[pe] { }
    }
    forall pe | pe in s.wreg ensures s'.wreg[pe] == s.wreg[pe] { }
  }

  /** The call with a mask that lies in CMG `c`: least inactive blade, or none. */
  lemma AllocateInCmg(t: Topology, s: State, who: Caller, cpumask: set<int>, c: int)
    requires Inv(t, s) && c == CheckCpumask(t, cpumask) && c >= 0 && cpumask != {}
    ensures Inv(t, Allocate(t, s, who, cpumask).0)
    ensures var a, b := Abs(s), FirstZero(s.bbActive[c], 0, t.nBlades);
            && LeastBlade(a, c, b, t.nBlades)
            && Allocate(t, s, who, cpumask).1 == (if b < t.nBlades then Reply(Success, b) else Reply(ENoDev, -1))
            && Abs(Allocate(t, s, who, cpumask).0) ==
               a.(owners := if who.tgid in a.owners then a.owners else a.owners[who.tgid := who.pid],
                  barriers := if b < t.nBlades then a.barriers[Bb(c, b) := Barrier(who.tgid, cpumask, map[])]
                              else a.barriers)
  {
    hide KeysDistinct, IsLive, IsOwners, GroupsDistinct, EntriesOk, WindowsOk, MasksOk, NewAllocation;
    var s1 := Register(s, who);
    RegisterLive(t, s, who);
    var i := FindTask(s1.tasks, who.tgid);
    var b := FirstZero(s1.bbActive[c], 0, t.nBlades);
    if b < t.nBlades {
      var k := Bb(c, b);
      Lookup(s1.tasks, who.tgid, k);
      var e := Entry(who.tgid, FreshAlloc(t, k, cpumask));
      NewAllocationInv(t, s1, i, k, cpumask);
      NewAllocationRest(t, s1, i, k, cpumask);
      AbsMapSet(Live(s.tasks), k, e);
      assert AbsBarrier(e) == Barrier(who.tgid, cpumask, map[]);
    }
  }

  lemma NewAllocationRest(t: Topology, s: State, i: nat, k: Bb, cpumask: set<int>)
    requires i < |s.tasks| && 0 <= k.cmg < |s.bbActive|
    ensures var s' := NewAllocation(t, s, i, k, cpumask);
            s'.bwMap == s.bwMap && s'.wreg == s.wreg && s'.active == s.active
  {
  }

  lemma AllocateRefines(t: Topology, s: State, who: Caller, cpumask: set<int>)
    requires Inv(t, s)
    ensures Inv(t, Allocate(t, s, who, cpumask).0)
    ensures AllocateNext(t, Abs(s), Abs(Allocate(t, s, who, cpumask).0), who, cpumask, Allocate(t, s, who, cpumask).1)
  {
    hide KeysDistinct, IsLive, IsOwners, GroupsDistinct, BladesOk, EntriesOk, WindowsOk, MasksOk, NewAllocation,
      LeastBlade;
    var c := CheckCpumask(t, cpumask);
    if c >= 0 {
      assert |cpumask| >= 2;
      AllocateInCmg(t, s, who, cpumask, c);
    }
  }

  lemma TakeMap(t: Topology, a: Alloc, pe: Pe, w: nat)
    requires t.HasPe(pe) && pe.ppe < |a.window|
    ensures WindowMap(TakeRecord(t, a, pe, w)) == WindowMap(a)[pe.ppe := w]
  {
  }

  lemma ClearMap(t: Topology, a: Alloc, pe: Pe)
    requires t.HasPe(pe) && pe.ppe < |a.window|
    ensures WindowMap(ClearRecord(t, a, pe)) == WindowMap(a) - {pe.ppe}
  {
  }

  /** Taking window `w` for a participant. */
  lemma TakeRefines(t: Topology, s: State, i: nat, j: nat, pe: Pe, w: nat, blade: int)
    requires Inv(t, s) && At(s.tasks, i, j) && t.HasPe(pe) && pe.ppe < t.maxPe && w < t.nWindows
    requires pe in s.bwMap && pe in s.wreg && w !in s.bwMap[pe] && KeyOf(s.tasks[i].allocs[j]) == Bb(pe.cmg, blade)
    requires t.Cpu(pe) in s.tasks[i].allocs[j].cpumask
    ensures var a, k := Abs(s), Bb(pe.cmg, blade);
            && Inv(t, TakeWindow(t, s, i, j, pe, w, blade))
            && k in a.barriers
            && Abs(TakeWindow(t, s, i, j, pe, w, blade)) ==
               a.(barriers := a.barriers[k := a.barriers[k].(windows := a.barriers[k].windows[pe.ppe := w])],
                  reserved := a.reserved[pe := a.reserved[pe] + {w}],
                  regs := a.regs[pe := a.regs[pe][w := WinReg(true, blade)]])
  {
    hide KeysDistinct, IsLive, IsOwners, GroupsDistinct, BladesOk, EntriesOk, WindowsOk, MasksOk, AllocOk, WindowMap;
    var a := s.tasks[i].allocs[j];
    Facts(t, s, i, j);
    assert AllocShape(t, a);
    TakeWindowInv(t, s, i, j, pe, w, blade);
    TakeMap(t, a, pe, w);
    AbsMapSet(Live(s.tasks), KeyOf(a), Entry(s.tasks[i].tgid, TakeRecord(t, a, pe, w)));
  }

  /** Giving the recorded window back. */
  lemma GiveRefines(t: Topology, s: State, i: nat, j: nat, pe: Pe)
    requires Inv(t, s) && At(s.tasks, i, j) && t.HasPe(pe) && pe.ppe < t.maxPe
    requires pe in s.bwMap && pe in s.wreg && pe.cmg == s.tasks[i].allocs[j].cmg
    requires pe.ppe in WindowMap(s.tasks[i].allocs[j]) && 0 <= s.tasks[i].allocs[j].window[pe.ppe] < t.nWindows
    ensures var a, k, w := Abs(s), KeyOf(s.tasks[i].allocs[j]), s.tasks[i].allocs[j].window[pe.ppe];
            && Inv(t, GiveWindow(t, s, i, j, pe, w))
            && k in a.barriers
            && Abs(GiveWindow(t, s, i, j, pe, w)) ==
               a.(barriers := a.barriers[k := a.barriers[k].(windows := a.barriers[k].windows - {pe.ppe})],
                  reserved := a.reserved[pe := a.reserved[pe] - {w}],
                  regs := a.regs[pe := a.regs[pe][w := WinReg(false, 0)]])
  {
    hide KeysDistinct, IsLive, IsOwners, GroupsDistinct, BladesOk, EntriesOk, WindowsOk, MasksOk, WindowMap, AllocOk;
    var a := s.tasks[i].allocs[j];
    var w := a.window[pe.ppe];
    var s' := GiveWindow(t, s, i, j, pe, w);
    Facts(t, s, i, j);
    assert AllocShape(t, a);
    AssignedIffWindow(t, a, pe);
    ClearWindowInv(t, s, s', i, j, pe);
    ClearMap(t, a, pe);
    AbsMapSet(Live(s.tasks), KeyOf(a), Entry(s.tasks[i].tgid, ClearRecord(t, a, pe)));
  }

  /** The caller's view of an allocation at its list position. */
  lemma AtPosition(t: Topology, s: State, i: nat, j: nat, pe: Pe)
    requires Inv(t, s) && At(s.tasks, i, j) && t.HasPe(pe) && pe.ppe < t.maxPe && pe.cmg == s.tasks[i].allocs[j].cmg
    ensures var a := s.tasks[i].allocs[j];
            && |a.window| == t.maxPe
            && KeyOf(a) in Abs(s).barriers
                && Abs(s).barriers[KeyOf(a)] == Barrier(s.tasks[i].tgid, a.cpumask, WindowMap(a))
            && (pe.ppe in WindowMap(a) ==> 0 <= a.window[pe.ppe] < t.nWindows
                                           && pe in s.bwMap && a.window[pe.ppe] in s.bwMap[pe])
  {
    hide KeysDistinct, IsLive, IsOwners, GroupsDistinct, BladesOk, EntriesOk, WindowsOk;
    var a := s.tasks[i].allocs[j];
    Facts(t, s, i, j);
    AssignedIffWindow(t, a, pe);
    HeldReserved(t, s, KeyOf(a));
    if pe.ppe in WindowMap(a) { assert HasWindow(a, pe, a.window[pe.ppe]); }
  }

  lemma AssignRefines(t: Topology, s: State, who: Caller, blade: int, window: int)
    requires Inv(t, s) && CallerOk(t, who) && who.pe in s.bwMap && who.pe in s.wreg
    ensures Inv(t, Assign(t, s, who, blade, window).0)
    ensures AssignNext(t, Abs(s), Abs(Assign(t, s, who, blade, window).0), who, blade, window,
              Assign(t, s, who, blade, window).1)
  {
    hide KeysDistinct, IsLive, IsOwners, GroupsDistinct, BladesOk, EntriesOk, WindowsOk, TakeWindow, MasksOk,
      AllocShape;
    var k := Bb(who.pe.cmg, blade);
    Lookup(s.tasks, who.tgid, k);
    var i := FindTask(s.tasks, who.tgid);
    if who.pinned && i < |s.tasks| && FindAlloc(s.tasks[i].allocs, k) < |s.tasks[i].allocs| {
      var j := FindAlloc(s.tasks[i].allocs, k);
      AtPosition(t, s, i, j, who.pe);
      var r := Assign(t, s, who, blade, window).1;
      if r.status == Success { TakeRefines(t, s, i, j, who.pe, r.value, blade); }
    }
  }

  lemma UnassignRefines(t: Topology, s: State, who: Caller, blade: int)
    requires Inv(t, s) && CallerOk(t, who) && who.pe in s.bwMap && who.pe in s.wreg
    ensures Inv(t, Unassign(t, s, who, blade).0)
    ensures UnassignNext(t, Abs(s), Abs(Unassign(t, s, who, blade).0), who, blade, Unassign(t, s, who, blade).1)
  {
    hide KeysDistinct, IsLive, IsOwners, GroupsDistinct, BladesOk, EntriesOk, WindowsOk, GiveWindow, MasksOk,
      AllocShape;
    var k := Bb(who.pe.cmg, blade);
    Lookup(s.tasks, who.tgid, k);
    var i := FindTask(s.tasks, who.tgid);
    if who.pinned && i < |s.tasks| && FindAlloc(s.tasks[i].allocs, k) < |s.tasks[i].allocs| {
      var j := FindAlloc(s.tasks[i].allocs, k);
      AtPosition(t, s, i, j, who.pe);
      if who.pe.ppe in WindowMap(s.tasks[i].allocs[j]) { GiveRefines(t, s, i, j, who.pe); }
    }
  }

  lemma EmptyLive(tasks: seq<TaskMap>)
    requires tasks == []
    ensures ListsOk(tasks) && Live(tasks) == map[] && Owners(tasks) == map[]
  {
    LiveUnique(tasks, map[], Live(tasks));
    OwnersUnique(tasks, map[], Owners(tasks));
  }

  lemma ResetRefines(t: Topology, s: State)
    requires Inv(t, s)
    ensures Inv(t, Reset(t, s)) && ResetNext(t, Abs(s), Abs(Reset(t, s)), Reply(Success, -1))
  {
    EmptyLive(Reset(t, s).tasks);
  }

  // ---------- steps and runs ----------

  lemma StepRefines(t: Topology, s: State, op: Op)
    requires Inv(t, s) && OpOk(t, op)
    ensures Inv(t, Step(t, s, op).0)
    ensures Next(t, Abs(s), op, Abs(Step(t, s, op).0), Step(t, s, op).1)
  {
    hide KeysDistinct, IsLive, IsOwners, GroupsDistinct, BladesOk, EntriesOk, WindowsOk;
    match op
    case Open =>
    case CloseOp(who) => CloseRefines(t, s, who);
    case AllocateOp(who, cpumask) => AllocateRefines(t, s, who, cpumask);
    case FreeOp(who, k) => FreeRefines(t, s, who, k);
    case AssignOp(who, blade, window) => AssignRefines(t, s, who, blade, window);
    case UnassignOp(who, blade) => UnassignRefines(t, s, who, blade);
    case ResetOp => ResetRefines(t, s);
  }

  /** The state and the replies after a sequence of calls. */
  ghost function Exec(t: Topology, s: State, ops: seq<Op>): (State, seq<Reply>)
    requires Inv(t, s) && (forall op | op in ops :: OpOk(t, op))
    decreases |ops|
  {
    if ops == [] then (s, [])
    else
      StepRefines(t, s, ops[0]);
      var (s1, r) := Step(t, s, ops[0]);
      var (s2, rs) := Exec(t, s1, ops[1..]);
      (s2, [r] + rs)
  }

  lemma InitInv(t: Topology, s: State)
    requires t.Valid() && Init(t, s)
    ensures Inv(t, s)
    ensures Abs(s).barriers == map[] && Abs(s).owners == map[] && Abs(s).active == 0
  {
    EmptyLive(s.tasks);
  }

  /** Forward simulation: the driver's states keep the invariant, and its replies and
      final state are those of a run of the abstract machine. */
  lemma {:induction false} RunRefines(t: Topology, s: State, ops: seq<Op>)
    requires Inv(t, s) && (forall op | op in ops :: OpOk(t, op))
    ensures Inv(t, Exec(t, s, ops).0)
    ensures Runs(t, Abs(s), ops, Exec(t, s, ops).1, Abs(Exec(t, s, ops).0))
    decreases |ops|
  {
    hide KeysDistinct, IsLive, IsOwners, GroupsDistinct, BladesOk, EntriesOk, WindowsOk;
    if ops != [] {
      StepRefines(t, s, ops[0]);
      RunRefines(t, Step(t, s, ops[0]).0, ops[1..]);
      assert Exec(t, s, ops).1[1..] == Exec(t, Step(t, s, ops[0]).0, ops[1..]).1;
    }
  }

  // ---------- reachable states ----------

  /** `s` is the state after some sequence of calls from module load on. */
  ghost predicate Reachable(t: Topology, s: State) {
    t.Valid() && exists s0, ops :: RunTo(t, s0, ops, s)
  }

  ghost predicate RunTo(t: Topology, s0: State, ops: seq<Op>, s: State)
    requires t.Valid()
  {
    Init(t, s0) && (forall op | op in ops :: OpOk(t, op)) && (InitInv(t, s0); Exec(t, s0, ops).0 == s)
  }

  /** The invariant holds in every reachable state. */
  lemma ReachableInv(t: Topology, s: State)
    requires Reachable(t, s)
    ensures Inv(t, s)
  {
    var s0, ops :| RunTo(t, s0, ops, s);
    InitInv(t, s0);
    RunRefines(t, s0, ops);
  }

  lemma {:induction false} ExecOneMore(t: Topology, s: State, ops: seq<Op>, op: Op)
    requires Inv(t, s) && (forall o | o in ops :: OpOk(t, o)) && OpOk(t, op)
    requires forall o | o in ops + [op] :: OpOk(t, o)
    ensures Inv(t, Exec(t, s, ops).0)
    ensures Exec(t, s, ops + [op]).0 == Step(t, Exec(t, s, ops).0, op).0
    decreases |ops|
  {
    hide KeysDistinct, IsLive, IsOwners, GroupsDistinct, BladesOk, EntriesOk, WindowsOk, MasksOk, Step;
    if ops == [] {
      StepRefines(t, s, op);
      assert (ops + [op])[1..] == [];
    } else {
      StepRefines(t, s, ops[0]);
      ExecOneMore(t, Step(t, s, ops[0]).0, ops[1..], op);
      assert (ops + [op])[1..] == ops[1..] + [op];
    }
  }

  lemma ReachableStep(t: Topology, s: State, op: Op)
    requires Reachable(t, s) && OpOk(t, op)
    ensures Inv(t, s) && Reachable(t, Step(t, s, op).0)
  {
    hide KeysDistinct, IsLive, IsOwners, GroupsDistinct, BladesOk, EntriesOk, WindowsOk, MasksOk, Step;
    ReachableInv(t, s);
    var s0, ops :| RunTo(t, s0, ops, s);
    InitInv(t, s0);
    ExecOneMore(t, s0, ops, op);
    assert RunTo(t, s0, ops + [op], Step(t, s, op).0);
  }

  lemma ReachableInit(t: Topology, s: State)
    requires t.Valid() && Init(t, s)
    ensures Reachable(t, s)
  {
    InitInv(t, s);
    assert RunTo(t, s, [], s);
  }
}
