/** Which call is refused with which error, for every call on every state that the
    invariant allows.  The statuses are named by themselves. */
module Replies {
  import opened Topology
  import opened DriverState
  import opened LiveMap
  import opened Invariant
  import opened Abstract
  import opened Refinement
  import opened Windows
  import opened Accounting
  import opened Counting

  /** The mask has two CPUs and lies in CMG `c`. */
  ghost predicate MaskFits(t: Topology, cpumask: set<int>, c: int) {
    |cpumask| >= 2 && 0 <= c < |t.cpus| && cpumask <= t.Cpus(c)
  }

  ghost predicate AllLive(t: Topology, s: State, c: int)
    requires KeysDistinct(s.tasks)
  {
    forall b | 0 <= b < t.nBlades :: Bb(c, b) in Live(s.tasks)
  }

  lemma OneFit(t: Topology, cpumask: set<int>, c: int, c': int)
    requires t.Valid() && MaskFits(t, cpumask, c) && MaskFits(t, cpumask, c')
    ensures c == c'
  {
    EmptyOrNot(cpumask);
    var cpu :| cpu in cpumask;
    assert cpu in t.Cpus(c) && cpu in t.Cpus(c');
    var p :| 0 <= p < |t.cpus[c]| && t.cpus[c][p] == cpu;
    SameCmg(t, c', Pe(c, p));
  }

  /** Allocate: EInval for a mask with fewer than two CPUs or in no CMG, ENoDev if all blades
      of its CMG are live, and otherwise the least blade that is not. */
  lemma AllocateStatus(t: Topology, s: State, who: Caller, cpumask: set<int>)
    requires Inv(t, s)
    ensures var r := Allocate(t, s, who, cpumask).1;
            && (r.status == EInval <==> forall c :: !MaskFits(t, cpumask, c))
            && (r.status == ENoDev <==> exists c :: MaskFits(t, cpumask, c) && AllLive(t, s, c))
            && (r.status == Success <==> exists c :: MaskFits(t, cpumask, c) && !AllLive(t, s, c))
            && (r.status != Success ==> r.value == -1)
            && (r.status == Success ==> forall c | MaskFits(t, cpumask, c) :: LeastFreeBlade(s, c, r.value, t.nBlades))
  {
    hide KeysDistinct, IsLive, IsOwners, GroupsDistinct, EntriesOk, WindowsOk, MasksOk, NewAllocation, Shape,
      AllocateOn;
    var c := CheckCpumask(t, cpumask);
    if c >= 0 {
      assert MaskFits(t, cpumask, c);
      forall c' | MaskFits(t, cpumask, c') ensures c' == c { OneFit(t, cpumask, c, c'); }
      AllocateInCmg(t, s, who, cpumask, c);
      assert forall b | 0 <= b < t.nBlades :: b in s.bbActive[c] <==> Bb(c, b) in Live(s.tasks);
    } else {
      assert forall c' :: !MaskFits(t, cpumask, c');
    }
  }

  /** The caller's group has an allocation of the blade. */
  ghost predicate Owns(s: State, tgid: int, k: Bb)
    requires KeysDistinct(s.tasks)
  {
    k in Live(s.tasks) && Live(s.tasks)[k].tgid == tgid
  }

  /** Free: EInval if the caller's group does not have the blade, and otherwise it succeeds. */
  lemma FreeStatus(t: Topology, s: State, who: Caller, k: Bb)
    requires Inv(t, s) && CallerOk(t, who)
    ensures var r := Free(t, s, who, k).1;
            && r.value == -1
            && (r.status == EInval <==> !Owns(s, who.tgid, k))
            && (r.status == Success <==> Owns(s, who.tgid, k))
  {
    hide KeysDistinct, IsLive, IsOwners, GroupsDistinct, BladesOk, EntriesOk, WindowsOk, MasksOk, Shape, Leave,
      FreeAndReap;
    Lookup(s.tasks, who.tgid, k);
  }

  /** The caller's group has an allocation of the blade, in which the caller's CPU participates. */
  ghost predicate Participates(t: Topology, s: State, who: Caller, k: Bb)
    requires KeysDistinct(s.tasks) && t.HasPe(who.pe)
  {
    Owns(s, who.tgid, k) && t.Cpu(who.pe) in Live(s.tasks)[k].a.cpumask
  }

  /** The allocation of blade `k` holds a window of the PE. */
  ghost predicate HasOne(s: State, k: Bb, pe: Pe)
    requires KeysDistinct(s.tasks)
  {
    k in Live(s.tasks) && exists w :: HasWindow(Live(s.tasks)[k].a, pe, w)
  }

  /** Assign: EInval for a caller that is not pinned, and for a window that is in use; ENoDev
      if the caller does not participate, the window does not exist, or, without a window
      number, the PE already has one of this blade or none is free. */
  lemma AssignStatus(t: Topology, s: State, who: Caller, blade: int, window: int)
    requires Inv(t, s) && CallerOk(t, who) && who.pe in s.bwMap && who.pe in s.wreg
    ensures var r, k, used := Assign(t, s, who, blade, window).1, Bb(who.pe.cmg, blade), s.bwMap[who.pe];
            var full := forall w | 0 <= w < t.nWindows :: w in used;
            && (r.status == EInval <==> !who.pinned || (Participates(t, s, who, k) && window >= 0 && window in used))
            && (r.status == ENoDev <==>
                  who.pinned && (!Participates(t, s, who, k) || (window >= 0 && window !in used && window >= t.nWindows)
                                 || (window < 0 && (HasOne(s, k, who.pe) || full))))
            && (r.status != Success ==> r.value == -1)
            && (r.status == Success ==> r.value !in used && 0 <= r.value < t.nWindows)
            && (r.status == Success && window >= 0 ==> r.value == window)
  {
    hide KeysDistinct, IsLive, IsOwners, GroupsDistinct, BladesOk, EntriesOk, WindowsOk, MasksOk, Shape, AllocShape,
      WindowMap, TakeWindow;
    var k := Bb(who.pe.cmg, blade);
    Lookup(s.tasks, who.tgid, k);
    var i := FindTask(s.tasks, who.tgid);
    if i < |s.tasks| && FindAlloc(s.tasks[i].allocs, k) < |s.tasks[i].allocs| {
      var j := FindAlloc(s.tasks[i].allocs, k);
      AtPosition(t, s, i, j, who.pe);
      WindowAt(s.tasks[i].allocs[j], who.pe);
      AssignFree(t, s, who.pe);
    }
  }

  lemma AssignFree(t: Topology, s: State, pe: Pe)
    requires SoftInv(t, s) && pe in s.bwMap
    ensures forall w | w in s.bwMap[pe] :: 0 <= w < t.nWindows
  {
  }

  /** The caller's group has the blade, and a window of it on the caller's PE whose register
      names the blade. */
  ghost predicate HasNamed(t: Topology, s: State, who: Caller, k: Bb)
    requires KeysDistinct(s.tasks) && who.pe in s.wreg && |s.wreg[who.pe]| == t.nWindows
  {
    Owns(s, who.tgid, k)
    && exists w :: 0 <= w < t.nWindows && HasWindow(Live(s.tasks)[k].a, who.pe, w)
                   && s.wreg[who.pe][w].blade == k.blade
  }

  /** Unassign: ENoDev if the caller is pinned and its group is not registered, EInval if it
      is not pinned, its group does not have the blade, its PE has no window of it, or the
      window's register names another blade. */
  lemma UnassignStatus(t: Topology, s: State, who: Caller, blade: int)
    requires Inv(t, s) && CallerOk(t, who) && who.pe in s.bwMap && who.pe in s.wreg
    ensures var r, k := Unassign(t, s, who, blade).1, Bb(who.pe.cmg, blade);
            && |s.wreg[who.pe]| == t.nWindows && r.value == -1
            && (r.status == ENoDev <==> who.pinned && who.tgid !in Owners(s.tasks))
            && (r.status == EInval <==>
                  !who.pinned || (who.tgid in Owners(s.tasks) && !HasNamed(t, s, who, k)))
            && (r.status == Success <==> who.pinned && HasNamed(t, s, who, k))
  {
    hide KeysDistinct, IsLive, IsOwners, GroupsDistinct, BladesOk, EntriesOk, WindowsOk, MasksOk, AllocShape,
      WindowMap, GiveWindow;
    var k := Bb(who.pe.cmg, blade);
    Lookup(s.tasks, who.tgid, k);
    var i := FindTask(s.tasks, who.tgid);
    if i < |s.tasks| && FindAlloc(s.tasks[i].allocs, k) < |s.tasks[i].allocs| {
      var j := FindAlloc(s.tasks[i].allocs, k);
      AtPosition(t, s, i, j, who.pe);
      WindowAt(s.tasks[i].allocs[j], who.pe);
    }
  }

  /** Open, close and reset always succeed. */
  lemma OtherStatus(t: Topology, s: State, op: Op)
    requires Inv(t, s) && OpOk(t, op) && (op.Open? || op.CloseOp? || op.ResetOp?)
    ensures Step(t, s, op).1.status == Success && Step(t, s, op).1.value == -1
  {
    hide UnregisterTask, Reset;
  }
}
