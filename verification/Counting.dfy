/** Conservation of blades and windows, and what exhaustion means. */
module Counting {
  import opened Topology
  import opened DriverState
  import opened LiveMap
  import opened Invariant
  import opened Refinement
  import opened Accounting
  import opened Abstract

  /** The sum of the allocation counters of all tasks. */
  function SumAllocs(tasks: seq<TaskMap>): int {
    if tasks == [] then 0 else tasks[0].numAllocs + SumAllocs(tasks[1..])
  }

  /** The number of set bits in all active bitmaps. */
  function SumBits(bb: seq<set<int>>): nat {
    if bb == [] then 0 else SumBits(bb[..|bb|-1]) + |bb[|bb|-1]|
  }

  ghost function KeySet(allocs: seq<Alloc>): set<Bb> {
    set j | 0 <= j < |allocs| :: KeyOf(allocs[j])
  }

  lemma {:induction false} KeySetSize(allocs: seq<Alloc>)
    requires forall j, l | 0 <= j < |allocs| && 0 <= l < |allocs| && KeyOf(allocs[j]) == KeyOf(allocs[l]) :: j == l
    ensures |KeySet(allocs)| == |allocs|
  {
    if allocs != [] {
      var n := |allocs| - 1;
      KeySetSize(allocs[..n]);
      assert KeySet(allocs) == KeySet(allocs[..n]) + {KeyOf(allocs[n])};
    }
  }

  /** The keys of a map split by a predicate on the owner. */
  lemma SplitSize(live: map<Bb, Entry>, tgid: int)
    ensures |live| == |map k | k in live && live[k].tgid != tgid :: live[k]|
                      + |set k | k in live && live[k].tgid == tgid|
  {
    var rest := map k | k in live && live[k].tgid != tgid :: live[k];
    var own := set k | k in live && live[k].tgid == tgid;
    assert live.Keys == rest.Keys + own;
    assert |live.Keys| == |live| && |rest.Keys| == |rest|;
  }

  /** A task's allocation counter is the number of blades its thread group owns. */
  lemma OwnKeys(tasks: seq<TaskMap>, i: nat)
    requires ListsOk(tasks) && i < |tasks|
    ensures |set k | k in Live(tasks) && Live(tasks)[k].tgid == tasks[i].tgid| == tasks[i].numAllocs
  {
    var allocs := tasks[i].allocs;
    var own := set k | k in Live(tasks) && Live(tasks)[k].tgid == tasks[i].tgid;
    assert forall j | 0 <= j < |allocs| :: At(tasks, i, j);
    forall j, l | 0 <= j < |allocs| && 0 <= l < |allocs| && KeyOf(allocs[j]) == KeyOf(allocs[l])
      ensures j == l
    {
      assert At(tasks, i, j) && At(tasks, i, l);
    }
    KeySetSize(allocs);
    forall k | k in own ensures k in KeySet(allocs) {
      var p, j := LivePosition(tasks, k);
    }
    forall k | k in KeySet(allocs) ensures k in own {
      var j :| 0 <= j < |allocs| && KeyOf(allocs[j]) == k;
      LiveAt(tasks, i, j);
    }
    assert own == KeySet(allocs);
  }

  lemma {:induction false} OwnersSize(tasks: seq<TaskMap>)
    requires ListsOk(tasks)
    ensures |Owners(tasks)| == |tasks|
  {
    if tasks == [] {
      EmptyLive(tasks);
    } else {
      hide KeysDistinct, IsLive, GroupsDistinct;
      assert DropTask(tasks, 0) == tasks[1..];
      DropTaskLists(tasks, 0);
      DropTaskOwners(tasks, 0);
      OwnersSize(tasks[1..]);
      var g := tasks[0].tgid;
      assert g in Owners(tasks) by { assert IsOwners(tasks, Owners(tasks)); }
      assert Owners(tasks).Keys == Owners(tasks[1..]).Keys + {g};
      assert |Owners(tasks).Keys| == |Owners(tasks)| && |Owners(tasks[1..]).Keys| == |Owners(tasks[1..])|;
    }
  }

  lemma {:induction false} LiveSize(tasks: seq<TaskMap>)
    requires ListsOk(tasks)
    ensures |Live(tasks)| == SumAllocs(tasks)
  {
    if tasks == [] {
      EmptyLive(tasks);
    } else {
      hide KeysDistinct, IsLive, IsOwners, GroupsDistinct;
      assert DropTask(tasks, 0) == tasks[1..];
      DropTaskLive(tasks, 0);
      OwnKeys(tasks, 0);
      SplitSize(Live(tasks), tasks[0].tgid);
      LiveSize(tasks[1..]);
    }
  }

  /** The live blades of the first `n` CMGs. */
  ghost function Below(live: map<Bb, Entry>, n: nat): set<Bb> {
    set k | k in live && 0 <= k.cmg < n
  }

  /** The live blades of CMG `c`. */
  ghost function BladesOf(live: map<Bb, Entry>, c: int): set<Bb> {
    set k | k in live && k.cmg == c
  }

  lemma {:induction false} BitsAsBlades(c: int, bits: set<int>, blades: set<Bb>)
    requires forall b :: b in bits <==> Bb(c, b) in blades
    requires forall k | k in blades :: k.cmg == c
    ensures |bits| == |blades|
    decreases |bits|
  {
    EmptyOrNot(bits);
    if b :| b in bits {
      BitsAsBlades(c, bits - {b}, blades - {Bb(c, b)});
    } else {
      forall k: Bb | k.cmg == c ensures k !in blades { assert k == Bb(c, k.blade) && k.blade !in bits; }
      assert blades == {};
    }
  }

  lemma {:induction false} BelowSize(live: map<Bb, Entry>, bb: seq<set<int>>, n: nat)
    requires n <= |bb| && forall c, b | 0 <= c < |bb| :: b in bb[c] <==> Bb(c, b) in live
    ensures |Below(live, n)| == SumBits(bb[..n])
  {
    if n == 0 {
      assert Below(live, 0) == {};
    } else {
      BelowSize(live, bb, n - 1);
      BitsAsBlades(n - 1, bb[n-1], BladesOf(live, n - 1));
      assert Below(live, n) == Below(live, n - 1) + BladesOf(live, n - 1);
      assert bb[..n][..n-1] == bb[..n-1];
    }
  }

  /** Conservation: the allocation counters of all tasks add up to the number of set bits
      in the active bitmaps, and to the number of live allocations. */
  lemma Conservation(t: Topology, s: State)
    requires Inv(t, s)
    ensures SumAllocs(s.tasks) == |Live(s.tasks)| == SumBits(s.bbActive)
  {
    hide KeysDistinct, IsLive, IsOwners, GroupsDistinct, WindowsOk, MasksOk;
    var live := Live(s.tasks);
    LiveSize(s.tasks);
    BelowSize(live, s.bbActive, |s.bbActive|);
    BladeRange(t, live);
    assert s.bbActive[..|s.bbActive|] == s.bbActive;
    assert live.Keys == Below(live, |s.bbActive|);
  }

  /** A CPU whose PE has a window of barrier `k` in the abstract state. */
  ghost predicate HasCpuWindow(t: Topology, a: AbsState, k: Bb, cpu: int) {
    exists p :: k in a.barriers && p in a.barriers[k].windows && t.HasPe(Pe(k.cmg, p)) && t.Cpu(Pe(k.cmg, p)) == cpu
  }

  /** In every reachable state the counters of tasks and allocations, the active bitmaps and
      the masks are functions of the abstract map; only the assignment counter may exceed
      the size of its mask. */
  lemma BookkeepingIsAbstract(t: Topology, s: State)
    requires Reachable(t, s)
    ensures Inv(t, s) && s.numTasks == |Abs(s).owners|
    ensures forall i | 0 <= i < |s.tasks| ::
              s.tasks[i].numAllocs == |set k | k in Abs(s).barriers && Abs(s).barriers[k].tgid == s.tasks[i].tgid|
    ensures forall c, b | 0 <= c < |s.bbActive| :: b in s.bbActive[c] <==> Bb(c, b) in Abs(s).barriers
    ensures forall k | k in Live(s.tasks) ::
              var a := Live(s.tasks)[k].a;
              && a.cpumask == Abs(s).barriers[k].members && a.assignMask <= a.cpumask && |a.assignMask| <= a.assignCount
              && TableIs(t, a.window, Abs(s).barriers[k].windows)
              && forall cpu :: cpu in a.assignMask <==> HasCpuWindow(t, Abs(s), k, cpu)
  {
    hide KeysDistinct, IsLive, IsOwners, GroupsDistinct, EntriesOk, WindowsOk, MasksOk, Reachable, HasCpuWindow,
      TableIs;
    ReachableInv(t, s);
    OwnersSize(s.tasks);
    forall i | 0 <= i < |s.tasks|
      ensures s.tasks[i].numAllocs == |set k | k in Abs(s).barriers && Abs(s).barriers[k].tgid == s.tasks[i].tgid|
    {
      OwnKeys(s.tasks, i);
      assert (set k | k in Abs(s).barriers && Abs(s).barriers[k].tgid == s.tasks[i].tgid)
             == (set k | k in Live(s.tasks) && Live(s.tasks)[k].tgid == s.tasks[i].tgid);
    }
    forall k | k in Live(s.tasks)
      ensures var a := Live(s.tasks)[k].a;
              && a.assignMask <= a.cpumask && |a.assignMask| <= a.assignCount
              && TableIs(t, a.window, Abs(s).barriers[k].windows)
              && forall cpu :: cpu in a.assignMask <==> HasCpuWindow(t, Abs(s), k, cpu)
    {
      MaskIsAbstract(t, s, k);
      TableIsAbstract(t, s, k);
    }
  }

  /** The window table has a window number, or -1 for none, for every PE of a CMG. */
  ghost predicate TableIs(t: Topology, window: seq<int>, windows: map<int, int>) {
    && |window| == t.maxPe
    && (forall p | 0 <= p < t.maxPe :: window[p] == if p in windows then windows[p] else -1)
    && (forall p | p in windows :: 0 <= p < t.maxPe && 0 <= windows[p] < t.nWindows)
  }

  lemma TableIsAbstract(t: Topology, s: State, k: Bb)
    requires Inv(t, s) && k in Live(s.tasks)
    ensures TableIs(t, Live(s.tasks)[k].a.window, Abs(s).barriers[k].windows)
  {
    hide KeysDistinct, IsLive, IsOwners, GroupsDistinct, BladesOk, WindowsOk, MasksOk;
    assert AllocOk(t, Live(s.tasks)[k].a);
  }

  lemma MaskIsAbstract(t: Topology, s: State, k: Bb)
    requires Inv(t, s) && k in Live(s.tasks)
    ensures var a := Live(s.tasks)[k].a;
            && a.assignMask <= a.cpumask && |a.assignMask| <= a.assignCount
            && forall cpu :: cpu in a.assignMask <==> HasCpuWindow(t, Abs(s), k, cpu)
  {
    hide KeysDistinct, IsLive, IsOwners, GroupsDistinct, BladesOk, WindowsOk, MasksOk, WindowMap;
    var a := Live(s.tasks)[k].a;
    assert AllocOk(t, a) && KeyOf(a) == k;
    forall cpu ensures cpu in a.assignMask <==> HasCpuWindow(t, Abs(s), k, cpu) {
      if cpu in a.assignMask {
        assert cpu in t.Cpus(k.cmg);
        var p :| 0 <= p < |t.cpus[k.cmg]| && t.cpus[k.cmg][p] == cpu;
        AssignedIffWindow(t, a, Pe(k.cmg, p));
        assert k in Abs(s).barriers && p in Abs(s).barriers[k].windows;
      }
      if HasCpuWindow(t, Abs(s), k, cpu) {
        var p :| k in Abs(s).barriers && p in Abs(s).barriers[k].windows && t.HasPe(Pe(k.cmg, p))
            && t.Cpu(Pe(k.cmg, p)) == cpu;
        AssignedIffWindow(t, a, Pe(k.cmg, p));
      }
    }
  }

  // ---------- exhaustion ----------

  lemma {:induction false} RangeSize(c: int, n: nat, blades: set<Bb>)
    requires forall k :: k in blades <==> (k.cmg == c && 0 <= k.blade < n)
    ensures |blades| == n
  {
    if n == 0 {
      EmptyBlades(blades);
    } else {
      RangeSize(c, n - 1, blades - {Bb(c, n - 1)});
    }
  }

  lemma EmptyBlades(blades: set<Bb>)
    requires forall k :: k !in blades
    ensures blades == {}
  {
  }

  /** Allocate succeeds exactly if the mask has at least two CPUs, all in one CMG, and a
      blade of that CMG is not allocated.  A refusal for lack of blades means that the CMG
      has as many live allocations as blades, and it changes none of the tables. */
  lemma AllocateComplete(t: Topology, s: State, who: Caller, cpumask: set<int>)
    requires Inv(t, s)
    ensures var (s', r) := Allocate(t, s, who, cpumask);
            var c := CheckCpumask(t, cpumask);
            && (c >= 0 <==> |cpumask| >= 2 && exists c' :: 0 <= c' < |t.cpus| && cpumask <= t.Cpus(c'))
            && (r.status == Success <==> c >= 0 && exists b :: 0 <= b < t.nBlades && Bb(c, b) !in Live(s.tasks))
            && (r.status == Success ==> LeastFreeBlade(s, c, r.value, t.nBlades))
            && (r == Reply(ENoDev, -1) ==>
                  |BladesOf(Live(s.tasks), c)| == t.nBlades && s' == s.(tasks := s'.tasks, numTasks := s'.numTasks))
            && (r == Reply(EInval, -1) ==> s' == s)
            && (c < 0 <==> r == Reply(EInval, -1))
  {
    hide KeysDistinct, IsLive, IsOwners, GroupsDistinct, WindowsOk, MasksOk, EntriesOk, NewAllocation, Shape;
    var c := CheckCpumask(t, cpumask);
    if c >= 0 {
      AllocateInCmg(t, s, who, cpumask, c);
      RegisterLive(t, s, who);
      var b := FirstZero(s.bbActive[c], 0, t.nBlades);
      if b < t.nBlades {
        assert Bb(c, b) !in Live(s.tasks);
      } else {
        AllActive(t, s, c);
      }
    }
  }

  /** With all its blade bits set a CMG has as many live allocations as blades. */
  lemma AllActive(t: Topology, s: State, c: int)
    requires Inv(t, s) && 0 <= c < |s.bbActive| && forall b | 0 <= b < t.nBlades :: b in s.bbActive[c]
    ensures |BladesOf(Live(s.tasks), c)| == t.nBlades
  {
    hide KeysDistinct, IsLive, IsOwners, GroupsDistinct, WindowsOk, MasksOk;
    BladeRange(t, Live(s.tasks));
    forall k ensures k in BladesOf(Live(s.tasks), c) <==> (k.cmg == c && 0 <= k.blade < t.nBlades) {
      if k.cmg == c && 0 <= k.blade < t.nBlades { assert k.blade in s.bbActive[c] && k == Bb(c, k.blade); }
    }
    RangeSize(c, t.nBlades, BladesOf(Live(s.tasks), c));
  }

  ghost predicate LeastFreeBlade(s: State, c: int, b: int, limit: int)
    requires KeysDistinct(s.tasks)
  {
    && 0 <= b < limit && Bb(c, b) !in Live(s.tasks)
    && (forall m | 0 <= m < b :: Bb(c, m) in Live(s.tasks))
  }

  /** The allocations that hold one of the first `n` windows of `pe`. */
  ghost function Holders(live: map<Bb, Entry>, pe: Pe, n: int): set<Bb> {
    set k | k in live && exists w :: 0 <= w < n && HasWindow(live[k].a, pe, w)
  }

  /** One more held window adds exactly its holder, which holds none of the earlier ones. */
  lemma HoldersMore(live: map<Bb, Entry>, pe: Pe, n: nat, k: Bb)
    requires Exclusive(live) && k in live && HasWindow(live[k].a, pe, n)
    ensures k !in Holders(live, pe, n) && Holders(live, pe, n + 1) == Holders(live, pe, n) + {k}
  {
    hide Exclusive;
    forall k' | k' in Holders(live, pe, n + 1) ensures k' in Holders(live, pe, n) + {k} {
      var w :| 0 <= w < n + 1 && HasWindow(live[k'].a, pe, w);
      if w == n { ExclusiveAt(live, k', k, pe, n); }
    }
    assert Holders(live, pe, n) <= Holders(live, pe, n + 1);
  }

  lemma {:induction false} HoldersSize(live: map<Bb, Entry>, pe: Pe, n: nat)
    requires Exclusive(live)
    requires forall w | 0 <= w < n :: Held(live, pe, w)
    ensures |Holders(live, pe, n)| == n
  {
    hide Exclusive, HasWindow;
    if n == 0 {
      assert Holders(live, pe, 0) == {};
    } else {
      HoldersSize(live, pe, n - 1);
      assert Held(live, pe, n - 1);
      var k :| k in live && HasWindow(live[k].a, pe, n - 1);
      HoldersMore(live, pe, n - 1, k);
    }
  }

  /** An automatic assign succeeds exactly if the caller is pinned, its group owns the blade
      on the caller's CMG, its CPU participates and holds no window of it, and a window is
      free; it gets the least free window. */
  lemma AssignComplete(t: Topology, s: State, who: Caller, blade: int, window: int)
    requires Inv(t, s) && CallerOk(t, who) && window < 0 && who.pe in s.bwMap && who.pe in s.wreg
    ensures var r, k, live := Assign(t, s, who, blade, window).1, Bb(who.pe.cmg, blade), Live(s.tasks);
            && (r.status == Success <==>
                  && who.pinned && k in live && live[k].tgid == who.tgid && t.Cpu(who.pe) in live[k].a.cpumask
                  && (forall w :: !HasWindow(live[k].a, who.pe, w))
                  && exists w :: 0 <= w < t.nWindows && w !in s.bwMap[who.pe])
            && (r.status == Success ==>
                  && r.value !in s.bwMap[who.pe] && 0 <= r.value < t.nWindows
                  && forall w | 0 <= w < r.value :: w in s.bwMap[who.pe])
            && (r.status != Success ==> Assign(t, s, who, blade, window).0 == s)
  {
    hide KeysDistinct, IsLive, IsOwners, GroupsDistinct, BladesOk, WindowsOk, MasksOk, EntriesOk, AllocShape,
      WindowMap, TakeWindow;
    var k := Bb(who.pe.cmg, blade);
    Lookup(s.tasks, who.tgid, k);
    var i := FindTask(s.tasks, who.tgid);
    if who.pinned && i < |s.tasks| && FindAlloc(s.tasks[i].allocs, k) < |s.tasks[i].allocs| {
      var j := FindAlloc(s.tasks[i].allocs, k);
      var a := s.tasks[i].allocs[j];
      AtPosition(t, s, i, j, who.pe);
      WindowAt(a, who.pe);
    }
  }

  /** Whether the allocation has a window of a PE of its CMG. */
  lemma WindowAt(a: Alloc, pe: Pe)
    requires pe.cmg == a.cmg && 0 <= pe.ppe < |a.window|
    ensures a.window[pe.ppe] == UNASSIGNED_WIN <==> forall w :: !HasWindow(a, pe, w)
    ensures a.window[pe.ppe] == UNASSIGNED_WIN <==> pe.ppe !in WindowMap(a)
  {
    if a.window[pe.ppe] != UNASSIGNED_WIN { assert HasWindow(a, pe, a.window[pe.ppe]); }
  }

  /** Without leaks, a refusal for lack of windows means that as many distinct allocations
      as the PE has windows hold one there. */
  lemma WindowsExhausted(t: Topology, s: State, pe: Pe)
    requires Inv(t, s) && Exact(s) && pe in s.bwMap
    requires forall w | 0 <= w < t.nWindows :: w in s.bwMap[pe]
    ensures |Holders(Live(s.tasks), pe, t.nWindows)| == t.nWindows
  {
    hide KeysDistinct, IsLive, IsOwners, GroupsDistinct, BladesOk, MasksOk, EntriesOk, Exact;
    forall w | 0 <= w < t.nWindows ensures Held(Live(s.tasks), pe, w) {
      ExactBitmap(t, s, pe, w);
    }
    HoldersSize(Live(s.tasks), pe, t.nWindows);
  }

  // ---------- blade masks ----------

  lemma {:induction false} PpeMaskSize(t: Topology, c: int, cpumask: set<int>)
    requires t.Valid() && 0 <= c < |t.cpus| && cpumask <= t.Cpus(c)
    ensures |t.PpeMask(c, cpumask)| == |cpumask|
    decreases |cpumask|
  {
    EmptyOrNot(cpumask);
    if cpu :| cpu in cpumask {
      assert cpu in t.Cpus(c);
      var p :| 0 <= p < |t.cpus[c]| && t.cpus[c][p] == cpu;
      PpeMaskSize(t, c, cpumask - {cpu});
      forall q | 0 <= q < |t.cpus[c]| && t.cpus[c][q] == cpu ensures q == p {
        assert t.Cpu(Pe(c, q)) == t.Cpu(Pe(c, p));
      }
      assert t.PpeMask(c, cpumask) == t.PpeMask(c, cpumask - {cpu}) + {p};
    } else {
      assert t.PpeMask(c, cpumask) == {};
    }
  }

  /** The blade register of every live allocation names exactly its participants, which
      all sit in its CMG; there is at least one. */
  lemma MaskAgreement(t: Topology, s: State, k: Bb)
    requires Inv(t, s) && k in Live(s.tasks)
    ensures var a := Live(s.tasks)[k].a;
            && a.cpumask != {} && a.cpumask <= t.Cpus(k.cmg) && k in s.breg
            && |s.breg[k].mask| == |a.cpumask|
            && forall p :: p in s.breg[k].mask <==> (t.HasPe(Pe(k.cmg, p)) && t.Cpu(Pe(k.cmg, p)) in a.cpumask)
  {
    hide KeysDistinct, IsLive, IsOwners, GroupsDistinct, BladesOk, WindowsOk;
    BladeRange(t, Live(s.tasks));
    PpeMaskSize(t, k.cmg, Live(s.tasks)[k].a.cpumask);
  }
}
