/** Validation of a CPU mask and its translation to PE offsets. */
module MaskCheck {
  import opened Topology
  import opened DriverState
  import opened Invariant
  import opened Device

  /** The next CPU of the mask after `cpu`, as in iterating over a CPU mask. */
  method NextCpu(mask: set<int>, cpu: int) returns (found: bool, next: int)
    ensures IsNext(mask, cpu, found, next)
  {
    var rest := set c | c in mask && c > cpu;
    EmptyOrNot(rest);
    if rest == {} {
      assert forall c | c in mask :: c in rest <==> c > cpu;
      return false, cpu;
    }
    next :| next in rest;
    found, rest := true, rest - {next};
    while rest != {}
      invariant next in mask && next > cpu
      invariant forall c | c in mask && c > cpu :: c in rest || next <= c
      invariant forall c | c in rest :: c in mask && c > cpu
      decreases |rest|
    {
      EmptyOrNot(rest);
      var c :| c in rest;
      if c < next { next := c; }
      rest := rest - {c};
    }
  }

  /** The outcome of asking for the next CPU after `cpu`. */
  predicate IsNext(mask: set<int>, cpu: int, more: bool, next: int) {
    if more then next in mask && next > cpu && forall x | x in mask && x > cpu :: next <= x
    else forall x | x in mask :: x <= cpu
  }

  /** An iteration that removes what it visits: `gone` is done, the rest is from `cpu` on. */
  predicate Ahead(all: set<int>, gone: set<int>, more: bool, cpu: int) {
    && gone <= all
    && (more ==> cpu in all && cpu !in gone)
    && (forall x | x in all && x !in gone :: more && x >= cpu)
  }

  lemma AheadFirst(all: set<int>, more: bool, next: int)
    requires (forall x | x in all :: x >= 0) && IsNext(all, -1, more, next)
    ensures Ahead(all, {}, more, next)
  {
  }

  lemma AheadNext(all: set<int>, gone: set<int>, cpu: int, more: bool, next: int)
    requires Ahead(all, gone, true, cpu) && IsNext(all - (gone + {cpu}), cpu, more, next)
    ensures Ahead(all, gone + {cpu}, more, next)
    ensures |all - (gone + {cpu})| < |all - gone|
  {
    var rest := all - (gone + {cpu});
    assert all - gone == rest + {cpu};
    assert forall x | x in all && x !in gone + {cpu} :: x in rest;
  }

  lemma AheadOver(all: set<int>, gone: set<int>, cpu: int)
    requires Ahead(all, gone, false, cpu)
    ensures gone == all
  {
    assert forall x | x in all :: x in gone;
  }

  /** The CPUs that an iteration has passed when it stands at `cpu`, or is over. */
  function Passed(mask: set<int>, more: bool, cpu: int): set<int> {
    set x | x in mask && (more ==> x < cpu)
  }

  lemma PassedNext(mask: set<int>, cpu: int, more: bool, next: int)
    requires cpu in mask && IsNext(mask, cpu, more, next)
    ensures Passed(mask, more, next) == Passed(mask, true, cpu) + {cpu}
    ensures |mask - Passed(mask, more, next)| < |mask - Passed(mask, true, cpu)|
    ensures more ==> next in mask
  {
    assert Passed(mask, more, next) == Passed(mask, true, cpu) + {cpu};
    assert mask - Passed(mask, true, cpu) == mask - Passed(mask, more, next) + {cpu};
  }

  lemma PassedEnds(mask: set<int>, more: bool, next: int)
    requires (forall x | x in mask :: x >= 0) && IsNext(mask, -1, more, next)
    ensures Passed(mask, more, next) == {}
    ensures more ==> next in mask
  {
    assert forall x :: x !in Passed(mask, more, next);
  }

  lemma PassedOver(mask: set<int>, cpu: int)
    ensures Passed(mask, false, cpu) == mask
  {
    assert forall x | x in mask :: x in Passed(mask, false, cpu);
  }

  /** The PE offsets at which the list of CPUs holds a CPU of the mask. */
  function Offsets(cpus: seq<int>, cpumask: set<int>): set<int> {
    set p | 0 <= p < |cpus| && cpus[p] in cpumask
  }

  /** The offsets below `n` at which the list holds `cpu`. */
  function OffsetsOf(cpus: seq<int>, cpu: int, n: nat): set<int>
    requires n <= |cpus|
  {
    set p | 0 <= p < n && cpus[p] == cpu
  }

  lemma OffsetsMore(cpus: seq<int>, seen: set<int>, cpu: int)
    ensures Offsets(cpus, seen) + OffsetsOf(cpus, cpu, |cpus|) == Offsets(cpus, seen + {cpu})
    ensures Offsets(cpus, {}) == {} && OffsetsOf(cpus, cpu, 0) == {}
  {
  }

  lemma OffsetsOfMore(cpus: seq<int>, cpu: int, n: nat)
    requires n < |cpus|
    ensures OffsetsOf(cpus, cpu, n + 1) == OffsetsOf(cpus, cpu, n) + (if cpus[n] == cpu then {n} else {})
  {
  }

  /** For every CPU of the mask, search the list and set the bit of its offset. */
  method FindOffsets(cpus: seq<int>, cpumask: set<int>) returns (mask: set<int>)
    requires forall cpu | cpu in cpumask :: cpu >= 0
    ensures mask == Offsets(cpus, cpumask)
  {
    hide Offsets, OffsetsOf, Passed, IsNext;
    mask := {};
    var more, cpu := NextCpu(cpumask, -1);
    PassedEnds(cpumask, more, cpu);
    OffsetsMore(cpus, {}, cpu);
    while more
      invariant more ==> cpu in cpumask
      invariant mask == Offsets(cpus, Passed(cpumask, more, cpu))
      decreases |cpumask - Passed(cpumask, more, cpu)|
    {
      OffsetsMore(cpus, Passed(cpumask, true, cpu), cpu);
      for p := 0 to |cpus|
        invariant mask == Offsets(cpus, Passed(cpumask, true, cpu)) + OffsetsOf(cpus, cpu, p)
      {
        OffsetsOfMore(cpus, cpu, p);
        if cpus[p] == cpu { mask := mask + {p}; }
      }
      ghost var last := cpu;
      more, cpu := NextCpu(cpumask, cpu);
      PassedNext(cpumask, last, more, cpu);
    }
    PassedOver(cpumask, cpu);
  }

  /** The PE offsets of the mask's CPUs on CMG `c`. */
  method CpumaskToPpemask(dev: HwbDevice, c: int, cpumask: set<int>) returns (mask: set<int>)
    requires dev.Valid() && 0 <= c < |dev.cmgs|
    requires forall cpu | cpu in cpumask :: cpu >= 0
    ensures mask == dev.t.PpeMask(c, cpumask)
  {
    hide dev.ListsAre, Shape;
    assert dev.CmgIs(dev.cmgs[c], c, dev.model.bbActive[c], dev.model.bwMap);
    mask := FindOffsets(dev.cmgs[c].cpus, cpumask);
  }

  /** The mask is usable on CMG `c`: all its CPUs are online, some CPU of it is in the
      topology tables, and every one that is there belongs to CMG `c`. */
  ghost predicate Usable(t: Topology, online: set<int>, cpumask: set<int>, c: int) {
    && 0 <= c < |t.cpus| && cpumask <= online
    && (exists cpu :: cpu in cpumask && cpu in t.AllCpus())
    && (forall cpu | cpu in cpumask && cpu in t.AllCpus() :: cpu in t.Cpus(c))
  }

  /** What the CPUs in `seen` say about the CMG so far. */
  ghost predicate SoFar(t: Topology, seen: set<int>, cmg: int) {
    if cmg < 0 then forall cpu | cpu in seen :: cpu !in t.AllCpus()
    else Usable(t, seen, seen, cmg)
  }

  lemma OnlyHome(t: Topology, cpu: int, c: int, c': int)
    requires t.Valid() && cpu in t.Cpus(c) && cpu in t.Cpus(c')
    ensures c == c'
  {
    var p :| 0 <= p < |t.cpus[c]| && t.cpus[c][p] == cpu;
    var p' :| 0 <= p' < |t.cpus[c']| && t.cpus[c'][p'] == cpu;
    assert t.Cpu(Pe(c, p)) == t.Cpu(Pe(c', p'));
  }

  lemma HomeExists(t: Topology, cpu: int)
    ensures cpu in t.AllCpus() <==> exists c :: 0 <= c < |t.cpus| && cpu in t.Cpus(c)
  {
    if cpu in t.AllCpus() {
      var c, p :| 0 <= c < |t.cpus| && 0 <= p < |t.cpus[c]| && t.cpus[c][p] == cpu;
      assert cpu in t.Cpus(c);
    }
    if c :| 0 <= c < |t.cpus| && cpu in t.Cpus(c) {
      var p :| 0 <= p < |t.cpus[c]| && t.cpus[c][p] == cpu;
      assert t.cpus[c][p] in t.AllCpus();
    }
  }

  /** Look one CPU up in all topology tables: the first hit fixes the CMG, and a hit in
      another CMG is an error. */
  method PlaceCpu(dev: HwbDevice, cpu: int, cmg: int) returns (ok: bool, cmg': int)
    requires dev.Valid() && dev.t.Valid() && -1 <= cmg < |dev.cmgs|
    ensures -1 <= cmg' < |dev.cmgs|
    ensures ok ==> if cpu !in dev.t.AllCpus() then cmg' == cmg
                   else cpu in dev.t.Cpus(cmg') && (cmg >= 0 ==> cmg' == cmg)
    ensures !ok ==> cmg >= 0 && cpu in dev.t.AllCpus() && cpu !in dev.t.Cpus(cmg)
  {
    hide dev.ListsAre, Shape;
    ok, cmg' := true, cmg;
    for c := 0 to |dev.cmgs|
      invariant ok && -1 <= cmg' < |dev.cmgs|
      invariant if exists k :: 0 <= k < c && cpu in dev.t.Cpus(k)
                then cmg' >= 0 && cpu in dev.t.Cpus(cmg') && (cmg >= 0 ==> cmg' == cmg) else cmg' == cmg
    {
      assert dev.CmgIs(dev.cmgs[c], c, dev.model.bbActive[c], dev.model.bwMap);
      ghost var before := cmg';
      for p := 0 to |dev.cmgs[c].cpus|
        invariant ok && -1 <= cmg' < |dev.cmgs|
        invariant if exists q :: 0 <= q < p && dev.cmgs[c].cpus[q] == cpu
                  then cmg' == c && cpu in dev.t.Cpus(c) && (before >= 0 ==> before == c) else cmg' == before
      {
        if dev.cmgs[c].cpus[p] == cpu {
          assert cpu in dev.t.Cpus(c);
          HomeExists(dev.t, cpu);
          if cmg' < 0 { cmg' := dev.cmgs[c].cmgId; }
          if cmg' != dev.cmgs[c].cmgId {
            if cpu in dev.t.Cpus(before) { OnlyHome(dev.t, cpu, c, before); }
            return false, cmg';
          }
        }
      }
    }
    HomeExists(dev.t, cpu);
  }

  /** The mask check: at least two CPUs, all online, all on one CMG.  The result is the CMG
      or a negative error. */
  method CheckCpumask(dev: HwbDevice, online: set<int>, cpumask: set<int>) returns (cmg: int)
    requires dev.Valid() && dev.t.Valid() && forall cpu | cpu in cpumask :: cpu >= 0
    ensures |cpumask| < 2 ==> cmg == -22
    ensures |cpumask| >= 2 ==> cmg >= -1 && forall c :: Usable(dev.t, online, cpumask, c) <==> cmg >= 0 && c == cmg
  {
    hide dev.ListsAre, Shape, Passed, IsNext;
    if |cpumask| < 2 { return -22; }
    cmg := -1;
    var more, cpu := NextCpu(cpumask, -1);
    PassedEnds(cpumask, more, cpu);
    while more
      invariant more ==> cpu in cpumask
      invariant Passed(cpumask, more, cpu) <= online
      invariant -1 <= cmg < |dev.cmgs| == |dev.t.cpus| && SoFar(dev.t, Passed(cpumask, more, cpu), cmg)
      decreases |cpumask - Passed(cpumask, more, cpu)|
    {
      ghost var seen := Passed(cpumask, true, cpu);
      if cpu !in online { return -1; }
      var ok, cmg' := PlaceCpu(dev, cpu, cmg);
      if !ok {
        PassedIn(cpumask, cpu);
        NotUsable(dev.t, online, cpumask, seen, cmg, cpu);
        return -1;
      }
      MoreSeen(dev.t, seen, cmg, cpu, cmg');
      ghost var last := cpu;
      cmg := cmg';
      more, cpu := NextCpu(cpumask, cpu);
      PassedNext(cpumask, last, more, cpu);
    }
    PassedOver(cpumask, cpu);
    AllSeen(dev.t, online, cpumask, cmg);
  }

  lemma PassedIn(mask: set<int>, cpu: int)
    ensures Passed(mask, true, cpu) <= mask
  {
  }

  lemma MoreSeen(t: Topology, seen: set<int>, cmg: int, cpu: int, cmg': int)
    requires t.Valid() && SoFar(t, seen, cmg) && -1 <= cmg < |t.cpus| && -1 <= cmg' < |t.cpus|
    requires if cpu !in t.AllCpus() then cmg' == cmg else cpu in t.Cpus(cmg') && (cmg >= 0 ==> cmg' == cmg)
    ensures SoFar(t, seen + {cpu}, cmg')
  {
  }

  lemma NotUsable(t: Topology, online: set<int>, cpumask: set<int>, seen: set<int>, cmg: int, cpu: int)
    requires t.Valid() && SoFar(t, seen, cmg) && cmg >= 0 && seen <= cpumask && cpu in cpumask
    requires cpu in t.AllCpus() && cpu !in t.Cpus(cmg)
    ensures forall c :: !Usable(t, online, cpumask, c)
  {
    var x :| x in seen && x in t.AllCpus();
    forall c | Usable(t, online, cpumask, c) ensures c == cmg { OnlyHome(t, x, c, cmg); }
  }

  lemma AllSeen(t: Topology, online: set<int>, cpumask: set<int>, cmg: int)
    requires t.Valid() && SoFar(t, cpumask, cmg) && cpumask <= online && -1 <= cmg < |t.cpus|
    ensures forall c :: Usable(t, online, cpumask, c) <==> cmg >= 0 && c == cmg
  {
    if cmg >= 0 {
      var x :| x in cpumask && x in t.AllCpus();
      forall c | Usable(t, online, cpumask, c) ensures c == cmg { OnlyHome(t, x, c, cmg); }
    }
  }

  /** When exactly the CPUs in the tables are online, the check accepts a mask for CMG `c`
      if and only if it has at least two CPUs and all of them are in CMG `c`. */
  lemma UsableIsInCmg(t: Topology, cpumask: set<int>, c: int)
    requires t.Valid() && cpumask != {}
    ensures Usable(t, t.AllCpus(), cpumask, c) <==> 0 <= c < |t.cpus| && cpumask <= t.Cpus(c)
  {
    EmptyOrNot(cpumask);
    var x :| x in cpumask;
    forall cpu | cpu in t.Cpus(c) ensures cpu in t.AllCpus() { HomeExists(t, cpu); }
    if 0 <= c < |t.cpus| && cpumask <= t.Cpus(c) {
      assert x in t.AllCpus() && cpumask <= t.AllCpus();
      assert Usable(t, t.AllCpus(), cpumask, c);
    }
    if Usable(t, t.AllCpus(), cpumask, c) {
      forall cpu | cpu in cpumask ensures cpu in t.Cpus(c) { assert cpu in t.AllCpus(); }
    }
  }

  /** The mask check computes the CMG that the state machine's allocate step uses. */
  lemma CheckIsStep(t: Topology, cpumask: set<int>, cmg: int)
    requires t.Valid() && |cpumask| >= 2 && cmg >= -1
    requires forall c :: Usable(t, t.AllCpus(), cpumask, c) <==> cmg >= 0 && c == cmg
    ensures DriverState.CheckCpumask(t, cpumask) == cmg
  {
    var r := DriverState.CheckCpumask(t, cpumask);
    UsableIsInCmg(t, cpumask, r);
    UsableIsInCmg(t, cpumask, cmg);
  }

  /** The translation to PE offsets is one-to-one on the CPUs of a CMG. */
  lemma PpeMaskInjective(t: Topology, c: int, m: set<int>, m': set<int>)
    requires 0 <= c < |t.cpus| && m <= t.Cpus(c) && m' <= t.Cpus(c) && t.PpeMask(c, m) == t.PpeMask(c, m')
    ensures m == m'
  {
    forall cpu | cpu in t.Cpus(c) ensures cpu in m <==> cpu in m' {
      var p :| 0 <= p < |t.cpus[c]| && t.cpus[c][p] == cpu;
      assert p in t.PpeMask(c, m) <==> cpu in m;
      assert p in t.PpeMask(c, m') <==> cpu in m';
    }
  }
}
