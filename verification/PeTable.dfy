/** The table of processing elements that module load builds: every online CPU enters itself
    at the place its hardware register reports, then the entries of each CMG are counted. */
module PeTable {
  import opened Topology
  import opened Invariant

  /** An entry: CPU, CMG and PE offset, all -1 while unused. */
  datatype Slot = Slot(cpu: int, cmg: int, ppe: int)

  const EMPTY := Slot(-1, -1, -1)

  /** Where the hardware puts the CPUs: inside the table, no two at one place. */
  ghost predicate Placed(place: map<int, Pe>, nCmg: int, maxPe: int) {
    && (forall cpu | cpu in place :: cpu >= 0 && 0 <= place[cpu].cmg < nCmg && 0 <= place[cpu].ppe < maxPe)
    && (forall cpu, cpu' | cpu in place && cpu' in place && place[cpu] == place[cpu'] :: cpu == cpu')
  }

  ghost predicate Taken(place: map<int, Pe>, cpus: set<int>, c: int, p: int) {
    exists cpu :: cpu in cpus && cpu in place && place[cpu] == Pe(c, p)
  }

  /** The table holds exactly the CPUs in `cpus`, each at its place. */
  ghost predicate Filled(table: array2<Slot>, place: map<int, Pe>, cpus: set<int>)
    reads table
  {
    && (forall cpu | cpu in cpus && cpu in place ::
          && 0 <= place[cpu].cmg < table.Length0 && 0 <= place[cpu].ppe < table.Length1
          && table[place[cpu].cmg, place[cpu].ppe] == Slot(cpu, place[cpu].cmg, place[cpu].ppe))
    && (forall c, p | 0 <= c < table.Length0 && 0 <= p < table.Length1 && !Taken(place, cpus, c, p) ::
        table[c, p] == Slot(-1, -1, -1))
  }

  /** One CPU enters itself. */
  method FillPeMap(table: array2<Slot>, cpu: int, pe: Pe, ghost place: map<int, Pe>, ghost done: set<int>)
    requires Placed(place, table.Length0, table.Length1) && cpu in place && place[cpu] == pe
    requires Filled(table, place, done)
    modifies table
    ensures Filled(table, place, done + {cpu})
  {
    table[pe.cmg, pe.ppe] := Slot(cpu, pe.cmg, pe.ppe);
    forall c, p | 0 <= c < table.Length0 && 0 <= p < table.Length1 && !Taken(place, done + {cpu}, c, p)
      ensures !Taken(place, done, c, p) && Pe(c, p) != pe
    {
      TakenMore(place, done, cpu, c, p);
    }
  }

  lemma TakenMore(place: map<int, Pe>, done: set<int>, cpu: int, c: int, p: int)
    requires cpu in place
    ensures Taken(place, done + {cpu}, c, p) <==> Taken(place, done, c, p) || place[cpu] == Pe(c, p)
  {
    if place[cpu] == Pe(c, p) { assert cpu in done + {cpu}; }
    if Taken(place, done, c, p) {
      var x :| x in done && x in place && place[x] == Pe(c, p);
      assert x in done + {cpu};
    }
  }

  function CpuSet(order: seq<int>): set<int> { set cpu | cpu in order }

  /** Clear the table, then let the CPUs enter themselves in any order. */
  method FillTable(table: array2<Slot>, place: map<int, Pe>, order: seq<int>)
    requires Placed(place, table.Length0, table.Length1) && forall cpu | cpu in order :: cpu in place
    modifies table
    ensures Filled(table, place, CpuSet(order))
  {
    for c := 0 to table.Length0
      invariant forall i, j | 0 <= i < c && 0 <= j < table.Length1 :: table[i, j] == EMPTY
    {
      for p := 0 to table.Length1
        invariant forall i, j | 0 <= i < c && 0 <= j < table.Length1 :: table[i, j] == EMPTY
        invariant forall j | 0 <= j < p :: table[c, j] == EMPTY
      {
        table[c, p] := EMPTY;
      }
    }
    for n := 0 to |order|
      invariant Filled(table, place, CpuSet(order[..n]))
    {
      FillPeMap(table, order[n], place[order[n]], place, CpuSet(order[..n]));
      assert CpuSet(order[..n+1]) == CpuSet(order[..n]) + {order[n]};
    }
    assert order[..|order|] == order;
  }

  /** The order of the CPUs does not matter: the table is determined by who is online. */
  lemma OrderIrrelevant(table: array2<Slot>, table': array2<Slot>, place: map<int, Pe>, cpus: set<int>)
    requires table.Length0 == table'.Length0 && table.Length1 == table'.Length1
    requires Placed(place, table.Length0, table.Length1)
    requires Filled(table, place, cpus) && Filled(table', place, cpus)
    ensures forall c, p | 0 <= c < table.Length0 && 0 <= p < table.Length1 :: table[c, p] == table'[c, p]
  {
    forall c, p | 0 <= c < table.Length0 && 0 <= p < table.Length1 ensures table[c, p] == table'[c, p] {
      if Taken(place, cpus, c, p) {
        var cpu :| cpu in cpus && cpu in place && place[cpu] == Pe(c, p);
      }
    }
  }

  /** The used entries of CMG `c` among the first `n`. */
  function Used(table: array2<Slot>, c: int, n: int): set<int>
    requires 0 <= c < table.Length0 && 0 <= n <= table.Length1
    reads table
  {
    set p | 0 <= p < n && table[c, p].cpu >= 0
  }

  /** Count the used entries of every CMG; the result is the largest count. */
  method GetMaxPePerCmg(table: array2<Slot>, numPes: array<int>) returns (max: int)
    requires numPes.Length == table.Length0
    modifies numPes
    ensures forall c | 0 <= c < numPes.Length :: numPes[c] == |Used(table, c, table.Length1)|
    ensures forall c | 0 <= c < numPes.Length :: numPes[c] <= max
    ensures max == 0 || exists c :: 0 <= c < numPes.Length && numPes[c] == max
  {
    max := 0;
    ghost var best := 0;
    for c := 0 to table.Length0
      invariant forall k | 0 <= k < c :: numPes[k] == |Used(table, k, table.Length1)|
      invariant forall k | 0 <= k < c :: numPes[k] <= max
      invariant max == 0 || (0 <= best < c && numPes[best] == max)
    {
      var count := 0;
      for p := 0 to table.Length1
        invariant count == |Used(table, c, p)|
        modifies {}
      {
        UsedMore(table, c, p);
        if table[c, p].cpu >= 0 { count := count + 1; }
      }
      ghost var was := numPes[..];
      numPes[c] := count;
      assert forall k | 0 <= k < c :: numPes[k] == was[k];
      if count > max {
        max := count;
        best := c;
      }
    }
  }

  lemma UsedMore(table: array2<Slot>, c: int, p: int)
    requires 0 <= c < table.Length0 && 0 <= p < table.Length1
    ensures |Used(table, c, p + 1)| == |Used(table, c, p)| + (if table[c, p].cpu >= 0 then 1 else 0)
    ensures Used(table, c, 0) == {}
  {
    if table[c, p].cpu >= 0 {
      assert Used(table, c, p + 1) == Used(table, c, p) + {p};
    } else {
      assert Used(table, c, p + 1) == Used(table, c, p);
    }
  }

  /** The CPUs that sit in CMG `c`. */
  ghost function InCmg(place: map<int, Pe>, cpus: set<int>, c: int): set<int> {
    set cpu | cpu in cpus && cpu in place && place[cpu].cmg == c
  }

  lemma UsedIsTaken(table: array2<Slot>, place: map<int, Pe>, cpus: set<int>, c: int, p: int)
    requires Placed(place, table.Length0, table.Length1) && Filled(table, place, cpus)
    requires 0 <= c < table.Length0 && 0 <= p < table.Length1
    ensures table[c, p].cpu >= 0 <==> Taken(place, cpus, c, p)
    ensures Taken(place, cpus, c, p) ==>
              table[c, p] == Slot(table[c, p].cpu, c, p) && table[c, p].cpu in cpus
              && table[c, p].cpu in place && place[table[c, p].cpu] == Pe(c, p)
  {
    if Taken(place, cpus, c, p) {
      var cpu :| cpu in cpus && cpu in place && place[cpu] == Pe(c, p);
    }
  }

  /** The count of a CMG is the number of CPUs that sit in it. */
  lemma CountsAreExact(table: array2<Slot>, place: map<int, Pe>, cpus: set<int>, c: int)
    requires Placed(place, table.Length0, table.Length1) && Filled(table, place, cpus) && 0 <= c < table.Length0
    ensures |Used(table, c, table.Length1)| == |InCmg(place, cpus, c)|
  {
    var used, cmg := Used(table, c, table.Length1), InCmg(place, cpus, c);
    forall p | p in used ensures table[c, p].cpu in cmg && place[table[c, p].cpu].ppe == p {
      UsedIsTaken(table, place, cpus, c, p);
    }
    forall cpu | cpu in cmg ensures place[cpu].ppe in used {
      assert Taken(place, cpus, c, place[cpu].ppe) by { assert place[cpu] == Pe(c, place[cpu].ppe); }
    }
    InjectionSize(cmg, used, map cpu | cpu in cmg :: place[cpu].ppe);
    InjectionSize(used, cmg, map p | p in used :: table[c, p].cpu);
  }

  /** A set that maps one-to-one into another is not larger. */
  lemma {:induction false} InjectionSize(a: set<int>, b: set<int>, f: map<int, int>)
    requires forall x | x in a :: x in f && f[x] in b
    requires forall x, y | x in a && y in a && f[x] == f[y] :: x == y
    ensures |a| <= |b|
    decreases a
  {
    EmptyOrNot(a);
    if x :| x in a {
      InjectionSize(a - {x}, b - {f[x]}, f);
    } else {
      assert a == {};
    }
  }

  /** Look an entry up by CMG and PE offset, among the counted entries only; -1 if absent. */
  method GetPemap(table: array2<Slot>, numPes: int, cmg: int, ppe: int) returns (i: int)
    requires 0 <= cmg < table.Length0 && 0 <= numPes <= table.Length1
    ensures i == -1 || (0 <= i < numPes && table[cmg, i].cmg == cmg && table[cmg, i].ppe == ppe)
    ensures i == -1 <==> !Findable(table, numPes, cmg, ppe)
  {
    for k := 0 to numPes
      invariant forall j | 0 <= j < k :: !(table[cmg, j].cmg == cmg && table[cmg, j].ppe == ppe)
    {
      if table[cmg, k].cmg == cmg && table[cmg, k].ppe == ppe { return k; }
    }
    i := -1;
  }

  ghost predicate Findable(table: array2<Slot>, numPes: int, cmg: int, ppe: int)
    requires 0 <= cmg < table.Length0 && 0 <= numPes <= table.Length1
    reads table
  {
    exists k :: 0 <= k < numPes && table[cmg, k].cmg == cmg && table[cmg, k].ppe == ppe
  }

  lemma UsedSize(table: array2<Slot>, c: int, n: int)
    requires 0 <= c < table.Length0 && 0 <= n <= table.Length1
    ensures |Used(table, c, n)| <= n
  {
    if n > 0 { UsedSize(table, c, n - 1); UsedMore(table, c, n - 1); } else { assert Used(table, c, 0) == {}; }
  }

  /** The lookup finds every CPU of a CMG at its place if and only if the PE offsets in use
      are dense: exactly those below their number. */
  lemma FoundIffDense(table: array2<Slot>, place: map<int, Pe>, cpus: set<int>, c: int)
    requires Placed(place, table.Length0, table.Length1) && Filled(table, place, cpus) && 0 <= c < table.Length0
    ensures var n := |Used(table, c, table.Length1)|;
            && n <= table.Length1
            && ((forall cpu | cpu in InCmg(place, cpus, c) :: Findable(table, n, c, place[cpu].ppe))
                <==> (forall p | 0 <= p < table.Length1 :: Taken(place, cpus, c, p) <==> p < n))
  {
    var used := Used(table, c, table.Length1);
    var n := |used|;
    UsedSize(table, c, table.Length1);
    forall p | 0 <= p < table.Length1
      ensures p in used <==> Taken(place, cpus, c, p)
      ensures p in used ==> table[c, p] == Slot(table[c, p].cpu, c, p)
      ensures p !in used ==> table[c, p] == EMPTY
    {
      UsedIsTaken(table, place, cpus, c, p);
    }
    if forall cpu | cpu in InCmg(place, cpus, c) :: Findable(table, n, c, place[cpu].ppe) {
      var low := Low(n);
      forall p | p in used ensures p in low {
        var cpu :| cpu in cpus && cpu in place && place[cpu] == Pe(c, p);
        assert cpu in InCmg(place, cpus, c);
        var k :| 0 <= k < n && table[c, k].cmg == c && table[c, k].ppe == p;
      }
      SubsetSize(used, low);
    }
    if forall p | 0 <= p < table.Length1 :: Taken(place, cpus, c, p) <==> p < n {
      forall cpu | cpu in InCmg(place, cpus, c) ensures Findable(table, n, c, place[cpu].ppe) {
        var p := place[cpu].ppe;
        assert Taken(place, cpus, c, p);
        assert table[c, p] == Slot(cpu, c, p);
      }
    }
  }

  function Low(n: nat): (r: set<int>)
    ensures |r| == n && forall p :: p in r <==> 0 <= p < n
  {
    if n == 0 then {} else Low(n - 1) + {n - 1}
  }

  lemma SubsetSize(a: set<int>, b: set<int>)
    requires a <= b && |a| == |b|
    ensures a == b
  {
    assert b == a + (b - a);
  }

  /** The topology that a filled table describes. */
  function TableTopology(table: array2<Slot>, nBlades: nat, nWindows: nat): Topology
    reads table
  {
    Topology(seq(table.Length0, c requires 0 <= c < table.Length0 reads table =>
                   seq(|Used(table, c, table.Length1)|, p requires 0 <= p reads table =>
                         if p < table.Length1 then table[c, p].cpu else -1)),
             table.Length1, nBlades, nWindows)
  }

  /** A dense table gives a valid topology with exactly the online CPUs at their places. */
  lemma TableIsTopology(table: array2<Slot>, place: map<int, Pe>, cpus: set<int>, nBlades: nat, nWindows: nat)
    requires Placed(place, table.Length0, table.Length1) && Filled(table, place, cpus) && cpus <= place.Keys
    requires nBlades > 0
    requires forall c, p | 0 <= c < table.Length0 && 0 <= p < table.Length1 ::
               Taken(place, cpus, c, p) <==> p < |Used(table, c, table.Length1)|
    ensures var t := TableTopology(table, nBlades, nWindows);
            && t.Valid() && t.AllCpus() == cpus
            && (forall pe :: t.HasPe(pe) <==> Taken(place, cpus, pe.cmg, pe.ppe))
            && (forall cpu | cpu in cpus :: t.HasPe(place[cpu]) && t.Cpu(place[cpu]) == cpu)
  {
    var t := TableTopology(table, nBlades, nWindows);
    forall c | 0 <= c < table.Length0 ensures |t.cpus[c]| <= table.Length1 { UsedSize(table, c, table.Length1); }
    forall pe
      ensures t.HasPe(pe) <==> Taken(place, cpus, pe.cmg, pe.ppe)
      ensures t.HasPe(pe) ==> t.Cpu(pe) in cpus && place[t.Cpu(pe)] == pe
    {
      if t.HasPe(pe) { UsedIsTaken(table, place, cpus, pe.cmg, pe.ppe); }
    }
    forall cpu | cpu in cpus ensures t.HasPe(place[cpu]) && t.Cpu(place[cpu]) == cpu {
      assert Taken(place, cpus, place[cpu].cmg, place[cpu].ppe);
    }
    forall cpu | cpu in cpus ensures cpu in t.AllCpus() {
      assert t.cpus[place[cpu].cmg][place[cpu].ppe] == cpu;
    }
    forall cpu | cpu in t.AllCpus() ensures cpu in cpus {
      var c, p :| 0 <= c < |t.cpus| && 0 <= p < |t.cpus[c]| && t.cpus[c][p] == cpu;
      assert t.HasPe(Pe(c, p)) && t.Cpu(Pe(c, p)) == cpu;
    }
  }
}
