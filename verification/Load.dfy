/** Module load: fill and count the table of processing elements and build the device. */
module Load {
  import opened Topology
  import opened DriverState
  import opened Invariant
  import opened PeTable
  import opened Device
  import Refinement

  /** The CPUs occupy a prefix of each CMG's PE offsets. */
  ghost predicate Dense(place: map<int, Pe>, cpus: set<int>, nCmg: int, maxPe: int) {
    forall c, p | 0 <= c < nCmg && 0 <= p < maxPe :: Taken(place, cpus, c, p) <==> p < |InCmg(place, cpus, c)|
  }

  /** The counted entries of one CMG as a list of CPUs. */
  method CpuList(table: array2<Slot>, c: int, n: int) returns (cpus: seq<int>)
    requires 0 <= c < table.Length0 && 0 <= n <= table.Length1
    ensures |cpus| == n && forall p | 0 <= p < n :: cpus[p] == table[c, p].cpu
  {
    cpus := [];
    for p := 0 to n
      invariant |cpus| == p && forall q | 0 <= q < p :: cpus[q] == table[c, q].cpu
    {
      cpus := cpus + [table[c, p].cpu];
    }
  }

  /** The CMG objects of a counted table. */
  method BuildCmgs(table: array2<Slot>, numPes: array<int>) returns (lists: seq<seq<int>>, cmgs: seq<CmgDevice>)
    requires numPes.Length == table.Length0
    requires forall c | 0 <= c < numPes.Length :: 0 <= numPes[c] <= table.Length1
    ensures |lists| == |cmgs| == table.Length0 && fresh(cmgs)
    ensures forall c | 0 <= c < |lists| :: |lists[c]| == numPes[c] && forall p | 0 <= p < |lists[c]| ::
              lists[c][p] == table[c, p].cpu
    ensures forall c | 0 <= c < |cmgs| ::
              cmgs[c].cmgId == c && cmgs[c].cpus == lists[c] && cmgs[c].bbActive == {}
              && cmgs[c].bwMap.Length == |lists[c]| && forall p | 0 <= p < |lists[c]| :: cmgs[c].bwMap[p] == {}
    ensures forall c, d | 0 <= c < |cmgs| && 0 <= d < |cmgs| && cmgs[c].bwMap == cmgs[d].bwMap :: c == d
  {
    lists, cmgs := [], [];
    for c := 0 to table.Length0
      invariant |lists| == |cmgs| == c && fresh(cmgs)
      invariant forall k | 0 <= k < c :: |lists[k]| == numPes[k] && forall p | 0 <= p < |lists[k]| ::
                  lists[k][p] == table[k, p].cpu
      invariant forall k | 0 <= k < c ::
                  cmgs[k].cmgId == k && cmgs[k].cpus == lists[k] && cmgs[k].bbActive == {}
                  && fresh(cmgs[k].bwMap) && cmgs[k].bwMap.Length == |lists[k]| && forall p | 0 <= p < |lists[k]| ::
                      cmgs[k].bwMap[p] == {}
      invariant forall k, d | 0 <= k < c && 0 <= d < c && cmgs[k].bwMap == cmgs[d].bwMap :: k == d
    {
      var cpus := CpuList(table, c, numPes[c]);
      var cmg := new CmgDevice(c, cpus);
      lists, cmgs := lists + [cpus], cmgs + [cmg];
    }
  }

  /** Fill the table and count it. */
  method MakeTable(table: array2<Slot>, place: map<int, Pe>, order: seq<int>) returns (numPes: array<int>)
    requires Placed(place, table.Length0, table.Length1) && forall cpu | cpu in order :: cpu in place
    modifies table
    ensures Filled(table, place, CpuSet(order)) && fresh(numPes) && numPes.Length == table.Length0
    ensures forall c | 0 <= c < table.Length0 ::
              numPes[c] == |InCmg(place, CpuSet(order), c)| == |Used(table, c, table.Length1)| <= table.Length1
  {
    hide Filled, Placed, Used;
    FillTable(table, place, order);
    numPes := new int[table.Length0];
    var max := GetMaxPePerCmg(table, numPes);
    forall c | 0 <= c < table.Length0
      ensures |Used(table, c, table.Length1)| == |InCmg(place, CpuSet(order), c)| <= table.Length1
    {
      CountsAreExact(table, place, CpuSet(order), c);
      UsedSize(table, c, table.Length1);
    }
  }

  /** The topology of the lists that are read off a dense table. */
  lemma ListsAreTopology(table: array2<Slot>, place: map<int, Pe>, order: seq<int>, t: Topology)
    requires Placed(place, table.Length0, table.Length1) && forall cpu | cpu in order :: cpu in place
    requires Dense(place, CpuSet(order), table.Length0, table.Length1) && Filled(table, place, CpuSet(order))
    requires t.maxPe == table.Length1 && t.nBlades > 0 && |t.cpus| == table.Length0
    requires forall c | 0 <= c < |t.cpus| ::
               |t.cpus[c]| == |InCmg(place, CpuSet(order), c)| == |Used(table, c, table.Length1)| <= table.Length1
    requires forall c, p | 0 <= c < |t.cpus| && 0 <= p < |t.cpus[c]| :: t.cpus[c][p] == table[c, p].cpu
    ensures t.Valid() && t.AllCpus() == CpuSet(order) && t.Pes() == set cpu | cpu in order :: place[cpu]
    ensures forall cpu | cpu in order :: t.HasPe(place[cpu]) && t.Cpu(place[cpu]) == cpu
  {
    hide Filled, Placed, Taken;
    forall cpu | cpu in CpuSet(order) ensures cpu in place.Keys { assert cpu in order; }
    TableIsTopology(table, place, CpuSet(order), t.nBlades, t.nWindows);
    var t' := TableTopology(table, t.nBlades, t.nWindows);
    forall c | 0 <= c < |t.cpus| ensures t.cpus[c] == t'.cpus[c] { }
    assert t == t';
    PesArePlaces(t, place, order);
  }

  /** Whatever the order in which the CPUs enter themselves, on a dense chip with clear
      window registers load ends in an initial state with the invariant, and the topology
      has exactly the online CPUs, each at its place. */
  method LoadModule(table: array2<Slot>, place: map<int, Pe>, order: seq<int>, nBlades: nat, nWindows: nat,
      hw: Hardware)
    returns (dev: HwbDevice)
    requires Placed(place, table.Length0, table.Length1) && nBlades > 0 && forall cpu | cpu in order :: cpu in place
    requires Dense(place, CpuSet(order), table.Length0, table.Length1)
    requires hw.wreg.Keys == set cpu | cpu in order :: place[cpu]
    requires forall pe | pe in hw.wreg :: hw.wreg[pe] == seq(nWindows, _ => WinReg(false, 0))
    modifies table
    ensures fresh(dev) && dev.Valid() && dev.t.Valid() && Init(dev.t, dev.model) && Inv(dev.t, dev.model)
    ensures dev.t.AllCpus() == CpuSet(order) && dev.t.nBlades == nBlades && dev.t.nWindows == nWindows
    ensures forall cpu | cpu in order :: dev.t.HasPe(place[cpu]) && dev.t.Cpu(place[cpu]) == cpu
  {
    hide Filled, Placed, Dense, Used, Taken, Inv;
    var numPes := MakeTable(table, place, order);
    var lists, cmgs := BuildCmgs(table, numPes);
    var t := Topology(lists, table.Length1, nBlades, nWindows);
    ListsAreTopology(table, place, order, t);
    dev := new HwbDevice(t, cmgs, hw);
    Refinement.InitInv(t, dev.model);
  }

  lemma PesArePlaces(t: Topology, place: map<int, Pe>, order: seq<int>)
    requires forall cpu | cpu in order :: cpu in place && t.HasPe(place[cpu])
    requires forall pe | t.HasPe(pe) :: Taken(place, CpuSet(order), pe.cmg, pe.ppe)
    ensures t.Pes() == set cpu | cpu in order :: place[cpu]
  {
    var places := set cpu | cpu in order :: place[cpu];
    forall pe | pe in t.Pes() ensures pe in places {
      assert t.HasPe(pe);
      var cpu :| cpu in CpuSet(order) && cpu in place && place[cpu] == Pe(pe.cmg, pe.ppe);
      assert cpu in order;
    }
  }
}
