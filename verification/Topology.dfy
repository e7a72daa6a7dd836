/** The static layout of the chip: which CPU sits at which physical PE offset of
    which core memory group (CMG), and how many barrier blades a CMG and how many
    window registers a PE has.  All sizes are parameters. */
module Topology {

  /** A processing element: CMG number and physical offset inside the CMG. */
  datatype Pe = Pe(cmg: int, ppe: int)

  /** A barrier blade: CMG number and blade number inside the CMG. */
  datatype Bb = Bb(cmg: int, blade: int)

  /** `cpus[c][p]` is the CPU at offset `p` of CMG `c`. */
  datatype Topology = Topology(cpus: seq<seq<int>>, maxPe: nat, nBlades: nat, nWindows: nat) {

    predicate HasPe(pe: Pe) {
      0 <= pe.cmg < |cpus| && 0 <= pe.ppe < |cpus[pe.cmg]|
    }

    function Cpu(pe: Pe): int
      requires HasPe(pe)
    {
      cpus[pe.cmg][pe.ppe]
    }

    /** CPU ids are unique and not negative, a CMG has at most `maxPe` PEs, and there is at
        least one blade. */
    ghost predicate Valid() {
      && nBlades > 0
      && (forall pe | HasPe(pe) :: Cpu(pe) >= 0)
      && (forall c | 0 <= c < |cpus| :: |cpus[c]| <= maxPe)
      && (forall pe, pe' | HasPe(pe) && HasPe(pe') && Cpu(pe) == Cpu(pe') :: pe == pe')
    }

    function Pes(): set<Pe> {
      set c, p | 0 <= c < |cpus| && 0 <= p < |cpus[c]| :: Pe(c, p)
    }

    /** The CPUs of CMG `c`. */
    function Cpus(c: int): set<int> {
      if 0 <= c < |cpus| then set p | 0 <= p < |cpus[c]| :: cpus[c][p] else {}
    }

    /** All CPUs of the chip. */
    function AllCpus(): set<int> {
      set c, p | 0 <= c < |cpus| && 0 <= p < |cpus[c]| :: cpus[c][p]
    }

    /** The image of a CPU set under the PE numbering of CMG `c`. */
    function PpeMask(c: int, cpumask: set<int>): set<int> {
      if 0 <= c < |cpus| then set p | 0 <= p < |cpus[c]| && cpus[c][p] in cpumask else {}
    }
  }

  /** A PE whose CPU is in CMG `c` belongs to CMG `c`. */
  lemma SameCmg(t: Topology, c: int, pe: Pe)
    requires t.Valid() && t.HasPe(pe) && t.Cpu(pe) in t.Cpus(c)
    ensures pe.cmg == c
  {
    var p :| 0 <= p < |t.cpus[c]| && t.cpus[c][p] == t.Cpu(pe);
    assert t.Cpu(Pe(c, p)) == t.Cpu(pe);
  }
}
