/** The sense-reversing barrier of one blade: every participating PE reads LBSY, writes the
    inverted value to its BST bit, and polls until LBSY equals what it wrote.  Reading and
    writing are separate steps, and the hardware updates LBSY in steps of its own. */
module Barrier {
  import opened DriverState

  /** Where a PE is: working, between read and write, or polling for the value it wrote. */
  datatype Pc = Idle | Ready(sense: bool) | Waiting(sense: bool)

  /** A PE's program counter and the number of rounds it has completed. */
  datatype Local = Local(pc: Pc, rounds: nat)

  /** The blade's register, the PEs, and a history counter of LBSY changes that no step reads. */
  datatype BState = BState(reg: BladeReg, local: map<int, Local>, flips: nat)

  datatype Event = Read(p: int) | Write(p: int) | Poll(p: int) | Update

  /** The hardware rule: LBSY becomes 1 when all participating BST bits are 1, 0 when all
      are 0, and otherwise holds its value. */
  function Lbsy(reg: BladeReg): bool {
    if reg.mask <= reg.bst then true else if reg.mask !! reg.bst then false else reg.lbsy
  }

  function SetBst(reg: BladeReg, p: int, value: bool): BladeReg {
    reg.(bst := if value then reg.bst + {p} else reg.bst - {p})
  }

  /** The step exists: the PE participates and is at the right place. */
  predicate CanDo(s: BState, e: Event) {
    match e
    case Read(p) => p in s.local && s.local[p].pc.Idle?
    case Write(p) => p in s.local && s.local[p].pc.Ready?
    case Poll(p) => p in s.local && s.local[p].pc.Waiting?
    case Update => true
  }

  function Do(s: BState, e: Event): BState
    requires CanDo(s, e)
  {
    match e
    case Read(p) => s.(local := s.local[p := s.local[p].(pc := Ready(!s.reg.lbsy))])
    case Write(p) =>
      var sense := s.local[p].pc.sense;
      s.(reg := SetBst(s.reg, p, sense), local := s.local[p := s.local[p].(pc := Waiting(sense))])
    case Poll(p) =>
      if s.reg.lbsy == s.local[p].pc.sense
      then s.(local := s.local[p := Local(Idle, s.local[p].rounds + 1)])
      else s
    case Update =>
      s.(reg := s.reg.(lbsy := Lbsy(s.reg)), flips := if Lbsy(s.reg) != s.reg.lbsy then s.flips + 1 else s.flips)
  }

  predicate CanRun(s: BState, es: seq<Event>)
    decreases |es|
  {
    es == [] || (CanDo(s, es[0]) && CanRun(Do(s, es[0]), es[1..]))
  }

  function Run(s: BState, es: seq<Event>): BState
    requires CanRun(s, es)
    decreases |es|
  {
    if es == [] then s else Run(Do(s, es[0]), es[1..])
  }

  /** A freshly programmed blade with every participant at work. */
  ghost predicate Fresh(s: BState) {
    && s.reg.mask != {} && s.reg.bst == {} && !s.reg.lbsy && s.flips == 0
    && s.local.Keys == s.reg.mask && (forall p | p in s.local :: s.local[p] == Local(Idle, 0))
  }

  /** One PE against the blade: what it wrote, what it waits for, and how its round count
      relates to the number of LBSY changes. */
  predicate LocalOk(l: Local, bit: bool, lbsy: bool, flips: nat) {
    match l.pc
    case Idle => l.rounds == flips && bit == lbsy
    case Ready(sense) => l.rounds == flips && bit == lbsy && sense == !lbsy
    case Waiting(sense) => bit == sense && (if sense == lbsy then l.rounds + 1 == flips else l.rounds == flips)
  }

  ghost predicate BInv(s: BState) {
    && s.reg.mask != {} && s.local.Keys == s.reg.mask
    && (forall p | p in s.local :: LocalOk(s.local[p], p in s.reg.bst, s.reg.lbsy, s.flips))
  }

  /** At an LBSY change every participant has written and is waiting for exactly this change. */
  lemma FlipOk(s: BState, p: int)
    requires BInv(s) && Lbsy(s.reg) != s.reg.lbsy && p in s.local
    ensures s.local[p].pc == Waiting(Lbsy(s.reg)) && s.local[p].rounds == s.flips
  {
    assert p in s.reg.mask;
    assert LocalOk(s.local[p], p in s.reg.bst, s.reg.lbsy, s.flips);
  }

  lemma StepKeeps(s: BState, e: Event)
    requires BInv(s) && CanDo(s, e)
    ensures BInv(Do(s, e)) && Do(s, e).reg.mask == s.reg.mask
  {
    var s' := Do(s, e);
    forall p | p in s'.local ensures LocalOk(s'.local[p], p in s'.reg.bst, s'.reg.lbsy, s'.flips) {
      assert LocalOk(s.local[p], p in s.reg.bst, s.reg.lbsy, s.flips);
      if e == Update && Lbsy(s.reg) != s.reg.lbsy { FlipOk(s, p); }
    }
  }

  lemma {:induction false} RunKeeps(s: BState, es: seq<Event>)
    requires BInv(s) && CanRun(s, es)
    ensures BInv(Run(s, es)) && Run(s, es).reg.mask == s.reg.mask
    decreases |es|
  {
    if es != [] {
      StepKeeps(s, es[0]);
      RunKeeps(Do(s, es[0]), es[1..]);
    }
  }

  /** The poll of PE `p` leaves the barrier. */
  predicate Leaves(s: BState, e: Event, p: int) {
    e == Poll(p) && p in s.local && s.local[p].pc.Waiting? && s.reg.lbsy == s.local[p].pc.sense
  }

  /** How often PE `q` has written its BST bit along a run. */
  function Writes(es: seq<Event>, q: int): nat {
    if es == [] then 0 else Writes(es[..|es|-1], q) + (if es[|es|-1] == Write(q) then 1 else 0)
  }

  lemma {:induction false} RunOneMore(s: BState, es: seq<Event>, e: Event)
    ensures CanRun(s, es + [e]) <==> (CanRun(s, es) && CanDo(Run(s, es), e))
    ensures CanRun(s, es + [e]) ==> Run(s, es + [e]) == Do(Run(s, es), e)
    decreases |es|
  {
    if es == [] {
      assert ([] + [e])[1..] == [];
    } else {
      assert (es + [e])[1..] == es[1..] + [e];
      if CanDo(s, es[0]) { RunOneMore(Do(s, es[0]), es[1..], e); }
    }
  }

  /** A PE has written its bit once per completed round, and once more if it is waiting. */
  lemma {:induction false} WritesCount(s: BState, es: seq<Event>, q: int)
    requires Fresh(s) && CanRun(s, es) && q in s.local
    ensures BInv(Run(s, es)) && q in Run(s, es).local
    ensures Writes(es, q) == Run(s, es).local[q].rounds + (if Run(s, es).local[q].pc.Waiting? then 1 else 0)
    decreases |es|
  {
    FreshInv(s);
    RunKeeps(s, es);
    if es != [] {
      var n := |es| - 1;
      assert es == es[..n] + [es[n]];
      RunOneMore(s, es[..n], es[n]);
      WritesCount(s, es[..n], q);
    }
  }

  lemma FreshInv(s: BState)
    requires Fresh(s)
    ensures BInv(s)
  {
  }

  /** Barrier safety: when along any run a PE leaves round `k`, every participant has
      already written its BST bit for round `k`. */
  lemma Safety(s: BState, es: seq<Event>, p: int, q: int)
    requires Fresh(s) && CanRun(s, es) && q in s.local
    requires Leaves(Run(s, es), Poll(p), p)
    ensures Writes(es, q) >= Run(s, es).local[p].rounds + 1
  {
    WritesCount(s, es, q);
    var s' := Run(s, es);
    assert LocalOk(s'.local[p], p in s'.reg.bst, s'.reg.lbsy, s'.flips);
    assert LocalOk(s'.local[q], q in s'.reg.bst, s'.reg.lbsy, s'.flips);
  }

  /** In every state of every run the round counts of two participants differ by at most one. */
  lemma RoundsClose(s: BState, es: seq<Event>, p: int, q: int)
    requires Fresh(s) && CanRun(s, es) && p in s.local && q in s.local
    ensures p in Run(s, es).local && q in Run(s, es).local
    ensures Run(s, es).local[p].rounds <= Run(s, es).local[q].rounds + 1
  {
    FreshInv(s);
    RunKeeps(s, es);
    var s' := Run(s, es);
    assert LocalOk(s'.local[p], p in s'.reg.bst, s'.reg.lbsy, s'.flips);
    assert LocalOk(s'.local[q], q in s'.reg.bst, s'.reg.lbsy, s'.flips);
  }
}
