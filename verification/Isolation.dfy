/** Many barriers at once.  Every PE reaches the blades only through its window registers;
    while bitmaps and registers agree, each barrier runs as if it were alone. */
module Isolation {
  import opened Topology
  import opened DriverState
  import opened LiveMap
  import opened Invariant
  import opened Abstract
  import opened Refinement
  import opened Windows
  import opened Accounting
  import opened Barrier

  /** The blade registers of the chip, the threads of all barriers by blade and PE offset,
      and for each blade the history counter of its LBSY changes. */
  datatype Sys = Sys(breg: map<Bb, BladeReg>, threads: map<Bb, map<int, Local>>, flips: map<Bb, nat>)

  /** A step of the thread of barrier `k` at PE offset `p`, or an LBSY update of blade `k`. */
  datatype SysEvent = OnPe(k: Bb, e: Event) | OnBlade(k: Bb)

  /** The blade that a window register connects its PE to, if it is valid. */
  function Target(regs: map<Pe, seq<WinReg>>, pe: Pe, w: int): Bb
    requires pe in regs && 0 <= w < |regs[pe]|
  {
    Bb(pe.cmg, regs[pe][w].blade)
  }

  /** Barrier `k` has a window on its PE `p`, and that window register exists. */
  predicate Connected(a: AbsState, k: Bb, p: int) {
    k in a.barriers && p in a.barriers[k].windows && Pe(k.cmg, p) in a.regs
    && 0 <= a.barriers[k].windows[p] < |a.regs[Pe(k.cmg, p)]|
  }

  /** The blade that barrier `k`'s thread on PE `p` really reaches: through its window register. */
  function Reached(a: AbsState, k: Bb, p: int): Bb
    requires Connected(a, k, p)
  {
    Target(a.regs, Pe(k.cmg, p), a.barriers[k].windows[p])
  }

  predicate CanStep(a: AbsState, x: Sys, ev: SysEvent) {
    match ev
    case OnBlade(k) => k in x.breg && k in x.flips
    case OnPe(k, e) =>
      e != Update && Connected(a, k, e.p) && Reached(a, k, e.p) in x.breg
      && k in x.threads && e.p in x.threads[k]
      && match e
         case Read(p) => x.threads[k][p].pc.Idle?
         case Write(p) => x.threads[k][p].pc.Ready?
         case Poll(p) => x.threads[k][p].pc.Waiting?
  }

  /** A thread's step reads and writes the blade that its window register names.  A write
      through a register that is not valid has no effect. */
  function SysStep(a: AbsState, x: Sys, ev: SysEvent): Sys
    requires CanStep(a, x, ev)
  {
    match ev
    case OnBlade(k) =>
      var reg := x.breg[k];
      x.(breg := x.breg[k := reg.(lbsy := Lbsy(reg))],
         flips := if Lbsy(reg) != reg.lbsy then x.flips[k := x.flips[k] + 1] else x.flips)
    case OnPe(k, e) =>
      var target, l := Reached(a, k, e.p), x.threads[k][e.p];
      var valid := a.regs[Pe(k.cmg, e.p)][a.barriers[k].windows[e.p]].valid;
      var lbsy := valid && x.breg[target].lbsy;
      match e
      case Read(p) => x.(threads := SetLocal(x.threads, k, p, l.(pc := Ready(!lbsy))))
      case Write(p) =>
        x.(breg := if valid then x.breg[target := SetBst(x.breg[target], p, l.pc.sense)] else x.breg,
           threads := SetLocal(x.threads, k, p, l.(pc := Waiting(l.pc.sense))))
      case Poll(p) =>
        if lbsy == l.pc.sense then x.(threads := SetLocal(x.threads, k, p, Local(Idle, l.rounds + 1))) else x
  }

  function SetLocal(threads: map<Bb, map<int, Local>>, k: Bb, p: int, l: Local): map<Bb, map<int, Local>>
    requires k in threads
  {
    threads[k := threads[k][p := l]]
  }

  /** What barrier `k` sees of the whole system. */
  function Project(x: Sys, k: Bb): BState
    requires k in x.breg && k in x.threads && k in x.flips
  {
    BState(x.breg[k], x.threads[k], x.flips[k])
  }

  /** The system has the register, the threads and the counter of every barrier. */
  ghost predicate HasAll(a: AbsState, x: Sys) {
    forall k | k in a.barriers :: k in x.breg && k in x.threads && k in x.flips
  }

  /** The barrier step that a system step is, if it is one of barrier `k`. */
  function Local1(ev: SysEvent): Event {
    match ev case OnPe(_, e) => e case OnBlade(_) => Update
  }

  /** Every window reaches the blade of its own barrier. */
  lemma ReachesOwn(t: Topology, a: AbsState, k: Bb, p: int)
    requires AbsInv(t, a) && Agree(t, a) && Connected(a, k, p)
    ensures a.regs[Pe(k.cmg, p)][a.barriers[k].windows[p]] == WinReg(true, k.blade) && Reached(a, k, p) == k
  {
    assert Uses(a.barriers[k], k, Pe(k.cmg, p), a.barriers[k].windows[p]);
  }

  /** One step of the system is one step of exactly one barrier, and no other barrier sees it. */
  lemma StepIsolated(t: Topology, a: AbsState, x: Sys, ev: SysEvent, k: Bb)
    requires AbsInv(t, a) && Agree(t, a) && HasAll(a, x) && CanStep(a, x, ev) && k in a.barriers
    ensures HasAll(a, SysStep(a, x, ev))
    ensures ev.k == k ==> CanDo(Project(x, k), Local1(ev))
                          && Project(SysStep(a, x, ev), k) == Do(Project(x, k), Local1(ev))
    ensures ev.k != k ==> Project(SysStep(a, x, ev), k) == Project(x, k)
  {
    hide AbsInv, Agree;
    if ev.OnPe? { ReachesOwn(t, a, ev.k, ev.e.p); }
  }

  /** A thread's write is the register write through its window. */
  lemma WriteIsRegisterWrite(t: Topology, a: AbsState, x: Sys, k: Bb, p: int)
    requires CanStep(a, x, OnPe(k, Write(p))) && |a.regs[Pe(k.cmg, p)]| == t.nWindows
    ensures SysStep(a, x, OnPe(k, Write(p))).breg ==
            WriteSync(t, a.regs, x.breg, Pe(k.cmg, p), a.barriers[k].windows[p], x.threads[k][p].pc.sense)
  {
  }

  /** A thread's read and its poll see LBSY of the blade that its window register names, and
      0 if the register is not valid. */
  lemma ReadIsRegisterRead(t: Topology, a: AbsState, x: Sys, k: Bb, p: int)
    requires Connected(a, k, p) && k in x.threads && p in x.threads[k]
    ensures var reg, l := a.regs[Pe(k.cmg, p)][a.barriers[k].windows[p]], x.threads[k][p];
            var named := Bb(k.cmg, reg.blade);
            && (CanStep(a, x, OnPe(k, Read(p))) ==>
                  named in x.breg && var x' := SysStep(a, x, OnPe(k, Read(p)));
                  && x'.breg == x.breg && x'.flips == x.flips && k in x'.threads && p in x'.threads[k]
                  && x'.threads[k][p].rounds == l.rounds
                  && x'.threads[k][p].pc == Ready(if reg.valid then !x.breg[named].lbsy else true))
            && (CanStep(a, x, OnPe(k, Poll(p))) ==>
                  named in x.breg && l.pc.Waiting? && var x' := SysStep(a, x, OnPe(k, Poll(p)));
                  && x'.breg == x.breg && x'.flips == x.flips && k in x'.threads && p in x'.threads[k]
                  && x'.threads[k][p] ==
                     if l.pc.sense ==
                         (if reg.valid then x.breg[named].lbsy else false) then Local(Idle, l.rounds + 1) else l)
  {
  }

  predicate CanSysRun(a: AbsState, x: Sys, evs: seq<SysEvent>)
    decreases |evs|
  {
    evs == [] || (CanStep(a, x, evs[0]) && CanSysRun(a, SysStep(a, x, evs[0]), evs[1..]))
  }

  function SysRun(a: AbsState, x: Sys, evs: seq<SysEvent>): Sys
    requires CanSysRun(a, x, evs)
    decreases |evs|
  {
    if evs == [] then x else SysRun(a, SysStep(a, x, evs[0]), evs[1..])
  }

  /** The steps of barrier `k`, in order. */
  function Own(evs: seq<SysEvent>, k: Bb): seq<Event> {
    if evs == [] then [] else (if evs[0].k == k then [Local1(evs[0])] else []) + Own(evs[1..], k)
  }

  /** Isolation: in any interleaving of any number of overlapping barriers, what each one
      sees is the run of its own steps alone. */
  lemma {:induction false} RunIsolated(t: Topology, a: AbsState, x: Sys, evs: seq<SysEvent>, k: Bb)
    requires AbsInv(t, a) && Agree(t, a) && HasAll(a, x) && CanSysRun(a, x, evs) && k in a.barriers
    ensures HasAll(a, SysRun(a, x, evs))
    ensures CanRun(Project(x, k), Own(evs, k))
    ensures Project(SysRun(a, x, evs), k) == Run(Project(x, k), Own(evs, k))
    decreases |evs|
  {
    hide AbsInv, Agree, CanStep, SysStep, CanDo, Do;
    if evs != [] {
      StepIsolated(t, a, x, evs[0], k);
      RunIsolated(t, a, SysStep(a, x, evs[0]), evs[1..], k);
      if evs[0].k == k {
        assert Own(evs, k)[0] == Local1(evs[0]) && Own(evs, k)[1..] == Own(evs[1..], k);
      } else {
        assert Own(evs, k) == Own(evs[1..], k);
      }
    }
  }

  /** The blades right after their allocation, all threads at work. */
  ghost predicate SysFresh(a: AbsState, x: Sys) {
    HasAll(a, x) && forall k | k in a.barriers :: Fresh(Project(x, k))
  }

  /** Safety of every barrier in every interleaving: when a PE leaves round `r` of barrier
      `k`, each participant has written its BST bit of blade `k` at least `r + 1` times. */
  lemma AllSafe(t: Topology, a: AbsState, x: Sys, evs: seq<SysEvent>, k: Bb, p: int, q: int)
    requires AbsInv(t, a) && Agree(t, a) && SysFresh(a, x) && CanSysRun(a, x, evs) && k in a.barriers
    requires k in SysRun(a, x, evs).breg && k in SysRun(a, x, evs).threads && k in SysRun(a, x, evs).flips
    requires Leaves(Project(SysRun(a, x, evs), k), Poll(p), p) && q in x.breg[k].mask
    ensures Writes(Own(evs, k), q) >= Project(SysRun(a, x, evs), k).local[p].rounds + 1
  {
    hide AbsInv, Agree;
    assert Fresh(Project(x, k));
    RunIsolated(t, a, x, evs, k);
    Safety(Project(x, k), Own(evs, k), p, q);
  }

  /** A BST write changes one bit of one blade: the caller's own. */
  lemma WriteTouchesOwnBit(t: Topology, a: AbsState, x: Sys, k: Bb, p: int, b: Bb)
    requires AbsInv(t, a) && Agree(t, a) && CanStep(a, x, OnPe(k, Write(p))) && b in x.breg
    ensures var x' := SysStep(a, x, OnPe(k, Write(p)));
            && b in x'.breg
            && (b != k ==> x'.breg[b] == x.breg[b])
            && (b == k ==> && x'.breg[b].mask == x.breg[b].mask && x'.breg[b].lbsy == x.breg[b].lbsy
                           && (p in x'.breg[b].bst <==> x.threads[k][p].pc.sense)
                           && forall q | q != p :: q in x'.breg[b].bst <==> q in x.breg[b].bst)
  {
    hide AbsInv, Agree;
    ReachesOwn(t, a, k, p);
  }

  // ---------- from the driver's state to the barriers ----------

  function FreshThreads(t: Topology, live: map<Bb, Entry>): map<Bb, map<int, Local>> {
    map k | k in live :: map p | p in t.PpeMask(k.cmg, live[k].a.cpumask) :: Local(Idle, 0)
  }

  function NoFlips(live: map<Bb, Entry>): map<Bb, nat> {
    map k | k in live :: 0
  }

  /** The system that starts from a driver state: the blade registers as programmed, and a
      thread at work for every participant of every live allocation. */
  ghost function Start(t: Topology, s: State): Sys
    requires ListsOk(s.tasks)
  {
    Sys(s.breg, FreshThreads(t, Live(s.tasks)), NoFlips(Live(s.tasks)))
  }

  /** A live blade is programmed for its participants, with BST and LBSY clear. */
  lemma Programmed(t: Topology, s: State, k: Bb)
    requires Inv(t, s) && k in Live(s.tasks)
    ensures var mask := t.PpeMask(k.cmg, Live(s.tasks)[k].a.cpumask);
            0 <= k.cmg < |t.cpus| && mask != {} && k in s.breg && s.breg[k] == BladeReg(mask, {}, false)
  {
    hide KeysDistinct, IsLive, IsOwners, GroupsDistinct, BladesOk, WindowsOk;
    BladeRange(t, Live(s.tasks));
    PpeMaskNonEmpty(t, k.cmg, Live(s.tasks)[k].a.cpumask);
  }

  lemma StartFresh(t: Topology, s: State)
    requires Inv(t, s)
    ensures SysFresh(Abs(s), Start(t, s))
  {
    hide KeysDistinct, IsLive, IsOwners, GroupsDistinct, BladesOk, EntriesOk, WindowsOk, MasksOk;
    var a, x := Abs(s), Start(t, s);
    forall k | k in a.barriers ensures k in x.breg && k in x.threads && k in x.flips && Fresh(Project(x, k)) {
      Programmed(t, s, k);
    }
  }

  lemma CpuOffset(t: Topology, c: int, cpumask: set<int>, cpu: int) returns (q: int)
    requires 0 <= c < |t.cpus| && cpumask <= t.Cpus(c) && cpu in cpumask
    ensures t.HasPe(Pe(c, q)) && t.Cpu(Pe(c, q)) == cpu && q in t.PpeMask(c, cpumask)
  {
    assert cpu in t.Cpus(c);
    q :| 0 <= q < |t.cpus[c]| && t.cpus[c][q] == cpu;
  }

  /** In every state of the driver with agreeing windows, as many barriers as are live can
      run at once, each safe: before a PE leaves round `r` of a barrier, every CPU that its
      allocation names has written its bit at least `r + 1` times. */
  lemma DriverBarriersSafe(t: Topology, s: State, evs: seq<SysEvent>, k: Bb, p: int, cpu: int) returns (q: int)
    requires Inv(t, s) && HwAgrees(t, s) && k in Live(s.tasks)
    requires CanSysRun(Abs(s), Start(t, s), evs)
    requires cpu in Live(s.tasks)[k].a.cpumask
    ensures HasAll(Abs(s), SysRun(Abs(s), Start(t, s), evs)) && k in Abs(s).barriers
    ensures t.HasPe(Pe(k.cmg, q)) && t.Cpu(Pe(k.cmg, q)) == cpu
    ensures Leaves(Project(SysRun(Abs(s), Start(t, s), evs), k), Poll(p), p) ==>
              Writes(Own(evs, k), q) >= Project(SysRun(Abs(s), Start(t, s), evs), k).local[p].rounds + 1
  {
    hide KeysDistinct, IsLive, IsOwners, GroupsDistinct, BladesOk, WindowsOk, AbsInv, Agree, MasksOk, Fresh;
    var a, x := Abs(s), Start(t, s);
    InvAbs(t, s);
    StartFresh(t, s);
    Programmed(t, s, k);
    assert Fresh(Project(x, k));
    RunIsolated(t, a, x, evs, k);
    q := CpuOffset(t, k.cmg, Live(s.tasks)[k].a.cpumask, cpu);
    if Leaves(Project(SysRun(a, x, evs), k), Poll(p), p) { AllSafe(t, a, x, evs, k, p, q); }
  }
}
