/** The driver with one change: a leaving thread's register write goes to the window that it
    releases.  Along every run of this driver bitmaps and window registers agree. */
module Directed {
  import opened Topology
  import opened DriverState
  import opened LiveMap
  import opened Invariant
  import opened Abstract
  import opened Refinement
  import opened Windows
  import opened Accounting
  import opened Properties

  /** The call is a leave that releases a window. */
  ghost predicate Releases(t: Topology, a: AbsState, op: Op) {
    && op.FreeOp? && LeavesBy(t, a, op, op.key)
    && op.who.pe.ppe in a.barriers[op.key].windows && op.who.pe in a.regs
    && 0 <= a.barriers[op.key].windows[op.who.pe.ppe] < |a.regs[op.who.pe]|
  }

  /** A call of the changed driver: only the register write of a leave differs. */
  ghost function DirectedStep(t: Topology, s: State, op: Op): (State, Reply)
    requires Inv(t, s) && OpOk(t, op)
  {
    var (s', r) := Step(t, s, op);
    if !Releases(t, Abs(s), op) then (s', r)
    else
      var pe, w := op.who.pe, Abs(s).barriers[op.key].windows[op.who.pe.ppe];
      (s'.(wreg := s.wreg[pe := s.wreg[pe][w := WinReg(false, 0)]]), r)
  }

  /** In terms of the driver's state: the call is a free by a thread of the owning group that
      did not register it, on a participating CPU whose PE has window `w` of the blade. */
  ghost predicate LeavesWindow(t: Topology, s: State, op: Op, w: int)
    requires ListsOk(s.tasks)
  {
    op.FreeOp? &&
    var who, live := op.who, Live(s.tasks);
    && op.key in live && live[op.key].tgid == who.tgid
    && who.tgid in Owners(s.tasks) && Owners(s.tasks)[who.tgid] != who.pid
    && t.HasPe(who.pe) && t.Cpu(who.pe) in live[op.key].a.cpumask && HasWindow(live[op.key].a, who.pe, w)
  }

  lemma ReleasesIs(t: Topology, s: State, op: Op)
    requires Inv(t, s) && OpOk(t, op)
    ensures op.FreeOp? && Releases(t, Abs(s), op) ==>
              LeavesWindow(t, s, op, Abs(s).barriers[op.key].windows[op.who.pe.ppe])
    ensures forall w | LeavesWindow(t, s, op, w) ::
              Releases(t, Abs(s), op) && Abs(s).barriers[op.key].windows[op.who.pe.ppe] == w
  {
    hide KeysDistinct, IsLive, IsOwners, GroupsDistinct, BladesOk, EntriesOk, WindowsOk, MasksOk, WindowMap, AbsInv,
      Shape;
    InvAbs(t, s);
    if op.FreeOp? && Releases(t, Abs(s), op) {
      ReleasedUse(t, Abs(s), op.who.pe, op.key);
      UsesWindow(t, s, op.key, op.who.pe, Abs(s).barriers[op.key].windows[op.who.pe.ppe]);
    }
    forall w | LeavesWindow(t, s, op, w)
      ensures Releases(t, Abs(s), op) && Abs(s).barriers[op.key].windows[op.who.pe.ppe] == w
    {
      UsesWindow(t, s, op.key, op.who.pe, w);
      ReleasedUse(t, Abs(s), op.who.pe, op.key);
    }
  }

  lemma UsesWindow(t: Topology, s: State, k: Bb, pe: Pe, w: int)
    requires Inv(t, s) && k in Live(s.tasks)
    ensures Uses(Abs(s).barriers[k], k, pe, w) <==> HasWindow(Live(s.tasks)[k].a, pe, w)
  {
    hide KeysDistinct, IsLive, IsOwners, GroupsDistinct, BladesOk, WindowsOk, MasksOk;
    UsesIsHasWindow(t, Live(s.tasks)[k], k);
  }

  /** What a call of the changed driver does: reply, lists, counters, bitmaps and blade
      registers are those of the written call.  A leave that releases window `w` of its PE
      makes register `w` of that PE invalid and touches no other register; any other call
      leaves the window registers as the written call does. */
  lemma DirectedOutcome(t: Topology, s: State, op: Op)
    requires Inv(t, s) && OpOk(t, op)
    ensures var (d, r), s' := DirectedStep(t, s, op), Step(t, s, op).0;
            && r == Step(t, s, op).1
            && d.tasks == s'.tasks && d.numTasks == s'.numTasks && d.active == s'.active
            && d.bbActive == s'.bbActive && d.bwMap == s'.bwMap && d.breg == s'.breg
    ensures forall w | LeavesWindow(t, s, op, w) ::
              OnlyCleared(s.wreg, DirectedStep(t, s, op).0.wreg, op.who.pe, w)
    ensures (forall w :: !LeavesWindow(t, s, op, w)) ==> DirectedStep(t, s, op).0.wreg == Step(t, s, op).0.wreg
  {
    hide KeysDistinct, IsLive, IsOwners, GroupsDistinct, BladesOk, EntriesOk, WindowsOk, MasksOk, Step, LeavesWindow,
      Releases, DirectedStep, OnlyCleared;
    ReleasesIs(t, s, op);
    DirectedFields(t, s, op);
    LeavesFree(t, s, op);
    if w :| LeavesWindow(t, s, op, w) { DirectedClears(t, s, op); }
  }

  lemma LeavesFree(t: Topology, s: State, op: Op)
    requires Inv(t, s)
    ensures forall w | LeavesWindow(t, s, op, w) :: op.FreeOp?
    ensures Releases(t, Abs(s), op) ==> op.FreeOp?
  {
  }

  lemma DirectedFields(t: Topology, s: State, op: Op)
    requires Inv(t, s) && OpOk(t, op)
    ensures var d, s' := DirectedStep(t, s, op).0, Step(t, s, op).0;
            && DirectedStep(t, s, op).1 == Step(t, s, op).1 && d == s'.(wreg := d.wreg)
            && (!Releases(t, Abs(s), op) ==> d.wreg == s'.wreg)
  {
    hide KeysDistinct, IsLive, IsOwners, GroupsDistinct, BladesOk, EntriesOk, WindowsOk, MasksOk, Step;
  }

  lemma DirectedClears(t: Topology, s: State, op: Op)
    requires Inv(t, s) && OpOk(t, op) && Releases(t, Abs(s), op)
    ensures op.FreeOp? && op.key in Abs(s).barriers && op.who.pe.ppe in Abs(s).barriers[op.key].windows
    ensures OnlyCleared(s.wreg, DirectedStep(t, s, op).0.wreg, op.who.pe,
                        Abs(s).barriers[op.key].windows[op.who.pe.ppe])
  {
    hide KeysDistinct, IsLive, IsOwners, GroupsDistinct, BladesOk, EntriesOk, WindowsOk, MasksOk, Step;
  }

  /** Register `w` of the PE is invalid afterwards and every other register is as before. */
  ghost predicate OnlyCleared(wreg: map<Pe, seq<WinReg>>, wreg': map<Pe, seq<WinReg>>, pe: Pe, w: int) {
    && wreg'.Keys == wreg.Keys && pe in wreg && 0 <= w < |wreg[pe]|
    && (forall x | x in wreg :: |wreg'[x]| == |wreg[x]|)
    && wreg'[pe][w].valid == false && wreg'[pe][w].blade == 0
    && (forall x, v | x in wreg && 0 <= v < |wreg[x]| && !(x == pe && v == w) :: wreg'[x][v] == wreg[x][v])
  }

  /** The invariant does not speak about the contents of the window registers. */
  lemma RegsInv(t: Topology, s: State, wreg: map<Pe, seq<WinReg>>)
    requires Inv(t, s) && wreg.Keys == t.Pes() && forall pe | pe in wreg :: |wreg[pe]| == t.nWindows
    ensures Inv(t, s.(wreg := wreg)) && Abs(s.(wreg := wreg)) == Abs(s).(regs := wreg)
  {
  }

  /** A call of the changed driver keeps invariant and agreement, without any condition,
      and is the written call whenever that one is not misdirected. */
  lemma DirectedStepAgrees(t: Topology, s: State, op: Op)
    requires Inv(t, s) && HwAgrees(t, s) && OpOk(t, op)
    ensures Inv(t, DirectedStep(t, s, op).0) && HwAgrees(t, DirectedStep(t, s, op).0)
    ensures !Misdirected(t, Abs(s), op) ==> DirectedStep(t, s, op) == Step(t, s, op)
  {
    hide KeysDistinct, IsLive, IsOwners, GroupsDistinct, BladesOk, EntriesOk, WindowsOk, MasksOk, Step, Agree,
      AbsInv, Next;
    StepRefines(t, s, op);
    if Releases(t, Abs(s), op) {
      ReleaseAgrees(t, s, op);
    } else {
      InvAbs(t, s);
      StepHwAgrees(t, s, op);
      MisdirectedReleases(t, Abs(s), op);
    }
  }

  lemma MisdirectedReleases(t: Topology, a: AbsState, op: Op)
    requires AbsInv(t, a) && OpOk(t, op)
    ensures Misdirected(t, a, op) ==> Releases(t, a, op)
  {
    if Misdirected(t, a, op) { ReleasedUse(t, a, op.who.pe, op.key); }
  }

  /** A barrier's window on a participating PE is one of that PE's windows. */
  lemma ReleasedUse(t: Topology, a: AbsState, pe: Pe, k: Bb)
    requires AbsInv(t, a) && t.HasPe(pe) && k in a.barriers && t.Cpu(pe) in a.barriers[k].members
    requires pe.ppe in a.barriers[k].windows
    ensures pe.cmg == k.cmg && pe in a.regs && 0 <= a.barriers[k].windows[pe.ppe] < |a.regs[pe]|
  {
    assert BarrierOk(t, a.owners, k, a.barriers[k]);
    SameCmg(t, k.cmg, pe);
    UseFacts(t, a, k, pe, a.barriers[k].windows[pe.ppe]);
  }

  lemma LeaveIsLeave(t: Topology, a: AbsState, op: Op, a': AbsState, r: Reply)
    requires OpOk(t, op) && a.reserved.Keys == t.Pes() == a.regs.Keys && Next(t, a, op, a', r) && Releases(t, a, op)
    ensures op.who.pe in a.reserved && op.who.pe in a.regs && LeaveNext(t, a, a', op.who, op.key)
  {
  }

  lemma ReleaseAgrees(t: Topology, s: State, op: Op)
    requires Inv(t, s) && HwAgrees(t, s) && OpOk(t, op) && Releases(t, Abs(s), op)
    ensures Inv(t, DirectedStep(t, s, op).0) && HwAgrees(t, DirectedStep(t, s, op).0)
    ensures !Misdirected(t, Abs(s), op) ==> DirectedStep(t, s, op) == Step(t, s, op)
  {
    hide KeysDistinct, IsLive, IsOwners, GroupsDistinct, BladesOk, EntriesOk, WindowsOk, MasksOk, Step, Agree, Next,
      LeaveNext, UsesOk, UsedOnce, BarrierOk;
    var s', a := Step(t, s, op).0, Abs(s);
    StepRefines(t, s, op);
    InvAbs(t, s);
    InvAbs(t, s');
    LeaveIsLeave(t, a, op, Abs(s'), Step(t, s, op).1);
    DirectedLeaveAgrees(t, a, Abs(s'), op.who, op.key);
    var d := Directed(t, a, Abs(s'), op.who, op.key);
    RegsInv(t, s', d.regs);
    assert Abs(DirectedStep(t, s, op).0) == d;
  }

  // ---------- whole runs ----------

  ghost function DirectedExec(t: Topology, s: State, ops: seq<Op>): (State, seq<Reply>)
    requires Inv(t, s) && HwAgrees(t, s) && (forall op | op in ops :: OpOk(t, op))
    decreases |ops|
  {
    if ops == [] then (s, [])
    else
      DirectedStepAgrees(t, s, ops[0]);
      var (s1, r) := DirectedStep(t, s, ops[0]);
      var (s2, rs) := DirectedExec(t, s1, ops[1..]);
      (s2, [r] + rs)
  }

  /** From any state with invariant and agreement every run of the changed driver keeps
      both; it is the run of the written driver if that one has no misdirected free. */
  lemma {:induction false} DirectedRunAgrees(t: Topology, s: State, ops: seq<Op>)
    requires Inv(t, s) && HwAgrees(t, s) && (forall op | op in ops :: OpOk(t, op))
    ensures Inv(t, DirectedExec(t, s, ops).0) && HwAgrees(t, DirectedExec(t, s, ops).0)
    ensures NoMisdirected(t, s, ops) ==> DirectedExec(t, s, ops) == Exec(t, s, ops)
    decreases |ops|
  {
    hide KeysDistinct, IsLive, IsOwners, GroupsDistinct, BladesOk, EntriesOk, WindowsOk, MasksOk, HwAgrees,
      Misdirected, DirectedStep, Step, Next;
    if ops != [] {
      DirectedStepAgrees(t, s, ops[0]);
      StepRefines(t, s, ops[0]);
      DirectedRunAgrees(t, DirectedStep(t, s, ops[0]).0, ops[1..]);
    }
  }

  /** From module load on the changed driver never lets bitmaps and registers disagree. */
  lemma DirectedFromLoad(t: Topology, s: State, ops: seq<Op>)
    requires t.Valid() && Init(t, s) && (forall op | op in ops :: OpOk(t, op))
    ensures Inv(t, s) && HwAgrees(t, s)
    ensures Inv(t, DirectedExec(t, s, ops).0) && HwAgrees(t, DirectedExec(t, s, ops).0)
  {
    InitExact(t, s);
    DirectedRunAgrees(t, s, ops);
  }
}
