/** Window accounting and the agreement between bitmaps and window registers, proved on
    the abstract machine.  Two calls can break them, and each is characterised exactly. */
module Windows {
  import opened Topology
  import opened DriverState
  import opened Abstract

  ghost predicate BarrierOk(t: Topology, owners: map<int, int>, k: Bb, b: Barrier) {
    && 0 <= k.cmg < |t.cpus| && 0 <= k.blade < t.nBlades
    && b.members != {} && b.members <= t.Cpus(k.cmg) && b.tgid in owners
  }

  /** A used window is reserved, and used through a PE whose CPU participates. */
  ghost predicate UsesOk(t: Topology, barriers: map<Bb, Barrier>, reserved: map<Pe, set<int>>) {
    forall k, pe, w {:trigger Uses(barriers[k], k, pe, w)} | k in barriers && Uses(barriers[k], k, pe, w) ::
      pe in reserved && w in reserved[pe] && t.HasPe(pe) && t.Cpu(pe) in barriers[k].members
  }

  /** No window of a PE is used by two barriers. */
  ghost predicate UsedOnce(barriers: map<Bb, Barrier>) {
    forall k, k', pe, w | k in barriers && k' in barriers
                          && Uses(barriers[k], k, pe, w) && Uses(barriers[k'], k', pe, w) :: k == k'
  }

  /** What holds of every state the driver can reach, seen through the abstraction. */
  ghost predicate AbsInv(t: Topology, a: AbsState) {
    && t.Valid()
    && a.reserved.Keys == t.Pes() == a.regs.Keys
    && (forall pe | pe in a.regs :: |a.regs[pe]| == t.nWindows)
    && (forall pe, w | pe in a.reserved && w in a.reserved[pe] :: 0 <= w < t.nWindows)
    && (forall k | k in a.barriers :: BarrierOk(t, a.owners, k, a.barriers[k]))
    && UsesOk(t, a.barriers, a.reserved) && UsedOnce(a.barriers)
  }

  /** Some barrier uses the window. */
  ghost predicate InUse(a: AbsState, pe: Pe, w: int) {
    exists k :: k in a.barriers && Uses(a.barriers[k], k, pe, w)
  }

  /** Every reserved window is in use: no window has leaked. */
  ghost predicate Tight(a: AbsState) {
    forall pe, w | pe in a.reserved && w in a.reserved[pe] :: InUse(a, pe, w)
  }

  /** A window register is valid exactly if its window is reserved, and the window a barrier
      uses carries that barrier's blade. */
  ghost predicate Agree(t: Topology, a: AbsState)
    requires a.regs.Keys == a.reserved.Keys && forall pe | pe in a.regs :: |a.regs[pe]| == t.nWindows
  {
    && (forall pe, w | pe in a.regs && 0 <= w < t.nWindows :: RegOk(a.regs[pe][w], w in a.reserved[pe]))
    && (forall k, pe, w | k in a.barriers && Uses(a.barriers[k], k, pe, w) && pe in a.regs && 0 <= w < t.nWindows ::
          a.regs[pe][w] == WinReg(true, k.blade))
  }

  predicate RegOk(r: WinReg, used: bool) {
    if used then r.valid else r == WinReg(false, 0)
  }

  /** Every valid window register names a barrier that uses that window. */
  ghost predicate Owned(t: Topology, a: AbsState)
    requires forall pe | pe in a.regs :: |a.regs[pe]| == t.nWindows
  {
    forall pe, w {:trigger a.regs[pe][w]} | pe in a.regs && 0 <= w < t.nWindows && a.regs[pe][w].valid ::
      var k := Bb(pe.cmg, a.regs[pe][w].blade);
      k in a.barriers && Uses(a.barriers[k], k, pe, w)
  }

  /** While bitmaps and registers agree, every valid register has an owner if and only if no
      window has leaked. */
  lemma OwnedIffTight(t: Topology, a: AbsState)
    requires AbsInv(t, a) && Agree(t, a)
    ensures Owned(t, a) <==> Tight(a)
  {
    if Owned(t, a) {
      forall pe, w {:trigger w in a.reserved[pe]} | pe in a.reserved && w in a.reserved[pe] ensures InUse(a, pe, w) {
        assert RegOk(a.regs[pe][w], w in a.reserved[pe]);
      }
    }
    if Tight(a) {
      forall pe, w {:trigger a.regs[pe][w]} | pe in a.regs && 0 <= w < t.nWindows && a.regs[pe][w].valid
        ensures var k := Bb(pe.cmg, a.regs[pe][w].blade); k in a.barriers && Uses(a.barriers[k], k, pe, w)
      {
        assert RegOk(a.regs[pe][w], w in a.reserved[pe]);
        assert InUse(a, pe, w);
        var k :| k in a.barriers && Uses(a.barriers[k], k, pe, w);
        assert k == Bb(pe.cmg, a.regs[pe][w].blade);
      }
    }
  }

  // ---------- window leaks ----------

  /** The call asks, by number, for a free window although the PE already has one for
      this barrier, and passes every check. */
  ghost predicate Leaks(t: Topology, a: AbsState, op: Op) {
    op.AssignOp? &&
    var who, k, window := op.who, Bb(op.who.pe.cmg, op.blade), op.window;
    && t.HasPe(who.pe) && who.pe in a.reserved
    && who.pinned && Has(a, who.tgid, k) && t.Cpu(who.pe) in a.barriers[k].members
    && 0 <= window < t.nWindows && window !in a.reserved[who.pe]
    && who.pe.ppe in a.barriers[k].windows
  }

  lemma RemovedTight(t: Topology, a: AbsState, a': AbsState, gone: set<Bb>)
    requires AbsInv(t, a) && Tight(a) && Removed(t, a, a', gone)
    ensures Tight(a')
  {
    forall pe, w | pe in a'.reserved && w in a'.reserved[pe] ensures InUse(a', pe, w) {
      assert w in a.reserved[pe] && InUse(a, pe, w);
      var k :| k in a.barriers && Uses(a.barriers[k], k, pe, w);
      assert k !in gone;
      assert k in a'.barriers && a'.barriers[k] == a.barriers[k];
    }
  }

  lemma UseFacts(t: Topology, a: AbsState, k: Bb, pe: Pe, w: int)
    requires AbsInv(t, a) && k in a.barriers && Uses(a.barriers[k], k, pe, w)
    ensures pe in a.reserved && pe in a.regs && w in a.reserved[pe] && 0 <= w < t.nWindows
    ensures t.HasPe(pe) && t.Cpu(pe) in a.barriers[k].members
  {
    UseReserved(t, a.barriers, a.reserved, k, pe, w);
  }

  lemma UseReserved(t: Topology, barriers: map<Bb, Barrier>, reserved: map<Pe, set<int>>, k: Bb, pe: Pe, w: int)
    requires UsesOk(t, barriers, reserved) && k in barriers && Uses(barriers[k], k, pe, w)
    ensures pe in reserved && w in reserved[pe] && t.HasPe(pe) && t.Cpu(pe) in barriers[k].members
  {
  }

  /** A leave keeps every window use except the caller's own of that barrier. */
  lemma LeaveKeepsUse(t: Topology, a: AbsState, a': AbsState, who: Caller, k: Bb, k': Bb, pe: Pe, w: int)
    requires AbsInv(t, a) && t.HasPe(who.pe) && Has(a, who.tgid, k)
    requires who.pe in a.reserved && who.pe in a.regs && LeaveNext(t, a, a', who, k)
    requires k' in a.barriers && Uses(a.barriers[k'], k', pe, w)
    requires t.Cpu(who.pe) in a.barriers[k].members ==> !(k' == k && pe == who.pe) && who.pe.cmg == k.cmg
    ensures k' in a'.barriers && Uses(a'.barriers[k'], k', pe, w)
  {
    var b := a.barriers[k];
    UseFacts(t, a, k', pe, w);
    if t.Cpu(who.pe) in b.members && k' == k { assert t.Cpu(pe) in b.members - {t.Cpu(who.pe)}; }
  }

  lemma LeaveReserved(t: Topology, a: AbsState, a': AbsState, who: Caller, k: Bb, pe: Pe, w: int)
    requires AbsInv(t, a) && t.HasPe(who.pe) && Has(a, who.tgid, k)
    requires who.pe in a.reserved && who.pe in a.regs && LeaveNext(t, a, a', who, k)
    requires pe in a'.reserved && w in a'.reserved[pe]
    ensures pe in a.reserved && w in a.reserved[pe]
    ensures t.Cpu(who.pe) in a.barriers[k].members && pe == who.pe ==> !Uses(a.barriers[k], k, pe, w)
  {
  }

  lemma LeaveTight(t: Topology, a: AbsState, a': AbsState, who: Caller, k: Bb)
    requires AbsInv(t, a) && Tight(a) && t.HasPe(who.pe) && Has(a, who.tgid, k)
    requires who.pe in a.reserved && who.pe in a.regs && LeaveNext(t, a, a', who, k)
    requires t.Cpu(who.pe) in a.barriers[k].members ==> who.pe.cmg == k.cmg
    ensures Tight(a')
  {
    hide LeaveNext, AbsInv;
    forall pe, w {:trigger w in a'.reserved[pe]} | pe in a'.reserved && w in a'.reserved[pe] ensures InUse(a', pe, w) {
      LeaveReserved(t, a, a', who, k, pe, w);
      assert InUse(a, pe, w);
      var k' :| k' in a.barriers && Uses(a.barriers[k'], k', pe, w);
      LeaveKeepsUse(t, a, a', who, k, k', pe, w);
    }
  }

  lemma AssignKeepsUse(t: Topology, a: AbsState, a': AbsState, who: Caller, blade: int, window: int, r: Reply,
      pe: Pe, w: int)
    requires AbsInv(t, a) && Tight(a) && CallerOk(t, who)
    requires who.pe in a.reserved && who.pe in a.regs && AssignNext(t, a, a', who, blade, window, r) && a' != a
    requires who.pe.ppe !in a.barriers[Bb(who.pe.cmg, blade)].windows
    requires pe in a'.reserved && w in a'.reserved[pe]
    ensures InUse(a', pe, w)
  {
    var k := Bb(who.pe.cmg, blade);
    if pe == who.pe && w == r.value {
      assert Uses(a'.barriers[k], k, pe, w);
    } else {
      var k' :| k' in a.barriers && Uses(a.barriers[k'], k', pe, w);
      assert k' in a'.barriers && Uses(a'.barriers[k'], k', pe, w);
    }
  }

  /** An assign keeps the books tight exactly if the PE had no window of the barrier. */
  lemma AssignTight(t: Topology, a: AbsState, a': AbsState, who: Caller, blade: int, window: int, r: Reply)
    requires AbsInv(t, a) && Tight(a) && CallerOk(t, who)
    requires who.pe in a.reserved && who.pe in a.regs && AssignNext(t, a, a', who, blade, window, r)
    ensures Tight(a') <==> !Leaks(t, a, AssignOp(who, blade, window))
  {
    var k, pe0 := Bb(who.pe.cmg, blade), who.pe;
    if a' != a {
      if pe0.ppe in a.barriers[k].windows {
        var prev := a.barriers[k].windows[pe0.ppe];
        assert Uses(a.barriers[k], k, pe0, prev);
        assert prev in a'.reserved[pe0] && !InUse(a', pe0, prev);
      } else {
        forall pe, w {:trigger w in a'.reserved[pe]} | pe in a'.reserved && w in a'.reserved[pe]
          ensures InUse(a', pe, w)
        {
          AssignKeepsUse(t, a, a', who, blade, window, r, pe, w);
        }
      }
    }
  }

  lemma UnassignTight(t: Topology, a: AbsState, a': AbsState, who: Caller, blade: int, r: Reply)
    requires AbsInv(t, a) && Tight(a) && CallerOk(t, who)
    requires who.pe in a.reserved && who.pe in a.regs && UnassignNext(t, a, a', who, blade, r)
    ensures Tight(a')
  {
    var k, pe0 := Bb(who.pe.cmg, blade), who.pe;
    if a' != a {
      forall pe, w | pe in a'.reserved && w in a'.reserved[pe] ensures InUse(a', pe, w) {
        var k' :| k' in a.barriers && Uses(a.barriers[k'], k', pe, w);
        assert k' in a'.barriers && Uses(a'.barriers[k'], k', pe, w);
      }
    }
  }

  lemma AllocateTight(t: Topology, a: AbsState, a': AbsState, who: Caller, cpumask: set<int>, r: Reply)
    requires AbsInv(t, a) && Tight(a) && AllocateNext(t, a, a', who, cpumask, r)
    ensures Tight(a')
  {
    forall pe, w | pe in a'.reserved && w in a'.reserved[pe] ensures InUse(a', pe, w) {
      var k :| k in a.barriers && Uses(a.barriers[k], k, pe, w);
      assert k in a'.barriers && a'.barriers[k] == a.barriers[k];
    }
  }

  lemma FreeTight(t: Topology, a: AbsState, a': AbsState, who: Caller, k: Bb, r: Reply)
    requires AbsInv(t, a) && Tight(a) && CallerOk(t, who)
    requires who.pe in a.reserved && who.pe in a.regs && FreeNext(t, a, a', who, k, r)
    ensures Tight(a')
  {
    if Has(a, who.tgid, k) {
      if a.owners[who.tgid] == who.pid {
        RemovedTight(t, a, a', {k});
      } else {
        if t.Cpu(who.pe) in a.barriers[k].members { SameCmg(t, k.cmg, who.pe); }
        LeaveTight(t, a, a', who, k);
      }
    }
  }

  /** From books without leaks, a call leaves them so exactly if it is not a re-assign. */
  lemma StepTight(t: Topology, a: AbsState, op: Op, a': AbsState, r: Reply)
    requires AbsInv(t, a) && Tight(a) && OpOk(t, op) && Next(t, a, op, a', r)
    ensures Tight(a') <==> !Leaks(t, a, op)
  {
    hide AssignNext, UnassignNext, AllocateNext, FreeNext, Removed;
    match op
    case Open => KeepTight(a, a');
    case CloseOp(who) =>
      var a1 := a.(active := a.active - 1);
      KeepTight(a, a1);
      if a' == a || a' == a1 { KeepTight(a, a'); }
      else { RemovedTight(t, a1, a', set k | k in a.barriers && Has(a, who.tgid, k)); }
    case AllocateOp(who, cpumask) => AllocateTight(t, a, a', who, cpumask, r);
    case FreeOp(who, k) => FreeTight(t, a, a', who, k, r);
    case AssignOp(who, blade, window) => AssignTight(t, a, a', who, blade, window, r);
    case UnassignOp(who, blade) => UnassignTight(t, a, a', who, blade, r);
    case ResetOp =>
  }

  lemma KeepTight(a: AbsState, a': AbsState)
    requires Tight(a) && a'.barriers == a.barriers && a'.reserved == a.reserved
    ensures Tight(a')
  {
    forall pe, w | pe in a'.reserved && w in a'.reserved[pe] ensures InUse(a', pe, w) {
      var k :| k in a.barriers && Uses(a.barriers[k], k, pe, w);
      assert k in a'.barriers;
    }
  }

  // ---------- bitmap and register agreement ----------

  /** A thread that did not register the group frees a barrier from a participating CPU
      whose window of that barrier is not window 0. */
  ghost predicate Misdirected(t: Topology, a: AbsState, op: Op) {
    op.FreeOp? &&
    var who, k := op.who, op.key;
    && t.HasPe(who.pe)
    && Has(a, who.tgid, k) && who.tgid in a.owners && a.owners[who.tgid] != who.pid
    && t.Cpu(who.pe) in a.barriers[k].members
    && who.pe.ppe in a.barriers[k].windows && a.barriers[k].windows[who.pe.ppe] != 0
  }

  lemma RemovedAgree(t: Topology, a: AbsState, a': AbsState, gone: set<Bb>)
    requires AbsInv(t, a) && Agree(t, a) && Removed(t, a, a', gone)
    ensures Agree(t, a')
  {
    forall pe, w {:trigger a'.regs[pe][w]} | pe in a'.regs && 0 <= w < t.nWindows
      ensures RegOk(a'.regs[pe][w], w in a'.reserved[pe])
    {
      assert RegOk(a.regs[pe][w], w in a.reserved[pe]);
    }
    forall k, pe, w | k in a'.barriers && Uses(a'.barriers[k], k, pe, w) && pe in a'.regs && 0 <= w < t.nWindows
      ensures a'.regs[pe][w] == WinReg(true, k.blade)
    {
      assert !UsedBy(a, gone, pe, w);
    }
  }

  lemma LeaveAgree(t: Topology, a: AbsState, a': AbsState, who: Caller, k: Bb)
    requires AbsInv(t, a) && Agree(t, a) && CallerOk(t, who) && Has(a, who.tgid, k)
    requires a.owners[who.tgid] != who.pid
    requires who.pe in a.reserved && who.pe in a.regs && LeaveNext(t, a, a', who, k)
    requires t.Cpu(who.pe) in a.barriers[k].members ==> who.pe.cmg == k.cmg
    requires a'.regs.Keys == a'.reserved.Keys && forall pe | pe in a'.regs :: |a'.regs[pe]| == t.nWindows
    ensures Agree(t, a') <==> !Misdirected(t, a, FreeOp(who, k))
  {
    var b, pe0 := a.barriers[k], who.pe;
    if t.Cpu(pe0) in b.members && pe0.ppe in b.windows {
      var w0 := b.windows[pe0.ppe];
      assert Uses(b, k, pe0, w0) && w0 in a.reserved[pe0];
      if w0 != 0 {
        assert !RegOk(a'.regs[pe0][w0], w0 in a'.reserved[pe0]);
      } else {
        DirectedWindow(t, a, a', who, k);
        assert Directed(t, a, a', who, k) == a';
      }
    } else {
      LeaveOtherAgree(t, a, a', who, k);
    }
  }

  lemma LeaveOtherAgree(t: Topology, a: AbsState, a': AbsState, who: Caller, k: Bb)
    requires AbsInv(t, a) && Agree(t, a) && CallerOk(t, who) && k in a.barriers
    requires who.pe in a.reserved && who.pe in a.regs && LeaveNext(t, a, a', who, k)
    requires t.Cpu(who.pe) !in a.barriers[k].members || who.pe.ppe !in a.barriers[k].windows
    ensures Agree(t, a')
  {
    assert a'.regs == a.regs && a'.reserved == a.reserved;
    forall k', pe, w | k' in a'.barriers && Uses(a'.barriers[k'], k', pe, w) && pe in a'.regs && 0 <= w < t.nWindows
      ensures a'.regs[pe][w] == WinReg(true, k'.blade)
    {
      assert Uses(a.barriers[k'], k', pe, w);
    }
  }

  /** The outcome of a leave whose register write goes to the released window. */
  ghost function Directed(t: Topology, a: AbsState, a': AbsState, who: Caller, k: Bb): AbsState
    requires t.HasPe(who.pe) && k in a.barriers && who.pe in a.regs
  {
    var b, pe := a.barriers[k], who.pe;
    if t.Cpu(pe) in b.members && pe.ppe in b.windows && 0 <= b.windows[pe.ppe] < |a.regs[pe]|
    then a'.(regs := a.regs[pe := a.regs[pe][b.windows[pe.ppe] := WinReg(false, 0)]]) else a'
  }

  /** With the register write sent to the released window a leave always keeps bitmaps and
      registers in agreement; the written step is that step when it is not misdirected. */
  lemma DirectedLeaveAgrees(t: Topology, a: AbsState, a': AbsState, who: Caller, k: Bb)
    requires AbsInv(t, a) && Agree(t, a) && CallerOk(t, who) && Has(a, who.tgid, k)
    requires who.tgid in a.owners && a.owners[who.tgid] != who.pid
    requires who.pe in a.reserved && who.pe in a.regs && LeaveNext(t, a, a', who, k) && AbsInv(t, a')
    ensures var d := Directed(t, a, a', who, k);
            && d.regs.Keys == d.reserved.Keys && (forall pe | pe in d.regs :: |d.regs[pe]| == t.nWindows)
            && Agree(t, d)
    ensures !Misdirected(t, a, FreeOp(who, k)) ==> Directed(t, a, a', who, k) == a'
  {
    var b, pe0 := a.barriers[k], who.pe;
    if t.Cpu(pe0) in b.members && pe0.ppe in b.windows {
      SameCmg(t, k.cmg, pe0);
      DirectedWindow(t, a, a', who, k);
    } else {
      LeaveOtherAgree(t, a, a', who, k);
    }
  }

  /** What a leave does to the used windows: the caller's window is not used any more. */
  lemma LeaveUses(t: Topology, a: AbsState, a': AbsState, who: Caller, k: Bb)
    requires AbsInv(t, a) && CallerOk(t, who) && k in a.barriers && who.pe.cmg == k.cmg
    requires who.pe in a.reserved && who.pe in a.regs && LeaveNext(t, a, a', who, k)
    requires t.Cpu(who.pe) in a.barriers[k].members && who.pe.ppe in a.barriers[k].windows
    ensures var w0 := a.barriers[k].windows[who.pe.ppe];
            && 0 <= w0 < t.nWindows && Uses(a.barriers[k], k, who.pe, w0)
            && a'.reserved == a.reserved[who.pe := a.reserved[who.pe] - {w0}]
            && forall k', pe, w | k' in a'.barriers && Uses(a'.barriers[k'], k', pe, w) ::
                 k' in a.barriers && Uses(a.barriers[k'], k', pe, w) && !(pe == who.pe && w == w0)
  {
    var w0 := a.barriers[k].windows[who.pe.ppe];
    assert Uses(a.barriers[k], k, who.pe, w0);
    assert w0 in a.reserved[who.pe];
    forall k', pe, w | k' in a'.barriers && Uses(a'.barriers[k'], k', pe, w)
      ensures k' in a.barriers && Uses(a.barriers[k'], k', pe, w)
      ensures !(pe == who.pe && w == w0)
    {
      assert k' in a.barriers && Uses(a.barriers[k'], k', pe, w);
    }
  }

  lemma DirectedWindow(t: Topology, a: AbsState, a': AbsState, who: Caller, k: Bb)
    requires AbsInv(t, a) && Agree(t, a) && CallerOk(t, who) && k in a.barriers && who.pe.cmg == k.cmg
    requires who.pe in a.reserved && who.pe in a.regs && LeaveNext(t, a, a', who, k)
    requires t.Cpu(who.pe) in a.barriers[k].members && who.pe.ppe in a.barriers[k].windows
    ensures var d := Directed(t, a, a', who, k);
            && d.regs.Keys == d.reserved.Keys && (forall pe | pe in d.regs :: |d.regs[pe]| == t.nWindows)
            && Agree(t, d)
  {
    hide LeaveNext, Uses, UsesOk, UsedOnce, BarrierOk;
    LeaveUses(t, a, a', who, k);
    var d := Directed(t, a, a', who, k);
    forall pe, w {:trigger d.regs[pe][w]} | pe in d.regs && 0 <= w < t.nWindows
      ensures RegOk(d.regs[pe][w], w in d.reserved[pe])
    {
      assert RegOk(a.regs[pe][w], w in a.reserved[pe]);
    }
  }

  lemma AssignCarries(t: Topology, a: AbsState, a': AbsState, who: Caller, blade: int, window: int, r: Reply,
      k: Bb, pe: Pe, w: int)
    requires AbsInv(t, a) && Agree(t, a) && CallerOk(t, who)
    requires who.pe in a.reserved && who.pe in a.regs && AssignNext(t, a, a', who, blade, window, r)
    requires a'.regs.Keys == a'.reserved.Keys && forall pe | pe in a'.regs :: |a'.regs[pe]| == t.nWindows
    requires k in a'.barriers && Uses(a'.barriers[k], k, pe, w) && pe in a'.regs && 0 <= w < t.nWindows
    ensures a'.regs[pe][w] == WinReg(true, k.blade)
  {
    if a' == a || !(pe == who.pe && w == r.value) { assert Uses(a.barriers[k], k, pe, w); }
  }

  lemma AssignRegs(t: Topology, a: AbsState, a': AbsState, who: Caller, blade: int, window: int, r: Reply, pe: Pe,
      w: int)
    requires AbsInv(t, a) && Agree(t, a) && CallerOk(t, who)
    requires who.pe in a.reserved && who.pe in a.regs && AssignNext(t, a, a', who, blade, window, r)
    requires a'.regs.Keys == a'.reserved.Keys && forall pe | pe in a'.regs :: |a'.regs[pe]| == t.nWindows
    requires pe in a'.regs && 0 <= w < t.nWindows
    ensures RegOk(a'.regs[pe][w], w in a'.reserved[pe])
  {
    assert RegOk(a.regs[pe][w], w in a.reserved[pe]);
  }

  lemma AssignAgree(t: Topology, a: AbsState, a': AbsState, who: Caller, blade: int, window: int, r: Reply)
    requires AbsInv(t, a) && Agree(t, a) && CallerOk(t, who)
    requires who.pe in a.reserved && who.pe in a.regs && AssignNext(t, a, a', who, blade, window, r)
    requires a'.regs.Keys == a'.reserved.Keys && forall pe | pe in a'.regs :: |a'.regs[pe]| == t.nWindows
    ensures Agree(t, a')
  {
    hide AssignNext, AbsInv, Uses, RegOk;
    forall pe, w {:trigger a'.regs[pe][w]} | pe in a'.regs && 0 <= w < t.nWindows
      ensures RegOk(a'.regs[pe][w], w in a'.reserved[pe])
    {
      AssignRegs(t, a, a', who, blade, window, r, pe, w);
    }
    forall k, pe, w | k in a'.barriers && Uses(a'.barriers[k], k, pe, w) && pe in a'.regs && 0 <= w < t.nWindows
      ensures a'.regs[pe][w] == WinReg(true, k.blade)
    {
      AssignCarries(t, a, a', who, blade, window, r, k, pe, w);
    }
  }

  lemma UnassignAgree(t: Topology, a: AbsState, a': AbsState, who: Caller, blade: int, r: Reply)
    requires AbsInv(t, a) && Agree(t, a) && CallerOk(t, who)
    requires who.pe in a.reserved && who.pe in a.regs && UnassignNext(t, a, a', who, blade, r)
    requires a'.regs.Keys == a'.reserved.Keys && forall pe | pe in a'.regs :: |a'.regs[pe]| == t.nWindows
    ensures Agree(t, a')
  {
    if a' != a {
      var k0 := Bb(who.pe.cmg, blade);
      var w0 := a.barriers[k0].windows[who.pe.ppe];
      assert Uses(a.barriers[k0], k0, who.pe, w0);
      forall pe, w {:trigger a'.regs[pe][w]} | pe in a'.regs && 0 <= w < t.nWindows
        ensures RegOk(a'.regs[pe][w], w in a'.reserved[pe])
      {
        assert RegOk(a.regs[pe][w], w in a.reserved[pe]);
      }
      forall k', pe, w | k' in a'.barriers && Uses(a'.barriers[k'], k', pe, w) && pe in a'.regs && 0 <= w < t.nWindows
        ensures a'.regs[pe][w] == WinReg(true, k'.blade)
      {
        assert Uses(a.barriers[k'], k', pe, w);
      }
    }
  }

  lemma CloseAgree(t: Topology, a: AbsState, a': AbsState, who: Caller, r: Reply)
    requires AbsInv(t, a) && Agree(t, a) && CloseNext(t, a, a', who, r) && AbsInv(t, a')
    ensures Agree(t, a')
  {
    hide Removed;
    var a1 := a.(active := a.active - 1);
    if a' != a && a' != a1 { RemovedAgree(t, a1, a', set k | k in a.barriers && Has(a, who.tgid, k)); }
  }

  lemma FreeAgree(t: Topology, a: AbsState, a': AbsState, who: Caller, k: Bb, r: Reply)
    requires AbsInv(t, a) && Agree(t, a) && CallerOk(t, who) && AbsInv(t, a')
    requires who.pe in a.reserved && who.pe in a.regs && FreeNext(t, a, a', who, k, r)
    ensures Agree(t, a') <==> !Misdirected(t, a, FreeOp(who, k))
  {
    hide LeaveNext, Removed;
    if Has(a, who.tgid, k) {
      if a.owners[who.tgid] == who.pid {
        RemovedAgree(t, a, a', {k});
      } else {
        if t.Cpu(who.pe) in a.barriers[k].members { SameCmg(t, k.cmg, who.pe); }
        LeaveAgree(t, a, a', who, k);
      }
    }
  }

  lemma AllocateUses(t: Topology, a: AbsState, a': AbsState, who: Caller, cpumask: set<int>, r: Reply)
    requires AllocateNext(t, a, a', who, cpumask, r)
    ensures a'.reserved == a.reserved && a'.regs == a.regs
    ensures forall k, pe, w | k in a'.barriers && Uses(a'.barriers[k], k, pe, w) ::
              k in a.barriers && Uses(a.barriers[k], k, pe, w)
  {
  }

  lemma AllocateAgree(t: Topology, a: AbsState, a': AbsState, who: Caller, cpumask: set<int>, r: Reply)
    requires AbsInv(t, a) && Agree(t, a) && AllocateNext(t, a, a', who, cpumask, r) && AbsInv(t, a')
    ensures Agree(t, a')
  {
    hide AllocateNext, UsesOk, UsedOnce, BarrierOk;
    AllocateUses(t, a, a', who, cpumask, r);
    forall k, pe, w {:trigger Uses(a'.barriers[k], k, pe, w)}
      | k in a'.barriers && Uses(a'.barriers[k], k, pe, w) && pe in a'.regs && 0 <= w < t.nWindows
      ensures a'.regs[pe][w] == WinReg(true, k.blade)
    {
      assert k in a.barriers && Uses(a.barriers[k], k, pe, w);
    }
  }

  /** From agreeing bitmaps and registers, a call leaves them so exactly if it is not a
      free whose register write goes to a window other than the released one. */
  lemma StepAgree(t: Topology, a: AbsState, op: Op, a': AbsState, r: Reply)
    requires AbsInv(t, a) && Agree(t, a) && OpOk(t, op) && Next(t, a, op, a', r) && AbsInv(t, a')
    ensures Agree(t, a') <==> !Misdirected(t, a, op)
  {
    hide AssignNext, UnassignNext, AllocateNext, FreeNext, CloseNext;
    match op
    case Open =>
    case CloseOp(who) => CloseAgree(t, a, a', who, r);
    case AllocateOp(who, cpumask) => AllocateAgree(t, a, a', who, cpumask, r);
    case FreeOp(who, k) => FreeAgree(t, a, a', who, k, r);
    case AssignOp(who, blade, window) => AssignAgree(t, a, a', who, blade, window, r);
    case UnassignOp(who, blade) => UnassignAgree(t, a, a', who, blade, r);
    case ResetOp =>
  }
}
