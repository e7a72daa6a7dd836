/** What the driver is meant to provide, without lists, counters, masks or bitmaps of
    active blades: a map from blades to barriers, the registered thread groups, the
    reserved windows of each PE, and the window registers. */
module Abstract {
  import opened Topology
  import opened DriverState

  /** A barrier: owning thread group, participating CPUs, and the window each PE (of the
      barrier's CMG) reaches it through. */
  datatype Barrier = Barrier(tgid: int, members: set<int>, windows: map<int, int>)

  datatype AbsState = AbsState(barriers: map<Bb, Barrier>, owners: map<int, int>,
                               reserved: map<Pe, set<int>>, regs: map<Pe, seq<WinReg>>, active: int)

  predicate Uses(b: Barrier, k: Bb, pe: Pe, w: int) {
    pe.cmg == k.cmg && pe.ppe in b.windows && b.windows[pe.ppe] == w
  }

  ghost predicate UsedBy(a: AbsState, gone: set<Bb>, pe: Pe, w: int) {
    exists k :: k in gone && k in a.barriers && Uses(a.barriers[k], k, pe, w)
  }

  /** The group `tgid` has the barrier `k`. */
  predicate Has(a: AbsState, tgid: int, k: Bb) {
    k in a.barriers && a.barriers[k].tgid == tgid
  }

  ghost predicate HasAny(a: AbsState, tgid: int) {
    exists k :: Has(a, tgid, k)
  }

  /** `b` is the least blade of CMG `c` without a barrier, or `limit` if there is none. */
  ghost predicate LeastBlade(a: AbsState, c: int, b: int, limit: int) {
    && 0 <= b <= limit
    && (b < limit ==> Bb(c, b) !in a.barriers)
    && (forall m | 0 <= m < b :: Bb(c, m) in a.barriers)
  }

  /** `w` is the least window that is not used. */
  ghost predicate LeastWindow(used: set<int>, w: int) {
    w >= 0 && w !in used && (forall m | 0 <= m < w :: m in used)
  }

  /** The barriers of `gone` and the windows they use go away; nothing else changes. */
  ghost predicate Removed(t: Topology, a: AbsState, a': AbsState, gone: set<Bb>) {
    && a'.barriers == a.barriers - gone
    && a'.reserved.Keys == a.reserved.Keys && a'.regs.Keys == a.regs.Keys
    && (forall pe, w | pe in a.reserved :: w in a'.reserved[pe] <==> (w in a.reserved[pe] && !UsedBy(a, gone, pe, w)))
    && (forall pe | pe in a.regs :: |a'.regs[pe]| == |a.regs[pe]| == t.nWindows)
    && (forall pe, w | pe in a.regs && 0 <= w < t.nWindows ::
          a'.regs[pe][w] == if UsedBy(a, gone, pe, w) then WinReg(false, 0) else a.regs[pe][w])
    && a'.active == a.active
  }

  /** A thread group is forgotten together with its last barrier. */
  ghost predicate Reaped(a: AbsState, a': AbsState, tgid: int) {
    a'.owners == if HasAny(a', tgid) then a.owners else a.owners - {tgid}
  }

  /** The first allocate of a thread group registers it, also when no blade is free. */
  ghost predicate AllocateNext(t: Topology, a: AbsState, a': AbsState, who: Caller, cpumask: set<int>, r: Reply) {
    if exists c :: 0 <= c < |t.cpus| && |cpumask| >= 2 && cpumask <= t.Cpus(c) then
      exists c, b ::
        && 0 <= c < |t.cpus| && cpumask <= t.Cpus(c)
        && LeastBlade(a, c, b, t.nBlades)
        && r == (if b < t.nBlades then Reply(Success, b) else Reply(ENoDev, -1))
        && a' == a.(owners := if who.tgid in a.owners then a.owners else a.owners[who.tgid := who.pid],
                    barriers := if b < t.nBlades then a.barriers[Bb(c, b) := Barrier(who.tgid, cpumask, map[])]
                                else a.barriers)
    else a' == a && r == Reply(EInval, -1)
  }

  /** Free by a thread that did not allocate: only its own CPU leaves the barrier, and the
      barrier goes with its last participant.  The window goes back to the PE's free
      windows, but the register write always hits window 0. */
  ghost predicate LeaveNext(t: Topology, a: AbsState, a': AbsState, who: Caller, k: Bb)
    requires k in a.barriers && t.HasPe(who.pe) && who.pe in a.reserved && who.pe in a.regs
  {
    var b := a.barriers[k];
    var members := b.members - {t.Cpu(who.pe)};
    if t.Cpu(who.pe) !in b.members then a' == a
    else
      var ppe := who.pe.ppe;
      && a'.barriers == (if members == {} then a.barriers - {k}
                         else a.barriers[k := Barrier(b.tgid, members, b.windows - {ppe})])
      && a'.reserved == (if ppe in b.windows then a.reserved[who.pe := a.reserved[who.pe] - {b.windows[ppe]}]
                         else a.reserved)
      && a'.regs == (if ppe in b.windows && |a.regs[who.pe]| > 0
                     then a.regs[who.pe := a.regs[who.pe][0 := WinReg(false, 0)]] else a.regs)
      && a'.active == a.active
      && (if members == {} then Reaped(a, a', who.tgid) else a'.owners == a.owners)
  }

  ghost predicate FreeNext(t: Topology, a: AbsState, a': AbsState, who: Caller, k: Bb, r: Reply)
    requires t.HasPe(who.pe) && who.pe in a.reserved && who.pe in a.regs
  {
    if !Has(a, who.tgid, k) then a' == a && r == Reply(EInval, -1)
    else
      && r == Reply(Success, -1)
      && (if who.tgid in a.owners && a.owners[who.tgid] == who.pid
          then Removed(t, a, a', {k}) && Reaped(a, a', who.tgid)
          else LeaveNext(t, a, a', who, k))
  }

  /** A pinned participant that has no window yet gets the least free one or the free one
      it asks for.  Asking for a window by number is also granted to a PE that already has
      one; the old window then stays reserved. */
  ghost predicate AssignNext(t: Topology, a: AbsState, a': AbsState, who: Caller, blade: int, window: int, r: Reply)
    requires t.HasPe(who.pe) && who.pe in a.reserved && who.pe in a.regs
  {
    var k, ppe, used := Bb(who.pe.cmg, blade), who.pe.ppe, a.reserved[who.pe];
    if !who.pinned then a' == a && r == Reply(EInval, -1)
    else if !Has(a, who.tgid, k) || t.Cpu(who.pe) !in a.barriers[k].members then a' == a && r == Reply(ENoDev, -1)
    else if window >= 0 && window in used then a' == a && r == Reply(EInval, -1)
    else if window >= t.nWindows || (window < 0 && ppe in a.barriers[k].windows)
            || (window < 0 && forall w | 0 <= w < t.nWindows :: w in used) then a' == a && r == Reply(ENoDev, -1)
    else
      && r.status == Success && 0 <= r.value < |a.regs[who.pe]|
      && (if window >= 0 then r.value == window else LeastWindow(used, r.value))
      && a' == a.(barriers := a.barriers[k := a.barriers[k].(windows := a.barriers[k].windows[ppe := r.value])],
                  reserved := a.reserved[who.pe := used + {r.value}],
                  regs := a.regs[who.pe := a.regs[who.pe][r.value := WinReg(true, blade)]])
  }

  ghost predicate UnassignNext(t: Topology, a: AbsState, a': AbsState, who: Caller, blade: int, r: Reply)
    requires t.HasPe(who.pe) && who.pe in a.reserved && who.pe in a.regs
  {
    var k, ppe := Bb(who.pe.cmg, blade), who.pe.ppe;
    if who.pinned && who.tgid !in a.owners then a' == a && r == Reply(ENoDev, -1)
    else if !who.pinned || !Has(a, who.tgid, k) || ppe !in a.barriers[k].windows then a' == a && r == Reply(EInval, -1)
    else
      var w := a.barriers[k].windows[ppe];
      if !(0 <= w < |a.regs[who.pe]|) || a.regs[who.pe][w].blade != blade then a' == a && r == Reply(EInval, -1)
      else
        && r == Reply(Success, -1)
        && a' == a.(barriers := a.barriers[k := a.barriers[k].(windows := a.barriers[k].windows - {ppe})],
                    reserved := a.reserved[who.pe := a.reserved[who.pe] - {w}],
                    regs := a.regs[who.pe := a.regs[who.pe][w := WinReg(false, 0)]])
  }

  /** Closing by the registering thread removes all barriers of its group. */
  ghost predicate CloseNext(t: Topology, a: AbsState, a': AbsState, who: Caller, r: Reply) {
    && r == Reply(Success, -1)
    && (if a.active <= 0 then a' == a
        else
          var a1 := a.(active := a.active - 1);
          if who.tgid in a.owners && a.owners[who.tgid] == who.pid then
            && Removed(t, a1, a', set k | k in a.barriers && Has(a, who.tgid, k))
            && a'.owners == a.owners - {who.tgid}
          else a' == a1)
  }

  ghost predicate ResetNext(t: Topology, a: AbsState, a': AbsState, r: Reply) {
    && r == Reply(Success, -1)
    && a' == AbsState(map[], map[], map pe | pe in a.reserved :: {},
                      map pe | pe in a.regs :: seq(t.nWindows, _ => WinReg(false, 0)), 0)
  }

  ghost predicate Next(t: Topology, a: AbsState, op: Op, a': AbsState, r: Reply)
    requires OpOk(t, op) && a.reserved.Keys == t.Pes() == a.regs.Keys
  {
    match op
    case Open => a' == a.(active := a.active + 1) && r == Reply(Success, -1)
    case CloseOp(who) => CloseNext(t, a, a', who, r)
    case AllocateOp(who, cpumask) => AllocateNext(t, a, a', who, cpumask, r)
    case FreeOp(who, k) => FreeNext(t, a, a', who, k, r)
    case AssignOp(who, blade, window) => AssignNext(t, a, a', who, blade, window, r)
    case UnassignOp(who, blade) => UnassignNext(t, a, a', who, blade, r)
    case ResetOp => ResetNext(t, a, a', r)
  }

  /** A run of the abstract machine with the replies it gives. */
  ghost predicate Runs(t: Topology, a: AbsState, ops: seq<Op>, replies: seq<Reply>, a': AbsState)
    requires forall op | op in ops :: OpOk(t, op)
    decreases |ops|
  {
    if ops == [] then replies == [] && a' == a
    else
      && replies != [] && a.reserved.Keys == t.Pes() == a.regs.Keys
      && exists m :: Next(t, a, ops[0], m, replies[0]) && Runs(t, m, ops[1..], replies[1..], a')
  }
}
