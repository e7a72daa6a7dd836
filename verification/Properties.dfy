/** What one call undoes, what a barrier's participants may do over a run, and how the
    driver gets back to its initial state. */
module Properties {
  import opened Topology
  import opened DriverState
  import opened LiveMap
  import opened Invariant
  import opened Release
  import opened Abstract
  import opened Refinement
  import opened Windows
  import opened Accounting

  // ---------- assign and unassign ----------

  /** While bitmaps and registers agree, unassign succeeds exactly if the pinned caller's
      group owns the blade and its PE holds a window of it: the register never names
      another blade. */
  lemma UnassignComplete(t: Topology, s: State, who: Caller, blade: int)
    requires Inv(t, s) && HwAgrees(t, s) && CallerOk(t, who) && who.pe in s.bwMap && who.pe in s.wreg
    ensures var k, live := Bb(who.pe.cmg, blade), Live(s.tasks);
            Unassign(t, s, who, blade).1.status == Success <==>
              who.pinned && k in live && live[k].tgid == who.tgid && exists w :: HasWindow(live[k].a, who.pe, w)
    ensures Unassign(t, s, who, blade).1.status != Success ==> Unassign(t, s, who, blade).0 == s
  {
    hide KeysDistinct, IsLive, IsOwners, GroupsDistinct, BladesOk, WindowsOk, MasksOk, GiveWindow;
    var k := Bb(who.pe.cmg, blade);
    Lookup(s.tasks, who.tgid, k);
    var i := FindTask(s.tasks, who.tgid);
    if who.pinned && i < |s.tasks| && FindAlloc(s.tasks[i].allocs, k) < |s.tasks[i].allocs| {
      var j := FindAlloc(s.tasks[i].allocs, k);
      var a := s.tasks[i].allocs[j];
      AtPosition(t, s, i, j, who.pe);
      if a.window[who.pe.ppe] != UNASSIGNED_WIN {
        assert HasWindow(a, who.pe, a.window[who.pe.ppe]);
        assert Uses(Abs(s).barriers[k], k, who.pe, a.window[who.pe.ppe]);
      }
    }
  }

  /** Recording a window and clearing the record again. */
  lemma TakeClearRecord(t: Topology, tasks: seq<TaskMap>, i: nat, j: nat, pe: Pe, w: nat)
    requires At(tasks, i, j) && t.HasPe(pe) && t.Cpu(pe) !in tasks[i].allocs[j].assignMask
    requires pe.ppe < |tasks[i].allocs[j].window| && tasks[i].allocs[j].window[pe.ppe] == UNASSIGNED_WIN
    ensures var a, a1 := tasks[i].allocs[j], TakeRecord(t, tasks[i].allocs[j], pe, w);
            && pe.ppe < |a1.window| && ClearRecord(t, a1, pe) == a
            && SetAlloc(SetAlloc(tasks, i, j, a1), i, j, a) == tasks
  {
    var a := tasks[i].allocs[j];
    assert ClearRecord(t, TakeRecord(t, a, pe, w), pe) == a;
    assert tasks[i].allocs[j := TakeRecord(t, a, pe, w)][j := a] == tasks[i].allocs;
  }

  /** Taking a free window and giving it back restores the whole state. */
  lemma TakeGive(t: Topology, s: State, i: nat, j: nat, pe: Pe, w: nat, blade: int)
    requires Shape(t, s) && At(s.tasks, i, j) && t.HasPe(pe) && pe.ppe < t.maxPe && w < t.nWindows
    requires pe in s.bwMap && pe in s.wreg && |s.wreg[pe]| == t.nWindows
    requires t.Cpu(pe) !in s.tasks[i].allocs[j].assignMask
    requires w !in s.bwMap[pe] && s.wreg[pe][w] == WinReg(false, 0)
    requires pe.cmg == s.tasks[i].allocs[j].cmg && pe.ppe < |s.tasks[i].allocs[j].window|
    requires s.tasks[i].allocs[j].window[pe.ppe] == UNASSIGNED_WIN && 0 <= blade < t.nBlades
    ensures var s1 := TakeWindow(t, s, i, j, pe, w, blade);
            && s1.tasks == SetAlloc(s.tasks, i, j, TakeRecord(t, s.tasks[i].allocs[j], pe, w))
            && w in s1.bwMap[pe] && s1.wreg[pe] == s.wreg[pe][w := WinReg(true, blade)]
            && GiveWindow(t, s1, i, j, pe, w) == s
  {
    hide Shape, AllocShape;
    TakeClearRecord(t, s.tasks, i, j, pe, w);
    TakeClearTables(s.bwMap, s.wreg, pe, w, WinReg(true, blade));
  }

  lemma TakeClearTables(bw: map<Pe, set<int>>, wreg: map<Pe, seq<WinReg>>, pe: Pe, w: nat, r: WinReg)
    requires pe in bw && w !in bw[pe] && pe in wreg && w < |wreg[pe]| && wreg[pe][w] == WinReg(false, 0)
    ensures var bw1 := bw[pe := bw[pe] + {w}]; bw1[pe := bw1[pe] - {w}] == bw
    ensures var wreg1 := wreg[pe := wreg[pe][w := r]]; wreg1[pe := wreg1[pe][w := WinReg(false, 0)]] == wreg
  {
    assert bw[pe] + {w} - {w} == bw[pe];
    assert wreg[pe][w := r][w := WinReg(false, 0)] == wreg[pe];
  }

  lemma AgreeAt(t: Topology, s: State, pe: Pe, w: int)
    requires Inv(t, s) && HwAgrees(t, s) && pe in s.wreg && 0 <= w < t.nWindows
    ensures pe in s.bwMap && |s.wreg[pe]| == t.nWindows
    ensures w !in s.bwMap[pe] ==> s.wreg[pe][w] == WinReg(false, 0)
    ensures w in s.bwMap[pe] ==> s.wreg[pe][w].valid
  {
    InvAbs(t, s);
    assert RegOk(s.wreg[pe][w], w in s.bwMap[pe]);
  }

  /** What a successful automatic assign has done. */
  lemma AssignDid(t: Topology, s: State, who: Caller, blade: int, window: int) returns (i: nat, j: nat)
    requires Inv(t, s) && CallerOk(t, who) && who.pe in s.bwMap && who.pe in s.wreg
    requires window < 0 && Assign(t, s, who, blade, window).1.status == Success
    ensures who.pinned && i == FindTask(s.tasks, who.tgid) && At(s.tasks, i, j)
    ensures var a, w := s.tasks[i].allocs[j], Assign(t, s, who, blade, window).1.value;
            && j == FindAlloc(s.tasks[i].allocs, Bb(who.pe.cmg, blade)) && KeyOf(a) == Bb(who.pe.cmg, blade)
            && 0 <= w < t.nWindows && w !in s.bwMap[who.pe] && who.pe.ppe < |a.window|
            && a.window[who.pe.ppe] == UNASSIGNED_WIN
            && Assign(t, s, who, blade, window).0 == TakeWindow(t, s, i, j, who.pe, w, blade)
  {
    hide KeysDistinct, IsLive, IsOwners, GroupsDistinct, BladesOk, WindowsOk, MasksOk, EntriesOk, TakeWindow,
      WindowMap;
    i := FindTask(s.tasks, who.tgid);
    j := FindAlloc(s.tasks[i].allocs, Bb(who.pe.cmg, blade));
    AtPosition(t, s, i, j, who.pe);
    WindowMapIs(s.tasks[i].allocs[j], who.pe.ppe);
  }

  lemma WindowMapIs(a: Alloc, p: int)
    ensures p in WindowMap(a) <==> 0 <= p < |a.window| && a.window[p] != UNASSIGNED_WIN
  {
  }

  /** An automatic assign followed by an unassign by the same thread on the same CPU
      succeeds and restores the whole state: lists, counters, bitmaps and registers. */
  lemma AssignUnassignRoundTrip(t: Topology, s: State, who: Caller, blade: int, window: int)
    requires Inv(t, s) && HwAgrees(t, s) && CallerOk(t, who) && who.pe in s.bwMap && who.pe in s.wreg
    requires window < 0 && Assign(t, s, who, blade, window).1.status == Success
    ensures Shape(t, Assign(t, s, who, blade, window).0)
    ensures Unassign(t, Assign(t, s, who, blade, window).0, who, blade) == (s, Reply(Success, -1))
  {
    hide KeysDistinct, IsLive, IsOwners, GroupsDistinct, BladesOk, WindowsOk, MasksOk, EntriesOk, TakeWindow,
      GiveWindow, HwAgrees, Assign;
    var i, j := AssignDid(t, s, who, blade, window);
    var (s1, r) := Assign(t, s, who, blade, window);
    Facts(t, s, i, j);
    AssignedIffWindow(t, s.tasks[i].allocs[j], who.pe);
    AgreeAt(t, s, who.pe, r.value);
    TakeGive(t, s, i, j, who.pe, r.value, blade);
    SameSearch(s.tasks, s1.tasks, who.tgid, i);
    SameKeySearch(s.tasks[i].allocs, s1.tasks[i].allocs, Bb(who.pe.cmg, blade), j);
  }

  lemma SameSearch(tasks: seq<TaskMap>, tasks': seq<TaskMap>, tgid: int, i: nat)
    requires |tasks| == |tasks'| && i == FindTask(tasks, tgid)
    requires forall k | 0 <= k < |tasks| :: tasks'[k].tgid == tasks[k].tgid
    ensures FindTask(tasks', tgid) == i
  {
    var i' := FindTask(tasks', tgid);
    assert i < |tasks| ==> tasks'[i].tgid == tasks[i].tgid;
    assert i' < |tasks| ==> tasks'[i'].tgid == tasks[i'].tgid;
  }

  lemma SameKeySearch(allocs: seq<Alloc>, allocs': seq<Alloc>, key: Bb, j: nat)
    requires |allocs| == |allocs'| && j == FindAlloc(allocs, key)
    requires forall k | 0 <= k < |allocs| :: KeyOf(allocs'[k]) == KeyOf(allocs[k])
    ensures FindAlloc(allocs', key) == j
  {
    var j' := FindAlloc(allocs', key);
    assert j < |allocs| ==> KeyOf(allocs'[j]) == KeyOf(allocs[j]);
    assert j' < |allocs| ==> KeyOf(allocs'[j']) == KeyOf(allocs[j']);
  }

  // ---------- participants ----------

  /** The call is a free of `k` by a thread of the owning group that did not register it. */
  ghost predicate LeavesBy(t: Topology, a: AbsState, op: Op, k: Bb) {
    op.FreeOp? && op.key == k && Has(a, op.who.tgid, k) && t.HasPe(op.who.pe)
    && op.who.tgid in a.owners && a.owners[op.who.tgid] != op.who.pid
    && t.Cpu(op.who.pe) in a.barriers[k].members
  }

  /** The calls after which the barrier `k` is gone. */
  ghost predicate Ends(t: Topology, a: AbsState, op: Op, k: Bb) {
    && k in a.barriers
    && match op
       case ResetOp => true
       case CloseOp(who) => a.active > 0 && Has(a, who.tgid, k) && who.tgid in a.owners && a.owners[who.tgid] == who.pid
       case FreeOp(who, key) =>
         && key == k && Has(a, who.tgid, k) && who.tgid in a.owners
         && (a.owners[who.tgid] == who.pid
             || (LeavesBy(t, a, op, k) && a.barriers[k].members == {t.Cpu(who.pe)}))
       case _ => false
  }

  lemma FreeParticipants(t: Topology, a: AbsState, who: Caller, key: Bb, a': AbsState, r: Reply, k: Bb)
    requires OpOk(t, FreeOp(who, key)) && who.pe in a.reserved && who.pe in a.regs
    requires FreeNext(t, a, a', who, key, r) && k in a.barriers && a.barriers[k].tgid in a.owners
    ensures k !in a'.barriers <==> Ends(t, a, FreeOp(who, key), k)
    ensures k in a'.barriers ==>
              && a'.barriers[k].tgid == a.barriers[k].tgid
              && a'.barriers[k].members ==
                 if LeavesBy(t, a, FreeOp(who, key), k) then a.barriers[k].members - {t.Cpu(who.pe)}
                 else a.barriers[k].members
  {
    var members, cpu := a.barriers[k].members, t.Cpu(who.pe);
    assert cpu in members ==> (members - {cpu} == {} <==> members == {cpu});
  }

  lemma AllocateKeeps(t: Topology, a: AbsState, who: Caller, cpumask: set<int>, a': AbsState, r: Reply, k: Bb)
    requires AllocateNext(t, a, a', who, cpumask, r) && k in a.barriers
    ensures k in a'.barriers && a'.barriers[k] == a.barriers[k]
  {
  }

  lemma AssignKeeps(t: Topology, a: AbsState, who: Caller, blade: int, window: int, a': AbsState, r: Reply, k: Bb)
    requires t.HasPe(who.pe) && who.pe in a.reserved && who.pe in a.regs && k in a.barriers
    requires AssignNext(t, a, a', who, blade, window, r) || UnassignNext(t, a, a', who, blade, r)
    ensures k in a'.barriers && a'.barriers[k].members == a.barriers[k].members
    ensures a'.barriers[k].tgid == a.barriers[k].tgid
  {
  }

  lemma CloseParticipants(t: Topology, a: AbsState, who: Caller, a': AbsState, r: Reply, k: Bb)
    requires OpOk(t, CloseOp(who)) && CloseNext(t, a, a', who, r) && k in a.barriers && a.barriers[k].tgid in a.owners
    ensures k !in a'.barriers <==> Ends(t, a, CloseOp(who), k)
    ensures k in a'.barriers ==> a'.barriers[k] == a.barriers[k]
  {
  }

  lemma ResetEmpties(t: Topology, a: AbsState, a': AbsState, r: Reply)
    ensures ResetNext(t, a, a', r) ==> a'.barriers == map[]
  {
  }

  /** A call ends a barrier exactly in the listed ways; a barrier that stays keeps its
      owner, and its participants, except that a leaving thread takes its own CPU out. */
  lemma StepParticipants(t: Topology, a: AbsState, op: Op, a': AbsState, r: Reply, k: Bb)
    requires AbsInv(t, a) && OpOk(t, op) && Next(t, a, op, a', r) && k in a.barriers
    ensures k !in a'.barriers <==> Ends(t, a, op, k)
    ensures k in a'.barriers ==>
              && a'.barriers[k].tgid == a.barriers[k].tgid
              && a'.barriers[k].members ==
                 if LeavesBy(t, a, op, k) then a.barriers[k].members - {t.Cpu(op.who.pe)} else a.barriers[k].members
  {
    hide UsesOk, UsedOnce, FreeNext, AllocateNext, AssignNext, UnassignNext, CloseNext, ResetNext;
    assert BarrierOk(t, a.owners, k, a.barriers[k]);
    match op
    case Open =>
    case CloseOp(who) => CloseParticipants(t, a, who, a', r, k);
    case AllocateOp(who, cpumask) => AllocateKeeps(t, a, who, cpumask, a', r, k);
    case FreeOp(who, key) => FreeParticipants(t, a, who, key, a', r, k);
    case AssignOp(who, blade, window) => AssignKeeps(t, a, who, blade, window, a', r, k);
    case UnassignOp(who, blade) => AssignKeeps(t, a, who, blade, -1, a', r, k);
    case ResetOp => assert ResetNext(t, a, a', r) ==> a'.barriers == map[] by { ResetEmpties(t, a, a', r); }
  }

  /** A barrier that was not there before has the mask its allocate call was given. */
  lemma StepNewBarrier(t: Topology, a: AbsState, op: Op, a': AbsState, r: Reply, k: Bb)
    requires AbsInv(t, a) && OpOk(t, op) && Next(t, a, op, a', r) && k !in a.barriers && k in a'.barriers
    ensures op.AllocateOp? && r == Reply(Success, k.blade)
    ensures a'.barriers[k] == Barrier(op.who.tgid, op.cpumask, map[])
  {
    hide UsesOk, UsedOnce, AbsInv;
  }

  /** The blade `k` is live in every state of the run. */
  ghost predicate LivesThroughout(t: Topology, s: State, ops: seq<Op>, k: Bb)
    requires Inv(t, s) && (forall op | op in ops :: OpOk(t, op))
    decreases |ops|
  {
    k in Live(s.tasks) &&
    (ops != [] ==> (StepRefines(t, s, ops[0]); LivesThroughout(t, Step(t, s, ops[0]).0, ops[1..], k)))
  }

  /** Over any run the participants of a barrier only shrink, and its owner is the same. */
  lemma {:induction false} ParticipantsOnlyShrink(t: Topology, s: State, ops: seq<Op>, k: Bb)
    requires Inv(t, s) && (forall op | op in ops :: OpOk(t, op)) && LivesThroughout(t, s, ops, k)
    ensures Inv(t, Exec(t, s, ops).0) && k in Live(Exec(t, s, ops).0.tasks)
    ensures Live(Exec(t, s, ops).0.tasks)[k].a.cpumask <= Live(s.tasks)[k].a.cpumask
    ensures Live(Exec(t, s, ops).0.tasks)[k].tgid == Live(s.tasks)[k].tgid
    decreases |ops|
  {
    hide KeysDistinct, IsLive, IsOwners, GroupsDistinct, BladesOk, EntriesOk, WindowsOk, MasksOk, Step, Next,
      LeavesBy;
    RunRefines(t, s, ops);
    if ops != [] {
      var s1 := Step(t, s, ops[0]).0;
      StepRefines(t, s, ops[0]);
      InvAbs(t, s);
      assert k in Live(s1.tasks);
      StepParticipants(t, Abs(s), ops[0], Abs(s1), Step(t, s, ops[0]).1, k);
      ParticipantsOnlyShrink(t, s1, ops[1..], k);
    }
  }

  // ---------- teardown ----------

  /** A close by the registering thread while the device is open removes exactly its
      group's allocations and its mapping; every other allocation stays as it was. */
  lemma OwnerClose(t: Topology, s: State, who: Caller)
    requires Inv(t, s) && CallerOk(t, who) && s.active > 0
    requires who.tgid in Owners(s.tasks) && Owners(s.tasks)[who.tgid] == who.pid
    ensures var s' := Close(t, s, who).0;
            && Inv(t, s')
            && Live(s'.tasks) == (map k | k in Live(s.tasks) && Live(s.tasks)[k].tgid != who.tgid :: Live(s.tasks)[k])
            && Owners(s'.tasks) == Owners(s.tasks) - {who.tgid}
            && s'.active == s.active - 1
            && (forall pe, w | pe in s.bwMap && pe in s'.bwMap ::
                  w in s'.bwMap[pe] <==>
                      w in s.bwMap[pe] && !HeldBy(Live(s.tasks), GroupKeys(Live(s.tasks), who.tgid), pe, w))
  {
    hide KeysDistinct, IsLive, IsOwners, GroupsDistinct, BladesOk, EntriesOk, WindowsOk, UnregisterTask;
    Lookup(s.tasks, who.tgid, Bb(0, 0));
    var s1 := s.(active := s.active - 1);
    var i := FindTask(s1.tasks, who.tgid);
    UnregisterInv(t, s1, i);
    UnregisterFreed(t, s1, i);
  }

  /** A close by the registering thread cleans up if and only if the open counter is
      positive; with the counter at zero, as after a reset, it does nothing at all. */
  lemma CloseCleansUp(t: Topology, s: State, who: Caller)
    requires Inv(t, s) && CallerOk(t, who)
    requires who.tgid in Owners(s.tasks) && Owners(s.tasks)[who.tgid] == who.pid
    ensures var s' := Close(t, s, who).0;
            && Inv(t, s')
            && (who.tgid !in Owners(s'.tasks) <==> s.active > 0)
            && (GroupKeys(Live(s'.tasks), who.tgid) == {} <==> s.active > 0 || GroupKeys(Live(s.tasks), who.tgid) == {})
            && (s.active <= 0 ==> s' == s)
  {
    hide KeysDistinct, IsLive, IsOwners, GroupsDistinct, BladesOk, EntriesOk, WindowsOk, UnregisterTask, MasksOk;
    if s.active > 0 { OwnerClose(t, s, who); }
  }

  function Closes(whos: seq<Caller>): seq<Op> {
    seq(|whos|, i requires 0 <= i < |whos| => CloseOp(whos[i]))
  }

  /** The registering thread of every group is among the first `n` callers. */
  ghost predicate Covers(owners: map<int, int>, whos: seq<Caller>, n: int) {
    forall g | g in owners :: ClosesGroup(whos, n, g, owners[g])
  }

  ghost predicate ClosesGroup(whos: seq<Caller>, n: int, tgid: int, pid: int) {
    exists i :: 0 <= i < |whos| && i < n && whos[i].tgid == tgid && whos[i].pid == pid
  }

  lemma CoversRest(owners: map<int, int>, whos: seq<Caller>, n: int)
    requires whos != [] && n > 0
    ensures var who := whos[0];
            var rest := if who.tgid in owners && owners[who.tgid] == who.pid then owners - {who.tgid} else owners;
            Covers(owners, whos, n) <==> Covers(rest, whos[1..], n - 1)
  {
    hide ClosesGroup;
    var who := whos[0];
    var rest := if who.tgid in owners && owners[who.tgid] == who.pid then owners - {who.tgid} else owners;
    forall g | g in owners
      ensures ClosesGroup(whos, n, g, owners[g]) <==> (g in rest ==> ClosesGroup(whos[1..], n - 1, g, rest[g]))
    {
      ClosesGroupRest(whos, n, g, owners[g]);
    }
  }

  lemma ClosesGroupRest(whos: seq<Caller>, n: int, g: int, pid: int)
    requires whos != [] && n > 0
    ensures ClosesGroup(whos, n, g, pid) <==>
            (whos[0].tgid == g && whos[0].pid == pid) || ClosesGroup(whos[1..], n - 1, g, pid)
  {
    if i :| 0 <= i < |whos| && i < n && whos[i].tgid == g && whos[i].pid == pid {
      if i > 0 { assert whos[1..][i-1] == whos[i]; }
    }
    if i :| 0 <= i < |whos[1..]| && i < n - 1 && whos[1..][i].tgid == g && whos[1..][i].pid == pid {
      assert whos[i+1] == whos[1..][i];
    }
  }

  lemma CloseStep(t: Topology, s: State, who: Caller)
    requires Inv(t, s) && CallerOk(t, who) && s.active > 0
    ensures var s' := Close(t, s, who).0;
            && Inv(t, s') && s'.active == s.active - 1
            && Owners(s'.tasks) == (if who.tgid in Owners(s.tasks) && Owners(s.tasks)[who.tgid] == who.pid
                                    then Owners(s.tasks) - {who.tgid} else Owners(s.tasks))
  {
    hide KeysDistinct, IsLive, IsOwners, GroupsDistinct, BladesOk, EntriesOk, WindowsOk, MasksOk, UnregisterTask;
    Lookup(s.tasks, who.tgid, Bb(0, 0));
    CloseRefines(t, s, who);
  }

  /** After a sequence of closes no group is left if and only if, while the open counter
      was positive, the registering thread of every group has closed. */
  lemma {:induction false} ClosesOwners(t: Topology, s: State, whos: seq<Caller>)
    requires Inv(t, s) && forall i | 0 <= i < |whos| :: CallerOk(t, whos[i])
    requires forall op | op in Closes(whos) :: OpOk(t, op)
    ensures var s' := Exec(t, s, Closes(whos)).0;
            && Inv(t, s')
            && (Owners(s'.tasks) == map[] <==> Covers(Owners(s.tasks), whos, s.active))
            && (Exact(s) ==> Exact(s'))
    decreases |whos|
  {
    hide KeysDistinct, IsLive, IsOwners, GroupsDistinct, BladesOk, EntriesOk, WindowsOk, MasksOk, Close, Exact,
      Covers;
    if whos == [] {
      NoneCovered(Owners(s.tasks), whos, s.active);
    } else {
      var s1 := Close(t, s, whos[0]).0;
      CloseRefines(t, s, whos[0]);
      StepExactClose(t, s, whos[0]);
      assert Closes(whos)[1..] == Closes(whos[1..]);
      ClosesOwners(t, s1, whos[1..]);
      if s.active > 0 {
        CloseStep(t, s, whos[0]);
        CoversRest(Owners(s.tasks), whos, s.active);
      } else {
        assert s1 == s by { CloseNothing(t, s, whos[0]); }
        NoneCovered(Owners(s.tasks), whos, s.active);
        NoneCovered(Owners(s.tasks), whos[1..], s.active);
      }
    }
  }

  lemma CloseNothing(t: Topology, s: State, who: Caller)
    requires Shape(t, s) && s.active <= 0
    ensures Close(t, s, who).0 == s
  {
  }

  lemma NoneCovered(owners: map<int, int>, whos: seq<Caller>, n: int)
    requires whos == [] || n <= 0
    ensures Covers(owners, whos, n) <==> owners == map[]
  {
    if Covers(owners, whos, n) { assert forall g | g in owners :: ClosesGroup(whos, n, g, owners[g]); }
    assert forall g, pid :: !ClosesGroup(whos, n, g, pid);
  }

  /** Teardown: after a sequence of closes the task list is empty if and only if, while the
      open counter was positive, the registering thread of every group has closed.  Then no
      blade is active, and without leaks no window is reserved. */
  lemma AllClosed(t: Topology, s: State, whos: seq<Caller>)
    requires Inv(t, s) && forall i | 0 <= i < |whos| :: CallerOk(t, whos[i])
    requires forall op | op in Closes(whos) :: OpOk(t, op)
    ensures var s' := Exec(t, s, Closes(whos)).0;
            && (s'.tasks == [] <==> Covers(Owners(s.tasks), whos, s.active))
            && (s'.tasks == [] ==>
                  && s'.numTasks == 0
                  && (forall c | 0 <= c < |s'.bbActive| :: s'.bbActive[c] == {})
                  && (Exact(s) ==> forall pe | pe in s'.bwMap :: s'.bwMap[pe] == {}))
  {
    hide KeysDistinct, IsLive, IsOwners, GroupsDistinct, BladesOk, EntriesOk, WindowsOk, MasksOk, Exact, Covers;
    ClosesOwners(t, s, whos);
    var s' := Exec(t, s, Closes(whos)).0;
    if s'.tasks == [] { EmptyLive(s'.tasks); }
    if Owners(s'.tasks) == map[] { NobodyLeft(t, s'); }
  }

  lemma StepExactClose(t: Topology, s: State, who: Caller)
    requires Inv(t, s) && CallerOk(t, who) && Inv(t, Close(t, s, who).0)
    ensures Exact(s) ==> Exact(Close(t, s, who).0)
  {
    hide KeysDistinct, IsLive, IsOwners, GroupsDistinct, BladesOk, EntriesOk, WindowsOk, MasksOk, Close, Exact;
    if Exact(s) { StepExact(t, s, CloseOp(who)); }
  }

  lemma SomeOwner(tasks: seq<TaskMap>)
    requires GroupsDistinct(tasks) && tasks != []
    ensures Owners(tasks) != map[]
  {
    assert tasks[0].tgid in Owners(tasks);
  }

  lemma NobodyLeft(t: Topology, s: State)
    requires Inv(t, s) && Owners(s.tasks) == map[]
    ensures s.tasks == [] && s.numTasks == 0
    ensures forall c | 0 <= c < |s.bbActive| :: s.bbActive[c] == {}
    ensures Exact(s) ==> forall pe | pe in s.bwMap :: s.bwMap[pe] == {}
  {
    hide KeysDistinct, IsLive, EntriesOk, WindowsOk, MasksOk;
    if s.tasks != [] { SomeOwner(s.tasks); }
    EmptyLive(s.tasks);
    forall c | 0 <= c < |s.bbActive| ensures s.bbActive[c] == {} {
      assert forall b :: b !in s.bbActive[c];
    }
    if Exact(s) {
      forall pe | pe in s.bwMap ensures s.bwMap[pe] == {} {
        forall w ensures w !in s.bwMap[pe] { ExactBitmap(t, s, pe, w); }
      }
    }
  }

  // ---------- the register of a freed blade ----------

  /** A free by the registering thread takes the blade away from the group, but the blade's
      mask register keeps its last, non-empty mask: the write that should clear it is
      rejected. */
  lemma FreedBladeKeepsMask(t: Topology, s: State, who: Caller, k: Bb)
    requires Inv(t, s) && CallerOk(t, who) && k in Live(s.tasks) && Live(s.tasks)[k].tgid == who.tgid
    requires who.tgid in Owners(s.tasks) && Owners(s.tasks)[who.tgid] == who.pid
    ensures var s' := Free(t, s, who, k).0;
            && Inv(t, s') && k !in Live(s'.tasks) && 0 <= k.cmg < |s'.bbActive| && k.blade !in s'.bbActive[k.cmg]
            && s'.breg == s.breg && k in s'.breg
            && s'.breg[k].mask == t.PpeMask(k.cmg, Live(s.tasks)[k].a.cpumask) != {}
  {
    hide KeysDistinct, IsLive, IsOwners, GroupsDistinct, WindowsOk, FreeAndReap, FreeAllocation, UnregisterTask;
    Lookup(s.tasks, who.tgid, k);
    var i := FindTask(s.tasks, who.tgid);
    var j := FindAlloc(s.tasks[i].allocs, k);
    BladeRange(t, Live(s.tasks));
    MasksWeaken(t, s, {k});
    FreeAndReapInv(t, s, i, j);
    FreeAndReapBlades(t, s, i, j);
    PpeMaskNonEmpty(t, k.cmg, Live(s.tasks)[k].a.cpumask);
  }

  lemma FreeAndReapBlades(t: Topology, s: State, i: nat, j: nat)
    requires SoftInv(t, s) && At(s.tasks, i, j) && MasksOk(t, s, {KeyOf(s.tasks[i].allocs[j])})
    ensures FreeAndReap(t, s, i, j).breg == s.breg
  {
    hide KeysDistinct, IsLive, IsOwners, GroupsDistinct, BladesOk, EntriesOk, WindowsOk, MasksOk, UnregisterTask;
    FreeAllocationInv(t, s, i, j);
    FreeAllocationForm(t, s, i, j);
    var s1 := FreeAllocation(t, s, i, j);
    if s1.tasks[i].numAllocs == 0 { UnregisterInv(t, s1, i); }
  }

  // ---------- reset ----------

  /** From any state of any run, also with leaked windows or disagreeing registers, reset
      re-establishes the initial state, so that all properties hold again from there. */
  lemma ResetIsInit(t: Topology, s: State)
    requires Inv(t, s)
    ensures Init(t, Reset(t, s))
    ensures Inv(t, Reset(t, s)) && Exact(Reset(t, s)) && HwAgrees(t, Reset(t, s))
  {
    InitExact(t, Reset(t, s));
  }
}
