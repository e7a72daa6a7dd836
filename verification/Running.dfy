/** Concrete runs from module load: to a barrier that is about to start its first round, and
    on to a shrink in the middle of the round after which the barrier is blocked for good. */
module Running {
  import opened Topology
  import opened DriverState
  import opened LiveMap
  import opened Invariant
  import opened Abstract
  import opened Refinement
  import opened Windows
  import opened Accounting
  import opened Barrier
  import opened Progress
  import opened Shrinking
  import opened Isolation
  import opened World
  import opened Properties
  import opened Examples

  const BIT0 := [WinReg(true, 0), WinReg(false, 0)]

  const HALF := AbsState(map[B0 := Both(map[0 := 0])], map[1 := 1], map[PE0 := {0}, PE1 := {}],
      map[PE0 := BIT0, PE1 := CLEAR], 0)
  const FULL := AbsState(map[B0 := Both(map[0 := 0, 1 := 0])], map[1 := 1], map[PE0 := {0}, PE1 := {0}],
                         map[PE0 := BIT0, PE1 := BIT0], 0)

  lemma TakeHalf(a: AbsState, r: Reply)
    requires CHIP.HasPe(PE0) && AssignNext(CHIP, ONE, a, MAIN, 0, -1, r)
    ensures a == HALF
  {
    Chip();
    assert 0 !in ONE.reserved[PE0];
    assert r.value == 0;
    assert a.barriers == HALF.barriers;
    assert ONE.regs[PE0][0 := WinReg(true, 0)] == BIT0;
    assert a.reserved[PE0] == {0};
    assert a.reserved == HALF.reserved && a.regs == HALF.regs;
  }

  lemma TakeFull(a: AbsState, r: Reply)
    requires CHIP.HasPe(PE1) && AssignNext(CHIP, HALF, a, OTHER, 0, -1, r)
    ensures a == FULL
  {
    Chip();
    assert 0 !in HALF.reserved[PE1];
    assert r.value == 0;
    assert a.barriers == FULL.barriers;
    assert HALF.regs[PE1][0 := WinReg(true, 0)] == BIT0;
    assert a.reserved[PE1] == {0};
    assert a.reserved == FULL.reserved && a.regs == FULL.regs;
  }

  /** A driver state before any barrier has started, reached in the whole system. */
  ghost predicate Starts(s: State, a: AbsState) {
    Shows(s, a) && ReachableWorld(CHIP, World(s, Start(CHIP, s)))
  }

  lemma LoadedStarts()
    ensures Starts(LOADED, NONE)
  {
    Chip();
    LoadedReachable();
    InitInOrder(CHIP, LOADED);
    assert LeadsTo(CHIP, LOADED, [], World(LOADED, Start(CHIP, LOADED)));
  }

  /** One allocate or assign from such a state. */
  lemma GoOn(s: State, a: AbsState, op: Op) returns (s': State, a': AbsState, r: Reply)
    requires Starts(s, a) && OpOk(CHIP, op) && (op.AllocateOp? || op.AssignOp?)
    ensures CHIP.Pes() == {PE0, PE1} && a.reserved.Keys == {PE0, PE1} == a.regs.Keys
    ensures Starts(s', a') && Next(CHIP, a, op, a', r)
  {
    hide Step, Reachable, Next, KeysDistinct, IsLive, IsOwners, GroupsDistinct, EntriesOk, BladesOk, WindowsOk,
      MasksOk, ReachableWorld, Harmless, Act, AbsInv;
    s', a', r := Go(s, a, op);
    var w := World(s, Start(CHIP, s));
    OnlyFreesHarm(CHIP, w, op);
    CallFromStart(CHIP, s, op);
    ReachableAct(CHIP, w, Call(op));
  }

  /** One allocate and an assign by each thread lead to a barrier with all its windows. */
  lemma FullyAssigned() returns (s: State)
    ensures Starts(s, FULL)
  {
    hide Starts, AllocateNext, AssignNext;
    Chip();
    LoadedStarts();
    var a, r;
    s, a, r := GoOn(LOADED, NONE, AllocateOp(MAIN, {0, 1}));
    AllocateGives(NONE, a, r, 0);
    assert a == ONE;
    s, a, r := GoOn(s, a, AssignOp(MAIN, 0, -1));
    TakeHalf(a, r);
    s, a, r := GoOn(s, a, AssignOp(OTHER, 0, -1));
    TakeFull(a, r);
  }

  lemma FullAgrees()
    ensures AbsShape(FULL) && Agree(CHIP, FULL)
  {
    Chip();
  }

  lemma FullMask()
    ensures CHIP.PpeMask(0, {0, 1}) == {0, 1}
  {
    assert CHIP.cpus[0][0] == 0 && CHIP.cpus[0][1] == 1;
  }

  /** An allocation with a window on both PEs has both CPUs assigned. */
  lemma BothAssigned(a: Alloc)
    requires AllocOk(CHIP, a) && a.cmg == 0 && a.cpumask == {0, 1} && WindowMap(a) == map[0 := 0, 1 := 0]
    ensures a.assignMask == {0, 1}
  {
    hide AllocOk, WindowMap;
    Chip();
    AssignedIffWindow(CHIP, a, PE0);
    AssignedIffWindow(CHIP, a, PE1);
    assert a.assignMask <= a.cpumask by { AssignedParticipate(a); }
  }

  lemma AssignedParticipate(a: Alloc)
    requires AllocOk(CHIP, a)
    ensures a.assignMask <= a.cpumask
  {
  }

  lemma FullMasks(s: State)
    requires Shows(s, FULL)
    ensures B0 in Live(s.tasks) && Live(s.tasks)[B0].a.cpumask == {0, 1} == Live(s.tasks)[B0].a.assignMask
    ensures CHIP.PpeMask(0, {0, 1}) == {0, 1}
  {
    hide KeysDistinct, IsLive, IsOwners, GroupsDistinct, BladesOk, WindowsOk, MasksOk, Reachable, AllocOk, WindowMap;
    var e := Live(s.tasks)[B0];
    assert B0 in Abs(s).barriers && AbsBarrier(e) == Both(map[0 := 0, 1 := 0]);
    assert AllocOk(CHIP, e.a) && KeyOf(e.a) == B0;
    BothAssigned(e.a);
    FullMask();
  }

  lemma FullWorld(s: State, w: World)
    requires Shows(s, FULL) && w == World(s, Start(CHIP, s))
    ensures HwAgrees(CHIP, s) && WorldInv(CHIP, w)
    ensures Sound(CHIP, w.x, B0, {0, 1}) && Fresh(Project(w.x, B0))
    ensures Within(Project(w.x, B0), 1) && !Done(Project(w.x, B0), 1)
  {
    hide KeysDistinct, IsLive, IsOwners, GroupsDistinct, BladesOk, EntriesOk, WindowsOk, MasksOk, Reachable, Agree,
      AbsInv, Healthy, Start, Fresh, Within, Done;
    FullMasks(s);
    FullAgrees();
    InvAbs(CHIP, s);
    StartInOrder(CHIP, s);
    FreshWithin(Project(w.x, B0));
  }

  lemma FreshWithin(b: BState)
    requires Fresh(b)
    ensures Within(b, 1) && !Done(b, 1)
  {
    EmptyOrNot(b.reg.mask);
    var p :| p in b.reg.mask;
    assert b.local[p] == Local(Idle, 0);
  }

  lemma FirstRead(s: State, w: World)
    requires Shows(s, FULL) && w.s == s && WorldInv(CHIP, w) && Sound(CHIP, w.x, B0, {0, 1}) && Fresh(Project(w.x, B0))
    ensures CanStep(Abs(s), w.x, OnPe(B0, Read(0)))
  {
    hide KeysDistinct, IsLive, IsOwners, GroupsDistinct, BladesOk, EntriesOk, WindowsOk, MasksOk, Reachable,
      HwAgrees, AbsInv, Agree, Healthy, Connected;
    FullMasks(s);
    AgreesAbs(CHIP, s);
    AllConnected(CHIP, s, B0, 0);
    ReachesOwn(CHIP, Abs(s), B0, 0);
    assert 0 in Project(w.x, B0).local;
  }

  lemma OneAction(w: World, act: Action)
    requires WorldInv(CHIP, w) && act.Sync? && CanAct(CHIP, w, act)
    requires B0 in Live(w.s.tasks) && Live(w.s.tasks)[B0].a.cpumask == {0, 1}
    ensures CanActs(CHIP, w, [act]) && HarmlessRun(CHIP, w, [act]) && Undisturbed(CHIP, w, [act], B0, {0, 1})
  {
    hide KeysDistinct, IsLive, IsOwners, GroupsDistinct, BladesOk, EntriesOk, WindowsOk, MasksOk, HwAgrees, Sound,
      Misdirected, CanStep, SysStep;
    ActInv(CHIP, w, act);
    assert [act][1..] == [];
  }

  /** The theorems about running barriers are about something: in a reachable state with a
      fully assigned barrier all their conditions hold, and the first read of a round can
      be taken. */
  lemma RunningBarrier() returns (s: State, w: World)
    ensures Reachable(CHIP, s) && Inv(CHIP, s) && w == World(s, Start(CHIP, s))
    ensures ReachableWorld(CHIP, w) && WorldInv(CHIP, w)
    ensures B0 in Live(s.tasks) && Live(s.tasks)[B0].a.cpumask == {0, 1} == Live(s.tasks)[B0].a.assignMask
    ensures Sound(CHIP, w.x, B0, {0, 1}) && Fresh(Project(w.x, B0))
    ensures Within(Project(w.x, B0), 1) && !Done(Project(w.x, B0), 1)
    ensures CanStep(Abs(s), w.x, OnPe(B0, Read(0)))
    ensures var acts := [Sync(OnPe(B0, Read(0)))];
            CanActs(CHIP, w, acts) && HarmlessRun(CHIP, w, acts) && Undisturbed(CHIP, w, acts, B0, {0, 1})
  {
    hide KeysDistinct, IsLive, IsOwners, GroupsDistinct, BladesOk, EntriesOk, WindowsOk, MasksOk, Reachable,
      HwAgrees, Sound, Fresh, Within, Done, CanStep, Start, CanActs, Undisturbed, HarmlessRun, ReachableWorld;
    s := FullyAssigned();
    w := World(s, Start(CHIP, s));
    FullMasks(s);
    FullWorld(s, w);
    FirstRead(s, w);
    OneAction(w, Sync(OnPe(B0, Read(0))));
  }

  // ---------- a shrink in the middle of a round ----------

  const AT_WORK := BState(BladeReg({0, 1}, {}, false), map[0 := Local(Idle, 0), 1 := Local(Idle, 0)], 0)
  const READ := AT_WORK.(local := map[0 := Local(Ready(true), 0), 1 := Local(Idle, 0)])
  const WROTE := BState(BladeReg({0, 1}, {0}, false), map[0 := Local(Waiting(true), 0), 1 := Local(Idle, 0)], 0)
  const BLOCKED := BState(BladeReg({0}, {}, false), map[0 := Local(Waiting(true), 0)], 0)

  lemma FreshFull(b: BState)
    requires Fresh(b) && b.reg.mask == {0, 1}
    ensures b == AT_WORK
  {
    assert b.local == AT_WORK.local;
  }

  lemma ReadWrite()
    ensures CanDo(AT_WORK, Read(0)) && Do(AT_WORK, Read(0)) == READ
    ensures CanDo(READ, Write(0)) && Do(READ, Write(0)) == WROTE
  {
    assert Do(AT_WORK, Read(0)).local == READ.local;
    assert Do(READ, Write(0)).local == WROTE.local;
  }

  /** PE 0 waits for a 1 that cannot come. */
  lemma Blocked()
    ensures !Resumable(WROTE, {0}) && Shrunk(WROTE, {0}) == BLOCKED
    ensures Within(BLOCKED, 1) && !Done(BLOCKED, 1) && forall e :: !Changes(BLOCKED, e, 1)
  {
    assert 0 in WROTE.local && WROTE.local[0].pc == Waiting(true);
    assert Shrunk(WROTE, {0}).local == BLOCKED.local;
    assert BLOCKED.local[0] != Local(Idle, 1);
  }

  /** A step of PE 0 on barrier 0, in a driver state with both windows. */
  lemma StepPe0(w: World, e: Event) returns (w': World)
    requires ReachableWorld(CHIP, w) && WorldInv(CHIP, w) && Shows(w.s, FULL) && HasBlade(w.x, B0)
    requires e in [Read(0), Write(0)] && CanDo(Project(w.x, B0), e)
    ensures ReachableWorld(CHIP, w') && WorldInv(CHIP, w') && w'.s == w.s && HasBlade(w'.x, B0)
    ensures Project(w'.x, B0) == Do(Project(w.x, B0), e)
  {
    hide KeysDistinct, IsLive, IsOwners, GroupsDistinct, BladesOk, EntriesOk, WindowsOk, MasksOk, Reachable,
      HwAgrees, AbsInv, Agree, Healthy, Connected, ReachableWorld, Do, SysStep;
    var ev := OnPe(B0, e);
    FullMasks(w.s);
    AgreesAbs(CHIP, w.s);
    AllConnected(CHIP, w.s, B0, 0);
    ReachesOwn(CHIP, Abs(w.s), B0, 0);
    assert CanStep(Abs(w.s), w.x, ev);
    SyncSound(CHIP, w, ev, B0);
    ActKeeps(CHIP, w, Sync(ev));
    ReachableAct(CHIP, w, Sync(ev));
    w' := Act(CHIP, w, Sync(ev));
  }

  lemma OtherLeaves(s: State)
    requires Shows(s, FULL)
    ensures LeavesBy(CHIP, Abs(s), FreeOp(OTHER, B0), B0) && !Misdirected(CHIP, Abs(s), FreeOp(OTHER, B0))
    ensures Inv(CHIP, Step(CHIP, s, FreeOp(OTHER, B0)).0)
    ensures B0 in Live(Step(CHIP, s, FreeOp(OTHER, B0)).0.tasks)
    ensures Live(Step(CHIP, s, FreeOp(OTHER, B0)).0.tasks)[B0].a.cpumask == {0}
  {
    hide KeysDistinct, IsLive, IsOwners, GroupsDistinct, BladesOk, EntriesOk, WindowsOk, MasksOk, Reachable, Next,
      AbsInv, Step;
    Chip();
    var op := FreeOp(OTHER, B0);
    assert Has(FULL, 1, B0);
    InvAbs(CHIP, s);
    StepRefines(CHIP, s, op);
    StepParticipants(CHIP, FULL, op, Abs(Step(CHIP, s, op).0), Step(CHIP, s, op).1, B0);
    assert {0, 1} - {1} == {0};
  }

  const LEAVE := FreeOp(OTHER, B0)

  lemma LeaveOk()
    ensures OpOk(CHIP, LEAVE)
  {
    Chip();
  }

  /** The free by the thread of PE 1 after PE 0 has written. */
  lemma ShrinkBlocks(w: World, w': World)
    requires WorldInv(CHIP, w) && Shows(w.s, FULL) && HasBlade(w.x, B0) && Project(w.x, B0) == WROTE
    requires OpOk(CHIP, LEAVE) && w' == Act(CHIP, w, Call(LEAVE))
    ensures !Misdirected(CHIP, Abs(w.s), LEAVE) && Disrupts(CHIP, w, LEAVE)
    ensures Inv(CHIP, w'.s)
    ensures B0 in Live(w'.s.tasks) && Live(w'.s.tasks)[B0].a.cpumask == {0}
    ensures HasBlade(w'.x, B0) && Project(w'.x, B0) == BLOCKED
  {
    hide KeysDistinct, IsLive, IsOwners, GroupsDistinct, BladesOk, EntriesOk, WindowsOk, MasksOk, HwAgrees, Healthy,
      Reachable, Misdirected, Resumable, Shrunk, Step, WriteOf, Rewrite;
    FullMasks(w.s);
    OtherLeaves(w.s);
    CallSound(CHIP, w, LEAVE, B0);
    OldBarrier(CHIP, w.s, LEAVE, B0);
    OneMask();
    Blocked();
  }

  lemma OneMask()
    ensures CHIP.PpeMask(0, {0}) == {0}
  {
    assert CHIP.cpus[0][0] == 0 && CHIP.cpus[0][1] == 1;
  }

  /** A run from module load: the blade is allocated and both windows assigned, PE 0 reads
      LBSY and writes its bit, and the thread of PE 1 frees.  The free is not misdirected,
      but it disrupts: PE 0 waits for ever, although it is the only participant left. */
  lemma BlockedByShrink() returns (w: World, w': World)
    ensures ReachableWorld(CHIP, w) && Inv(CHIP, w.s) && OpOk(CHIP, LEAVE)
    ensures !Misdirected(CHIP, Abs(w.s), LEAVE) && Disrupts(CHIP, w, LEAVE)
    ensures w' == Act(CHIP, w, Call(LEAVE)) && Inv(CHIP, w'.s)
    ensures B0 in Live(w'.s.tasks) && Live(w'.s.tasks)[B0].a.cpumask == {0} && HasBlade(w'.x, B0)
    ensures var b := Project(w'.x, B0); Within(b, 1) && !Done(b, 1) && forall e :: !Changes(b, e, 1)
  {
    hide KeysDistinct, IsLive, IsOwners, GroupsDistinct, BladesOk, EntriesOk, WindowsOk, MasksOk, HwAgrees, Healthy,
      Reachable, Fresh, Within, Done, Changes, Do, CanDo, Start, ReachableWorld, Misdirected, Disrupts, Act, OpOk;
    var s := FullyAssigned();
    w := World(s, Start(CHIP, s));
    FullMasks(s);
    FullWorld(s, w);
    FreshFull(Project(w.x, B0));
    ReadWrite();
    w := StepPe0(w, Read(0));
    w := StepPe0(w, Write(0));
    LeaveOk();
    w' := Act(CHIP, w, Call(LEAVE));
    ShrinkBlocks(w, w');
    Blocked();
  }
}
