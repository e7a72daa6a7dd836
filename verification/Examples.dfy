/** Concrete runs from module load on that reach the calls at which a wanted property
    fails: a re-assign, a misdirected register write, and a close after a reset. */
module Examples {
  import opened Topology
  import opened DriverState
  import opened LiveMap
  import opened Invariant
  import opened Abstract
  import opened Refinement
  import opened Windows
  import opened Accounting

  /** One CMG with CPUs 0 and 1, two blades, two windows per PE. */
  const CHIP := Topology([[0, 1]], 2, 2, 2)

  const PE0 := Pe(0, 0)
  const PE1 := Pe(0, 1)
  const B0 := Bb(0, 0)
  const B1 := Bb(0, 1)

  /** The thread that registers group 1, on CPU 0, and another thread of it, on CPU 1. */
  const MAIN := Caller(1, 1, PE0, true)
  const OTHER := Caller(2, 1, PE1, true)

  const CLEAR: seq<WinReg> := [WinReg(false, 0), WinReg(false, 0)]

  const LOADED := State([], 0, 0, [{}], map[PE0 := {}, PE1 := {}], map[PE0 := CLEAR, PE1 := CLEAR], map[])

  /** Group 1 owns some blades for both CPUs; `used` and `regs` belong to PE 1. */
  function View(barriers: map<Bb, Barrier>, used: set<int>, regs: seq<WinReg>): AbsState {
    AbsState(barriers, map[1 := 1], map[PE0 := {}, PE1 := used], map[PE0 := CLEAR, PE1 := regs], 0)
  }

  function Both(windows: map<int, int>): Barrier {
    Barrier(1, {0, 1}, windows)
  }

  lemma Chip()
    ensures CHIP.Valid() && CHIP.Pes() == {PE0, PE1} && CHIP.Cpus(0) == {0, 1}
    ensures CHIP.HasPe(PE0) && CHIP.HasPe(PE1) && CHIP.Cpu(PE0) == 0 && CHIP.Cpu(PE1) == 1
  {
    assert CHIP.cpus[0][0] == 0 && CHIP.cpus[0][1] == 1;
  }

  /** A reachable state of the driver and the abstract state it stands for. */
  ghost predicate Shows(s: State, a: AbsState) {
    Reachable(CHIP, s) && Inv(CHIP, s) && Abs(s) == a
  }

  /** The call `op` in `s` leads to `s'` and gives the reply `r`. */
  ghost predicate StepTo(s: State, op: Op, s': State, r: Reply) {
    Inv(CHIP, s) && OpOk(CHIP, op) && Step(CHIP, s, op) == (s', r)
  }

  /** One call from a reachable state, and what the abstract machine says about it. */
  lemma Go(s: State, a: AbsState, op: Op) returns (s': State, a': AbsState, r: Reply)
    requires Shows(s, a) && OpOk(CHIP, op)
    ensures CHIP.Pes() == {PE0, PE1} && a.reserved.Keys == {PE0, PE1} == a.regs.Keys
    ensures StepTo(s, op, s', r) && Shows(s', a') && Next(CHIP, a, op, a', r) && AbsInv(CHIP, a')
  {
    hide Step, Reachable, Next, KeysDistinct, GroupsDistinct, EntriesOk, BladesOk, WindowsOk, MasksOk;
    Chip();
    ReachableStep(CHIP, s, op);
    StepRefines(CHIP, s, op);
    s', r := Step(CHIP, s, op).0, Step(CHIP, s, op).1;
    InvAbs(CHIP, s');
    a' := Abs(s');
  }

  const NONE := View(map[], {}, CLEAR).(owners := map[])
  const ONE := View(map[B0 := Both(map[])], {}, CLEAR)
  const TWO := View(map[B0 := Both(map[]), B1 := Both(map[])], {}, CLEAR)
  const FIRST := View(map[B0 := Both(map[]), B1 := Both(map[1 := 0])], {0}, [WinReg(true, 1), WinReg(false, 0)])
  const SECOND := View(map[B0 := Both(map[1 := 1]), B1 := Both(map[1 := 0])], {0, 1},
      [WinReg(true, 1), WinReg(true, 0)])

  lemma AllocateGives(a: AbsState, a': AbsState, r: Reply, b: int)
    requires AllocateNext(CHIP, a, a', MAIN, {0, 1}, r)
    requires 0 <= b < 2 && forall n | 0 <= n < 2 :: Bb(0, n) in a.barriers <==> n < b
    ensures a' == a.(owners := if 1 in a.owners then a.owners else a.owners[1 := 1],
                     barriers := a.barriers[Bb(0, b) := Both(map[])])
  {
    Chip();
    assert {0, 1} <= CHIP.Cpus(0) && |{0, 1}| == 2;
    var c, b' :| 0 <= c < |CHIP.cpus| && {0, 1} <= CHIP.Cpus(c) && LeastBlade(a, c, b', CHIP.nBlades)
                 && a' == a.(owners := if 1 in a.owners then a.owners else a.owners[1 := 1],
                     barriers := if b' < CHIP.nBlades then a.barriers[Bb(c, b') := Barrier(1, {0, 1}, map[])]
                                 else a.barriers);
    assert Bb(0, b) !in a.barriers;
    assert b' < 2 ==> (Bb(0, b') in a.barriers <==> b' < b);
  }

  /** Two allocates of the registering thread get blades 0 and 1; then the other thread
      takes a window of blade 1 and one of blade 0. */
  lemma TwoWindows() returns (s1: State, s2: State)
    ensures Shows(s1, FIRST) && Shows(s2, SECOND)
  {
    hide Shows, StepTo, AllocateNext, AssignNext, AbsInv;
    Chip();
    LoadedReachable();
    var s, a, r;
    s, a, r := Go(LOADED, NONE, AllocateOp(MAIN, {0, 1}));
    AllocateGives(NONE, a, r, 0);
    s, a, r := Go(s, a, AllocateOp(MAIN, {0, 1}));
    AllocateGives(ONE, a, r, 1);
    assert a == TWO;
    s1, a, r := Go(s, a, AssignOp(OTHER, 1, -1));
    TakeFirst(a, r);
    s2, a, r := Go(s1, a, AssignOp(OTHER, 0, -1));
    TakeSecond(a, r);
  }

  lemma LoadedReachable()
    ensures Shows(LOADED, NONE)
  {
    Chip();
    InitInv(CHIP, LOADED);
    ReachableInit(CHIP, LOADED);
  }

  lemma TakeFirst(a: AbsState, r: Reply)
    requires CHIP.HasPe(PE1) && AssignNext(CHIP, TWO, a, OTHER, 1, -1, r)
    ensures a == FIRST
  {
    Chip();
    assert 0 !in TWO.reserved[PE1];
    assert r.value == 0;
    assert TWO.barriers[B1].(windows := map[1 := 0]) == Both(map[1 := 0]);
    assert a.barriers == FIRST.barriers;
    assert TWO.regs[PE1][0 := WinReg(true, 1)] == FIRST.regs[PE1];
    assert a.reserved[PE1] == {0};
    assert a.reserved == FIRST.reserved && a.regs == FIRST.regs;
  }

  lemma TakeSecond(a: AbsState, r: Reply)
    requires CHIP.HasPe(PE1) && AssignNext(CHIP, FIRST, a, OTHER, 0, -1, r)
    ensures a == SECOND
  {
    Chip();
    assert 1 !in FIRST.reserved[PE1] && 0 in FIRST.reserved[PE1];
    assert r.value == 1;
    assert a.barriers == SECOND.barriers;
    assert FIRST.regs[PE1][1 := WinReg(true, 0)] == SECOND.regs[PE1];
    assert a.reserved[PE1] == {0, 1};
    assert a.reserved == SECOND.reserved && a.regs == SECOND.regs;
  }

  lemma SecondFacts()
    ensures AbsShape(SECOND) && Agree(CHIP, SECOND) && Misdirected(CHIP, SECOND, FreeOp(OTHER, B0))
  {
    Chip();
    assert Has(SECOND, 1, B0);
  }

  ghost predicate AbsShape(a: AbsState) {
    a.regs.Keys == a.reserved.Keys && forall pe | pe in a.regs :: |a.regs[pe]| == CHIP.nWindows
  }

  lemma FreeDamages(a: AbsState, r: Reply)
    requires CHIP.HasPe(PE1) && FreeNext(CHIP, SECOND, a, OTHER, B0, r) && AbsShape(a)
    ensures Damaged(a) && !Agree(CHIP, a)
  {
    Chip();
    assert Has(SECOND, 1, B0);
    assert 0 in SECOND.barriers[B0].members - {1};
    assert Uses(a.barriers[B1], B1, PE1, 0);
  }

  /** Blade 1 uses window 0 of PE 1, but that register was invalidated. */
  ghost predicate Damaged(a: AbsState) {
    && B1 in a.barriers && a.barriers[B1] == Both(map[1 := 0]) && 1 in a.owners
    && PE1 in a.regs && a.regs[PE1] == [WinReg(false, 0), WinReg(true, 0)]
  }

  lemma UnassignFails(a: AbsState, a': AbsState, r: Reply)
    requires CHIP.HasPe(PE1) && PE1 in a.reserved && PE1 in a.regs && UnassignNext(CHIP, a, a', OTHER, 1, r)
    requires Damaged(a)
    ensures a' == a && r == Reply(EInval, -1)
  {
  }

  /** A free by the other thread that releases window 1 invalidates window register 0
      instead, which belongs to blade 1.  Bitmaps and registers agree before and disagree
      after, and the thread cannot unassign blade 1 although its PE holds a window of it. */
  lemma MisdirectedFree() returns (s: State, s': State, a': AbsState)
    ensures Shows(s, SECOND) && AbsShape(SECOND) && Agree(CHIP, SECOND)
    ensures StepTo(s, FreeOp(OTHER, B0), s', Reply(Success, -1)) && Shows(s', a') && AbsShape(a') && !Agree(CHIP, a')
    ensures Uses(SECOND.barriers[B1], B1, PE1, 0) && B1 in a'.barriers && a'.barriers[B1] == SECOND.barriers[B1]
    ensures exists s'' :: StepTo(s', UnassignOp(OTHER, 1), s'', Reply(EInval, -1))
  {
    hide Shows, StepTo, AssignNext, UnassignNext, Agree, LeaveNext;
    Chip();
    var s1, r, s2, a2, r2;
    s1, s := TwoWindows();
    SecondFacts();
    s', a', r := Go(s, SECOND, FreeOp(OTHER, B0));
    FreeDamages(a', r);
    assert Has(SECOND, 1, B0);
    s2, a2, r2 := Go(s', a', UnassignOp(OTHER, 1));
    UnassignFails(a', a2, r2);
  }

  const LEAKED := View(map[B0 := Both(map[]), B1 := Both(map[1 := 1])], {0, 1}, [WinReg(true, 1), WinReg(true, 1)])

  lemma TakeAgain(a: AbsState, r: Reply)
    requires CHIP.HasPe(PE1) && AssignNext(CHIP, FIRST, a, OTHER, 1, 1, r)
    ensures a == LEAKED
    ensures Leaks(CHIP, FIRST, AssignOp(OTHER, 1, 1))
  {
    Chip();
    assert 1 !in FIRST.reserved[PE1] && Has(FIRST, 1, B1);
    assert Both(map[1 := 0]).windows[1 := 1] == map[1 := 1];
    assert a.barriers == LEAKED.barriers;
    assert FIRST.regs[PE1][1 := WinReg(true, 1)] == LEAKED.regs[PE1];
    assert a.reserved[PE1] == {0, 1};
    assert a.reserved == LEAKED.reserved && a.regs == LEAKED.regs;
  }

  /** Window 0 of PE 1 is reserved, but no barrier uses it. */
  ghost predicate Lost(a: AbsState) {
    PE1 in a.reserved && 0 in a.reserved[PE1] && forall k | k in a.barriers :: !Uses(a.barriers[k], k, PE1, 0)
  }

  lemma FreeKeepsLeak(a: AbsState, a': AbsState, k: Bb, r: Reply)
    requires CHIP.HasPe(PE0) && PE0 in a.reserved && PE0 in a.regs && FreeNext(CHIP, a, a', MAIN, k, r)
    requires 1 in a.owners && a.owners[1] == 1 && Has(a, 1, k) && Lost(a)
    ensures a'.barriers == a.barriers - {k} && Lost(a')
    ensures HasAny(a', 1) ==> a'.owners == a.owners
  {
  }

  /** The thread of PE 1, which holds window 0 of blade 1, asks for window 1 of the same
      blade; window 0 then stays reserved even when no allocation is left. */
  lemma LeakedWindow() returns (s: State, s': State, a': AbsState)
    ensures Shows(s, FIRST) && Leaks(CHIP, FIRST, AssignOp(OTHER, 1, 1))
    ensures Shows(s', a') && a'.barriers == map[] && Lost(a')
  {
    hide Shows, StepTo, AssignNext, FreeNext, Leaks, Uses, AbsInv;
    Chip();
    var r, s2, a;
    s, s2 := TwoWindows();
    s2, a, r := Go(s, FIRST, AssignOp(OTHER, 1, 1));
    TakeAgain(a, r);
    LeakedFacts();
    s2, a, r := Go(s2, a, FreeOp(MAIN, B1));
    FreeKeepsLeak(LEAKED, a, B1, r);
    assert Has(a, 1, B0);
    s', a', r := Go(s2, a, FreeOp(MAIN, B0));
    FreeKeepsLeak(a, a', B0, r);
    assert a'.barriers == map[];
  }

  lemma LeakedFacts()
    ensures Has(LEAKED, 1, B1) && Has(LEAKED, 1, B0) && Lost(LEAKED)
  {
  }

  lemma OpenGives(a: AbsState, r: Reply)
    requires Next(CHIP, NONE, Open, a, r)
    ensures a == NONE.(active := 1) && r == Reply(Success, -1)
  {
  }

  lemma ResetGives(a: AbsState, r: Reply)
    requires Next(CHIP, NONE.(active := 1), ResetOp, a, r)
    ensures a == NONE && r == Reply(Success, -1)
  {
    assert CLEAR == seq(CHIP.nWindows, _ => WinReg(false, 0));
    assert a.reserved == NONE.reserved && a.regs == NONE.regs;
  }

  lemma AllocatedGives(a: AbsState, r: Reply)
    requires Next(CHIP, NONE, AllocateOp(MAIN, {0, 1}), a, r)
    ensures a == ONE && r.status == Success
  {
    Chip();
    AllocateGives(NONE, a, r, 0);
    assert {0, 1} <= CHIP.Cpus(0) && |{0, 1}| == 2;
  }

  lemma CloseGives(a: AbsState, r: Reply)
    requires Next(CHIP, ONE, CloseOp(MAIN), a, r)
    ensures a == ONE && r == Reply(Success, -1)
  {
  }

  /** The device is opened and reset; then the registering thread allocates a blade and
      closes the device.  The blade stays allocated. */
  lemma SkippedCleanup() returns (s1: State, s2: State, s3: State, s4: State, r: Reply)
    ensures StepTo(LOADED, Open, s1, Reply(Success, -1)) && StepTo(s1, ResetOp, s2, Reply(Success, -1))
    ensures StepTo(s2, AllocateOp(MAIN, {0, 1}), s3, r) && r.status == Success
    ensures StepTo(s3, CloseOp(MAIN), s4, Reply(Success, -1)) && Shows(s4, ONE)
  {
    hide Shows, StepTo, Next, AbsInv;
    Chip();
    LoadedReachable();
    var a, r1;
    s1, a, r1 := Go(LOADED, NONE, Open);
    OpenGives(a, r1);
    s2, a, r1 := Go(s1, a, ResetOp);
    ResetGives(a, r1);
    s3, a, r := Go(s2, a, AllocateOp(MAIN, {0, 1}));
    AllocatedGives(a, r);
    s4, a, r1 := Go(s3, a, CloseOp(MAIN));
    CloseGives(a, r1);
  }
}
