/** The whole system: driver calls of any thread interleaved with the steps of all running
    barriers.  A call reaches the barriers only through the blade registers it writes and
    the window registers it changes. */
module World {
  import opened Topology
  import opened DriverState
  import opened LiveMap
  import opened Invariant
  import opened Abstract
  import opened Refinement
  import opened Windows
  import opened Accounting
  import opened Barrier
  import opened Isolation
  import opened Properties
  import opened Progress
  import opened Shrinking
  import MaskCheck

  // ---------- what a call writes to the blade registers ----------

  datatype Write = NoWrite | Program(key: Bb, mask: set<int>)

  function LeaveWrite(t: Topology, a: Alloc, cmg: int, pe: Pe): Write
    requires t.HasPe(pe)
  {
    if t.Cpu(pe) !in a.cpumask then NoWrite else Program(KeyOf(a), t.PpeMask(cmg, a.cpumask - {t.Cpu(pe)}))
  }

  /** The blade register write of a call, apart from rejected ones with an empty mask. */
  function WriteOf(t: Topology, s: State, op: Op): Write
    requires Shape(t, s) && OpOk(t, op)
  {
    match op
    case AllocateOp(who, cpumask) =>
      var c := CheckCpumask(t, cpumask);
      if c < 0 then NoWrite
      else
        var s1 := Register(s, who);
        var i, bit := FindTask(s1.tasks, who.tgid), FirstZero(s1.bbActive[c], 0, t.nBlades);
        if bit >= t.nBlades || FindAlloc(s1.tasks[i].allocs, Bb(c, bit)) < |s1.tasks[i].allocs| then NoWrite
        else Program(Bb(c, bit), t.PpeMask(c, cpumask))
    case FreeOp(who, key) =>
      var i := FindTask(s.tasks, who.tgid);
      if i == |s.tasks| then NoWrite
      else
        var j := FindAlloc(s.tasks[i].allocs, key);
        if j == |s.tasks[i].allocs| || who.pid == s.tasks[i].pid then NoWrite
        else LeaveWrite(t, s.tasks[i].allocs[j], key.cmg, who.pe)
    case _ => NoWrite
  }

  function Apply(t: Topology, b: map<Bb, BladeReg>, w: Write): map<Bb, BladeReg> {
    match w
    case NoWrite => b
    case Program(key, mask) => WriteInit(t, b, key, mask)
  }

  lemma FreeAllocationWrites(t: Topology, s: State, b: map<Bb, BladeReg>, i: nat, j: nat)
    requires Shape(t, s) && At(s.tasks, i, j)
    ensures Shape(t, s.(breg := b))
    ensures FreeAllocation(t, s.(breg := b), i, j) == FreeAllocation(t, s, i, j).(breg := b)
  {
  }

  lemma {:induction false} FreeAllWrites(t: Topology, s: State, b: map<Bb, BladeReg>, i: nat)
    requires Shape(t, s) && i < |s.tasks|
    ensures Shape(t, s.(breg := b))
    ensures FreeAll(t, s.(breg := b), i) == FreeAll(t, s, i).(breg := b)
    decreases |s.tasks[i].allocs|
  {
    hide FreeAllocation, Shape;
    FrameShape(t, s, b);
    if s.tasks[i].allocs != [] {
      FreeAllocationWrites(t, s, b, i, 0);
      FreeAllWrites(t, FreeAllocation(t, s, i, 0), b, i);
    }
  }

  lemma FrameShape(t: Topology, s: State, b: map<Bb, BladeReg>)
    requires Shape(t, s)
    ensures Shape(t, s.(breg := b))
  {
  }

  lemma UnregisterWrites(t: Topology, s: State, b: map<Bb, BladeReg>, i: nat)
    requires Shape(t, s) && i < |s.tasks|
    ensures Shape(t, s.(breg := b))
    ensures UnregisterTask(t, s.(breg := b), i) == UnregisterTask(t, s, i).(breg := b)
  {
    hide FreeAll, Shape;
    FrameShape(t, s, b);
    FreeAllWrites(t, s, b, i);
  }

  lemma FreeAndReapWrites(t: Topology, s: State, b: map<Bb, BladeReg>, i: nat, j: nat)
    requires Shape(t, s) && At(s.tasks, i, j)
    ensures Shape(t, s.(breg := b))
    ensures FreeAndReap(t, s.(breg := b), i, j) == FreeAndReap(t, s, i, j).(breg := b)
  {
    hide FreeAllocation, UnregisterTask, Shape;
    FrameShape(t, s, b);
    FreeAllocationWrites(t, s, b, i, j);
    var s1 := FreeAllocation(t, s, i, j);
    if s1.tasks[i].numAllocs == 0 { UnregisterWrites(t, s1, b, i); }
  }

  lemma LeaveWrites(t: Topology, s: State, b: map<Bb, BladeReg>, i: nat, j: nat, cmg: int, pe: Pe)
    requires Shape(t, s) && At(s.tasks, i, j) && t.HasPe(pe) && pe.ppe < t.maxPe
    ensures Shape(t, s.(breg := b))
    ensures Leave(t, s.(breg := b), i, j, cmg, pe) ==
            Leave(t, s, i, j, cmg, pe).(breg := Apply(t, b, LeaveWrite(t, s.tasks[i].allocs[j], cmg, pe)))
  {
    hide Shape, FreeAndReap, WriteInit;
    FrameShape(t, s, b);
    var a, cpu := s.tasks[i].allocs[j], t.Cpu(pe);
    if cpu in a.cpumask {
      var s1 := if cpu in a.assignMask then ReleaseOwnWindow(t, s, i, j, pe) else s;
      var s2 := Shrink(t, s1, i, j, cmg, cpu);
      var b2 := WriteInit(t, b, KeyOf(a), t.PpeMask(cmg, a.cpumask - {cpu}));
      ShrinkWrites(t, s, b, i, j, cmg, pe);
      if s2.tasks[i].allocs[j].cpumask == {} { FreeAndReapWrites(t, s2, b2, i, j); }
    }
  }

  lemma ShrinkWrites(t: Topology, s: State, b: map<Bb, BladeReg>, i: nat, j: nat, cmg: int, pe: Pe)
    requires Shape(t, s) && At(s.tasks, i, j) && t.HasPe(pe) && pe.ppe < t.maxPe && Shape(t, s.(breg := b))
    ensures var a, cpu, u := s.tasks[i].allocs[j], t.Cpu(pe), s.(breg := b);
            var s1 := if cpu in a.assignMask then ReleaseOwnWindow(t, s, i, j, pe) else s;
            var u1 := if cpu in a.assignMask then ReleaseOwnWindow(t, u, i, j, pe) else u;
            Shrink(t, u1, i, j, cmg, cpu) ==
            Shrink(t, s1, i, j, cmg, cpu).(breg := WriteInit(t, b, KeyOf(a), t.PpeMask(cmg, a.cpumask - {cpu})))
  {
    hide Shape, WriteInit, WriteAssign;
  }

  lemma CloseWrites(t: Topology, s: State, b: map<Bb, BladeReg>, who: Caller)
    requires Shape(t, s) && Shape(t, s.(breg := b)) && OpOk(t, CloseOp(who))
    ensures var (s', r) := Close(t, s, who);
            Close(t, s.(breg := b), who) == (s'.(breg := Apply(t, b, WriteOf(t, s, CloseOp(who)))), r)
  {
    hide Shape, UnregisterTask;
    if s.active > 0 {
      CloseShape(t, s);
      var i := FindTask(s.tasks, who.tgid);
      if i < |s.tasks| { UnregisterWrites(t, s.(active := s.active - 1), b, i); }
    }
  }

  lemma AllocateWrites(t: Topology, s: State, b: map<Bb, BladeReg>, who: Caller, cpumask: set<int>)
    requires Shape(t, s) && Shape(t, s.(breg := b)) && OpOk(t, AllocateOp(who, cpumask))
    ensures var (s', r) := Allocate(t, s, who, cpumask);
            Allocate(t, s.(breg := b), who, cpumask) ==
                (s'.(breg := Apply(t, b, WriteOf(t, s, AllocateOp(who, cpumask)))), r)
  {
    hide Shape, WriteInit, CheckCpumask;
  }

  lemma FreeWrites(t: Topology, s: State, b: map<Bb, BladeReg>, who: Caller, key: Bb)
    requires Shape(t, s) && Shape(t, s.(breg := b)) && OpOk(t, FreeOp(who, key))
    ensures var (s', r) := Free(t, s, who, key);
            Free(t, s.(breg := b), who, key) == (s'.(breg := Apply(t, b, WriteOf(t, s, FreeOp(who, key)))), r)
  {
    hide Shape, Leave, FreeAndReap, LeaveWrite, WriteInit;
    var i := FindTask(s.tasks, who.tgid);
    if i < |s.tasks| && FindAlloc(s.tasks[i].allocs, key) < |s.tasks[i].allocs| {
      var j := FindAlloc(s.tasks[i].allocs, key);
      if who.pid == s.tasks[i].pid { FreeAndReapWrites(t, s, b, i, j); }
      else { LeaveWrites(t, s, b, i, j, key.cmg, who.pe); }
    }
  }

  lemma AssignWrites(t: Topology, s: State, b: map<Bb, BladeReg>, who: Caller, blade: int, window: int)
    requires Shape(t, s) && Shape(t, s.(breg := b)) && OpOk(t, AssignOp(who, blade, window))
    ensures var (s', r) := Assign(t, s, who, blade, window);
            Assign(t, s.(breg := b), who, blade, window) ==
                (s'.(breg := Apply(t, b, WriteOf(t, s, AssignOp(who, blade, window)))), r)
  {
    hide Shape, WriteAssign;
  }

  lemma UnassignWrites(t: Topology, s: State, b: map<Bb, BladeReg>, who: Caller, blade: int)
    requires Shape(t, s) && Shape(t, s.(breg := b)) && OpOk(t, UnassignOp(who, blade))
    ensures var (s', r) := Unassign(t, s, who, blade);
            Unassign(t, s.(breg := b), who, blade) ==
                (s'.(breg := Apply(t, b, WriteOf(t, s, UnassignOp(who, blade)))), r)
  {
    hide Shape, WriteAssign;
  }

  /** A call does the same on any contents of the blade registers, none of which it reads,
      and changes them by the one write. */
  lemma StepWrites(t: Topology, s: State, b: map<Bb, BladeReg>, op: Op)
    requires Shape(t, s) && OpOk(t, op)
    ensures Shape(t, s.(breg := b))
    ensures var (s', r) := Step(t, s, op);
            Step(t, s.(breg := b), op) == (s'.(breg := Apply(t, b, WriteOf(t, s, op))), r)
  {
    hide Shape, Close, Allocate, Free, Assign, Unassign, WriteInit;
    FrameShape(t, s, b);
    match op
    case Open =>
    case CloseOp(who) => CloseWrites(t, s, b, who);
    case AllocateOp(who, cpumask) => AllocateWrites(t, s, b, who, cpumask);
    case FreeOp(who, key) => FreeWrites(t, s, b, who, key);
    case AssignOp(who, blade, window) => AssignWrites(t, s, b, who, blade, window);
    case UnassignOp(who, blade) => UnassignWrites(t, s, b, who, blade);
    case ResetOp =>
  }

  lemma CloseShape(t: Topology, s: State)
    requires Shape(t, s)
    ensures Shape(t, s.(active := s.active - 1))
  {
  }

  // ---------- the write and the live barriers ----------

  /** A free writes a blade register exactly if the caller leaves the barrier, and then
      the participants that remain. */
  lemma FreeWriteIs(t: Topology, s: State, who: Caller, key: Bb)
    requires Inv(t, s) && CallerOk(t, who)
    ensures LeavesBy(t, Abs(s), FreeOp(who, key), key) ==> key in Live(s.tasks)
    ensures WriteOf(t, s, FreeOp(who, key)) ==
            if LeavesBy(t, Abs(s), FreeOp(who, key), key)
            then Program(key, t.PpeMask(key.cmg, Live(s.tasks)[key].a.cpumask - {t.Cpu(who.pe)})) else NoWrite
  {
    hide KeysDistinct, IsLive, IsOwners, GroupsDistinct, BladesOk, EntriesOk, WindowsOk, MasksOk, Shape;
    Lookup(s.tasks, who.tgid, key);
  }

  /** An allocate writes a blade register exactly if it adds a barrier, and then the
      participants it was given. */
  lemma AllocateWriteIs(t: Topology, s: State, who: Caller, cpumask: set<int>)
    requires Inv(t, s) && CallerOk(t, who)
    ensures Inv(t, Allocate(t, s, who, cpumask).0)
    ensures var w, live := WriteOf(t, s, AllocateOp(who, cpumask)), Live(s.tasks);
            var live' := Live(Allocate(t, s, who, cpumask).0.tasks);
            match w
            case NoWrite => live' == live
            case Program(k, m) =>
              k !in live && k in live' && live' == live[k := live'[k]]
              && live'[k].a.cpumask == cpumask && m == t.PpeMask(k.cmg, cpumask)
  {
    hide KeysDistinct, IsLive, IsOwners, GroupsDistinct, EntriesOk, WindowsOk, MasksOk, NewAllocation;
    var s1, c := Register(s, who), CheckCpumask(t, cpumask);
    RegisterLive(t, s, who);
    if c >= 0 {
      var i, b := FindTask(s1.tasks, who.tgid), FirstZero(s1.bbActive[c], 0, t.nBlades);
      if b < t.nBlades {
        Lookup(s1.tasks, who.tgid, Bb(c, b));
        assert |cpumask| >= 2;
        NewAllocationInv(t, s1, i, Bb(c, b), cpumask);
      }
    }
  }

  /** The call programs the blade of barrier `k`. */
  predicate Programs(w: Write, k: Bb) {
    w.Program? && w.key == k && w.mask != {}
  }

  lemma LiveMask(t: Topology, s: State, k: Bb)
    requires Inv(t, s) && k in Live(s.tasks)
    ensures 0 <= k.cmg < |t.cpus| && 0 <= k.blade < t.nBlades && Live(s.tasks)[k].a.cpumask <= t.Cpus(k.cmg)
    ensures Live(s.tasks)[k].a.cpumask != {}
  {
    hide KeysDistinct, IsLive, IsOwners, GroupsDistinct, BladesOk, WindowsOk;
    BladeRange(t, Live(s.tasks));
  }

  /** A barrier that was there before is programmed exactly if its participants change. */
  lemma OldBarrier(t: Topology, s: State, op: Op, k: Bb)
    requires Inv(t, s) && OpOk(t, op) && k in Live(s.tasks)
    ensures Inv(t, Step(t, s, op).0)
    ensures k in Live(Step(t, s, op).0.tasks) ==>
              var w, m, m' := WriteOf(t, s, op), Live(s.tasks)[k].a.cpumask, Live(Step(t, s, op).0.tasks)[k].a.cpumask;
              && (Programs(w, k) <==> m' != m)
              && m' <= m
              && (Programs(w, k) ==> w.mask == t.PpeMask(k.cmg, m'))
  {
    hide KeysDistinct, IsLive, IsOwners, GroupsDistinct, BladesOk, EntriesOk, WindowsOk, MasksOk, Shape, Step, Next,
      AbsInv;
    InvAbs(t, s);
    StepRefines(t, s, op);
    StepParticipants(t, Abs(s), op, Abs(Step(t, s, op).0), Step(t, s, op).1, k);
    if k in Live(Step(t, s, op).0.tasks) {
      LiveMask(t, Step(t, s, op).0, k);
      PpeMaskNonEmpty(t, k.cmg, Live(Step(t, s, op).0.tasks)[k].a.cpumask);
    }
    if op.FreeOp? { FreeWriteIs(t, s, op.who, op.key); }
    if op.AllocateOp? { AllocateWriteIs(t, s, op.who, op.cpumask); }
  }

  /** A new barrier is programmed with its participants. */
  lemma NewBarrier(t: Topology, s: State, op: Op, k: Bb)
    requires Inv(t, s) && OpOk(t, op) && k !in Live(s.tasks)
    ensures Inv(t, Step(t, s, op).0)
    ensures k in Live(Step(t, s, op).0.tasks) ==>
              var w := WriteOf(t, s, op);
              Programs(w, k) && w.mask == t.PpeMask(k.cmg, Live(Step(t, s, op).0.tasks)[k].a.cpumask)
  {
    hide KeysDistinct, IsLive, IsOwners, GroupsDistinct, BladesOk, EntriesOk, WindowsOk, MasksOk, Shape, Allocate,
      Next, AbsInv;
    InvAbs(t, s);
    StepRefines(t, s, op);
    if k in Live(Step(t, s, op).0.tasks) {
      StepNewBarrier(t, Abs(s), op, Abs(Step(t, s, op).0), Step(t, s, op).1, k);
      LiveMask(t, Step(t, s, op).0, k);
      PpeMaskNonEmpty(t, k.cmg, Live(Step(t, s, op).0.tasks)[k].a.cpumask);
      AllocateWriteIs(t, s, op.who, op.cpumask);
    }
  }

  // ---------- the system of driver and barriers ----------

  /** The driver's state, and the barriers with the blade registers they really have. */
  datatype World = World(s: State, x: Sys)

  datatype Action = Call(op: Op) | Sync(ev: SysEvent)

  /** The barriers after a call.  A new barrier's threads are at work; the threads that
      remain on a shrunk barrier go on from where they are. */
  function Rewrite(t: Topology, x: Sys, w: Write, isNew: bool): Sys {
    if w.NoWrite? || w.mask == {} then x
    else
      var b := if isNew || !HasBlade(x, w.key)
               then BState(BladeReg(w.mask, {}, false), map p | p in w.mask :: Local(Idle, 0), 0)
               else Shrunk(Project(x, w.key), w.mask);
      Sys(Apply(t, x.breg, w), x.threads[w.key := b.local], x.flips[w.key := b.flips])
  }

  predicate HasBlade(x: Sys, k: Bb) {
    k in x.breg && k in x.threads && k in x.flips
  }

  /** The write is for a barrier that was not there before. */
  ghost predicate IsNew(s: State, w: Write)
    requires ListsOk(s.tasks)
  {
    w.Program? && w.key !in Live(s.tasks)
  }

  ghost predicate CanAct(t: Topology, w: World, act: Action)
    requires Inv(t, w.s)
  {
    match act
    case Call(op) => OpOk(t, op)
    case Sync(ev) => CanStep(Abs(w.s), w.x, ev)
  }

  ghost function Act(t: Topology, w: World, act: Action): World
    requires Inv(t, w.s) && CanAct(t, w, act)
  {
    match act
    case Call(op) =>
      var write := WriteOf(t, w.s, op);
      World(Step(t, w.s, op).0, Rewrite(t, w.x, write, IsNew(w.s, write)))
    case Sync(ev) => World(w.s, SysStep(Abs(w.s), w.x, ev))
  }

  /** A live barrier in working order: its register names exactly its participants, and
      register and threads satisfy the barrier's own invariant. */
  ghost predicate Sound(t: Topology, x: Sys, k: Bb, cpumask: set<int>) {
    HasBlade(x, k) && Healthy(Project(x, k)) && x.breg[k].mask == t.PpeMask(k.cmg, cpumask)
  }

  ghost predicate WorldInv(t: Topology, w: World) {
    && Inv(t, w.s) && HwAgrees(t, w.s)
    && forall k | k in Live(w.s.tasks) :: Sound(t, w.x, k, Live(w.s.tasks)[k].a.cpumask)
  }

  /** The call shrinks a live barrier whose remaining PEs are not at places from which it
      can go on. */
  ghost predicate Disrupts(t: Topology, w: World, op: Op)
    requires Inv(t, w.s) && OpOk(t, op)
  {
    var write := WriteOf(t, w.s, op);
    && write.Program? && write.mask != {} && write.key in Live(w.s.tasks) && HasBlade(w.x, write.key)
    && !Resumable(Project(w.x, write.key), write.mask)
  }

  /** The action is neither a misdirected free nor a disrupting one. */
  ghost predicate Harmless(t: Topology, w: World, act: Action)
    requires Inv(t, w.s) && CanAct(t, w, act)
  {
    act.Call? ==> !Misdirected(t, Abs(w.s), act.op) && !Disrupts(t, w, act.op)
  }

  /** The hardware's blade registers after a call are those the driver's writes leave. */
  lemma CallWritesHardware(t: Topology, w: World, op: Op)
    requires Inv(t, w.s) && OpOk(t, op)
    ensures Shape(t, w.s.(breg := w.x.breg))
    ensures Act(t, w, Call(op)).x.breg == Step(t, w.s.(breg := w.x.breg), op).0.breg
  {
    hide Step, WriteOf, Inv, Shape;
    assert Shape(t, w.s) by { InvShape(t, w.s); }
    StepWrites(t, w.s, w.x.breg, op);
  }

  lemma InvShape(t: Topology, s: State)
    requires Inv(t, s)
    ensures Shape(t, s)
  {
  }

  lemma NewSound(t: Topology, x: Sys, w: Write, k: Bb, m: set<int>)
    requires 0 <= k.blade < t.nBlades && Programs(w, k) && w.mask == t.PpeMask(k.cmg, m)
    ensures Sound(t, Rewrite(t, x, w, true), k, m)
  {
    FreshInv(Project(Rewrite(t, x, w, true), k));
  }

  lemma OtherSound(t: Topology, x: Sys, w: Write, isNew: bool, k: Bb)
    requires HasBlade(x, k) && !Programs(w, k)
    ensures HasBlade(Rewrite(t, x, w, isNew), k) && Project(Rewrite(t, x, w, isNew), k) == Project(x, k)
  {
  }

  /** A shrunk barrier is in working order exactly if its remaining PEs could go on. */
  lemma ShrunkSound(t: Topology, x: Sys, w: Write, k: Bb, m: set<int>, m': set<int>)
    requires 0 <= k.cmg < |t.cpus| && 0 <= k.blade < t.nBlades && Sound(t, x, k, m) && Programs(w, k)
    requires w.mask == t.PpeMask(k.cmg, m') && m' < m && m <= t.Cpus(k.cmg)
    ensures BInv(Project(x, k)) && w.mask <= x.breg[k].mask
    ensures HasBlade(Rewrite(t, x, w, false), k) && Project(Rewrite(t, x, w, false), k) == Shrunk(Project(x, k), w.mask)
    ensures Sound(t, Rewrite(t, x, w, false), k, m') <==> Resumable(Project(x, k), w.mask)
  {
    hide Healthy, Resumable, BInv;
    ProperMask(t, k.cmg, m, m');
    assert BInv(Project(x, k)) by { NotAlone(Project(x, k), w.mask); }
    ShrinkExact(Project(x, k), w.mask);
  }

  lemma ProperMask(t: Topology, c: int, m: set<int>, m': set<int>)
    requires 0 <= c < |t.cpus| && m' < m && m <= t.Cpus(c)
    ensures t.PpeMask(c, m') < t.PpeMask(c, m)
  {
    if t.PpeMask(c, m') == t.PpeMask(c, m) { MaskCheck.PpeMaskInjective(t, c, m', m); }
  }

  /** A barrier that still has a participant after a shrink had at least two. */
  lemma NotAlone(b: BState, m: set<int>)
    requires Healthy(b) && m != {} && m < b.reg.mask
    ensures BInv(b)
  {
    EmptyOrNot(m);
    var q :| q in m;
    assert forall p | p in b.local && b.reg.mask == {p} :: q == p && m == {p};
  }

  /** What a call does to a barrier that is live afterwards.  A barrier with the same
      participants has not noticed the call; a shrunk one is in working order if and only
      if the call did not disrupt it; a new one is. */
  lemma CallSound(t: Topology, w: World, op: Op, k: Bb)
    requires WorldInv(t, w) && OpOk(t, op)
    ensures Inv(t, Act(t, w, Call(op)).s)
    ensures k in Live(Act(t, w, Call(op)).s.tasks) ==>
              var w', live, write := Act(t, w, Call(op)), Live(w.s.tasks), WriteOf(t, w.s, op);
              var m' := Live(w'.s.tasks)[k].a.cpumask;
              && (k !in live ==> Sound(t, w'.x, k, m'))
              && (k in live && live[k].a.cpumask == m' ==>
                    HasBlade(w'.x, k) && Project(w'.x, k) == Project(w.x, k) && Sound(t, w'.x, k, m')
                        && !Programs(write, k))
              && (k in live && live[k].a.cpumask != m' ==>
                    && HasBlade(w'.x, k) && Programs(write, k)
                    && Project(w'.x, k) == Shrunk(Project(w.x, k), write.mask)
                    && (Sound(t, w'.x, k, m') <==> !Disrupts(t, w, op)))
  {
    hide KeysDistinct, IsLive, IsOwners, GroupsDistinct, BladesOk, EntriesOk, WindowsOk, MasksOk, Shape, Step,
      WriteOf, HwAgrees, Rewrite, Healthy, Resumable;
    if k in Live(w.s.tasks) { OldBarrier(t, w.s, op, k); } else { NewBarrier(t, w.s, op, k); }
    if k in Live(Step(t, w.s, op).0.tasks) {
      var write, m' := WriteOf(t, w.s, op), Live(Step(t, w.s, op).0.tasks)[k].a.cpumask;
      LiveMask(t, Step(t, w.s, op).0, k);
      if k !in Live(w.s.tasks) {
        NewSound(t, w.x, write, k, m');
      } else {
        LiveMask(t, w.s, k);
        if m' == Live(w.s.tasks)[k].a.cpumask {
          OtherSound(t, w.x, write, IsNew(w.s, write), k);
        } else {
          ShrunkSound(t, w.x, write, k, Live(w.s.tasks)[k].a.cpumask, m');
        }
      }
    }
  }

  /** A shrunk barrier has only safe and live runs if and only if the call did not disrupt it. */
  lemma ShrinkOutcome(t: Topology, w: World, op: Op, k: Bb)
    requires WorldInv(t, w) && OpOk(t, op) && k in Live(w.s.tasks)
    ensures Inv(t, Act(t, w, Call(op)).s)
    ensures k in Live(Act(t, w, Call(op)).s.tasks)
              && Live(Act(t, w, Call(op)).s.tasks)[k].a.cpumask != Live(w.s.tasks)[k].a.cpumask
            ==> HasBlade(Act(t, w, Call(op)).x, k)
                && (Correct(Project(Act(t, w, Call(op)).x, k)) <==> !Disrupts(t, w, op))
  {
    hide KeysDistinct, IsLive, IsOwners, GroupsDistinct, BladesOk, EntriesOk, WindowsOk, MasksOk, Shape, Step,
      WriteOf, HwAgrees, Rewrite, Healthy, Resumable, Correct, Shrunk;
    CallSound(t, w, op, k);
    OldBarrier(t, w.s, op, k);
    var s', write := Step(t, w.s, op).0, WriteOf(t, w.s, op);
    if k in Live(s'.tasks) && Live(s'.tasks)[k].a.cpumask != Live(w.s.tasks)[k].a.cpumask {
      LiveMask(t, w.s, k);
      LiveMask(t, s', k);
      ShrunkSound(t, w.x, write, k, Live(w.s.tasks)[k].a.cpumask, Live(s'.tasks)[k].a.cpumask);
      ShrinkExact(Project(w.x, k), write.mask);
    }
  }

  /** A step of a barrier leaves every live barrier in working order; the barrier itself
      takes its own step, and no other barrier notices. */
  lemma SyncSound(t: Topology, w: World, ev: SysEvent, k: Bb)
    requires WorldInv(t, w) && CanStep(Abs(w.s), w.x, ev) && k in Live(w.s.tasks)
    ensures var x' := SysStep(Abs(w.s), w.x, ev);
            && Sound(t, x', k, Live(w.s.tasks)[k].a.cpumask)
            && (ev.k == k ==> CanDo(Project(w.x, k), Local1(ev)) && Project(x', k) == Do(Project(w.x, k), Local1(ev)))
            && (ev.k != k ==> Project(x', k) == Project(w.x, k))
  {
    hide KeysDistinct, IsLive, IsOwners, GroupsDistinct, BladesOk, EntriesOk, WindowsOk, MasksOk, Agree, AbsInv,
      Healthy, SysStep, CanStep, Do, CanDo;
    InvAbs(t, w.s);
    assert k in Abs(w.s).barriers;
    assert HasAll(Abs(w.s), w.x);
    StepIsolated(t, Abs(w.s), w.x, ev, k);
    if ev.k == k { HealthyStep(Project(w.x, k), Local1(ev)); }
  }

  /** A barrier whose blade a call programs is live afterwards. */
  lemma ProgrammedLives(t: Topology, s: State, op: Op, k: Bb)
    requires Inv(t, s) && OpOk(t, op) && Programs(WriteOf(t, s, op), k)
    ensures Inv(t, Step(t, s, op).0) && k in Live(Step(t, s, op).0.tasks)
  {
    hide KeysDistinct, IsLive, IsOwners, GroupsDistinct, BladesOk, EntriesOk, WindowsOk, MasksOk, Shape, Next,
      AbsInv, Allocate, Free;
    InvAbs(t, s);
    StepRefines(t, s, op);
    if op.FreeOp? {
      FreeWriteIs(t, s, op.who, op.key);
      NobodyNothing(t, k.cmg);
      StepParticipants(t, Abs(s), op, Abs(Step(t, s, op).0), Step(t, s, op).1, k);
    }
    if op.AllocateOp? { AllocateWriteIs(t, s, op.who, op.cpumask); }
  }

  lemma NobodyNothing(t: Topology, c: int)
    ensures t.PpeMask(c, {}) == {}
  {
  }

  /** From a state in order an action leads to a state in order if and only if it is
      harmless. */
  lemma ActKeeps(t: Topology, w: World, act: Action)
    requires WorldInv(t, w) && CanAct(t, w, act)
    ensures Inv(t, Act(t, w, act).s)
    ensures WorldInv(t, Act(t, w, act)) <==> Harmless(t, w, act)
  {
    hide KeysDistinct, IsLive, IsOwners, GroupsDistinct, BladesOk, EntriesOk, WindowsOk, MasksOk, HwAgrees, Sound,
      Misdirected, CanStep, SysStep, Step, WriteOf, Rewrite, Resumable, Shrunk;
    match act
    case Call(op) =>
      StepHwAgrees(t, w.s, op);
      var s', write := Step(t, w.s, op).0, WriteOf(t, w.s, op);
      forall k | k in Live(s'.tasks)
        ensures !Disrupts(t, w, op) ==> Sound(t, Act(t, w, act).x, k, Live(s'.tasks)[k].a.cpumask)
      {
        CallSound(t, w, op, k);
      }
      if Disrupts(t, w, op) {
        ProgrammedLives(t, w.s, op, write.key);
        CallSound(t, w, op, write.key);
        OldBarrier(t, w.s, op, write.key);
      }
    case Sync(ev) =>
      forall k | k in Live(w.s.tasks) ensures Sound(t, Act(t, w, act).x, k, Live(w.s.tasks)[k].a.cpumask) {
        SyncSound(t, w, ev, k);
      }
  }

  // ---------- runs of the whole system ----------

  lemma ActInv(t: Topology, w: World, act: Action)
    requires Inv(t, w.s) && CanAct(t, w, act)
    ensures Inv(t, Act(t, w, act).s)
  {
    hide Step, SysStep, WriteOf, Rewrite, CanStep, SoftInv, MasksOk, Next;
    if act.Call? { CallInv(t, w.s, act.op); }
  }

  lemma CallInv(t: Topology, s: State, op: Op)
    requires Inv(t, s) && OpOk(t, op)
    ensures Inv(t, Step(t, s, op).0)
  {
    StepRefines(t, s, op);
  }

  ghost predicate CanActs(t: Topology, w: World, acts: seq<Action>)
    requires Inv(t, w.s)
    decreases |acts|
  {
    acts == [] || (CanAct(t, w, acts[0]) && (ActInv(t, w, acts[0]); CanActs(t, Act(t, w, acts[0]), acts[1..])))
  }

  ghost function Acts(t: Topology, w: World, acts: seq<Action>): (w': World)
    requires Inv(t, w.s) && CanActs(t, w, acts)
    ensures Inv(t, w'.s)
    decreases |acts|
  {
    if acts == [] then w
    else
      ActInv(t, w, acts[0]);
      Acts(t, Act(t, w, acts[0]), acts[1..])
  }

  /** No call of the run is a misdirected free or a disrupting one. */
  ghost predicate HarmlessRun(t: Topology, w: World, acts: seq<Action>)
    requires Inv(t, w.s) && CanActs(t, w, acts)
    decreases |acts|
  {
    acts == [] || (Harmless(t, w, acts[0]) && (ActInv(t, w, acts[0]); HarmlessRun(t, Act(t, w, acts[0]), acts[1..])))
  }

  ghost predicate InOrderThroughout(t: Topology, w: World, acts: seq<Action>)
    requires Inv(t, w.s) && CanActs(t, w, acts)
    decreases |acts|
  {
    WorldInv(t, w)
    && (acts != [] ==> (ActInv(t, w, acts[0]); InOrderThroughout(t, Act(t, w, acts[0]), acts[1..])))
  }

  /** A run from a state in order stays in order throughout if and only if it is harmless. */
  lemma {:induction false} RunInOrder(t: Topology, w: World, acts: seq<Action>)
    requires WorldInv(t, w) && CanActs(t, w, acts)
    ensures InOrderThroughout(t, w, acts) <==> HarmlessRun(t, w, acts)
    ensures HarmlessRun(t, w, acts) ==> WorldInv(t, Acts(t, w, acts))
    decreases |acts|
  {
    hide SoftInv, MasksOk, HwAgrees, Sound, Harmless, CanAct, Act;
    if acts != [] {
      ActKeeps(t, w, acts[0]);
      if Harmless(t, w, acts[0]) { RunInOrder(t, Act(t, w, acts[0]), acts[1..]); }
    }
  }

  /** Barrier `k` is live with the same participants in every state of the run. */
  ghost predicate Undisturbed(t: Topology, w: World, acts: seq<Action>, k: Bb, cpumask: set<int>)
    requires Inv(t, w.s) && CanActs(t, w, acts)
    decreases |acts|
  {
    k in Live(w.s.tasks) && Live(w.s.tasks)[k].a.cpumask == cpumask
    && (acts != [] ==> (ActInv(t, w, acts[0]); Undisturbed(t, Act(t, w, acts[0]), acts[1..], k, cpumask)))
  }

  /** The steps of barrier `k` in a run of the whole system. */
  function OwnSync(acts: seq<Action>, k: Bb): seq<Event> {
    if acts == [] then []
    else (if acts[0].Sync? && acts[0].ev.k == k then [Local1(acts[0].ev)] else []) + OwnSync(acts[1..], k)
  }

  /** While its participants stay, a barrier runs as if it were alone, whatever harmless
      calls and whatever other barriers are interleaved with its steps. */
  lemma {:induction false} RunUndisturbed(t: Topology, w: World, acts: seq<Action>, k: Bb, cpumask: set<int>)
    requires WorldInv(t, w) && CanActs(t, w, acts) && HarmlessRun(t, w, acts) && Undisturbed(t, w, acts, k, cpumask)
    ensures k in Live(Acts(t, w, acts).s.tasks)
    ensures Sound(t, w.x, k, cpumask) && Sound(t, Acts(t, w, acts).x, k, cpumask)
    ensures CanRun(Project(w.x, k), OwnSync(acts, k))
    ensures Project(Acts(t, w, acts).x, k) == Run(Project(w.x, k), OwnSync(acts, k))
    decreases |acts|
  {
    hide KeysDistinct, IsLive, IsOwners, GroupsDistinct, BladesOk, EntriesOk, WindowsOk, MasksOk, HwAgrees, Harmless,
      Shrunk, CanStep, SysStep, Step, WriteOf, Rewrite, Healthy, Disrupts, Do, CanDo;
    if acts != [] {
      ActKeeps(t, w, acts[0]);
      RunUndisturbed(t, Act(t, w, acts[0]), acts[1..], k, cpumask);
      var own, rest := OwnSync(acts, k), OwnSync(acts[1..], k);
      match acts[0]
      case Call(op) =>
        CallSound(t, w, op, k);
        assert own == rest;
      case Sync(ev) =>
        SyncSound(t, w, ev, k);
        if ev.k == k {
          assert own == [Local1(ev)] + rest;
          assert own[0] == Local1(ev) && own[1..] == rest;
        } else {
          assert own == rest;
        }
    }
  }

  // ---------- main results ----------

  /** Module load, and more generally a driver state with agreeing windows in which no
      barrier has started a round, is a state of the system in order. */
  lemma StartInOrder(t: Topology, s: State)
    requires Inv(t, s) && HwAgrees(t, s)
    ensures WorldInv(t, World(s, Start(t, s)))
    ensures forall k | k in Live(s.tasks) :: k in s.breg && Fresh(Project(Start(t, s), k))
  {
    hide KeysDistinct, IsLive, IsOwners, GroupsDistinct, BladesOk, EntriesOk, WindowsOk, HwAgrees;
    forall k | k in Live(s.tasks)
      ensures Fresh(Project(Start(t, s), k)) && Sound(t, Start(t, s), k, Live(s.tasks)[k].a.cpumask)
    {
      Programmed(t, s, k);
      FreshInv(Project(Start(t, s), k));
    }
  }

  lemma InitInOrder(t: Topology, s: State)
    requires t.Valid() && Init(t, s)
    ensures Inv(t, s) && WorldInv(t, World(s, Start(t, s)))
  {
    InitExact(t, s);
    StartInOrder(t, s);
  }

  /** Only a free can be harmful. */
  lemma OnlyFreesHarm(t: Topology, w: World, op: Op)
    requires Inv(t, w.s) && OpOk(t, op) && !op.FreeOp?
    ensures Harmless(t, w, Call(op))
  {
    hide KeysDistinct, IsLive, IsOwners, GroupsDistinct, BladesOk, EntriesOk, WindowsOk, MasksOk, Shape, Allocate;
    if op.AllocateOp? { AllocateWriteIs(t, w.s, op.who, op.cpumask); }
  }

  /** The live barriers after the call are those before with the same participants, and
      one more exactly if the write programs one. */
  ghost predicate Grows(t: Topology, s: State, s': State, w: Write)
    requires ListsOk(s.tasks) && ListsOk(s'.tasks)
  {
    var live, live' := Live(s.tasks), Live(s'.tasks);
    && (forall k | k in live :: k in live' && live'[k].a.cpumask == live[k].a.cpumask && !Programs(w, k))
    && (forall k | k in live' && k !in live :: Programs(w, k) && w.mask == t.PpeMask(k.cmg, live'[k].a.cpumask))
    && (forall k | Programs(w, k) :: k in live')
  }

  lemma CallGrows(t: Topology, s: State, op: Op)
    requires Inv(t, s) && OpOk(t, op) && (op.AllocateOp? || op.AssignOp?)
    ensures Inv(t, Step(t, s, op).0) && Grows(t, s, Step(t, s, op).0, WriteOf(t, s, op))
  {
    hide KeysDistinct, IsLive, IsOwners, GroupsDistinct, BladesOk, EntriesOk, WindowsOk, MasksOk, Shape, Next,
      AbsInv, Allocate, Assign, Step, WriteOf, LeavesBy;
    var s', w := Step(t, s, op).0, WriteOf(t, s, op);
    StepRefines(t, s, op);
    InvAbs(t, s);
    forall k | k in Live(s.tasks)
      ensures k in Live(s'.tasks) && Live(s'.tasks)[k].a.cpumask == Live(s.tasks)[k].a.cpumask && !Programs(w, k)
    {
      OldBarrier(t, s, op, k);
      StepParticipants(t, Abs(s), op, Abs(s'), Step(t, s, op).1, k);
      assert !LeavesBy(t, Abs(s), op, k) by { OnlyFreesLeave(t, Abs(s), op, k); }
    }
    forall k | k in Live(s'.tasks) && k !in Live(s.tasks)
      ensures Programs(w, k) && w.mask == t.PpeMask(k.cmg, Live(s'.tasks)[k].a.cpumask)
    {
      NewBarrier(t, s, op, k);
    }
    forall k | Programs(w, k) ensures k in Live(s'.tasks) { ProgrammedLives(t, s, op, k); }
  }

  lemma OnlyFreesLeave(t: Topology, a: AbsState, op: Op, k: Bb)
    ensures LeavesBy(t, a, op, k) ==> op.FreeOp?
  {
  }

  lemma StartGrows(t: Topology, s: State, s': State, w: Write)
    requires ListsOk(s.tasks) && ListsOk(s'.tasks) && Grows(t, s, s', w)
    ensures Rewrite(t, Start(t, s), w, IsNew(s, w)).threads == Start(t, s').threads
    ensures Rewrite(t, Start(t, s), w, IsNew(s, w)).flips == Start(t, s').flips
  {
    hide KeysDistinct, IsLive, IsOwners, GroupsDistinct, Shrunk, Apply, FreshThreads, NoFlips;
    FreshGrows(t, Live(s.tasks), Live(s'.tasks), w);
  }

  lemma FreshGrows(t: Topology, live: map<Bb, Entry>, live': map<Bb, Entry>, w: Write)
    requires forall k | k in live :: k in live' && live'[k].a.cpumask == live[k].a.cpumask && !Programs(w, k)
    requires forall k | k in live' && k !in live :: Programs(w, k) && w.mask == t.PpeMask(k.cmg, live'[k].a.cpumask)
    requires forall k | Programs(w, k) :: k in live'
    ensures FreshThreads(t, live') ==
            if w.Program? && w.mask != {} then FreshThreads(t, live)[w.key := map p | p in w.mask :: Local(Idle, 0)]
            else FreshThreads(t, live)
    ensures NoFlips(live') == if w.Program? && w.mask != {} then NoFlips(live)[w.key := 0] else NoFlips(live)
  {
    if w.Program? && w.mask != {} {
      assert Programs(w, w.key);
      assert live'.Keys == live.Keys + {w.key};
    } else {
      assert live'.Keys == live.Keys;
    }
  }

  /** An allocate or an assign, before any barrier has started, leads to a driver state
      before any barrier has started. */
  lemma CallFromStart(t: Topology, s: State, op: Op)
    requires Inv(t, s) && OpOk(t, op) && (op.AllocateOp? || op.AssignOp?)
    ensures Inv(t, Step(t, s, op).0)
    ensures Act(t, World(s, Start(t, s)), Call(op)) == World(Step(t, s, op).0, Start(t, Step(t, s, op).0))
  {
    hide KeysDistinct, IsLive, IsOwners, GroupsDistinct, BladesOk, EntriesOk, WindowsOk, MasksOk, Shape, Grows,
      Rewrite, Step, WriteOf;
    CallGrows(t, s, op);
    StartGrows(t, s, Step(t, s, op).0, WriteOf(t, s, op));
    CallWritesHardware(t, World(s, Start(t, s)), op);
    assert s.(breg := s.breg) == s;
  }

  /** The state `w` is what harmless actions lead to from module load in `s0`. */
  ghost predicate LeadsTo(t: Topology, s0: State, acts: seq<Action>, w: World)
    requires t.Valid()
  {
    Init(t, s0) &&
    (InitInOrder(t, s0);
     var w0 := World(s0, Start(t, s0));
     CanActs(t, w0, acts) && HarmlessRun(t, w0, acts) && Acts(t, w0, acts) == w)
  }

  /** Calls and barrier steps in some order, none of them harmful, lead from module load
      to `w`. */
  ghost predicate ReachableWorld(t: Topology, w: World) {
    t.Valid() && exists s0, acts :: LeadsTo(t, s0, acts, w)
  }

  lemma ReachableInOrder(t: Topology, w: World)
    requires ReachableWorld(t, w)
    ensures WorldInv(t, w)
  {
    hide KeysDistinct, IsLive, IsOwners, GroupsDistinct, BladesOk, EntriesOk, WindowsOk, MasksOk, HwAgrees, Sound,
      Harmless, CanStep, SysStep, Step, WriteOf, Rewrite, Init;
    var s0, acts :| LeadsTo(t, s0, acts, w);
    InitInOrder(t, s0);
    RunInOrder(t, World(s0, Start(t, s0)), acts);
  }

  lemma {:induction false} ActsOneMore(t: Topology, w: World, acts: seq<Action>, act: Action)
    requires Inv(t, w.s) && CanActs(t, w, acts) && CanAct(t, Acts(t, w, acts), act)
    ensures CanActs(t, w, acts + [act]) && Acts(t, w, acts + [act]) == Act(t, Acts(t, w, acts), act)
    ensures HarmlessRun(t, w, acts) && Harmless(t, Acts(t, w, acts), act) ==> HarmlessRun(t, w, acts + [act])
    decreases |acts|
  {
    hide Inv, Harmless, CanAct, Act;
    if acts == [] {
      ActInv(t, w, act);
      assert (acts + [act])[1..] == [];
    } else {
      ActInv(t, w, acts[0]);
      ActsOneMore(t, Act(t, w, acts[0]), acts[1..], act);
      assert (acts + [act])[1..] == acts[1..] + [act];
    }
  }

  lemma ReachableAct(t: Topology, w: World, act: Action)
    requires ReachableWorld(t, w) && Inv(t, w.s) && CanAct(t, w, act) && Harmless(t, w, act)
    ensures ReachableWorld(t, Act(t, w, act))
  {
    hide KeysDistinct, IsLive, IsOwners, GroupsDistinct, BladesOk, EntriesOk, WindowsOk, MasksOk, HwAgrees, Harmless,
      CanAct, Act, Init;
    var s0, acts :| LeadsTo(t, s0, acts, w);
    InitInOrder(t, s0);
    assert Inv(t, s0);
    ActsOneMore(t, World(s0, Start(t, s0)), acts, act);
    assert LeadsTo(t, s0, acts + [act], Act(t, w, act));
  }

  /** In every state that module load reaches by harmless calls and barrier steps in any
      order: two participants of a live barrier are at most one round apart, and when one
      leaves a round, every participant has written its bit for that round.  A shrink in
      the middle of a round is harmless if the remaining participants can go on. */
  lemma AlwaysSafe(t: Topology, w: World, k: Bb, p: int, q: int)
    requires ReachableWorld(t, w)
    ensures Inv(t, w.s)
    ensures k in Live(w.s.tasks) ==>
              var mask := t.PpeMask(k.cmg, Live(w.s.tasks)[k].a.cpumask);
              && HasBlade(w.x, k)
              && var b := Project(w.x, k);
              && b.local.Keys == mask == b.reg.mask && Correct(b)
              && (p in mask && q in mask ==> b.local[p].rounds <= b.local[q].rounds + 1)
              && (q in mask && Leaves(b, Poll(p), p) ==> Written(b.local[q]) > b.local[p].rounds)
  {
    hide KeysDistinct, IsLive, IsOwners, GroupsDistinct, BladesOk, EntriesOk, WindowsOk, MasksOk, HwAgrees,
      ReachableWorld, Correct;
    ReachableInOrder(t, w);
    if k in Live(w.s.tasks) {
      assert Sound(t, w.x, k, Live(w.s.tasks)[k].a.cpumask);
      var b := Project(w.x, k);
      HealthyCorrect(b);
      HealthySafe(b);
      if p in b.local && q in b.local { HealthyClose(b, p, q); }
    }
  }

  lemma HealthyClose(b: BState, p: int, q: int)
    requires Healthy(b) && p in b.local && q in b.local
    ensures b.local[p].rounds <= b.local[q].rounds + 1
  {
    if BInv(b) {
      assert LocalOk(b.local[p], p in b.reg.bst, b.reg.lbsy, b.flips);
      assert LocalOk(b.local[q], q in b.reg.bst, b.reg.lbsy, b.flips);
    }
  }

  /** In a state in order, so after harmless calls, a barrier of which every participant has
      a window is not blocked: unless all participants are done with their `n` rounds, some
      step of this barrier changes it. */
  lemma NeverBlocked(t: Topology, w: World, k: Bb, n: nat) returns (ev: SysEvent)
    requires WorldInv(t, w) && k in Live(w.s.tasks)
    requires Live(w.s.tasks)[k].a.assignMask == Live(w.s.tasks)[k].a.cpumask
    requires Sound(t, w.x, k, Live(w.s.tasks)[k].a.cpumask)
    requires Within(Project(w.x, k), n) && !Done(Project(w.x, k), n)
    ensures ev.k == k && CanStep(Abs(w.s), w.x, ev) && Changes(Project(w.x, k), Local1(ev), n)
  {
    hide KeysDistinct, IsLive, IsOwners, GroupsDistinct, BladesOk, EntriesOk, WindowsOk, MasksOk, HwAgrees, Healthy,
      Within, Done;
    var e := HealthyMoves(Project(w.x, k), n);
    if e == Update {
      ev := OnBlade(k);
    } else {
      ev := OnPe(k, e);
      assert e.p in w.x.breg[k].mask by { MaskKeys(Project(w.x, k)); }
      AllConnected(t, w.s, k, e.p);
      InvAbs(t, w.s);
      assert Agree(t, Abs(w.s)) by { AgreesAbs(t, w.s); }
      ReachesOwn(t, Abs(w.s), k, e.p);
    }
  }

  lemma AgreesAbs(t: Topology, s: State)
    requires Inv(t, s) && HwAgrees(t, s)
    ensures AbsInv(t, Abs(s)) && Agree(t, Abs(s))
  {
    InvAbs(t, s);
  }

  lemma MaskKeys(b: BState)
    requires Healthy(b)
    ensures b.local.Keys == b.reg.mask
  {
  }

  lemma AllConnected(t: Topology, s: State, k: Bb, p: int)
    requires Inv(t, s) && k in Live(s.tasks) && Live(s.tasks)[k].a.assignMask == Live(s.tasks)[k].a.cpumask
    requires p in t.PpeMask(k.cmg, Live(s.tasks)[k].a.cpumask)
    ensures Connected(Abs(s), k, p)
  {
    hide KeysDistinct, IsLive, IsOwners, GroupsDistinct, BladesOk, WindowsOk, MasksOk;
    var a := Live(s.tasks)[k].a;
    assert AllocOk(t, a) && KeyOf(a) == k;
    assert t.HasPe(Pe(k.cmg, p)) && t.Cpu(Pe(k.cmg, p)) in a.assignMask;
    AssignedIffWindow(t, a, Pe(k.cmg, p));
    assert Pe(k.cmg, p) in t.Pes();
  }

  /** A barrier that starts afresh and keeps its participants through a run of the whole
      system is safe: when a PE leaves round `r`, each participant has written its bit at
      least `r + 1` times; and as long as no step of it idles, it ends on time. */
  lemma UndisturbedBarrier(t: Topology, w: World, acts: seq<Action>, k: Bb, cpumask: set<int>, p: int, q: int, n: nat)
    requires WorldInv(t, w) && CanActs(t, w, acts) && HarmlessRun(t, w, acts) && Undisturbed(t, w, acts, k, cpumask)
    requires Sound(t, w.x, k, cpumask) && Fresh(Project(w.x, k)) && q in w.x.breg[k].mask
    ensures var w', own := Acts(t, w, acts), OwnSync(acts, k);
            && Sound(t, w'.x, k, cpumask)
            && (Leaves(Project(w'.x, k), Poll(p), p) ==> Writes(own, q) >= Project(w'.x, k).local[p].rounds + 1)
            && CanRun(Project(w.x, k), own)
            && (Busy(Project(w.x, k), own, n) ==>
                  && |own| <= |w.x.breg[k].mask| * (3 * n) + n
                  && (|own| == |w.x.breg[k].mask| * (3 * n) + n <==> Done(Project(w'.x, k), n)))
  {
    hide KeysDistinct, IsLive, IsOwners, GroupsDistinct, BladesOk, EntriesOk, WindowsOk, MasksOk, HwAgrees, Harmless,
      CanStep, SysStep, Step, WriteOf, Rewrite, Do, CanDo;
    RunUndisturbed(t, w, acts, k, cpumask);
    var own := OwnSync(acts, k);
    if Leaves(Project(Acts(t, w, acts).x, k), Poll(p), p) { Safety(Project(w.x, k), own, p, q); }
    if Busy(Project(w.x, k), own, n) { Termination(Project(w.x, k), own, n); }
  }
}
