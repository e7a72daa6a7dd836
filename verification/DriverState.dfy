/** The driver's state and its state-changing entry points as functions on values.
    Every entry point runs under the device lock, so each is one atomic step; the
    calling thread's pid, thread group, PE and affinity are parameters of the step. */
module DriverState {
  import opened Topology

  const UNASSIGNED_WIN := -1

  /** A PE's window register: valid bit and blade field. */
  datatype WinReg = WinReg(valid: bool, blade: int)

  /** A CMG's blade register: participating PEs, their BST bits and LBSY. */
  datatype BladeReg = BladeReg(mask: set<int>, bst: set<int>, lbsy: bool)

  datatype Alloc = Alloc(cmg: int, blade: int, window: seq<int>, assignCount: int,
                         assignMask: set<int>, cpumask: set<int>)

  datatype TaskMap = TaskMap(pid: int, tgid: int, allocs: seq<Alloc>, numAllocs: int)

  datatype State = State(tasks: seq<TaskMap>, numTasks: int, active: int,
                         bbActive: seq<set<int>>,
                         bwMap: map<Pe, set<int>>,
                         wreg: map<Pe, seq<WinReg>>,
                         breg: map<Bb, BladeReg>)

  /** The thread that issues a call: `pinned` says its affinity mask holds at most one CPU. */
  datatype Caller = Caller(pid: int, tgid: int, pe: Pe, pinned: bool)

  datatype Status = Success | EInval | ENoDev

  /** What a call returns: a status and, for allocate and assign, a blade or window number. */
  datatype Reply = Reply(status: Status, value: int)

  const OK := Reply(Success, -1)
  const EINVAL := Reply(EInval, -1)
  const ENODEV := Reply(ENoDev, -1)

  function KeyOf(a: Alloc): Bb { Bb(a.cmg, a.blade) }

  /** The typing facts that every step needs and keeps. */
  ghost predicate AllocShape(t: Topology, a: Alloc) {
    0 <= a.cmg < |t.cpus| && 0 <= a.blade < t.nBlades && |a.window| == t.maxPe
  }

  ghost predicate Shape(t: Topology, s: State) {
    && |s.bbActive| == |t.cpus|
    && s.bwMap.Keys == t.Pes()
    && s.wreg.Keys == t.Pes()
    && (forall pe | pe in s.wreg :: |s.wreg[pe]| == t.nWindows)
    && (forall i, j | 0 <= i < |s.tasks| && 0 <= j < |s.tasks[i].allocs| :: AllocShape(t, s.tasks[i].allocs[j]))
  }

  // ---------- list searches ----------

  /** The first task mapping of a thread group, or the length of the list. */
  function FindTask(tasks: seq<TaskMap>, tgid: int): (i: nat)
    ensures i <= |tasks|
    ensures i < |tasks| ==> tasks[i].tgid == tgid
    ensures forall k | 0 <= k < i :: tasks[k].tgid != tgid
  {
    if tasks == [] || tasks[0].tgid == tgid then 0 else 1 + FindTask(tasks[1..], tgid)
  }

  /** The first allocation of a blade, or the length of the list. */
  function FindAlloc(allocs: seq<Alloc>, key: Bb): (j: nat)
    ensures j <= |allocs|
    ensures j < |allocs| ==> KeyOf(allocs[j]) == key
    ensures forall k | 0 <= k < j :: KeyOf(allocs[k]) != key
  {
    if allocs == [] || KeyOf(allocs[0]) == key then 0 else 1 + FindAlloc(allocs[1..], key)
  }

  /** The least bit number from `from` on that is clear in `bits`, or `n`. */
  function FirstZero(bits: set<int>, from: nat, n: nat): (b: nat)
    requires from <= n
    ensures from <= b <= n
    ensures b < n ==> b !in bits
    ensures forall k | from <= k < b :: k in bits
    decreases n - from
  {
    if from == n || from !in bits then from else FirstZero(bits, from + 1, n)
  }

  // ---------- register writes ----------

  /** The blade register write: rejects an empty mask and clears BST and LBSY. */
  function WriteInit(t: Topology, breg: map<Bb, BladeReg>, key: Bb, mask: set<int>): map<Bb, BladeReg> {
    if key.blade < 0 || key.blade >= t.nBlades || mask == {} then breg
    else breg[key := BladeReg(mask, {}, false)]
  }

  function WriteAssign(t: Topology, wreg: map<Pe, seq<WinReg>>, pe: Pe, window: int, valid: bool, blade: int)
    : (r: map<Pe, seq<WinReg>>)
    requires pe in wreg && |wreg[pe]| == t.nWindows
  {
    if window < 0 || window >= t.nWindows || blade < 0 || blade >= t.nBlades then wreg
    else wreg[pe := wreg[pe][window := WinReg(valid, blade)]]
  }

  /** The write of a BST bit through a window register: it reaches the blade that the
      register names, at the writing PE's bit, and nothing if the register is not valid. */
  function WriteSync(t: Topology, wreg: map<Pe, seq<WinReg>>, breg: map<Bb, BladeReg>, pe: Pe, window: int, on: bool)
    : map<Bb, BladeReg>
    requires pe in wreg && |wreg[pe]| == t.nWindows
  {
    if window < 0 || window >= t.nWindows || !wreg[pe][window].valid then breg
    else
      var key := Bb(pe.cmg, wreg[pe][window].blade);
      if key in breg
      then breg[key := breg[key].(bst := if on then breg[key].bst + {pe.ppe} else breg[key].bst - {pe.ppe})]
      else breg
  }

  // ---------- list updates ----------

  function SetAlloc(tasks: seq<TaskMap>, i: nat, j: nat, a: Alloc): seq<TaskMap>
    requires i < |tasks| && j < |tasks[i].allocs|
  {
    tasks[i := tasks[i].(allocs := tasks[i].allocs[j := a])]
  }

  function AddAlloc(tasks: seq<TaskMap>, i: nat, a: Alloc): seq<TaskMap>
    requires i < |tasks|
  {
    tasks[i := tasks[i].(allocs := [a] + tasks[i].allocs, numAllocs := tasks[i].numAllocs + 1)]
  }

  function DropAlloc(tasks: seq<TaskMap>, i: nat, j: nat): seq<TaskMap>
    requires i < |tasks| && j < |tasks[i].allocs|
  {
    tasks[i := tasks[i].(allocs := tasks[i].allocs[..j] + tasks[i].allocs[j+1..],
                         numAllocs := tasks[i].numAllocs - 1)]
  }

  // ---------- allocate ----------

  /** Look up the caller's task mapping, creating an empty one at the list head if there is none. */
  function Register(s: State, who: Caller): (r: State)
    ensures FindTask(r.tasks, who.tgid) < |r.tasks|
    ensures r == s.(tasks := r.tasks, numTasks := r.numTasks)
  {
    if FindTask(s.tasks, who.tgid) < |s.tasks| then s
    else s.(tasks := [TaskMap(who.pid, who.tgid, [], 0)] + s.tasks, numTasks := s.numTasks + 1)
  }

  function FreshAlloc(t: Topology, key: Bb, cpumask: set<int>): Alloc {
    Alloc(key.cmg, key.blade, seq(t.maxPe, _ => UNASSIGNED_WIN), 0, {}, cpumask)
  }

  function NewAllocation(t: Topology, s: State, i: nat, key: Bb, cpumask: set<int>): State
    requires i < |s.tasks| && 0 <= key.cmg < |s.bbActive|
  {
    s.(tasks := AddAlloc(s.tasks, i, FreshAlloc(t, key, cpumask)),
       breg := WriteInit(t, s.breg, key, t.PpeMask(key.cmg, cpumask)),
       bbActive := s.bbActive[key.cmg := s.bbActive[key.cmg] + {key.blade}])
  }

  /** The CMG that holds every CPU of the mask, or -1. */
  function MaskCmg(t: Topology, cpumask: set<int>, from: nat): (c: int)
    requires from <= |t.cpus|
    ensures c == -1 || (from <= c < |t.cpus| && cpumask <= t.Cpus(c))
    ensures c == -1 ==> forall k | from <= k < |t.cpus| :: !(cpumask <= t.Cpus(k))
    decreases |t.cpus| - from
  {
    if from == |t.cpus| then -1
    else if cpumask <= t.Cpus(from) then from
    else MaskCmg(t, cpumask, from + 1)
  }

  /** The mask check of the allocate call: the CMG, or a negative error. */
  function CheckCpumask(t: Topology, cpumask: set<int>): int {
    if |cpumask| < 2 then -1 else MaskCmg(t, cpumask, 0)
  }

  /** Allocate on a CMG: the least inactive blade, if there is one. */
  function AllocateOn(t: Topology, s: State, who: Caller, cmg: int, cpumask: set<int>): (State, Reply)
    requires Shape(t, s) && 0 <= cmg < |t.cpus|
  {
    var s1 := Register(s, who);
    var i := FindTask(s1.tasks, who.tgid);
    var bit := FirstZero(s1.bbActive[cmg], 0, t.nBlades);
    if bit >= t.nBlades then (s1, ENODEV)
    else
      var key := Bb(cmg, bit);
      if FindAlloc(s1.tasks[i].allocs, key) < |s1.tasks[i].allocs| then (s1, Reply(Success, bit))
      else (NewAllocation(t, s1, i, key, cpumask), Reply(Success, bit))
  }

  function Allocate(t: Topology, s: State, who: Caller, cpumask: set<int>): (State, Reply)
    requires Shape(t, s)
  {
    var cmg := CheckCpumask(t, cpumask);
    if cmg < 0 then (s, EINVAL) else AllocateOn(t, s, who, cmg, cpumask)
  }

  // ---------- free ----------

  /** The allocation records a window register of this PE. */
  predicate Holds(t: Topology, a: Alloc, pe: Pe) {
    && t.HasPe(pe) && pe.cmg == a.cmg && pe.ppe < |a.window|
    && t.Cpu(pe) in a.assignMask
    && 0 <= a.window[pe.ppe] < t.nWindows
  }

  /** Give back the windows of every assigned CPU: bitmap and register. */
  function ReleaseBits(t: Topology, a: Alloc, bw: map<Pe, set<int>>): (r: map<Pe, set<int>>)
    ensures r.Keys == bw.Keys
  {
    map pe | pe in bw :: if Holds(t, a, pe) then bw[pe] - {a.window[pe.ppe]} else bw[pe]
  }

  function ReleaseRegs(t: Topology, a: Alloc, wreg: map<Pe, seq<WinReg>>): (r: map<Pe, seq<WinReg>>)
    requires forall pe | pe in wreg :: |wreg[pe]| == t.nWindows
    ensures r.Keys == wreg.Keys
    ensures forall pe | pe in r :: |r[pe]| == t.nWindows
  {
    map pe | pe in wreg :: if Holds(t, a, pe) then wreg[pe][a.window[pe.ppe] := WinReg(false, 0)] else wreg[pe]
  }

  function FreeAllocation(t: Topology, s: State, i: nat, j: nat): (r: State)
    requires Shape(t, s) && i < |s.tasks| && j < |s.tasks[i].allocs|
    ensures Shape(t, r) && r.tasks == DropAlloc(s.tasks, i, j)
  {
    var a := s.tasks[i].allocs[j];
    assert AllocShape(t, a);
    var s1 :=
      if a.blade in s.bbActive[a.cmg] then
        var s2 := if a.assignCount > 0 then
                    s.(bwMap := ReleaseBits(t, a, s.bwMap), wreg := ReleaseRegs(t, a, s.wreg))
                  else s;
        s2.(breg := WriteInit(t, s2.breg, KeyOf(a), {}),
            bbActive := s2.bbActive[a.cmg := s2.bbActive[a.cmg] - {a.blade}])
      else s;
    s1.(tasks := DropAlloc(s1.tasks, i, j))
  }

  /** Free the allocations of task `i` from the list head on. */
  function FreeAll(t: Topology, s: State, i: nat): (r: State)
    requires Shape(t, s) && i < |s.tasks|
    ensures Shape(t, r) && |r.tasks| == |s.tasks| && r.tasks[i].allocs == []
    decreases |s.tasks[i].allocs|
  {
    if s.tasks[i].allocs == [] then s else FreeAll(t, FreeAllocation(t, s, i, 0), i)
  }

  function UnregisterTask(t: Topology, s: State, i: nat): (r: State)
    requires Shape(t, s) && i < |s.tasks|
    ensures Shape(t, r)
  {
    var s1 := if s.tasks[i].numAllocs > 0 then FreeAll(t, s, i) else s;
    s1.(tasks := s1.tasks[..i] + s1.tasks[i+1..], numTasks := s1.numTasks - 1)
  }

  /** Free, then drop the task mapping if it has no allocation left. */
  function FreeAndReap(t: Topology, s: State, i: nat, j: nat): (r: State)
    requires Shape(t, s) && i < |s.tasks| && j < |s.tasks[i].allocs|
    ensures Shape(t, r)
  {
    var s1 := FreeAllocation(t, s, i, j);
    if s1.tasks[i].numAllocs == 0 then UnregisterTask(t, s1, i) else s1
  }

  /** The window release of a free by a thread that is not the allocating one.  The
      register write carries no window number, so it always goes to window 0. */
  function ReleaseOwnWindow(t: Topology, s: State, i: nat, j: nat, pe: Pe): (r: State)
    requires Shape(t, s) && i < |s.tasks| && j < |s.tasks[i].allocs| && t.HasPe(pe) && pe.ppe < t.maxPe
    ensures Shape(t, r) && |r.tasks| == |s.tasks| && |r.tasks[i].allocs| == |s.tasks[i].allocs|
  {
    var a := s.tasks[i].allocs[j];
    assert AllocShape(t, a);
    assert pe in t.Pes();
    var a1 := a.(window := a.window[pe.ppe := UNASSIGNED_WIN],
                 assignMask := a.assignMask - {t.Cpu(pe)}, assignCount := a.assignCount - 1);
    s.(tasks := SetAlloc(s.tasks, i, j, a1),
       bwMap := s.bwMap[pe := s.bwMap[pe] - {a.window[pe.ppe]}],
       wreg := WriteAssign(t, s.wreg, pe, 0, false, 0))
  }

  /** Take the caller's CPU out of the participants and reprogram the blade. */
  function Shrink(t: Topology, s: State, i: nat, j: nat, cmg: int, cpu: int): (r: State)
    requires Shape(t, s) && i < |s.tasks| && j < |s.tasks[i].allocs|
    ensures Shape(t, r) && |r.tasks| == |s.tasks| && |r.tasks[i].allocs| == |s.tasks[i].allocs|
  {
    var a := s.tasks[i].allocs[j];
    assert AllocShape(t, a);
    var a1 := a.(cpumask := a.cpumask - {cpu});
    s.(tasks := SetAlloc(s.tasks, i, j, a1),
       breg := WriteInit(t, s.breg, KeyOf(a), t.PpeMask(cmg, a1.cpumask)))
  }

  function Leave(t: Topology, s: State, i: nat, j: nat, cmg: int, pe: Pe): (r: State)
    requires Shape(t, s) && i < |s.tasks| && j < |s.tasks[i].allocs| && t.HasPe(pe) && pe.ppe < t.maxPe
    ensures Shape(t, r)
  {
    var cpu := t.Cpu(pe);
    if cpu !in s.tasks[i].allocs[j].cpumask then s
    else
      var s1 := if cpu in s.tasks[i].allocs[j].assignMask then ReleaseOwnWindow(t, s, i, j, pe) else s;
      var s2 := Shrink(t, s1, i, j, cmg, cpu);
      if s2.tasks[i].allocs[j].cpumask == {} then FreeAndReap(t, s2, i, j) else s2
  }

  function Free(t: Topology, s: State, who: Caller, key: Bb): (State, Reply)
    requires Shape(t, s) && t.HasPe(who.pe) && who.pe.ppe < t.maxPe
  {
    var i := FindTask(s.tasks, who.tgid);
    if i == |s.tasks| then (s, EINVAL)
    else
      var j := FindAlloc(s.tasks[i].allocs, key);
      if j == |s.tasks[i].allocs| then (s, EINVAL)
      else if who.pid == s.tasks[i].pid then (FreeAndReap(t, s, i, j), OK)
      else (Leave(t, s, i, j, key.cmg, who.pe), OK)
  }

  // ---------- assign and unassign ----------

  /** Which window the assign call tries, or the error it stops with. */
  datatype Choice = Try(window: int) | Refuse

  function ChooseWindow(t: Topology, a: Alloc, used: set<int>, ppe: nat, window: int): Choice
    requires ppe < |a.window|
  {
    if window < 0 then
      if a.window[ppe] == UNASSIGNED_WIN then Try(FirstZero(used, 0, t.nWindows))
      else if a.window[ppe] in used then Try(a.window[ppe])
      else Refuse
    else if window in used then Refuse
    else Try(window)
  }

  function TakeWindow(t: Topology, s: State, i: nat, j: nat, pe: Pe, window: nat, blade: int): (r: State)
    requires Shape(t, s) && i < |s.tasks| && j < |s.tasks[i].allocs| && t.HasPe(pe) && pe.ppe < t.maxPe
    requires window < t.nWindows
    ensures Shape(t, r)
  {
    var a := s.tasks[i].allocs[j];
    assert AllocShape(t, a);
    assert pe in t.Pes();
    var a1 := a.(window := a.window[pe.ppe := window],
                 assignMask := a.assignMask + {t.Cpu(pe)}, assignCount := a.assignCount + 1);
    s.(tasks := SetAlloc(s.tasks, i, j, a1),
       bwMap := s.bwMap[pe := s.bwMap[pe] + {window}],
       wreg := WriteAssign(t, s.wreg, pe, window, true, blade))
  }

  /** Assign with the allocation at hand: the caller participates and gets a free window. */
  function AssignAt(t: Topology, s: State, i: nat, j: nat, pe: Pe, blade: int, window: int): (State, Reply)
    requires Shape(t, s) && i < |s.tasks| && j < |s.tasks[i].allocs| && t.HasPe(pe) && pe.ppe < t.maxPe
  {
    var a := s.tasks[i].allocs[j];
    assert AllocShape(t, a);
    assert pe in t.Pes();
    if t.Cpu(pe) !in a.cpumask then (s, ENODEV)
    else
      match ChooseWindow(t, a, s.bwMap[pe], pe.ppe, window)
      case Refuse => (s, EINVAL)
      case Try(w) =>
        if 0 <= w < t.nWindows && w !in s.bwMap[pe]
        then (TakeWindow(t, s, i, j, pe, w, blade), Reply(Success, w))
        else (s, ENODEV)
  }

  function Assign(t: Topology, s: State, who: Caller, blade: int, window: int): (State, Reply)
    requires Shape(t, s) && t.HasPe(who.pe) && who.pe.ppe < t.maxPe
  {
    if !who.pinned then (s, EINVAL)
    else
      var i := FindTask(s.tasks, who.tgid);
      if i == |s.tasks| then (s, ENODEV)
      else
        var j := FindAlloc(s.tasks[i].allocs, Bb(who.pe.cmg, blade));
        if j == |s.tasks[i].allocs| then (s, ENODEV) else AssignAt(t, s, i, j, who.pe, blade, window)
  }

  function GiveWindow(t: Topology, s: State, i: nat, j: nat, pe: Pe, window: nat): (r: State)
    requires Shape(t, s) && i < |s.tasks| && j < |s.tasks[i].allocs| && t.HasPe(pe) && pe.ppe < t.maxPe
    requires window < t.nWindows
    ensures Shape(t, r)
  {
    var a := s.tasks[i].allocs[j];
    assert AllocShape(t, a);
    assert pe in t.Pes();
    var a1 := a.(window := a.window[pe.ppe := UNASSIGNED_WIN],
                 assignMask := a.assignMask - {t.Cpu(pe)}, assignCount := a.assignCount - 1);
    s.(tasks := SetAlloc(s.tasks, i, j, a1),
       bwMap := s.bwMap[pe := s.bwMap[pe] - {window}],
       wreg := WriteAssign(t, s.wreg, pe, window, false, 0))
  }

  function Unassign(t: Topology, s: State, who: Caller, blade: int): (State, Reply)
    requires Shape(t, s) && t.HasPe(who.pe) && who.pe.ppe < t.maxPe
  {
    if !who.pinned then (s, EINVAL)
    else
      var i := FindTask(s.tasks, who.tgid);
      if i == |s.tasks| then (s, ENODEV)
      else
        var j := FindAlloc(s.tasks[i].allocs, Bb(who.pe.cmg, blade));
        if j == |s.tasks[i].allocs| then (s, EINVAL)
        else
          var a := s.tasks[i].allocs[j];
          assert AllocShape(t, a);
          assert who.pe in t.Pes();
          var w := a.window[who.pe.ppe];
          if 0 <= w < t.nWindows && w in s.bwMap[who.pe] && s.wreg[who.pe][w].blade == blade
          then (GiveWindow(t, s, i, j, who.pe, w), OK)
          else (s, EINVAL)
  }

  // ---------- open, close, reset ----------

  function Close(t: Topology, s: State, who: Caller): (State, Reply)
    requires Shape(t, s)
  {
    if s.active > 0 then
      var s1 := s.(active := s.active - 1);
      var i := FindTask(s1.tasks, who.tgid);
      if i < |s1.tasks| && who.pid == s1.tasks[i].pid then (UnregisterTask(t, s1, i), OK)
      else (s1, OK)
    else (s, OK)
  }

  function ResetRegs(t: Topology, wreg: map<Pe, seq<WinReg>>): (r: map<Pe, seq<WinReg>>)
    ensures r.Keys == wreg.Keys
  {
    map pe | pe in wreg :: seq(t.nWindows, _ => WinReg(false, 0))
  }

  function Reset(t: Topology, s: State): State {
    s.(tasks := [], numTasks := 0, active := 0,
       bbActive := seq(|s.bbActive|, _ => {}),
       bwMap := map pe | pe in s.bwMap :: {},
       wreg := ResetRegs(t, s.wreg))
  }

  // ---------- steps and runs ----------

  datatype Op =
    | Open
    | CloseOp(who: Caller)
    | AllocateOp(who: Caller, cpumask: set<int>)
    | FreeOp(who: Caller, key: Bb)
    | AssignOp(who: Caller, blade: int, window: int)
    | UnassignOp(who: Caller, blade: int)
    | ResetOp

  /** The environment runs a caller on an existing PE. */
  predicate CallerOk(t: Topology, who: Caller) {
    t.HasPe(who.pe) && who.pe.ppe < t.maxPe
  }

  predicate OpOk(t: Topology, op: Op) {
    match op
    case Open => true
    case ResetOp => true
    case CloseOp(who) => CallerOk(t, who)
    case AllocateOp(who, _) => CallerOk(t, who)
    case FreeOp(who, _) => CallerOk(t, who)
    case AssignOp(who, _, _) => CallerOk(t, who)
    case UnassignOp(who, _) => CallerOk(t, who)
  }

  function Step(t: Topology, s: State, op: Op): (State, Reply)
    requires Shape(t, s) && OpOk(t, op)
  {
    match op
    case Open => (s.(active := s.active + 1), OK)
    case CloseOp(who) => Close(t, s, who)
    case AllocateOp(who, cpumask) => Allocate(t, s, who, cpumask)
    case FreeOp(who, key) => Free(t, s, who, key)
    case AssignOp(who, blade, window) => Assign(t, s, who, blade, window)
    case UnassignOp(who, blade) => Unassign(t, s, who, blade)
    case ResetOp => (Reset(t, s), OK)
  }

  /** The state right after module load: no tasks, clear bitmaps, clear window registers. */
  ghost predicate Init(t: Topology, s: State) {
    && s.tasks == [] && s.numTasks == 0 && s.active == 0
    && |s.bbActive| == |t.cpus| && (forall c | 0 <= c < |t.cpus| :: s.bbActive[c] == {})
    && s.bwMap.Keys == t.Pes() && (forall pe | pe in s.bwMap :: s.bwMap[pe] == {})
    && s.wreg.Keys == t.Pes()
    && (forall pe | pe in s.wreg :: s.wreg[pe] == seq(t.nWindows, _ => WinReg(false, 0)))
  }
}
