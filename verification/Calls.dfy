/** The whole driver: a call of any kind on the device object, and any sequence of calls. */
module Calls {
  import opened Topology
  import opened DriverState
  import opened LiveMap
  import opened Invariant
  import opened Abstract
  import opened Refinement
  import opened Device
  import Ioctl
  import Teardown

  /** A call's arguments: a caller on an existing PE; a CPU mask holds CPU numbers. */
  predicate ArgsOk(t: Topology, op: Op) {
    OpOk(t, op) && (op.AllocateOp? ==> forall cpu | cpu in op.cpumask :: cpu >= 0)
  }

  /** Every call computes the step of the state machine, keeps the invariant, and is a step
      of the abstract machine. */
  method Call(dev: HwbDevice, op: Op) returns (r: Reply)
    requires dev.Valid() && Inv(dev.t, dev.model) && ArgsOk(dev.t, op)
    modifies dev, dev.hw, dev.cmgs, dev.maps, dev.als, dev.wins, dev.tms
    ensures dev.Valid() && fresh(dev.tms - old(dev.tms)) && fresh(dev.als - old(dev.als))
    ensures fresh(dev.wins - old(dev.wins))
    ensures Shape(dev.t, old(dev.model)) && (dev.model, r) == Step(dev.t, old(dev.model), op)
    ensures Inv(dev.t, old(dev.model)) && Inv(dev.t, dev.model)
    ensures Next(dev.t, Abs(old(dev.model)), op, Abs(dev.model), r)
  {
    hide KeysDistinct, IsLive, IsOwners, GroupsDistinct, BladesOk, EntriesOk, WindowsOk, MasksOk, Shape, Next,
      DriverState.Allocate, DriverState.Assign, DriverState.Unassign, DriverState.Free, DriverState.Close,
      DriverState.Reset, dev.CmgsAre, dev.ListsAre;
    StepRefines(dev.t, dev.model, op);
    match op
    case Open => r := Ioctl.Open(dev);
    case CloseOp(who) => r := Ioctl.Close(dev, who);
    case AllocateOp(who, cpumask) => r := Ioctl.Allocate(dev, who, dev.t.AllCpus(), cpumask);
    case FreeOp(who, key) => r := Ioctl.Free(dev, who, key);
    case AssignOp(who, blade, window) => r := Ioctl.Assign(dev, who, blade, window);
    case UnassignOp(who, blade) => r := Ioctl.Unassign(dev, who, blade);
    case ResetOp => r := Teardown.Reset(dev);
  }

  /** Any sequence of calls computes the state machine's run, and so simulates a run of the
      abstract machine with the same replies. */
  method Serve(dev: HwbDevice, ops: seq<Op>) returns (rs: seq<Reply>)
    requires dev.Valid() && Inv(dev.t, dev.model) && forall op | op in ops :: ArgsOk(dev.t, op)
    modifies dev, dev.hw, dev.cmgs, dev.maps, dev.als, dev.wins, dev.tms
    ensures dev.Valid() && Inv(dev.t, old(dev.model)) && Inv(dev.t, dev.model)
    ensures forall op | op in ops :: OpOk(dev.t, op)
    ensures (dev.model, rs) == Exec(dev.t, old(dev.model), ops)
    ensures Runs(dev.t, Abs(old(dev.model)), ops, rs, Abs(dev.model))
  {
    hide KeysDistinct, IsLive, IsOwners, GroupsDistinct, BladesOk, EntriesOk, WindowsOk, MasksOk, Shape, Next, Runs,
      Step, dev.CmgsAre, dev.ListsAre;
    ghost var s0 := dev.model;
    forall op | op in ops ensures OpOk(dev.t, op) { assert ArgsOk(dev.t, op); }
    RunRefines(dev.t, s0, ops);
    rs := [];
    assert ops[0..] == ops && rs + Exec(dev.t, s0, ops).1 == Exec(dev.t, s0, ops).1;
    for n := 0 to |ops|
      invariant dev.Valid() && Inv(dev.t, dev.model)
      invariant fresh(dev.tms - old(dev.tms)) && fresh(dev.als - old(dev.als)) && fresh(dev.wins - old(dev.wins))
      invariant forall op | op in ops[n..] :: OpOk(dev.t, op)
      invariant var rest := Exec(dev.t, dev.model, ops[n..]);
                Exec(dev.t, s0, ops) == (rest.0, rs + rest.1)
    {
      assert ops[n..][1..] == ops[n+1..];
      ghost var s, before := dev.model, rs;
      var r := Call(dev, ops[n]);
      rs := rs + [r];
      ghost var rest := Exec(dev.t, dev.model, ops[n+1..]);
      assert Exec(dev.t, s, ops[n..]) == (rest.0, [r] + rest.1);
      assert rs + rest.1 == before + ([r] + rest.1);
    }
    assert ops[|ops|..] == [] && rs + [] == rs;
  }
}
