/** The live allocations of all tasks as one map from blades to entries, and how
    each list update changes that map.  All list reasoning is in this module. */
module LiveMap {
  import opened Topology
  import opened DriverState

  /** An allocation together with the thread group that owns it. */
  datatype Entry = Entry(tgid: int, a: Alloc)

  ghost predicate At(tasks: seq<TaskMap>, i: int, j: int) {
    0 <= i < |tasks| && 0 <= j < |tasks[i].allocs|
  }

  /** No blade occurs twice, neither in one task nor in two. */
  ghost predicate KeysDistinct(tasks: seq<TaskMap>) {
    forall i, j, k, l | At(tasks, i, j) && At(tasks, k, l)
                        && KeyOf(tasks[i].allocs[j]) == KeyOf(tasks[k].allocs[l]) :: i == k && j == l
  }

  /** The lists agree with their counters and every thread group is registered once. */
  ghost predicate ListsOk(tasks: seq<TaskMap>) {
    && KeysDistinct(tasks)
    && (forall i | 0 <= i < |tasks| :: tasks[i].numAllocs == |tasks[i].allocs|)
    && GroupsDistinct(tasks)
  }

  ghost predicate GroupsDistinct(tasks: seq<TaskMap>) {
    forall i, k | 0 <= i < |tasks| && 0 <= k < |tasks| && tasks[i].tgid == tasks[k].tgid :: i == k
  }

  /** `m` holds exactly the allocations in the lists, each under its blade. */
  ghost predicate IsLive(tasks: seq<TaskMap>, m: map<Bb, Entry>) {
    && (forall i, j | At(tasks, i, j) :: MappedAt(tasks, m, i, j))
    && (forall k | k in m :: exists i, j :: At(tasks, i, j) && KeyOf(tasks[i].allocs[j]) == k)
  }

  ghost predicate MappedAt(tasks: seq<TaskMap>, m: map<Bb, Entry>, i: int, j: int)
    requires At(tasks, i, j)
  {
    var k := KeyOf(tasks[i].allocs[j]);
    k in m && m[k] == Entry(tasks[i].tgid, tasks[i].allocs[j])
  }

  lemma LiveExists(tasks: seq<TaskMap>)
    requires KeysDistinct(tasks)
    ensures exists m :: IsLive(tasks, m)
  {
    var es := set i, j | 0 <= i < |tasks| && 0 <= j < |tasks[i].allocs| :: Entry(tasks[i].tgid, tasks[i].allocs[j]);
    var m := map e | e in es :: KeyOf(e.a) := e;
    forall i, j | At(tasks, i, j) ensures MappedAt(tasks, m, i, j) {
      assert Entry(tasks[i].tgid, tasks[i].allocs[j]) in es;
    }
    assert IsLive(tasks, m);
  }

  lemma LiveUnique(tasks: seq<TaskMap>, m: map<Bb, Entry>, m': map<Bb, Entry>)
    requires IsLive(tasks, m) && IsLive(tasks, m')
    ensures m == m'
  {
    forall k | k in m ensures k in m' && m'[k] == m[k] {
      var i, j :| At(tasks, i, j) && KeyOf(tasks[i].allocs[j]) == k;
      assert MappedAt(tasks, m, i, j) && MappedAt(tasks, m', i, j);
    }
    forall k | k in m' ensures k in m {
      var i, j :| At(tasks, i, j) && KeyOf(tasks[i].allocs[j]) == k;
      assert MappedAt(tasks, m, i, j);
    }
  }

  /** The live allocations by blade. */
  ghost function Live(tasks: seq<TaskMap>): (m: map<Bb, Entry>)
    requires KeysDistinct(tasks)
    ensures IsLive(tasks, m)
  {
    LiveExists(tasks);
    var m :| IsLive(tasks, m);
    m
  }

  ghost predicate IsOwners(tasks: seq<TaskMap>, m: map<int, int>) {
    && (forall i | 0 <= i < |tasks| :: tasks[i].tgid in m && m[tasks[i].tgid] == tasks[i].pid)
    && (forall g | g in m :: exists i :: 0 <= i < |tasks| && tasks[i].tgid == g)
  }

  lemma OwnersUnique(tasks: seq<TaskMap>, m: map<int, int>, m': map<int, int>)
    requires IsOwners(tasks, m) && IsOwners(tasks, m')
    ensures m == m'
  {
    forall g | g in m ensures g in m' && m'[g] == m[g] {
      var i :| 0 <= i < |tasks| && tasks[i].tgid == g;
      assert tasks[i].tgid in m';
    }
    forall g | g in m' ensures g in m {
      var i :| 0 <= i < |tasks| && tasks[i].tgid == g;
      assert tasks[i].tgid in m;
    }
  }

  /** The registered thread groups and the pid of the thread that registered each. */
  ghost function Owners(tasks: seq<TaskMap>): (m: map<int, int>)
    requires GroupsDistinct(tasks)
    ensures IsOwners(tasks, m)
  {
    assert IsOwners(tasks, map i | 0 <= i < |tasks| :: tasks[i].tgid := tasks[i].pid);
    var m :| IsOwners(tasks, m);
    m
  }

  lemma LiveAt(tasks: seq<TaskMap>, i: int, j: int)
    requires KeysDistinct(tasks) && At(tasks, i, j)
    ensures KeyOf(tasks[i].allocs[j]) in Live(tasks)
    ensures Live(tasks)[KeyOf(tasks[i].allocs[j])] == Entry(tasks[i].tgid, tasks[i].allocs[j])
  {
    assert MappedAt(tasks, Live(tasks), i, j);
  }

  lemma LivePosition(tasks: seq<TaskMap>, k: Bb) returns (i: int, j: int)
    requires KeysDistinct(tasks) && k in Live(tasks)
    ensures At(tasks, i, j) && KeyOf(tasks[i].allocs[j]) == k
    ensures Live(tasks)[k] == Entry(tasks[i].tgid, tasks[i].allocs[j])
  {
    i, j :| At(tasks, i, j) && KeyOf(tasks[i].allocs[j]) == k;
    LiveAt(tasks, i, j);
  }

  /** The two list searches find exactly the live entry that the caller's group owns. */
  lemma Lookup(tasks: seq<TaskMap>, tgid: int, k: Bb)
    requires ListsOk(tasks)
    ensures var i := FindTask(tasks, tgid);
            && (i < |tasks| <==> tgid in Owners(tasks))
            && (i < |tasks| ==> tasks[i].tgid == tgid && Owners(tasks)[tgid] == tasks[i].pid)
            && ((i < |tasks| && FindAlloc(tasks[i].allocs, k) < |tasks[i].allocs|)
                <==> (k in Live(tasks) && Live(tasks)[k].tgid == tgid))
            && (i < |tasks| && FindAlloc(tasks[i].allocs, k) < |tasks[i].allocs|
                ==> Live(tasks)[k] == Entry(tgid, tasks[i].allocs[FindAlloc(tasks[i].allocs, k)]))
  {
    var i := FindTask(tasks, tgid);
    if i < |tasks| {
      var j := FindAlloc(tasks[i].allocs, k);
      if j < |tasks[i].allocs| { LiveAt(tasks, i, j); }
    }
    if k in Live(tasks) && Live(tasks)[k].tgid == tgid {
      var i', j' := LivePosition(tasks, k);
      assert i == i';
    }
  }

  lemma OwnersSame(tasks: seq<TaskMap>, tasks': seq<TaskMap>)
    requires GroupsDistinct(tasks) && GroupsDistinct(tasks') && |tasks| == |tasks'|
    requires forall i | 0 <= i < |tasks| :: tasks[i].tgid == tasks'[i].tgid && tasks[i].pid == tasks'[i].pid
    ensures Owners(tasks) == Owners(tasks')
  {
    var m := Owners(tasks);
    forall g | g in m ensures exists i :: 0 <= i < |tasks'| && tasks'[i].tgid == g {
      var i :| 0 <= i < |tasks| && tasks[i].tgid == g;
      assert tasks'[i].tgid == g;
    }
    OwnersUnique(tasks', m, Owners(tasks'));
  }

  /** Replacing an allocation by one with the same blade replaces its live entry. */
  lemma SetAllocLive(tasks: seq<TaskMap>, i: nat, j: nat, a: Alloc)
    requires ListsOk(tasks) && At(tasks, i, j) && KeyOf(a) == KeyOf(tasks[i].allocs[j])
    ensures ListsOk(SetAlloc(tasks, i, j, a))
    ensures Live(SetAlloc(tasks, i, j, a)) == Live(tasks)[KeyOf(a) := Entry(tasks[i].tgid, a)]
    ensures Owners(SetAlloc(tasks, i, j, a)) == Owners(tasks)
  {
    var tasks' := SetAlloc(tasks, i, j, a);
    assert forall k, l | At(tasks', k, l) :: At(tasks, k, l) && KeyOf(tasks'[k].allocs[l]) == KeyOf(tasks[k].allocs[l]);
    assert ListsOk(tasks');
    OwnersSame(tasks, tasks');
    var m := Live(tasks)[KeyOf(a) := Entry(tasks[i].tgid, a)];
    forall k, l | At(tasks', k, l) ensures MappedAt(tasks', m, k, l) {
      LiveAt(tasks, k, l);
    }
    forall k | k in m ensures exists p, q :: At(tasks', p, q) && KeyOf(tasks'[p].allocs[q]) == k {
      LiveAt(tasks, i, j);
      var p, q := LivePosition(tasks, k);
      assert At(tasks', p, q);
    }
    LiveUnique(tasks', m, Live(tasks'));
  }

  /** Where an allocation of the longer lists comes from. */
  lemma AddedAt(tasks: seq<TaskMap>, i: nat, a: Alloc, k: int, l: int)
    requires i < |tasks| && At(AddAlloc(tasks, i, a), k, l)
    ensures var tasks', l' := AddAlloc(tasks, i, a), if k == i then l - 1 else l;
            if k == i && l == 0 then tasks'[k].allocs[l] == a
            else At(tasks, k, l') && tasks'[k].allocs[l] == tasks[k].allocs[l'] && tasks'[k].tgid == tasks[k].tgid
  {
  }

  lemma AddAllocLists(tasks: seq<TaskMap>, i: nat, a: Alloc)
    requires ListsOk(tasks) && i < |tasks| && KeyOf(a) !in Live(tasks)
    ensures ListsOk(AddAlloc(tasks, i, a)) && Owners(AddAlloc(tasks, i, a)) == Owners(tasks)
  {
    var tasks' := AddAlloc(tasks, i, a);
    forall k, l, p, q | At(tasks', k, l) && At(tasks', p, q) && KeyOf(tasks'[k].allocs[l]) == KeyOf(tasks'[p].allocs[q])
      ensures k == p && l == q
    {
      AddedAt(tasks, i, a, k, l);
      AddedAt(tasks, i, a, p, q);
      if !(k == i && l == 0) { LiveAt(tasks, k, if k == i then l - 1 else l); }
      if !(p == i && q == 0) { LiveAt(tasks, p, if p == i then q - 1 else q); }
    }
    assert KeysDistinct(tasks');
    OwnersSame(tasks, tasks');
  }

  /** Adding an allocation of a blade that is not live adds one live entry. */
  lemma AddAllocLive(tasks: seq<TaskMap>, i: nat, a: Alloc)
    requires ListsOk(tasks) && i < |tasks| && KeyOf(a) !in Live(tasks)
    ensures ListsOk(AddAlloc(tasks, i, a))
    ensures Live(AddAlloc(tasks, i, a)) == Live(tasks)[KeyOf(a) := Entry(tasks[i].tgid, a)]
    ensures Owners(AddAlloc(tasks, i, a)) == Owners(tasks)
  {
    hide KeysDistinct, GroupsDistinct, IsOwners;
    var tasks' := AddAlloc(tasks, i, a);
    var m := Live(tasks)[KeyOf(a) := Entry(tasks[i].tgid, a)];
    AddAllocLists(tasks, i, a);
    forall k, l | At(tasks', k, l) ensures MappedAt(tasks', m, k, l) {
      AddedAt(tasks, i, a, k, l);
      if !(k == i && l == 0) { LiveAt(tasks, k, if k == i then l - 1 else l); }
    }
    forall k | k in m ensures exists p, q :: At(tasks', p, q) && KeyOf(tasks'[p].allocs[q]) == k {
      if k == KeyOf(a) {
        assert At(tasks', i, 0);
      } else {
        var p, q := LivePosition(tasks, k);
        assert At(tasks', p, if p == i then q + 1 else q);
      }
    }
    LiveUnique(tasks', m, Live(tasks'));
  }

  lemma DropAllocLists(tasks: seq<TaskMap>, i: nat, j: nat)
    requires ListsOk(tasks) && At(tasks, i, j)
    ensures ListsOk(DropAlloc(tasks, i, j)) && Owners(DropAlloc(tasks, i, j)) == Owners(tasks)
  {
    var tasks' := DropAlloc(tasks, i, j);
    forall k, l | At(tasks', k, l)
      ensures var l' := if k == i && l >= j then l + 1 else l;
              At(tasks, k, l') && tasks'[k].allocs[l] == tasks[k].allocs[l']
    {
    }
    assert KeysDistinct(tasks');
    OwnersSame(tasks, tasks');
  }

  /** Dropping an allocation removes its live entry and no other. */
  lemma DropAllocLive(tasks: seq<TaskMap>, i: nat, j: nat)
    requires ListsOk(tasks) && At(tasks, i, j)
    ensures ListsOk(DropAlloc(tasks, i, j))
    ensures Live(DropAlloc(tasks, i, j)) == Live(tasks) - {KeyOf(tasks[i].allocs[j])}
    ensures Owners(DropAlloc(tasks, i, j)) == Owners(tasks)
  {
    hide GroupsDistinct, IsOwners;
    DropAllocLists(tasks, i, j);
    var tasks' := DropAlloc(tasks, i, j);
    var key := KeyOf(tasks[i].allocs[j]);
    var m := Live(tasks) - {key};
    forall k, l | At(tasks', k, l) ensures MappedAt(tasks', m, k, l) {
      var l' := if k == i && l >= j then l + 1 else l;
      assert At(tasks, k, l') && tasks'[k].allocs[l] == tasks[k].allocs[l'];
      LiveAt(tasks, k, l');
    }
    forall k | k in m ensures exists p, q :: At(tasks', p, q) && KeyOf(tasks'[p].allocs[q]) == k {
      var p, q := LivePosition(tasks, k);
      var q' := if p == i && q > j then q - 1 else q;
      assert At(tasks', p, q') && tasks'[p].allocs[q'] == tasks[p].allocs[q];
    }
    LiveUnique(tasks', m, Live(tasks'));
  }

  function DropTask(tasks: seq<TaskMap>, i: nat): seq<TaskMap>
    requires i < |tasks|
  {
    tasks[..i] + tasks[i+1..]
  }

  lemma DropTaskLists(tasks: seq<TaskMap>, i: nat)
    requires ListsOk(tasks) && i < |tasks|
    ensures ListsOk(DropTask(tasks, i))
  {
    var tasks' := DropTask(tasks, i);
    forall k | 0 <= k < |tasks'| ensures tasks'[k] == tasks[if k < i then k else k + 1] { }
    forall p, q, k, l | At(tasks', p, q) && At(tasks', k, l)
                        && KeyOf(tasks'[p].allocs[q]) == KeyOf(tasks'[k].allocs[l])
      ensures p == k && q == l
    {
      var p', k' := if p < i then p else p + 1, if k < i then k else k + 1;
      assert At(tasks, p', q) && At(tasks, k', l);
    }
  }

  lemma DropTaskOwners(tasks: seq<TaskMap>, i: nat)
    requires GroupsDistinct(tasks) && i < |tasks| && GroupsDistinct(DropTask(tasks, i))
    ensures Owners(DropTask(tasks, i)) == Owners(tasks) - {tasks[i].tgid}
  {
    var tasks' := DropTask(tasks, i);
    var m := Owners(tasks) - {tasks[i].tgid};
    forall g | g in m ensures exists p :: 0 <= p < |tasks'| && tasks'[p].tgid == g {
      var p :| 0 <= p < |tasks| && tasks[p].tgid == g;
      assert tasks'[if p < i then p else p - 1] == tasks[p];
    }
    forall p | 0 <= p < |tasks'| ensures tasks'[p] == tasks[if p < i then p else p + 1] { }
    OwnersUnique(tasks', m, Owners(tasks'));
  }

  /** Where a task mapping of the shorter list comes from. */
  lemma DroppedAt(tasks: seq<TaskMap>, i: nat, k: nat)
    requires GroupsDistinct(tasks) && i < |tasks| && k < |DropTask(tasks, i)|
    ensures DropTask(tasks, i)[k] == tasks[if k < i then k else k + 1]
    ensures DropTask(tasks, i)[k].tgid != tasks[i].tgid
  {
  }

  /** Dropping a task mapping removes exactly the entries its thread group owns. */
  lemma DropTaskLive(tasks: seq<TaskMap>, i: nat)
    requires ListsOk(tasks) && i < |tasks|
    ensures ListsOk(DropTask(tasks, i))
    ensures Live(DropTask(tasks, i)) == map k | k in Live(tasks) && Live(tasks)[k].tgid != tasks[i].tgid ::
              Live(tasks)[k]
    ensures Owners(DropTask(tasks, i)) == Owners(tasks) - {tasks[i].tgid}
  {
    hide KeysDistinct, GroupsDistinct, IsOwners;
    DropTaskLists(tasks, i);
    DropTaskOwners(tasks, i);
    var tasks' := DropTask(tasks, i);
    var m := map k | k in Live(tasks) && Live(tasks)[k].tgid != tasks[i].tgid :: Live(tasks)[k];
    forall k, l | At(tasks', k, l) ensures MappedAt(tasks', m, k, l) {
      var k' := if k < i then k else k + 1;
      DroppedAt(tasks, i, k);
      LiveAt(tasks, k', l);
    }
    forall k | k in m ensures exists p, q :: At(tasks', p, q) && KeyOf(tasks'[p].allocs[q]) == k {
      var p, q := LivePosition(tasks, k);
      DroppedAt(tasks, i, if p < i then p else p - 1);
      assert At(tasks', if p < i then p else p - 1, q);
    }
    LiveUnique(tasks', m, Live(tasks'));
  }

  lemma AddTaskLists(tasks: seq<TaskMap>, pid: int, tgid: int)
    requires ListsOk(tasks) && tgid !in Owners(tasks)
    ensures ListsOk([TaskMap(pid, tgid, [], 0)] + tasks)
  {
    var tasks' := [TaskMap(pid, tgid, [], 0)] + tasks;
    forall k | 0 < k < |tasks'| ensures tasks'[k] == tasks[k-1] && tasks'[k].tgid != tgid {
      assert tasks[k-1].tgid in Owners(tasks);
    }
    forall p, q, k, l | At(tasks', p, q) && At(tasks', k, l)
                        && KeyOf(tasks'[p].allocs[q]) == KeyOf(tasks'[k].allocs[l])
      ensures p == k && q == l
    {
      assert At(tasks, p - 1, q) && At(tasks, k - 1, l);
    }
  }

  /** Registering an empty task mapping changes no live entry. */
  lemma AddTaskLive(tasks: seq<TaskMap>, pid: int, tgid: int)
    requires ListsOk(tasks) && tgid !in Owners(tasks)
    ensures ListsOk([TaskMap(pid, tgid, [], 0)] + tasks)
    ensures Live([TaskMap(pid, tgid, [], 0)] + tasks) == Live(tasks)
    ensures Owners([TaskMap(pid, tgid, [], 0)] + tasks) == Owners(tasks)[tgid := pid]
  {
    AddTaskLists(tasks, pid, tgid);
    var tasks' := [TaskMap(pid, tgid, [], 0)] + tasks;
    var m := Live(tasks);
    forall k, l | At(tasks', k, l) ensures MappedAt(tasks', m, k, l) {
      assert tasks'[k] == tasks[k-1];
      LiveAt(tasks, k - 1, l);
    }
    forall k | k in m ensures exists p, q :: At(tasks', p, q) && KeyOf(tasks'[p].allocs[q]) == k {
      var p, q := LivePosition(tasks, k);
      assert At(tasks', p + 1, q) && tasks'[p + 1] == tasks[p];
    }
    LiveUnique(tasks', m, Live(tasks'));
    AddTaskOwners(tasks, pid, tgid);
  }

  lemma MapPutBack(m: map<int, int>, g: int)
    requires g in m
    ensures (m - {g})[g := m[g]] == m
  {
  }

  lemma AddTaskOwners(tasks: seq<TaskMap>, pid: int, tgid: int)
    requires GroupsDistinct(tasks) && GroupsDistinct([TaskMap(pid, tgid, [], 0)] + tasks)
    ensures Owners([TaskMap(pid, tgid, [], 0)] + tasks) == Owners(tasks)[tgid := pid]
  {
    hide GroupsDistinct;
    var tasks' := [TaskMap(pid, tgid, [], 0)] + tasks;
    assert IsOwners(tasks', Owners(tasks'));
    assert tasks'[0].tgid == tgid && tasks'[0].pid == pid;
    assert DropTask(tasks', 0) == tasks;
    DropTaskOwners(tasks', 0);
    MapPutBack(Owners(tasks'), tgid);
  }
}
