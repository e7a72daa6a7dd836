/** What freeing a set of blades does, and that the list-walking frees do exactly that. */
module Release {
  import opened Topology
  import opened DriverState
  import opened LiveMap
  import opened Invariant

  /** Some blade of `gone` holds window `w` of `pe`. */
  ghost predicate HeldBy(live: map<Bb, Entry>, gone: set<Bb>, pe: Pe, w: int) {
    exists k :: k in gone && k in live && HasWindow(live[k].a, pe, w)
  }

  /** From `s` to `s'` exactly the blades of `gone` disappear: their windows leave the
      bitmaps, the registers of those windows become invalid, and nothing else changes. */
  ghost predicate Freed(t: Topology, s: State, s': State, gone: set<Bb>)
    requires KeysDistinct(s.tasks) && KeysDistinct(s'.tasks) && Shape(t, s) && Shape(t, s')
  {
    && Live(s'.tasks) == Live(s.tasks) - gone
    && (forall pe, w | pe in s.bwMap ::
          w in s'.bwMap[pe] <==> (w in s.bwMap[pe] && !HeldBy(Live(s.tasks), gone, pe, w)))
    && (forall pe, w | pe in s.wreg && 0 <= w < t.nWindows ::
          s'.wreg[pe][w] == if HeldBy(Live(s.tasks), gone, pe, w) then WinReg(false, 0) else s.wreg[pe][w])
    && s'.breg == s.breg && s'.active == s.active
  }

  lemma FreedNothing(t: Topology, s: State, s': State, gone: set<Bb>)
    requires SoftInv(t, s) && Shape(t, s')
    requires s' == s.(tasks := s'.tasks, numTasks := s'.numTasks)
    requires KeysDistinct(s'.tasks) && Live(s'.tasks) == Live(s.tasks) && gone !! Live(s.tasks).Keys
    ensures Freed(t, s, s', gone)
  {
  }

  /** Two frees in a row are the free of the union. */
  lemma FreedTwice(t: Topology, s: State, s1: State, s2: State, g1: set<Bb>, g2: set<Bb>)
    requires KeysDistinct(s.tasks) && KeysDistinct(s1.tasks) && KeysDistinct(s2.tasks)
    requires Shape(t, s) && Shape(t, s1) && Shape(t, s2)
    requires Freed(t, s, s1, g1) && Freed(t, s1, s2, g2)
    ensures Freed(t, s, s2, g1 + g2)
  {
    hide KeysDistinct;
    forall pe, w ensures HeldBy(Live(s.tasks), g1 + g2, pe, w) <==>
                         (HeldBy(Live(s.tasks), g1, pe, w) || HeldBy(Live(s1.tasks), g2, pe, w))
    {
      HeldByUnion(Live(s.tasks), g1, g2, pe, w);
    }
  }

  lemma HeldByUnion(live: map<Bb, Entry>, g1: set<Bb>, g2: set<Bb>, pe: Pe, w: int)
    ensures HeldBy(live, g1 + g2, pe, w) <==> (HeldBy(live, g1, pe, w) || HeldBy(live - g1, g2, pe, w))
  {
    if HeldBy(live, g1 + g2, pe, w) {
      var k :| k in g1 + g2 && k in live && HasWindow(live[k].a, pe, w);
      if k !in g1 { assert k in g2 && k in live - g1; }
    }
  }

  /** Freeing one allocation releases all its windows, clears its blade, and leaves every
      other allocation, window and register alone. */
  lemma FreeAllocationFreed(t: Topology, s: State, i: nat, j: nat)
    requires SoftInv(t, s) && At(s.tasks, i, j)
    requires MasksOk(t, s, {KeyOf(s.tasks[i].allocs[j])})
    ensures Inv(t, FreeAllocation(t, s, i, j))
    ensures Freed(t, s, FreeAllocation(t, s, i, j), {KeyOf(s.tasks[i].allocs[j])})
    ensures forall c | 0 <= c < |s.bbActive| ::
              FreeAllocation(t, s, i, j).bbActive[c] ==
              if c == s.tasks[i].allocs[j].cmg then s.bbActive[c] - {s.tasks[i].allocs[j].blade} else s.bbActive[c]
  {
    hide KeysDistinct, IsLive, IsOwners, GroupsDistinct, BladesOk, EntriesOk, Reserved, Exclusive, MasksOk,
      FreeAllocation, HasWindow, Holds;
    var a := s.tasks[i].allocs[j];
    Facts(t, s, i, j);
    FreeAllocationForm(t, s, i, j);
    FreeAllocationInv(t, s, i, j);
    ReleaseBitsSpec(t, a, s.bwMap);
    ReleaseRegsSpec(t, a, s.wreg);
    HeldByOne(Live(s.tasks), KeyOf(a));
  }

  lemma HeldByOne(live: map<Bb, Entry>, k: Bb)
    requires k in live
    ensures forall pe, w :: HeldBy(live, {k}, pe, w) <==> HasWindow(live[k].a, pe, w)
  {
    forall pe, w | HasWindow(live[k].a, pe, w) ensures HeldBy(live, {k}, pe, w) {
      assert k in {k};
    }
  }

  /** The blades that a thread group owns. */
  ghost function GroupKeys(live: map<Bb, Entry>, tgid: int): set<Bb> {
    set k | k in live && live[k].tgid == tgid
  }

  lemma {:induction false} FreeAllFreed(t: Topology, s: State, i: nat)
    requires Inv(t, s) && i < |s.tasks|
    ensures Inv(t, FreeAll(t, s, i))
    ensures Freed(t, s, FreeAll(t, s, i), GroupKeys(Live(s.tasks), s.tasks[i].tgid))
    decreases |s.tasks[i].allocs|
  {
    hide KeysDistinct, IsLive, IsOwners, GroupsDistinct, BladesOk, EntriesOk, WindowsOk;
    var gone := GroupKeys(Live(s.tasks), s.tasks[i].tgid);
    if s.tasks[i].allocs == [] {
      NoEntries(s.tasks, i);
      assert gone == {};
      FreedNothing(t, s, s, {});
    } else {
      var s1 := FreeAllocation(t, s, i, 0);
      var k := KeyOf(s.tasks[i].allocs[0]);
      LiveAt(s.tasks, i, 0);
      FreeAllocationFreed(t, s, i, 0);
      FreeAllFreed(t, s1, i);
      assert gone == {k} + GroupKeys(Live(s1.tasks), s1.tasks[i].tgid);
      FreedTwice(t, s, s1, FreeAll(t, s, i), {k}, GroupKeys(Live(s1.tasks), s1.tasks[i].tgid));
    }
  }

  /** Unregistering a task frees exactly its group's blades and removes its mapping. */
  lemma UnregisterFreed(t: Topology, s: State, i: nat)
    requires Inv(t, s) && i < |s.tasks|
    ensures Inv(t, UnregisterTask(t, s, i))
    ensures Freed(t, s, UnregisterTask(t, s, i), GroupKeys(Live(s.tasks), s.tasks[i].tgid))
    ensures Owners(UnregisterTask(t, s, i).tasks) == Owners(s.tasks) - {s.tasks[i].tgid}
  {
    hide KeysDistinct, IsLive, IsOwners, GroupsDistinct, BladesOk, EntriesOk, WindowsOk;
    var s1 := FreeAll(t, s, i);
    FreeAllInv(t, s, i);
    FreeAllFreed(t, s, i);
    UnregisterForm(t, s, i);
    UnregisterInv(t, s, i);
    assert Live(UnregisterTask(t, s, i).tasks) == Live(s1.tasks);
    FreedNothing(t, s1, UnregisterTask(t, s, i), {});
    FreedTwice(t, s, s1, UnregisterTask(t, s, i), GroupKeys(Live(s.tasks), s.tasks[i].tgid), {});
    assert GroupKeys(Live(s.tasks), s.tasks[i].tgid) + {} == GroupKeys(Live(s.tasks), s.tasks[i].tgid);
  }

  lemma FreeAndReapFreed(t: Topology, s: State, i: nat, j: nat)
    requires SoftInv(t, s) && At(s.tasks, i, j)
    requires MasksOk(t, s, {KeyOf(s.tasks[i].allocs[j])})
    ensures Inv(t, FreeAndReap(t, s, i, j))
    ensures Freed(t, s, FreeAndReap(t, s, i, j), {KeyOf(s.tasks[i].allocs[j])})
  {
    hide KeysDistinct, IsLive, IsOwners, GroupsDistinct, BladesOk, EntriesOk, WindowsOk;
    var k := KeyOf(s.tasks[i].allocs[j]);
    var s1 := FreeAllocation(t, s, i, j);
    FreeAllocationFreed(t, s, i, j);
    if s1.tasks[i].numAllocs == 0 {
      NoEntries(s1.tasks, i);
      assert GroupKeys(Live(s1.tasks), s1.tasks[i].tgid) == {};
      UnregisterFreed(t, s1, i);
      FreedTwice(t, s, s1, UnregisterTask(t, s1, i), {k}, {});
      assert {k} + {} == {k};
    }
  }
}
