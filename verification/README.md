# Verification of the A64FX hardware-barrier driver

The A64FX processor groups its CPUs (processing elements, PEs) into core memory groups
(CMGs).  Every CMG has a few *barrier blades*: a register with one bit per PE (BST), a mask
of the PEs that take part (BST_MASK), and one shared bit (LBSY).  A PE reaches a blade only
through one of its few *window registers*.  The kernel module hands blades to thread groups,
windows to PEs, and takes them back when a thread frees, unassigns, closes the device or
resets it.  On top of that the participating PEs run a sense-reversing barrier without any
further help from the kernel.

This project models the module's bookkeeping (lists, counters, masks, bitmaps and registers),
its register accessors, its topology table and the barrier protocol, and proves that

* every driver call, on the objects with their lists updated in place, computes one step of a
  state machine, keeps an invariant that ties all redundant bookkeeping together, and is a step
  of a small abstract machine with the same reply (`Calls.Call`, `Calls.Serve`);
* the two calls that can break more than that invariant asks for are characterised exactly:
  window accounting is exact along a run if and only if the run has no re-assign by window
  number, and bitmaps agree with window registers if and only if no free by a non-allocating
  thread releases a window other than window 0;
* the barrier is safe and makes progress for any number of participants and rounds, and for any
  number of overlapping barriers at once; reprogramming a blade in the middle of a round keeps
  this if and only if the remaining participants are at suitable places, and otherwise some run
  blocks them or lets one leave too early (`Shrinking.ShrinkExact`);
* with driver calls interleaved with barrier steps the whole system stays in order if and only if
  no call is a misdirected free or such a disrupting shrink (`World.RunInOrder`), and in every
  state so reached all live barriers are safe and not blocked (`World.AlwaysSafe`,
  `World.NeverBlocked`, `World.UndisturbedBarrier`).

## Structure

| files | content |
|---|---|
| Topology, DriverState | chip layout; the driver's state and its calls as functions on values |
| LiveMap, Invariant, Release | the lists as one map of live allocations; the invariant and its preservation; what a free does |
| Abstract, Refinement | the abstract machine (blade to owner, participants, windows) and the forward simulation |
| Windows, Accounting, Counting, Counters, Replies, Properties, Directed, Examples | window accounting, counters and replies call by call, register agreement, conservation, completeness, round trips, teardown; runs that break a wanted property |
| Barrier, Progress, Shrinking | the barrier protocol, its termination, and what a blade reprogrammed in mid-round does to it |
| Isolation, World, Running | many barriers at once, barriers and driver together, runs that reach a running and a blocked barrier |
| Device, MaskCheck, Driver, Ioctl, Teardown, Calls | the driver as classes and methods with loops, proved equal to the steps of the state machine |
| PeTable, Load | the table of processing elements and module load |
| Registers | the 64-bit register words and their accessors |

The numbers of CMGs, PEs, blades and windows are parameters of a `Topology` value; the
source's constants are 4, 13, 6 and 4 (kmod/a64fx_hwb.h:7-10).  Only `Registers` uses the real
field widths and limits.

## Assumptions about the environment

* Hardware: LBSY becomes 1 when all participating BST bits are 1, becomes 0 when all are 0, and
  otherwise keeps its value.  The repository's own README.md states the first part only (its lines
  54-55).
* Hardware: a BST write through a window register that is not valid has no effect, and such a
  window reads LBSY as 0.  Writing a blade register clears its BST bits and LBSY.
* A register write on another CPU takes effect before the call returns (the reset asks for
  asynchronous writes, kmod/a64fx_hwb_ioctl.c:954).
* Every call holds the device lock, so it is one atomic step; the calling thread stays on one PE
  during it.  The thread's pid, thread group, PE and whether it is pinned are parameters.
* Memory allocation succeeds.  A CMG number passed to free is one a live allocation can have or
  is not found; allocate gets its CMG from the mask check.
* The CPUs of the topology table are exactly the online CPUs, PE offsets are dense and window
  registers are clear at load.  `Load.LoadModule` derives the topology's well-formedness from this.
* The participants of a newly allocated blade are at work when it is programmed.  When a blade is
  reprogrammed by a shrink, the participants that remain go on from where they are.

## Where the code differs from what one would expect

The model follows the code.

* Freeing or resetting does not clear a blade's mask: the register write rejects an empty mask
  (kmod/a64fx_hwb_asm.c:81-84).  See `Properties.FreedBladeKeepsMask`.
* A free by another thread of the group builds its register write without a window number
  (kmod/a64fx_hwb_ioctl.c:566-571), so window 0 is invalidated whatever window is released.  See
  `Accounting.StepHwAgrees`, `Windows.DirectedLeaveAgrees`, `Examples.MisdirectedFree`.
* Assign by window number does not look whether the PE already has a window of the allocation
  (kmod/a64fx_hwb_ioctl.c:714-724).  See `Accounting.StepExact`, `Examples.LeakedWindow`.
* Reset zeroes the open counter, so a later close skips its cleanup
  (kmod/a64fx_hwb_ioctl.c:974, kmod/a64fx_hwb_main.c:99).  See `Properties.CloseCleansUp`,
  `Examples.SkippedCleanup`.
* The mask check ignores CPUs that are in no topology table (kmod/a64fx_hwb_ioctl.c:32-52)
  although its comment asks for CPUs of a single CMG; `MaskCheck.CheckCpumask` states the former,
  `MaskCheck.UsableIsInCmg` when both are the same.
* The comment at kmod/a64fx_hwb_ioctl.c:535 says that only the allocating thread frees a blade.
  The code compares with the thread that registered the group (line 536).  Another thread of the
  group that is the last participant frees the blade too, and a thread that allocated a blade in a
  group registered by another thread cannot: its free only leaves the barrier, or does nothing if
  its CPU does not participate, and reports success.  See `Properties.StepParticipants`.
* A free by another thread reprograms the blade without regard to the round in progress
  (kmod/a64fx_hwb_ioctl.c:581-587); the write also clears BST and LBSY.  A remaining participant
  that waits for LBSY to become 1 then waits for ever.  See `Shrinking.ShrinkExact`,
  `World.ShrinkOutcome`, `Running.BlockedByShrink`.
* A mask word with bits only above bit 12 is accepted and programs no participant
  (kmod/a64fx_hwb_asm.c:81-86).  See `Registers.InitAgrees`; the driver never passes one
  (`Registers.PackMask`).

## Model

| member | source | states |
|---|---|---|
| Refinement.StepRefines | kmod/a64fx_hwb_ioctl.c:406-987 | from any state with the invariant, every call keeps it and is a step of the abstract machine with the same reply |
| Refinement.RunRefines | kmod/a64fx_hwb_ioctl.c:406-987 | forward simulation over runs of any length: invariant at the end, and the replies and final state are those of an abstract run |
| Refinement.InitInv | kmod/a64fx_hwb_main.c:198-232 | the state at module load satisfies the invariant and stands for the empty abstract map |
| Refinement.ReachableInv | kmod/a64fx_hwb_ioctl.c:406-987 | every state reachable from module load satisfies the invariant |
| Replies.AllocateStatus | kmod/a64fx_hwb_ioctl.c:406-492 | EInval exactly for a mask with fewer than two CPUs or in no CMG, ENoDev exactly if all blades of its CMG are live, otherwise the least free blade |
| Replies.FreeStatus | kmod/a64fx_hwb_ioctl.c:515-615 | EInval exactly if the caller's group does not have the blade, otherwise success |
| Replies.AssignStatus | kmod/a64fx_hwb_ioctl.c:650-767 | EInval exactly for an unpinned caller or a requested window in use, ENoDev exactly for a caller that does not participate, a window that does not exist, or, without a number, a PE that has one already or has none free |
| Replies.UnassignStatus | kmod/a64fx_hwb_ioctl.c:797-891 | ENoDev exactly for a pinned caller whose group is not registered, EInval exactly if unpinned or without a window whose register names the blade |
| Replies.OtherStatus | kmod/a64fx_hwb_main.c:81-119 | open, close and reset succeed |
| Counters.StepCounters | kmod/a64fx_hwb_ioctl.c:579-864 | in any state with the invariant each assignment counter grows by one at a successful assign of its blade, re-assigns included, shrinks by one at a successful unassign or a leave by an assigned CPU, and moves at no other call; a new one is zero |
| Counters.CountersExact | kmod/a64fx_hwb_ioctl.c:738-742 | from counters equal to the number of assigned CPUs, with or without leaked windows, a call keeps them so if and only if it is not a re-assign |
| Refinement.LeaveParts | kmod/a64fx_hwb_ioctl.c:546-601 | a free by another thread of the group removes exactly the caller's CPU and window and reprograms the blade, and frees the allocation in the same step when nobody is left |
| Counting.BookkeepingIsAbstract | kmod/a64fx_hwb.h:39-73 | in every reachable state num_tasks, every num_allocs, bb_active, cpumask, assign_mask and the window table (-1 for none) are functions of the abstract map, and assign_count is at least the size of its mask |
| Invariant.NewAllocationInv | kmod/a64fx_hwb_ioctl.c:155-199 | a new allocation on an inactive blade adds exactly one live entry and keeps the invariant |
| Invariant.ShrinkInv | kmod/a64fx_hwb_ioctl.c:581-587 | taking a CPU out keeps the invariant, with the blade mask reprogrammed unless nobody is left |
| Invariant.TakeWindowInv | kmod/a64fx_hwb_ioctl.c:726-746 | reserving a free window keeps exclusivity, reservation and mask bookkeeping |
| Invariant.ClearWindowInv | kmod/a64fx_hwb_ioctl.c:572-580 | giving a held window back keeps the invariant whatever the register write is |
| Invariant.UnregisterInv | kmod/a64fx_hwb_ioctl.c:321-345 | unregistering removes exactly the group's live allocations and its mapping |
| Release.FreeAllocationFreed | kmod/a64fx_hwb_ioctl.c:217-271 | free_allocation is complete and framed: exactly the windows it holds leave bitmaps and registers, its blade bit is cleared, nothing else changes |
| Release.UnregisterFreed | kmod/a64fx_hwb_ioctl.c:321-345 | the list walk frees exactly the union of the group's allocations |
| Release.FreedTwice | kmod/a64fx_hwb_ioctl.c:330-336 | freeing two sets of blades in a row is freeing their union |
| Windows.StepTight | kmod/a64fx_hwb_ioctl.c:697-746 | on the abstract machine: no window leaks in a step if and only if the call is not a re-assign by number |
| Windows.StepAgree | kmod/a64fx_hwb_ioctl.c:564-580 | on the abstract machine: bitmaps and registers still agree after a step if and only if it is not a misdirected free |
| Windows.DirectedLeaveAgrees | kmod/a64fx_hwb_ioctl.c:564-580 | the intended free, with the write to the released window, always keeps agreement, and the written one is that step when window 0 is released |
| Windows.OwnedIffTight | kmod/a64fx_hwb_ioctl.c:714-742 | on the abstract machine: while registers agree, every valid one names a barrier that uses it if and only if no window has leaked |
| Accounting.RegistersOwned | kmod/a64fx_hwb_ioctl.c:714-742 | the same for the driver state: every valid window register names the blade of a live allocation that holds the window, if and only if no window has leaked |
| Directed.DirectedOutcome | kmod/a64fx_hwb_ioctl.c:564-587 | a call of that driver replies and changes lists, counters, bitmaps and blade registers as the written one; a leave that releases a window clears that register of that PE and no other, any other call writes the window registers as the written one |
| Directed.DirectedStepAgrees | kmod/a64fx_hwb_ioctl.c:564-580 | the driver whose leave writes the released window keeps invariant and agreement at every call, and is the written driver when the call is not misdirected |
| Directed.DirectedRunAgrees | kmod/a64fx_hwb_ioctl.c:564-580 | over whole runs, without any condition on the calls |
| Accounting.StepExact | kmod/a64fx_hwb_ioctl.c:697-746 | one call keeps bitmap and counter exact if and only if it is not a re-assign |
| Accounting.RunExact | kmod/a64fx_hwb_ioctl.c:697-746 | a run is exact throughout if and only if it has no re-assign |
| Accounting.ExactBitmap | kmod/a64fx_hwb_ioctl.c:740-742 | in an exact state the bitmap of a PE is the set of windows held there |
| Accounting.StepHwAgrees | kmod/a64fx_hwb_ioctl.c:564-580 | one call keeps bitmaps and registers in agreement if and only if it is not a misdirected free |
| Accounting.RunHwAgrees | kmod/a64fx_hwb_ioctl.c:564-580 | a run agrees throughout if and only if it has no misdirected free |
| Accounting.InitExact | kmod/a64fx_hwb_main.c:157-170 | at module load the accounting is exact and bitmaps agree with registers |
| Accounting.InvAbs | kmod/a64fx_hwb_ioctl.c:697-746 | a used window is reserved, used by one barrier only, and by a participant |
| Counting.Conservation | kmod/a64fx_hwb_ioctl.c:184-195 | the allocation counters of all tasks add up to the number of live allocations and of set active bits |
| Counting.AllocateComplete | kmod/a64fx_hwb_ioctl.c:406-450 | allocate succeeds exactly if the mask is valid and a blade is free, with the least one; failure means as many live allocations as blades and changes no table |
| Counting.AssignComplete | kmod/a64fx_hwb_ioctl.c:673-751 | automatic assign succeeds exactly if pinned, owned, participating, without a window and one is free; it gets the least free one |
| Counting.WindowsExhausted | kmod/a64fx_hwb_ioctl.c:701 | without leaks, no free window means as many distinct allocations hold one on that PE as it has windows |
| Counting.MaskAgreement | kmod/a64fx_hwb_ioctl.c:182-195 | a live allocation's blade mask is the one-to-one image of its non-empty participants, all in one CMG |
| Properties.UnassignComplete | kmod/a64fx_hwb_ioctl.c:838-871 | while registers agree the blade-mismatch branch is never taken: unassign succeeds exactly if pinned, owned and a window is held |
| Properties.AssignUnassignRoundTrip | kmod/a64fx_hwb_ioctl.c:697-746 | a successful automatic assign followed by unassign succeeds and restores the whole state |
| Properties.StepParticipants | kmod/a64fx_hwb_ioctl.c:515-615 | an allocation ends exactly by owner free, owner close, reset or its last participant leaving; otherwise only a leaving thread's own CPU goes |
| Properties.StepNewBarrier | kmod/a64fx_hwb_ioctl.c:433-444 | a new barrier comes from an allocate call, with exactly the given participants |
| Properties.ParticipantsOnlyShrink | kmod/a64fx_hwb_ioctl.c:515-615 | over any run in which an allocation stays, its participants only shrink and its owner is the same |
| Properties.OwnerClose | kmod/a64fx_hwb_main.c:92-119 | a close by the registering thread removes exactly its group's allocations and windows |
| Properties.CloseCleansUp | kmod/a64fx_hwb_main.c:99-115 | that close cleans up if and only if the open counter is positive |
| Properties.ClosesOwners | kmod/a64fx_hwb_main.c:92-119 | after a sequence of closes no group is left if and only if, while the open counter was positive, every registering thread has closed |
| Properties.AllClosed | kmod/a64fx_hwb_main.c:92-119 | the task list is then empty, if and only if; then no blade is active and without leaks no window is reserved |
| Properties.FreedBladeKeepsMask | kmod/a64fx_hwb_ioctl.c:257-261 | after a free the blade is inactive but its register keeps the old, non-empty mask |
| Properties.ResetIsInit | kmod/a64fx_hwb_ioctl.c:942-987 | from any reachable state reset re-establishes the initial state with exact accounting and agreement |
| Examples.MisdirectedFree | kmod/a64fx_hwb_ioctl.c:564-580 | a run from module load in which a free invalidates another allocation's window, whose unassign then fails |
| Examples.LeakedWindow | kmod/a64fx_hwb_ioctl.c:714-746 | a run from module load after which a window is reserved although no allocation is left |
| Examples.SkippedCleanup | kmod/a64fx_hwb_main.c:99-115 | a run from module load, with a reset in it, after which an owner's close leaves its allocation |
| Barrier.StepKeeps | README.md:36-58 | every read, write, poll or LBSY update keeps the inductive invariant of the barrier |
| Barrier.WritesCount | README.md:38-53 | along any run a PE has written its BST bit once per completed round, and once more while it waits |
| Barrier.Safety | README.md:36-58 | when a PE leaves a round, every participant has written its bit for that round |
| Barrier.RoundsClose | README.md:36-58 | two participants are never more than one round apart |
| Progress.StepProgress | README.md:36-58 | every step that changes the state uses exactly one unit of a measure |
| Progress.NoDeadlock | README.md:36-58 | unless all participants are done, some step changes the state |
| Progress.Termination | README.md:36-58 | a run without idle steps of n rounds has at most 3n steps per participant and n updates, and exactly that many when all are done |
| Shrinking.ShrinkExact | kmod/a64fx_hwb_asm.c:86-107 | after a blade in use is reprogrammed with part of its mask, every run of the remaining participants is safe and live if and only if their places and LBSY allow it |
| Shrinking.ShrinkKeepsInvariant | kmod/a64fx_hwb_asm.c:86-107 | the barrier's inductive invariant holds again for some history if and only if, with LBSY 0, nobody waits for a 1, and with LBSY 1, all are at work or all wait for a 0 |
| Shrinking.HealthyCorrect | README.md:36-58 | every state of every run is safe and live from a state with the invariant, or with one participant that has yet to write a 0 |
| Shrinking.StuckDeadlocks | README.md:42-58 | with a participant that waits for a 1 while its own bit is 0, the others can only run into a deadlock |
| Isolation.StepIsolated | kmod/a64fx_hwb_asm.c:140-241 | with agreeing windows a step of one barrier is its own step and no other barrier sees it |
| Isolation.RunIsolated | kmod/a64fx_hwb_asm.c:140-241 | in any interleaving every barrier sees the run of its own steps |
| Isolation.WriteIsRegisterWrite | kmod/a64fx_hwb_asm.c:210-241 | a thread's write is the register write through the window that its allocation holds |
| Isolation.ReadIsRegisterRead | kmod/a64fx_hwb_asm.c:186-208 | a thread's read and poll see LBSY of the blade that its window register names, and 0 if that register is not valid |
| Isolation.WriteTouchesOwnBit | kmod/a64fx_hwb_asm.c:210-241 | a BST write changes one bit of one blade, the writer's own |
| Isolation.DriverBarriersSafe | kmod/a64fx_hwb_asm.c:186-241 | all live barriers of an agreeing driver state are safe at once |
| World.StepWrites | kmod/a64fx_hwb_ioctl.c:110-115 | a call never reads the blade registers and changes them by at most one accepted write |
| World.OldBarrier | kmod/a64fx_hwb_ioctl.c:581-587 | a call reprograms a barrier that stays if and only if its participants change, and with the remaining ones |
| World.NewBarrier | kmod/a64fx_hwb_ioctl.c:187-195 | a new barrier is programmed with its participants |
| World.CallSound | kmod/a64fx_hwb_ioctl.c:406-987 | a barrier with unchanged participants does not notice a call; a new one is in working order; a shrunk one keeps its remaining threads where they are and is in working order if and only if the call did not disrupt it |
| World.ShrinkOutcome | kmod/a64fx_hwb_ioctl.c:581-587 | a shrunk barrier has only safe and live runs if and only if the call did not disrupt it |
| World.ActKeeps | kmod/a64fx_hwb_ioctl.c:406-987 | from a state in order an action leads to a state in order if and only if it is neither a misdirected nor a disrupting free |
| World.RunInOrder | kmod/a64fx_hwb_ioctl.c:406-987 | a run of calls and barrier steps stays in order throughout if and only if it has no such free |
| World.SyncSound | README.md:36-58 | a barrier step leaves every live barrier in working order and only its own barrier moves |
| World.RunUndisturbed | kmod/a64fx_hwb_ioctl.c:406-987 | while its participants stay, a barrier runs as if alone whatever harmless calls and other barriers are interleaved |
| World.CallWritesHardware | kmod/a64fx_hwb_ioctl.c:110-115 | the blade registers of the running barriers after a call are those that the driver's writes leave |
| World.ReachableInOrder | kmod/a64fx_hwb_ioctl.c:406-987 | every state reachable from load by barrier steps and harmless calls in any order is in order: the driver's invariant, agreement, and every live barrier's own invariant |
| World.AlwaysSafe | README.md:36-58 | in every such state every live barrier has only safe and live runs, its participants are at most one round apart, and nobody leaves a round before every participant has written its bit for it |
| World.NeverBlocked | README.md:36-58 | in a state in order a fully assigned barrier that is not done has an enabled step that changes it |
| World.UndisturbedBarrier | README.md:36-58 | safety over the whole history and the exact step count for a barrier inside the running system |
| Running.RunningBarrier | kmod/a64fx_hwb_ioctl.c:406-767 | a run of an allocate and two assigns from module load reaches a barrier to which all of these results apply |
| Running.BlockedByShrink | kmod/a64fx_hwb_ioctl.c:581-587 | a run from module load in which one thread waits for LBSY, the other frees, and no step can ever change the barrier again |
| Device.HwbDevice.NodeAt | kmod/a64fx_hwb.h:39-60 | an allocation object occurs at one list position only, so an update in place changes one allocation |
| Device.HwbDevice.WriteInit | kmod/a64fx_hwb_asm.c:78-110 | the blade register write on the device object, rejecting an empty mask |
| Device.HwbDevice.WriteAssign | kmod/a64fx_hwb_asm.c:140-172 | the window register write on the device object, with its range checks |
| Device.HwbDevice.WriteSync | kmod/a64fx_hwb_asm.c:210-241 | the BST write on the device object: reaches the blade its window names, if valid |
| Device.HwbDevice.GetTaskmap | kmod/a64fx_hwb_ioctl.c:275-289 | finds the first mapping of the thread group |
| Device.HwbDevice.GetAllocation | kmod/a64fx_hwb_ioctl.c:138-151 | finds the first allocation of the blade in the list |
| Device.HwbDevice.constructor | kmod/a64fx_hwb_main.c:223-232 | the loaded device stands for an initial state |
| MaskCheck.CheckCpumask | kmod/a64fx_hwb_ioctl.c:22-54 | accepts a mask for a CMG exactly if it has two CPUs, all online, and all known ones in that CMG |
| MaskCheck.UsableIsInCmg | kmod/a64fx_hwb_ioctl.c:22-54 | with exactly the table's CPUs online this is: all CPUs of the mask are in that CMG |
| MaskCheck.CheckIsStep | kmod/a64fx_hwb_ioctl.c:487-493 | the check computes the CMG that the allocate step uses |
| MaskCheck.CpumaskToPpemask | kmod/a64fx_hwb_ioctl.c:59-81 | the nested search gives the PE offsets of the mask's CPUs |
| MaskCheck.PpeMaskInjective | kmod/a64fx_hwb_ioctl.c:59-81 | different masks of one CMG have different PE masks |
| Driver.ReleaseCpu | kmod/a64fx_hwb_ioctl.c:228-254 | the PE search ends at the CPU's only PE and its window is released in record, bitmap and register |
| Driver.ReleaseAll | kmod/a64fx_hwb_ioctl.c:224-255 | the loop over the shrinking mask terminates and releases every assigned CPU's window once |
| Driver.FreeAllocation | kmod/a64fx_hwb_ioctl.c:217-271 | computes the free step of the state machine in place |
| Driver.UnregisterTask | kmod/a64fx_hwb_ioctl.c:321-345 | the loop frees from the list head and drops the mapping |
| Driver.FreeAndReap | kmod/a64fx_hwb_ioctl.c:536-545 | frees an allocation and drops the mapping with its last one |
| Ioctl.RegisterTask | kmod/a64fx_hwb_ioctl.c:292-318 | finds or creates the mapping of the group |
| Ioctl.NewEntry | kmod/a64fx_hwb_ioctl.c:167-185 | a fresh allocation object, all windows unassigned, at the head of the list |
| Ioctl.NewAllocation | kmod/a64fx_hwb_ioctl.c:155-211 | adds list entry, mask register and active bit unless the mapping already has the blade |
| Ioctl.AllocateOn | kmod/a64fx_hwb_ioctl.c:406-450 | computes the allocate step on a CMG |
| Ioctl.Allocate | kmod/a64fx_hwb_ioctl.c:453-511 | computes the allocate step with its mask check and reply |
| Ioctl.ReleaseOwnWindow | kmod/a64fx_hwb_ioctl.c:564-580 | clears the caller's record and bitmap bit, and the register of window 0 |
| Ioctl.Shrink | kmod/a64fx_hwb_ioctl.c:581-587 | takes the caller's CPU out and reprograms the blade with the rest |
| Ioctl.Leave | kmod/a64fx_hwb_ioctl.c:546-603 | computes the leave step, with the register write to window 0 |
| Ioctl.Free | kmod/a64fx_hwb_ioctl.c:515-615 | computes the free step and its reply |
| Ioctl.Choose | kmod/a64fx_hwb_ioctl.c:697-724 | picks the window that an assign tries: recorded, least free or asked for, or refuses |
| Ioctl.TakeWindow | kmod/a64fx_hwb_ioctl.c:728-742 | programs the window register and records the window in table, bitmap, mask and counter |
| Ioctl.AssignAt | kmod/a64fx_hwb_ioctl.c:690-751 | with the allocation found: participation, choice of the window, range and use checks, and the reply |
| Ioctl.Assign | kmod/a64fx_hwb_ioctl.c:650-767 | computes the assign step and its reply |
| Ioctl.GiveWindow | kmod/a64fx_hwb_ioctl.c:848-864 | undoes exactly these records for the held window |
| Ioctl.Unassign | kmod/a64fx_hwb_ioctl.c:797-891 | computes the unassign step and its reply |
| Ioctl.Open | kmod/a64fx_hwb_main.c:81-90 | counts one more open file |
| Ioctl.Close | kmod/a64fx_hwb_main.c:92-119 | computes the close step |
| Teardown.ResetPe | kmod/a64fx_hwb_ioctl.c:921-940 | clears the PE's windows; its BST and blade writes have no effect |
| Teardown.DeleteTasks | kmod/a64fx_hwb_ioctl.c:956-971 | the nested list loops terminate with an empty list |
| Teardown.Reset | kmod/a64fx_hwb_ioctl.c:942-987 | computes the reset step |
| Calls.Call | kmod/a64fx_hwb_main.c:121-155 | every call on the objects is the state machine's step, keeps the invariant and is an abstract step |
| Calls.Serve | kmod/a64fx_hwb_main.c:121-155 | every sequence of calls on the objects simulates an abstract run with the same replies |
| PeTable.FillTable | kmod/a64fx_hwb_main.c:225-228 | after all CPUs have entered themselves, in any order, the table holds each at its place and nothing else |
| PeTable.OrderIrrelevant | kmod/a64fx_hwb_main.c:157-170 | the table depends only on which CPUs are online |
| PeTable.GetMaxPePerCmg | kmod/a64fx_hwb_main.c:172-196 | counts the used entries of every CMG and returns the largest count |
| PeTable.CountsAreExact | kmod/a64fx_hwb_main.c:172-196 | the count of a CMG is the number of CPUs that sit in it |
| PeTable.GetPemap | kmod/a64fx_hwb_ioctl.c:85-99 | finds the entry among the counted ones, or none |
| PeTable.FoundIffDense | kmod/a64fx_hwb_ioctl.c:85-99 | the lookup finds every CPU if and only if the PE offsets in use are dense |
| PeTable.TableIsTopology | kmod/a64fx_hwb_main.c:157-196 | a dense table is a valid topology with exactly the online CPUs |
| Load.LoadModule | kmod/a64fx_hwb_main.c:223-232 | whatever the order of the CPUs, load ends in an initial state with the invariant |
| Registers.Core.WriteInitSyncBb | kmod/a64fx_hwb_asm.c:78-110 | puts the mask's low 13 bits into bits 32 to 44 of one blade's word and 0 everywhere else, or rejects a zero mask or a missing blade and changes nothing |
| Registers.Core.ReadInitSyncBb | kmod/a64fx_hwb_asm.c:48-76 | the mask is bits 32 to 44 and BST bits 0 to 12 of the blade's word, zero for a missing blade |
| Registers.Core.WriteAssignSyncWr | kmod/a64fx_hwb_asm.c:140-172 | puts valid into bit 63 and the blade into bits 0 to 2 of one window's word and 0 everywhere else, or rejects |
| Registers.Core.ReadAssignSyncWr | kmod/a64fx_hwb_asm.c:113-138 | valid is bit 63 and the blade bits 0 to 2 of the window's word |
| Registers.Core.WriteBstSyncWr | kmod/a64fx_hwb_asm.c:210-241 | changes the writer's bit in the word of the blade the window reaches, no other bit and no other word |
| Registers.Core.ReadBstSyncWr | kmod/a64fx_hwb_asm.c:186-208 | reads bit 20, LBSY, of the word of the blade the window reaches |
| Registers.Core.WriteHwbCtrl | kmod/a64fx_hwb_asm.c:23-46 | sets bits 62 (EL0) and 63 (EL1) and keeps all others |
| Registers.InitWordBits | kmod/a64fx_hwb_asm.c:86 | bit by bit, where the blade word has the mask and that it has nothing else |
| Registers.FieldBits | kmod/a64fx_hwb_asm.c:73-74 | bit by bit, where mask and BST are read from |
| Registers.AssignWordBits | kmod/a64fx_hwb_asm.c:146-154 | which bits of the window word are valid and blade, and that the rest is 0 |
| Registers.SyncWordBits | kmod/a64fx_hwb_asm.c:216-223 | the BST write changes exactly one bit of the blade word |
| Registers.InitRoundTrip | kmod/a64fx_hwb_asm.c:48-110 | a blade word decodes to the mask that was encoded, BST and LBSY clear |
| Registers.AssignRoundTrip | kmod/a64fx_hwb_asm.c:113-172 | a window word decodes to the valid bit and blade that were encoded |
| Registers.SyncRoundTrip | README.md:42-50 | changing one BST bit of a word changes one member of the decoded BST set |
| Registers.PackMask | kmod/a64fx_hwb_ioctl.c:68-79 | setting bits one by one gives a word with exactly the PE mask's bits, not zero for a non-empty mask |
| Registers.InitAgrees | kmod/a64fx_hwb_asm.c:81-86 | the word write is the abstract write if and only if the word is zero or has a bit inside the field |

## Left out

- Copying arguments from and to user space, the dispatch by request number and its fall-through after a reset (kmod/a64fx_hwb_main.c:146-151): decoded arguments and replies are the inputs and outputs of a call.
- The query of the own PE position and the read of the access control bits: a mask and a shift.
- The guard of allocate lets a CMG number equal to the number of CMGs pass (kmod/a64fx_hwb_ioctl.c:414); the mask check never yields that number, so the model has only numbers in range.
- The sysfs files, kernel object setup, module init error paths and exit: formatting and kernel objects.
- The fields win_blades (only ever written with -1), bw_active, win_mask, cmg bw_map and the unused structures of kmod/a64fx_hwb.h:76-125.
- Bit operations on window numbers beyond the word width: bitmaps are sets, in which such a number is never present.
- Truncation of CMG and blade numbers to 8 bits in allocations: both are below 8 on the chip.
- Spinlocks, preemption counting and cross-CPU calls: each call is one atomic step.
- Enabling and disabling EL0/EL1 access, except for the register word: it changes no bookkeeping.
- CPU hotplug, task exit without close, and reuse of pids.
- Linked lists are sequence-valued fields of shared objects, and the CPU numbers of a CMG object are a fixed sequence: link pointers and freed memory are not modelled; allocations, window tables and bitmaps are updated in place.
- Bitmaps and CPU masks are sets of numbers in the driver's objects; only Registers works on words.
- The threads of a freed barrier take no further steps in World; their windows are invalid, so they would write nothing and read LBSY as 0.
- The user-space library and the benchmark.
