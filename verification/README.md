# lemond: a verified model

lemond is a Linux daemon that gives critical desktop processes realtime priority,
boosts the foreground application, and kills the largest process when memory
stalls. This project models the bookkeeping it does around the kernel and proves
what that bookkeeping keeps, whatever the kernel and the daemon's own threads do
in between.

The kernel is an environment (`Kernel.dfy`): process instances in birth order,
each holding a pid until it is reaped. `Evolves` lets any number of births,
exits, exec calls and reparentings happen between two steps of the daemon; all
that never happens is that an instance changes its pid or comes back, that a pid
is given out while it is held, or that a stall total falls.

| file | part of the daemon |
|---|---|
| `Kernel.dfy`, `ProcessHandles.dfy` | process instances, and `from_pid` one system call at a time |
| `Ancestry.dfy` | the process cache and the walk along cached parent links |
| `Config.dfy`, `Scheduling.dfy` | the class of a process and the system calls that put it into effect |
| `FullPass.dfy`, `Cleanup.dfy`, `Adjuster.dfy` | full pass, single updates, messages, cleanup, and the gaps between them |
| `Population.dfy` | bringing the cache in line with `/proc` |
| `Daemon.dfy` | the five threads and two mutexes as one state machine beside the kernel |
| `DaemonSafety.dfy`, `DaemonHistory.dfy` | what holds over every run of it, and where a kill comes from |
| `DaemonHandlers.dfy` | what one message, one process event, one populate call and the listing of cleanup come to when their steps are interleaved with everything else |
| `DaemonAncestry.dfy` | which step can close a cycle of parent links, and why none does without pid reuse |
| `DaemonProgress.dfy`, `DaemonFairness.dfy` | deadlock freedom, and when owners of a mutex let go |
| `DaemonSchedules.dfy`, `DaemonStaleness.dfy`, `DaemonCleanup.dfy` | what passes, updates and cleanup make of the scheduling table over a run |
| `DaemonRuns.dfy`, `DaemonReuse.dfy`, `DaemonExit.dfy` | two runs that go wrong |
| `Oom.dfy`, `Psi.dfy`, `Text.dfy` | victim selection, stall accounting, text scanning |
| `Tunables.dfy` | saving, setting and restoring kernel tunables |
| `Maps.dfy`, `RemoteReads.dfy` | the maps parser and chunked reads of remote memory |
| `PreSuspend.dfy`, `Zram.dfy` | the allocate, barrier, free protocol and the one-worker-per-device map |

In the state machine (`Daemon.dfy`) a run is a list of actions: either the kernel
evolves, or one thread takes one step, which is one system call, one lock
operation, or one update of one process. The lists are arbitrary, so a theorem
about `Run` is about every interleaving. A step that would walk along a cycle of
parent links leaves the thread where it is: the walk goes on for ever. Program
points carry what the thread knows; a few also carry what the cache was when the
critical section began (`base`, `snapshot`), which no step ever reads to decide
anything.

Findings about the code that are stated as theorems:

- Cached parent links can form a cycle when a pid is reused while a cached handle
  names it as parent. Then the daemon can hang: whatever the configuration, there
  is a run after which the procmon thread owns both mutexes for good, because the
  walk it makes under them never returns (`ReuseHangsTheDaemon`). So deadlock
  freedom holds without any hypothesis (`NoDeadlock`), but that owners let go does
  not; it holds if no named pid is reused (`NoReuseNoCycle`, `HoldersFinish`,
  `WaitingThreadIsServed`, `OwnerLetsGo`). The hypothesis has to include handles
  whose status has been read but which are not in the cache yet. The exact
  conditions are `StepClosesCycleIff` for the step that closes a cycle and
  `OwnerCanLetGoIff` for the owner that cannot let go. Theorems that speak of the
  class of a cached process mean something where its walk ends. Each round of the
  endless walk also keeps a copy of a handle (src/main.rs:67), so the hang lasts
  until memory pressure wakes the thread that aborts the daemon when its own
  memory has grown (src/main.rs:679-693), which is not part of the state machine.
- `pidfd_open` is safe where it is because a read through the directory follows
  it; of all orders of the calls exactly those are safe (`OrderIsSafeIff`).
- An update that comes after cleanup can undo it: the daemon can end and leave a
  process with realtime priority although no call was refused
  (`LateUpdateUndoesCleanup`). What cleanup did stays if and only if no later
  update asks for something else than cleanup gave (`CleanThroughoutIff`); updates
  that leave a process untouched, or give it the normal class again, do no harm.
- Cleanup selects a process only if nobody between it and its critical ancestor is
  missing (`CleanupSelectsIff`).
- A foreground message whose first handle cannot be built leaves the previous
  foreground process boosted (`EarlyReturnLeavesBoost`, `EarlyReturnHappens`), and
  a message that goes through leaves exactly the processes that moved into or out
  of the foreground's subtree to the next full pass (`ForegroundGap`); a client
  message updates nothing at all (`ClientGap`).
- A tunable that fails to be applied loses all saved texts, so that exit takes
  nothing back and the tunables set before it stay (`Sysfs.WholeLife`,
  `FailedStartKeepsTweaks`).
- Cleanup stops at the first selected process that has gone, because its
  autogroup cannot be written; later processes keep what they were given
  (`Adjuster.Cleanup`, `CleanupCanStopShort`).
- A process that dies while the OOM thread reads its status ends the daemon
  (`SelectVictim`).

`is_critical` returns false for lemond itself as shipped, so nothing here says
that the OOM thread never picks lemond.

## Model

| member | source | states |
|---|---|---|
| ProcessHandles.FromPid | src/proc.rs:227-256 | With the kernel free to change between the four system calls, `from_pid` succeeds if and only if no call is refused and one single instance held the pid from the first call to the last with a readable exe link; then both descriptors and the parent pid belong to that instance, and the executable is its link less one ` (deleted)` suffix, or none for a link that is not UTF-8 |
| ProcessHandles.NameUnique | src/proc.rs:245-250 | A link admits only one such name |
| ProcessHandles.AdvanceKeepsOk | src/proc.rs:227-256 | Each call keeps the argument of the source comment: once the pidfd is open, a live directory means the same instance; once the status was read, both descriptors are the same instance for good |
| ProcessHandles.OrderIsSafeIff | src/proc.rs:227-241 | Among all orders of opening the directory, opening the pidfd and any number of reads through the directory, those in which success always means that both descriptors are one process are exactly those that open the pidfd after the directory and before the last read |
| Kernel.OneHolder | src/proc.rs:229 | At any moment at most one unreaped instance has a given pid |
| Ancestry.Parents | src/main.rs:62-72 | The loop returns the exact maximal chain of parent links, no longer than the number of present entries, with distinct pids when entries sit under their own pid, whenever the walk meets no cycle |
| Ancestry.WalkEndsIff | src/main.rs:62-72 | The walk ends if and only if it never follows a link twice |
| Ancestry.WalkNeverReturns | src/main.rs:62-72 | From a handle that reaches a cycle the loop is still running after any number of iterations |
| Ancestry.MaximalUnique | src/main.rs:62-72 | There is at most one finite result |
| Ancestry.LinksDistinct | src/main.rs:62-72 | A walk that ends follows pairwise different links, the missing last one included |
| Ancestry.BirthOrderEndsWalks | src/main.rs:62-72 | If every cached link leads to an earlier-born instance, every walk ends |
| Ancestry.EditFrame | src/main.rs:555-568 | Inserting, replacing or removing one entry leaves the ancestors of every process alone whose walk does not look that pid up |
| Ancestry.RemovalCutsWalks | src/main.rs:566-567 | Removing entries closes no cycle; it cuts each walk at its first link that is now missing |
| Ancestry.InsertClosesCycleIff | src/main.rs:558-559 | A handle that is filed under a new pid lies on a cycle afterwards if and only if its walk before asked for that pid |
| Ancestry.InsertKeepsWalksIff | src/main.rs:558-559 | If all walks end, they still do after an entry is added or replaced if and only if the new handle's walk without that entry does not ask for its pid, which can be found out beforehand |
| Scheduling.BaseName | src/main.rs:754-759 | The file name compared with the low-priority list is the part after the last slash |
| Scheduling.Position | src/main.rs:194 | The realtime priority counts from the first position in the list of critical executables |
| Scheduling.EarlierIsHigher | src/main.rs:188-196 | A program earlier on the list of critical executables has the higher realtime priority |
| Scheduling.UnlistedPriority | src/main.rs:188-196 | A critical process that is not on the list ranks with the eleventh program on it |
| Scheduling.ShippedPriorities | src/config.rs:23-46 | With the shipped list every priority lies between 1 and 99 |
| Scheduling.UpdateGives | src/main.rs:714-767 | When nothing is refused, one update gives each thread realtime, boosted, idle or normal scheduling, or leaves it alone, by an exact case distinction over: critical itself, some ancestor critical, the foreground pid that of the process or of some ancestor, the part of the path after the last slash on the low-priority list, excluded from realtime |
| Scheduling.ShippedGives | src/main.rs:714-767 | With the shipped lists and below gnome-shell, a granted update makes rustc SCHED_IDLE with nice 19, firefox normal with nice 0, pipewire SCHED_FIFO with priority 99, and sets only the nice value of another gnome-shell |
| Scheduling.SetAllBreaksOffFrom | src/main.rs:230-241 | The loop over the threads succeeds if and only if each is granted all its calls; otherwise those before the first that is not have what the class dictates, those after it are as before, and that thread and the autogroup have received exactly the calls granted |
| Scheduling.CallsMeetDictate | src/main.rs:117-228 | The sequence of system calls for one thread ends in exactly the policy, nice value, priority and reset flag that the class dictates |
| Scheduling.SetAllMeetsDictate | src/main.rs:230-241 | `set_all` over all threads succeeds if every call is granted, and whenever it succeeds every thread has what the class dictates |
| Scheduling.ClassesDiffer | src/main.rs:163-228 | Any thread tells two classes apart, but for executables excluded from realtime, where realtime and normal can ask for the same |
| FullPass.PassOutcomeUnique | src/main.rs:708-712 | The result of a full pass does not depend on the order of the map |
| FullPass.PassSettles | src/main.rs:708-767 | A full pass closes every gap, and a second one over the same cache changes nothing |
| FullPass.PassSparesOthers | src/main.rs:723-765 | A process that is neither critical nor below a critical one is left as it was |
| FullPass.ForegroundChangesClassIff | src/main.rs:742-765 | Changing the foreground pid changes the class of exactly the non-critical processes below a critical one that enter or leave the foreground's subtree |
| FullPass.ForegroundGap | src/main.rs:322-338 | After a foreground change and any set of single updates, an entry is stale if and only if its process was not updated and moved into or out of the foreground's subtree |
| FullPass.ForegroundGapIsBelow | src/main.rs:322-338 | When both named processes were updated, only strict descendants of one of them can be stale |
| FullPass.ClientChangesVerdictIff | src/main.rs:274-288 | A client message changes whether a process is critical only for the old and the new client, and only if the list and the switch disagree |
| FullPass.ClientGap | src/main.rs:340-342 | After a client message an entry can be stale only if the verdict on its process or an ancestor has changed, and where both classes ask for something it is stale exactly if they ask for different things |
| FullPass.EditKeepsClass | src/main.rs:555-568 | Editing one cache entry keeps the class of every process whose walk does not look it up |
| FullPass.EventGap | src/main.rs:554-569 | After an exec event with its single update, or an exit event without one, only processes whose walk looked the edited pid up can be stale |
| Adjuster.Adjuster.SetAll | src/main.rs:230-241 | The loop succeeds if and only if every thread is granted all its calls, and then every thread obeys the class; otherwise it breaks off in the first thread that is not, later threads being untouched, and a process that is gone has nothing to set |
| Adjuster.Adjuster.UpdateSingle | src/main.rs:714-767 | One update reclassifies one process by its cached ancestors, gives its threads what `UpdateGives` says when nothing is refused, and touches nothing else |
| Adjuster.Adjuster.UpdateAll | src/main.rs:708-712 | The pass gives every cached process the outcome of its class and, when nothing is refused, is a full pass in the sense of the lemmas above, in any order |
| Adjuster.Adjuster.ProcessMessage | src/main.rs:314-345 | The new state, the updates made and the result in every case, including both early error returns and an unchanged foreground pid |
| Adjuster.MessageGap | src/main.rs:322-338 | A foreground message that succeeds, with any change of the cache between its two locks, leaves stale only entries strictly below the old or the new foreground process and such as changed in between, themselves or on their walk; the next full pass settles them |
| Adjuster.EarlyReturnLeavesBoost | src/main.rs:326-337 | After an early return the previous foreground process itself is stale |
| Adjuster.BoostIsLeft | src/main.rs:326-337 | That happens to any boosted application whose parent is critical when the new foreground process is gone at once |
| Adjuster.TargetsInOrder | src/main.rs:328-337 | The processes updated are the new foreground pid, then the previous one |
| Cleanup.CleanupCoversIff | src/main.rs:274-288 | On one snapshot cleanup selects every process that an update may touch under any state, if and only if the daemon does not treat itself and its client as critical |
| Cleanup.ShippedCleanupCovers | src/config.rs:77 | With the shipped configuration cleanup covers every update, and executables excluded from realtime are classed as critical |
| Cleanup.CleanupSelectsIff | src/main.rs:354-357 | Of a snapshot from which processes have gone, cleanup selects one that is not critical itself if and only if a critical ancestor is left and nobody between them is missing |
| Cleanup.SnapshotHolds | src/main.rs:348-353 | The cache that cleanup collects holds every listed handle under its own pid and nothing else |
| Cleanup.PickedIff | src/main.rs:354-357 | Cleanup selects a listed process if and only if it has an executable and is critical or joined to a listed critical one by a sequence of listed handles, each the parent of the one before |
| Cleanup.CleanOneOutcome | src/main.rs:354-361 | One round ends a selected process with the normal scheduler, nice 0 and autogroup 0, or nice -20 and autogroup 0 if its executable is excluded from realtime; it succeeds exactly if no call is refused and the process is still there, and touches no other |
| Cleanup.GoneStopsShort | src/main.rs:354-361 | A selected process that has gone ends cleanup and leaves the next selected one as it was, although nothing about that one would be refused |
| Adjuster.Adjuster.CleanupOne | src/main.rs:354-361 | The loop body does what `CleanOneOutcome` says of one round |
| Adjuster.Adjuster.Cleanup | src/main.rs:347-363 | Cleanup succeeds exactly when no selected process is gone or refuses a call, and then exactly the listed processes that are critical or joined to a listed critical one by listed parents are cleaned up and all other rows are as before; up to the first failure every process is handled, after it none |
| Population.Population.Populate | src/main.rs:697-706 | The loop and the retain step yield exactly the listed pids whose retained or fresh handle is present |
| Population.OneCallSufficesIff | src/main.rs:557-559 | One call reaches the fixed point if and only if no empty entry hides a listed process that can be looked up |
| Population.TwoCallsSuffice | src/main.rs:697-706 | Two calls reach the fixed point from any cache |
| DaemonSafety.EffectDisciplined | src/main.rs:514-673 | Every step of every thread changes the cache and the state only under their mutexes and moves only its own locks |
| DaemonSafety.InvariantHolds | src/main.rs:479-695 | The invariant behind the theorems below holds after every run |
| DaemonSafety.CachedHandlesAreSound | src/main.rs:552-570 | After every run each present entry sits under its own pid, both its descriptors are one instance that has this pid, and no instance is cached twice |
| DaemonHistory.KillSafety | src/main.rs:589-670 | Every SIGKILL and mrelease of every run goes to the instance measured and judged not critical in that iteration, the largest of all eligible ones. The OOM thread began that iteration by reading the stall total, its next step read it again and found it grown, the next read that at most half of memory was available, the next that was not blocked locked the cache as it then was, and under the lock it measured every candidate, alive if a figure came of it |
| DaemonHistory.GrownTotalGoesOn | src/main.rs:598-664 | Once an iteration has found the stall total grown, at any later moment it is still under way, or has sent a SIGKILL, or has read that more than half of the memory is available |
| DaemonHistory.GrownTotalIsSeen | src/main.rs:596-605 | The second reading leads on exactly when the total has grown since the first, otherwise back to the top |
| DaemonHistory.ChosenVictimIsStruck | src/main.rs:636-659 | Once a victim is chosen with at most half of the memory available, it is sent a SIGKILL, has its memory released and is sent another one before the thread does anything else |
| DaemonHistory.BackAtTopMeansStruck | src/main.rs:648-668 | When the thread is back at the top of its loop, all of that has happened |
| DaemonHistory.KillsWhileItLives | src/main.rs:658-668 | The thread does not leave the kill loop while the victim is there and no call is refused |
| DaemonSafety.PopulateIsAtomic | src/main.rs:545-575 | However it is interleaved, a populate call turns the cache it found into what the call makes of it in one go |
| DaemonSafety.EventIsAtomic | src/main.rs:552-570 | An event changes at most the entry it names: exit removes it, exec replaces it |
| DaemonHandlers.MessageIsProcessed | src/main.rs:314-345 | The steps of one message, interleaved with everything else, leave the state and the table that `ProcessMessage` promises, with handles that were looked up and caches that were found by these very steps; it returns early exactly from a pid whose lookup failed. It must be left alone: nobody else changes schedules and the daemon is not ending |
| DaemonHandlers.EventIsHandled | src/main.rs:552-570 | Likewise the steps of one event: an exec of a whole process replaces its entry by what was looked up, a failure included, and updates the process with the entry in place; an exit removes the entry; an exec of a single thread and any other event change nothing |
| DaemonHandlers.PopulateLooksUp | src/main.rs:697-706 | The missing entries that a populate call fills in are what the lookups of these pids gave in this very call |
| DaemonHandlers.CleanupListsAll | src/main.rs:348-353 | Cleanup goes through every listed process whose handle could be built, and no others |
| DaemonSafety.ChangesNeedTheLock | src/main.rs:487-488 | A step of another thread leaves alone whatever a thread has locked |
| DaemonSafety.SnapshotsAreConsistent | src/main.rs:576-579 | For any number of steps of the others, what a thread has locked stays as the thread saw it |
| DaemonAncestry.ReportedParentOk | src/proc.rs:234-240 | Everyone who holds or held the parent pid that a live process reports was born before it |
| DaemonAncestry.NoReuseNoCycle | src/main.rs:552-570 | In every run in which no named parent pid is handed out again, cached links lead to earlier-born instances, form no cycle, and every ancestor walk ends |
| DaemonAncestry.StepClosesCycleIff | src/main.rs:558-567 | If all walks end before a step of any thread, they end after it unless the step files a handle whose walk without the entry asks for its own pid, and then they do not |
| DaemonAncestry.AcyclicThroughoutIff | src/main.rs:545-571 | All walks end at every moment of a run if and only if no step of it files such a handle |
| DaemonProgress.WaitingDescends | src/main.rs:320-336 | A thread waits only for threads of lower rank, and the owner of the cache lock waits for nobody |
| DaemonProgress.NoDeadlock | src/main.rs:514-648 | The wait-for graph has no cycle of any length in any reachable state |
| DaemonProgress.HoldersWork | src/main.rs:514-648 | Every step that a thread takes while it owns a mutex, is not blocked and is not in an endless walk brings it closer to holding none |
| DaemonProgress.HoldersFinish | src/main.rs:514-648 | If no named pid has been reused and only owners are scheduled, both mutexes are free after finitely many steps, whatever those steps are told from outside, and bystanders have not moved |
| DaemonProgress.WaitingThreadIsServed | src/main.rs:514-648 | From every state reached without reuse of a named pid every waiting thread can be served: only threads that own a mutex run, for finitely many steps, and its own next step takes the mutex, unless the daemon has ended |
| DaemonProgress.OwnerCanLetGoIff | src/main.rs:714-743 | In every reachable state the owner of the cache lock can let go of it by its own steps if and only if the walks it has to make before that end |
| DaemonProgress.BothLockedForGood | src/main.rs:552-563 | Once an owner is in an endless walk, both mutexes stay with it whatever the other threads and the outside do |
| DaemonFairness.OwnerLetsGo | src/main.rs:514-648 | In every endless run without reuse of a named pid, with births, exits and steps of all threads in any order, an owner that gets its turn again and again lets go, unless the daemon ends. For the state lock a turn counts only when the cache lock does not keep the owner waiting, which is strong fairness; for the cache lock every turn counts |
| DaemonFairness.MutexIsFreedAgain | src/main.rs:514-648 | If the threads that ever own a mutex get their turn again and again, in the sense of `OwnerLetsGo`, it is free again and again; of the others, the signal thread among them, nothing is asked |
| DaemonReuse.ReuseHangsTheDaemon | src/main.rs:552-570 | Under every configuration there is a run, with pid reuse, after which walks do not end and both mutexes belong to the procmon thread for good |
| DaemonSchedules.PassLeavesSettled | src/main.rs:576-579 | In every run in which no call is refused and nobody else changes schedules, a pass leaves the table in agreement with a full pass over the cache it went through until it lets go of the state lock, whatever the other threads do, unless the daemon is ending |
| DaemonStaleness.StaleHasCause | src/main.rs:314-345 | In every run in which walks end, no call is refused and nobody else changes schedules, an entry that became stale since some moment did so by a step since then that moved it into or out of the foreground's subtree, changed the verdict on it or an ancestor, changed it or an entry its walk looks up, updated it through a handle other than the cached one, or set it back |
| DaemonStaleness.StaleSinceLastPass | src/main.rs:576-579 | At any moment after a pass has gone through the cache only entries with such a cause since then can be stale |
| DaemonCleanup.ListingsHold | src/main.rs:347-353 | If no listing names a pid twice, the handles that cleanup builds are of different processes |
| DaemonCleanup.CleanupGoesThrough | src/main.rs:354-362 | Nothing but a round that fails keeps cleanup from the rest of its list |
| DaemonCleanup.RowStaysCleanIff | src/main.rs:163-241 | A cleaned process stays clean under an update if and only if it has no threads, the class is untouched, or the class is normal and both handles agree on the exclusion |
| DaemonCleanup.StepKeepsCleanIff | src/main.rs:714-767 | A step of any thread or of the outside keeps clean what cleanup has behind it if and only if it is not an update that asks for something else than cleanup gave |
| DaemonCleanup.CleanThroughoutIff | src/main.rs:530-540 | In every run in which no call is refused and nobody else changes schedules, everything cleanup has behind it is clean at every moment to the end if and only if no such update occurs |
| DaemonCleanup.CleanupHolds | src/main.rs:530-540 | Also in runs in which calls are refused: if no update at all hits a process that cleanup has behind it, all of those keep what cleanup gave them to the end |
| DaemonExit.LateUpdateUndoesCleanup | src/main.rs:534-540 | With a critical executable that is not excluded there is a run, with every call granted, after which the daemon has ended, its cleanup has succeeded, and a process it cleaned up is left with realtime priority |
| Oom.SelectVictim | src/main.rs:620-636 | The victim has the largest memory of all eligible entries, where status texts with printed fields count VmData plus VmSwap; it is the last such entry, and is unreadable only if all are; the selection panics exactly when nothing is eligible or a process dies while its status is read |
| Oom.MemoryIsSum | src/main.rs:624-628 | A status text with printed fields counts the number of its VmData line plus that of its VmSwap line, which can be missing, in the machine's word size; without a VmData line it has no figure |
| Oom.UnreadableDataIsUnknown | src/main.rs:624-628 | Nor has a status text whose first VmData line shows no number |
| Psi.PsiReader.Read | src/oom.rs:46-71 | Both totals are read before either is stored, the deltas are differences to the stored totals, and a panic stores nothing |
| Psi.PsiReader.ReadEach | src/oom.rs:46-71 | One reading after the other with the same reader reports the differences between successive totals and stores the last ones, unless one of the texts cannot be read |
| Psi.ReportsAddUp | src/oom.rs:62-68 | What was reported over many readings adds up to the growth of the stored totals, as long as these did not fall |
| Psi.NoUnderflowIff | src/oom.rs:62-65 | The subtraction is exact precisely when the total did not fall, and zero precisely when it did not change |
| Psi.DeltasTelescope | src/oom.rs:59-70 | Over totals that never fall, every delta is exact and the deltas add up to last minus first |
| Psi.DeltasTelescopeModulo | src/oom.rs:62-68 | Whatever the totals do, the sum is right up to a multiple of the word size |
| Psi.TotalsRead | src/oom.rs:53-60 | Both totals of a file in the kernel's format are read back |
| Psi.TotalIff | src/oom.rs:53-60 | A total is read exactly if some line has the key and the first such line ends in an equals sign and a number, which is the total |
| Psi.AfterLastEquals | src/oom.rs:55 | The number is what follows the last equals sign of the line |
| Text.ExtractNumReadsField | src/lib.rs:14-17 | A field in the kernel's format is read back, whatever surrounds it, if no earlier line has the same prefix |
| Text.ExtractNumReads | src/lib.rs:14-17 | Of a text made of lines, the field's being the only one with that prefix or missing, exactly the field's number is read, or none |
| Text.LinesUnlines | src/lib.rs:15 | Text made of lines is split into these lines |
| Text.ParseRadixIff | src/lib.rs:16 | Exactly the digits that stand for a number in range, with or without a plus sign, are parsed into that number |
| Tunables.Sysfs.Apply | src/main.rs:460-476 | On success every existing file holds its tweak and the saved texts are the earlier ones, empty for missing files; an error comes from the first tweak that does not go through and leaves the ones before it in place |
| Tunables.Sysfs.Revert | src/main.rs:439-459 | The assertion fails exactly when the lengths differ; saved texts that are not empty are written back, refused writes are passed over, and a missing file ends it early |
| Tunables.RestoresIff | src/main.rs:443-454 | Writing a saved text back restores the value whatever it is now, if and only if the file is a selector or its value has no opening bracket |
| Tunables.RoundTrip | src/main.rs:439-459 | Whatever others do to the values and whichever writes are refused, after taking back the first tweaks of the list a file that showed text has its value back if and only if it was written and its text is recoverable, or it was not written and held the value anyway; all other files are left alone |
| Tunables.Sysfs.WholeLife | src/main.rs:504-526 | Start, any changes by others, exit: the way back is taken if and only if every tweak went through, and then exactly the files named by `RoundTrip` end restored; otherwise nothing is written at exit |
| Tunables.FailedStartKeepsTweaks | src/main.rs:460-476 | With the compiled-in list a start that fails at the second tweak leaves the first in place |
| Tunables.SelectorRestores | src/main.rs:444-451 | The bracketed option of a selector file is extracted and selects itself again |
| Maps.LineReadsBack | src/proc.rs:262-285 | A line that describes a region is parsed into exactly that region |
| Maps.MapsReadBack | src/proc.rs:258-287 | A maps file whose lines describe regions is parsed into exactly these regions, trimming included |
| Maps.LineIsReadIff | src/proc.rs:262-283 | A line can be read exactly if it has five words, the first being two hexadecimal numbers joined by a dash, the third and fifth numbers |
| Maps.LinesAreReadIff | src/proc.rs:258-286 | Lines are read one region each, or the file is not read at all |
| RemoteReads.ReadAllMaps | src/proc.rs:289-317 | The requests issued are the chunks of the readable regions in order, and the count is what the kernel's answers add up to |
| RemoteReads.RequestsPartition | src/proc.rs:296-315 | The requests ask for exactly the bytes of the readable regions, each once and in order; none is empty, too long or outside its region |
| RemoteReads.ChunksCount | src/proc.rs:298-313 | A region takes as few requests as the chunk size allows |
| RemoteReads.CountBounded | src/proc.rs:305-311 | The count never exceeds the bytes asked for, and equals them exactly when every read is complete |
| RemoteReads.CountIsReported | src/proc.rs:305-311 | The count is the sum of the lengths reported by the reads that did not fail |
| RemoteReads.MapsToRequests | src/proc.rs:290-291 | From the text of the maps file to the requests: what is described as readable is what is asked for |
| PreSuspend.NoFreeBeforeAllAllocated | src/bin/pre-suspend.rs:55-79 | In every interleaving, once any thread has got past the barrier every thread has allocated its buffer |
| PreSuspend.BarrierOpensOnFullPool | src/bin/pre-suspend.rs:72 | At the step that opens the barrier all buffers are held at once |
| PreSuspend.SomeThreadMoves | src/bin/pre-suspend.rs:48-72 | Until everything is freed some thread can move |
| PreSuspend.MappedWhenOpen | src/lib.rs:34-43 | The memory mapped with all buffers held is whole pages, more than the target less one unit per thread and less than the target plus one page per thread |
| Zram.Writeback.Round | src/zram_util.rs:45-70 | With workers ending at any moment, a listed device whose worker had ended before the retain step gets a new one, any other keeps its own, and nothing else is spawned |
| Zram.Writeback.Visit | src/zram_util.rs:63-68 | A worker is spawned only for a zram device without an entry |

## Left out

- One update of one process, with its walk and all its scheduling calls, is one step of the state machine, and so is one round of cleanup; how the calls of cleanup and of an update interleave on the threads of one process is not modelled.
- That nobody else changes schedules, new threads of running processes included, is a hypothesis of the theorems on runs in `DaemonSchedules.dfy`, `DaemonStaleness.dfy` and `DaemonCleanup.dfy`.
- The scheduling table is addressed by process instance; the system calls name thread ids, and reuse of a thread id between listing and setting is not modelled.
- Autogroups are a field of each process; several processes sharing one autogroup are not modelled.
- Resource limits set for realtime processes (src/main.rs:176-187): their errors are only printed and nothing reads them back.
- Files whose kernel values depend on each other (`dirty_bytes` and its ratio) are modelled as independent.
- Reading the PPid line out of the status text (src/proc.rs:236-240): the kernel model answers with the parent's pid.
- Time limits, sleeping, polling and printing: every wait is a step that happens at any time or never. The 180 second limit of the kill loop is an arbitrary end of the loop.
- The thread that aborts the daemon when its own memory grows, and the sixth, disabled thread for zram writeback, are not in the thread state machine; the latter has its own model in `Zram.dfy`.
- Panics end the run for all threads, as in release builds, which abort on panic; poisoned mutexes of other builds are not modelled.
- Decoding of messages, the netlink socket, and the sockets themselves: the machine starts from decoded messages and events, in any order and with any pids.
- Executable and fd locking and gdb mlock are switched off in src/config.rs and consist of foreign calls.
- Unicode blanks in `split_whitespace` and `trim`: only the ASCII ones are modelled.
- `fault_in` (src/lib.rs:27-32) and the sum of the VRAM sizes are single loops without further consequences.
- src/autosuspend.rs, src/trace.rs, src/bin/client.rs and the display and memory experiments: plumbing around calls that are not modelled.
