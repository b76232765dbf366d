# Verified models of process, credential and file code in usac-linux

This project models the parts of the kernel tree under `practica1/usac-linux` whose correctness spans many
functions, many tasks or whole runs, and proves what they promise. `dafny verify dfyconfig.toml` checks everything.

* **Process tree.** `ProcessTree` models the stackless walk over the process forest, `Subreaper` the cached
  "has a subreaper above" flag under concurrent `fork` and `prctl`, `Sessions` the session and process-group
  machine of `setpgid` and `setsid`.
* **Clone.** `CloneUnwind` models the acquisitions of `copy_process` and its chain of error labels, `DupMmap` the
  copying of an address space, `StackCache` the lock-free per-CPU cache of kernel stacks and `StackLife` what becomes
  of each stack in it. `References`, `Sharing`, `SharingFrames`, `UnshareSteps`, `CloneSteps` and `SharingRuns` model who
  shares signal, handler, memory, file and fs structs while clone, unshare and exit interleave, and `SharingLaws` says
  what the flags of the two calls mean in every interleaving.
* **Credentials.** `Credentials` models the eight calls that set user and group ids, `AccessCheck` the credentials
  of `access()`.
* **Files.** `FilePositions`, `CopyRange` and `VectoredIo` model seeking, range copying and vectored transfers over
  wrapping 64-bit arithmetic (`Wrapping`), `OpenFile` the references taken by an open.
* **The rest.** `Sysinfo` models the rescaling of memory figures, `BootArgs` the tables handed to init,
  `MemoryLimits` the registry behind system calls 557 to 559 and every interleaving of the calls, `LimitList` their
  code on the linked list.

Code that updates memory in place is a class or a method with loops, proved against specification functions; code
that runs concurrently is a machine of atomic steps, and its theorems hold for every interleaving from the initial
states. The order is then always the same: each step keeps an invariant, every run keeps it, and the promised
property follows. Where a run's definition asks for a well-formed state before each step, that only makes the step
defined; the invariant implies it in every state reached. `SharingRuns.InitExists` shows that the sharing machine has an
initial state.

## Where the code does not do what one would expect

Each of these has a lemma with an input or a family of inputs, and a lemma or contract that says exactly when the
expected property holds.

* Two concurrent `PR_SET_CHILD_SUBREAPER` calls: one may return while a descendant is still unflagged
  (`Subreaper.ReturnedCallMayLeaveGap`); the flag is complete if and only if no walk in progress owes a visit to an
  unflagged child of a process that passes the flag on (`Subreaper.FlagExactly`).
* The error labels of `copy_process` undo in exact reverse order if and only if no kthread struct was acquired
  (`CloneUnwind.ReversedUnlessKthread`).
* A seek on an unsigned-offset file may wrap (`FilePositions.UnsignedSeekWraps`, `FilePositions.SeeksAgreeExactly`).
* A range copy from an unsigned-offset file may start past the end of the source (`CopyRange.PastTheEnd`); it lies
  inside the source if and only if its position is below 2^63 (`CopyRange.Files.CopyFileRange`).
* A finite file-size limit of 2^63 or more refuses every write (`CopyRange.HugeLimitRefusesAll`).
* The rescaling step of `do_sysinfo` gives right sizes if and only if the memory unit is a power of two
  (`Sysinfo.OtherUnitsAreWrong`). This is about the step alone; which units it receives is decided elsewhere.
* `init=` forgets to clear one argument slot, and giving a value again to the last name that fits the environment
  stops the boot (`BootArgs.StaleArgument`, `BootArgs.SpuriousLatch`, `BootArgs.StartedExactly`, `BootArgs.LatchExactly`).
* The manual promises -EINVAL for a negative memory limit (practica1/usac-linux/ManualProyecto3.md:218); the parameter is unsigned, so
  the limit is accepted as a huge one (`MemoryLimits.NegativeRefusedExactly`, `MemoryLimits.NegativeIsNeverExceeded`).
  The number of entries returned is stored as a 32-bit number (`MemoryLimits.CountExactly`).

## Model

| member | source | states |
|---|---|---|
| ProcessTree.WalkProcessTree | practica1/usac-linux/kernel/fork.c:3211-3241 | For every well-formed forest and every visitor, the loop with two cursors and no stack ends and makes exactly the visits of the recursive pre-order traversal, in that order: zero prunes, positive descends, negative stops everything |
| ProcessTree.RunIsPreOrder | practica1/usac-linux/kernel/fork.c:3211-3241 | Working off a list of processes, children first, is the recursive traversal |
| ProcessTree.KidsAre | practica1/usac-linux/kernel/fork.c:2680-2700 | The children lists of a process's threads hold exactly the tasks linked below one of its threads; each is a live group leader younger than the process |
| ProcessTree.VisitProgress | practica1/usac-linux/kernel/fork.c:3219-3230 | A visit either ends the traversal or leaves strictly less ahead of the cursor, and what is ahead is what the recursive traversal still has to do |
| ProcessTree.ClimbRemaining | practica1/usac-linux/kernel/fork.c:3233-3238 | Climbing through the real parent resumes with exactly the rest of the traversal |
| ProcessTree.NextThreadRemaining | practica1/usac-linux/kernel/fork.c:3219-3231 | Going on to the next thread of a process leaves out no child and repeats none |
| Subreaper.FlagExactly | practica1/usac-linux/kernel/sys.c:2289-2305 | In every reachable state, walks in progress or not, the flag is on every uncut descendant of whatever passes it on if and only if no walk owes a visit to an unflagged child of such a process; and it is only on descendants of past subreapers |
| Subreaper.SubreapersExactly | practica1/usac-linux/kernel/sys.c:2594-2600 | The same for every current subreaper, whose own children must be flagged too if its walk has not begun |
| Subreaper.FlagIsExact | practica1/usac-linux/kernel/sys.c:2289-2305 | In particular the flag is complete in every reachable state without a walk in progress |
| Subreaper.BothMayDescend | practica1/usac-linux/kernel/sys.c:2299-2304 | A run in which two walks read the flag of one process before either writes it, and both descend |
| Subreaper.UnflaggedIsAwaited | practica1/usac-linux/kernel/sys.c:2289-2305 | With walks in progress, an unflagged child of a flagged process is on the work list of some walk, so pruning at a flagged process loses nobody in the end |
| Subreaper.ReturnedCallMayLeaveGap | practica1/usac-linux/kernel/sys.c:2594-2600 | A run in which a completed call leaves a descendant unflagged, because another walk had flagged the child between them |
| Subreaper.StepKeeps | practica1/usac-linux/kernel/fork.c:2670-2708 | Fork, clone, starting a walk, each single visit and ending a walk keep the flag invariant |
| Subreaper.RunKeeps | practica1/usac-linux/kernel/sys.c:2289-2305 | So does every run of them |
| Subreaper.CallIsRun | practica1/usac-linux/kernel/sys.c:2594-2600 | A call that is not interleaved is one such run |
| Subreaper.CallFlagsDescendants | practica1/usac-linux/kernel/sys.c:2594-2600 | A call that is not interleaved flags exactly the caller's uncut descendants besides those flagged before |
| Subreaper.SignalFlags.SetChildSubreaper | practica1/usac-linux/kernel/sys.c:2594-2600 | The system call on the fields: the flag afterwards, and that the option may be switched off without touching it |
| Subreaper.SignalFlags.LinkProcess | practica1/usac-linux/kernel/fork.c:2680-2700 | Fork links the child at the end of the children of the caller, or of the caller's parent with CLONE_PARENT, and changes no other list; the child's parent process, the flag it inherits exactly from a flagged or subreaping parent, and no other flag changed |
| Subreaper.SignalFlags.LinkThread | practica1/usac-linux/kernel/fork.c:2698-2707 | A thread joins its caller's group at the end, with the caller's parent, and is in no children list |
| Subreaper.CloneLinks | practica1/usac-linux/kernel/fork.c:2625-2636 | In every state that keeps the invariant: whose child a forked process is, whom it has the flag from, and that the children a walk sees of any other process are as before |
| Sessions.RunKeeps | practica1/usac-linux/kernel/sys.c:1073-1142 | Every run of fork, thread creation, setpgid, setsid and removal keeps each process group inside one session, each session leader the leader of the group and session of its own pid, and the members of a group named by a live process in that process's session |
| Sessions.BootIsConsistent | practica1/usac-linux/kernel/sys.c:1214-1223 | The state after boot satisfies the same |
| Sessions.SetpgidKeeps | practica1/usac-linux/kernel/sys.c:1073-1142 | The one-member test of setpgid is enough to keep whole groups in one session |
| Sessions.SetsidFounds | practica1/usac-linux/kernel/sys.c:1225-1256 | In every reachable state a setsid that is allowed founds a session and a group that were empty, and is alone in both |
| Sessions.SessionsAreFixed | practica1/usac-linux/kernel/sys.c:1214-1256 | Over any run a living process ends in its own session if one of its own tasks was let to call setsid, and otherwise in the session it was in; a session leader never changes group or session |
| Sessions.MovedGroupIsTheCallersSession | practica1/usac-linux/kernel/sys.c:1073-1142 | After a successful setpgid the moved process, its whole new group and the caller are in one session |
| Sessions.OnlyItsOwnOrItsParents | practica1/usac-linux/kernel/sys.c:1102-1134 | A step changes group or session of one process at most, by its own call or by its parent's setpgid before it has called exec; processes and tasks come by clone and go by exit only |
| Sessions.ExecEndsTheParentsSay | practica1/usac-linux/kernel/sys.c:1106-1108 | Once a process has called exec, no run without calls of its own changes its group or session |
| Sessions.ForkInherits | practica1/usac-linux/kernel/fork.c:2625-2677 | Fork adds the child and nobody else to its caller's group and session, and CLONE_PARENT decides whose child it is |
| Sessions.ForkedMayBePlaced | practica1/usac-linux/kernel/sys.c:1073-1142 | Right after fork the parent and the child may each give the child a group of its own, and the child may found a session |
| Sessions.ThreadActsForItsProcess | practica1/usac-linux/kernel/sys.c:1076-1081 | Every thread may do with setpgid and setsid what the thread that made it may |
| Sessions.ArgumentsName | practica1/usac-linux/kernel/sys.c:1080-1083 | Which process is moved to which group, zeros included |
| Sessions.MayFoundAGroup | practica1/usac-linux/kernel/sys.c:1102-1119 | A process may put itself in a group of its own exactly when it leads no session, its own child aside |
| Sessions.MayJoinAnyGroupOfTheSession | practica1/usac-linux/kernel/sys.c:1120-1127 | Whoever may be moved may join the group of a process exactly when that process is in the caller's session |
| Sessions.PidTable.SetPgid | practica1/usac-linux/kernel/sys.c:1073-1142 | The code returns success exactly when the move is allowed for the whole group, changes only the moved process, and each error has its own condition: -EINVAL for a negative group or a thread, -ESRCH exactly for a process that is neither the caller nor its child, -EACCES exactly for a child in the session that has called exec |
| Sessions.PidTable.SetSid | practica1/usac-linux/kernel/sys.c:1225-1256 | The code returns the new session exactly when the caller's pid names no group and it leads no session, and otherwise changes nothing |
| StackCache.OnePlaceEach | practica1/usac-linux/kernel/fork.c:203-340 | In every interleaving on any number of CPUs each created stack is in exactly one place: one task, one cache slot, waiting for its grace period, or freed |
| StackCache.FreedOnce | practica1/usac-linux/kernel/fork.c:203-250 | A step that frees a stack frees one that was not freed, that no task has and that is not charged |
| StackCache.FreedForever | practica1/usac-linux/kernel/fork.c:203-250 | A freed stack is never handed out, cached or freed again |
| StackCache.ChargedAllOrNothing | practica1/usac-linux/kernel/fork.c:251-270 | A stack a task runs on has every page charged; one whose charges were dropped, that is cached or freed, has none |
| StackCache.StepKeeps | practica1/usac-linux/kernel/fork.c:552-579 | Each atomic step of allocation, release, delayed free and draining keeps the placement and the charges; a task that has finished with its stack still counts a reference to it |
| StackCache.RunKeeps | practica1/usac-linux/kernel/fork.c:1099-1204 | So does every interleaving |
| StackLife.ReferencesBalance | practica1/usac-linux/kernel/fork.c:575-579 | Over every run, while a task has its stack its reference count is what it was plus the references taken less those dropped |
| StackLife.LastPutDecides | practica1/usac-linux/kernel/fork.c:566-579 | The last reference releases the stack of a dead task and leaks another's; any other put only counts |
| StackLife.DeadTasksLeakNothing | practica1/usac-linux/kernel/fork.c:566-579 | If every task is dead when its last reference goes, no run leaks a stack |
| StackLife.LeakedForGood | practica1/usac-linux/kernel/fork.c:566-572 | A leaked stack is never cached and never freed by any run |
| StackLife.FirstReference | practica1/usac-linux/kernel/fork.c:272-331 | A task comes by a stack with one reference, once the last of its pages is charged |
| StackLife.AllocatesFresh | practica1/usac-linux/kernel/fork.c:305-331 | A fresh stack leaves the cache alone; without memory its caller ends up without a stack and nothing else changes |
| StackLife.ReusesCached | practica1/usac-linux/kernel/fork.c:279-303 | A task that starts on a CPU with a cached stack can have it, the first slot before the second, without a new one being made |
| StackLife.RefusedIsFreed | practica1/usac-linux/kernel/fork.c:251-270 | A stack whose pages cannot all be charged can be uncharged and freed, and its task is without one |
| StackLife.ComesBack | practica1/usac-linux/kernel/fork.c:203-231 | From every state in which a task has finished with its stack, the stack can be brought to a slot or freed, with full slots after a grace period |
| StackLife.CallbackNeedsGrace | practica1/usac-linux/kernel/fork.c:225-231 | No run reaches the freeing callback of a stack without a grace period |
| StackLife.OfflineKeepsNone | practica1/usac-linux/kernel/fork.c:233-249 | In every run a CPU that is offline with its drain over has no stack left in its slots |
| StackLife.GoesDownAndUp | practica1/usac-linux/kernel/fork.c:233-249 | Going offline starts the drain at the first slot, and a CPU comes back as it was |
| CloneUnwind.UndoneIsReversed | practica1/usac-linux/kernel/fork.c:2732-2793 | For every flag combination and failing call, the label entered undoes, in reverse order, what was acquired, the kthread struct aside |
| CloneUnwind.UndoneIsGained | practica1/usac-linux/kernel/fork.c:2732-2793 | It undoes each acquired thing exactly once and nothing else |
| CloneUnwind.ReversedUnlessKthread | practica1/usac-linux/kernel/fork.c:2779-2793 | The order is the exact reverse if and only if no kthread struct had been acquired |
| CloneUnwind.FirstFailure | practica1/usac-linux/kernel/fork.c:2363-2538 | The first of the calls that are made and fail: it fails, and none before it does |
| CloneUnwind.Kernel.Unwind | practica1/usac-linux/kernel/fork.c:2732-2793 | Falling through the labels from any entry drops only held references and ends with what was held before the call |
| CloneUnwind.Kernel.Abort | practica1/usac-linux/kernel/fork.c:2593-2659 | Jumping from any failing call to its label restores every count and logs the reverse of what was acquired |
| CloneUnwind.Kernel.CopyProcess | practica1/usac-linux/kernel/fork.c:2245-2793 | A child is made exactly when the flags make sense and nothing it has to do fails; it then points to its caller's fs, files, memory, handlers, signal struct, namespaces and io context exactly where the flags ask for sharing, to its own elsewhere, and each counter has grown by exactly those pointers; otherwise every reference count and the delayed-signal list are as before, undone item by item in reverse |
| CloneUnwind.RefusedExactly | practica1/usac-linux/kernel/fork.c:2258-2319 | Which combinations of flags are refused, over the flags alone |
| CloneUnwind.ChildMadeExactly | practica1/usac-linux/kernel/fork.c:2320-2659 | No call fails if and only if nothing this clone has to do does; what it shares or goes without need not be made |
| CloneUnwind.PointersShare | practica1/usac-linux/kernel/fork.c:1709-1870 | The child has the caller's object exactly where the flags say so, and otherwise one of its own or none |
| CloneUnwind.PublishedAsAsked | practica1/usac-linux/kernel/fork.c:2680-2708 | Each object gains one reference if it is shared or new, and none otherwise |
| CloneUnwind.GainedCount | practica1/usac-linux/kernel/fork.c:2490-2538 | Each resource is acquired by one call, so what is held of it is what that call acquired |
| References.ShareCounts | practica1/usac-linux/kernel/fork.c:1709-1770 | Taking a shared reference keeps every counter equal to the number of its holders |
| References.MakeCounts | practica1/usac-linux/kernel/fork.c:1801-1870 | So does making a new object |
| References.ReleaseCounts | practica1/usac-linux/kernel/fork.c:961-965 | So does dropping a reference, which frees the object with the last one |
| References.FreeCounts | practica1/usac-linux/kernel/fork.c:948-960 | So does freeing an object outright that has one holder |
| UnshareSteps.FsSwapKeeps | practica1/usac-linux/kernel/fork.c:3460-3469 | Swapping in a private fs struct keeps the counts when others drop the old one at the same time; whoever takes the last reference frees it |
| SharingRuns.StepKeeps | practica1/usac-linux/kernel/fork.c:2564-2570 | Every single step of clone, its undoing, publication, unshare and exit, by any task, keeps the sharing invariant: counters, lifetimes, thread groups, and that a child under construction has each of its pointers exactly from the stage that makes it on |
| SharingRuns.RunKeeps | practica1/usac-linux/kernel/fork.c:2699-2708 | So does every interleaving |
| SharingRuns.CountsAreHolders | practica1/usac-linux/kernel/fork.c:1709-1870 | In every interleaving `sigcnt`, `nr_threads`, the sighand, mm and files counts and `fs->users` are the number of pointers to the object; nothing pointed to is freed, and an object without pointers is about to be freed by exactly one task |
| SharingRuns.SharingDiscipline | practica1/usac-linux/kernel/fork.c:2269-2298 | In every interleaving tasks are in one thread group exactly when they have one signal struct; then they share handlers, and tasks that share handlers share memory. What else a clone shares is stated by `SharingLaws.PublishedSharesAsAsked` |
| SharingRuns.UnshareSeparates | practica1/usac-linux/kernel/fork.c:3382-3499 | An unshare that succeeds leaves its caller the only holder of the fs and files structs it asked to have unshared |
| SharingRuns.FreedOutrightIsUnshared | practica1/usac-linux/kernel/fork.c:3337-3356 | Where a struct is freed without looking at its counter, nobody else points to it |
| SharingLaws.CloneSharesAsAsked | practica1/usac-linux/kernel/fork.c:1709-1870 | In every interleaving, from the moment a stage is passed the child has the caller's files, fs, handlers and memory exactly where the flags ask for it, one that nobody else has otherwise, and none before |
| SharingLaws.PublishedSharesAsAsked | practica1/usac-linux/kernel/fork.c:2680-2708 | In every interleaving the child that a clone publishes shares files, fs, handlers, memory, signal struct and thread group with its parent exactly as the flags say |
| SharingLaws.UndoneLeavesNothing | practica1/usac-linux/kernel/fork.c:2732-2793 | In every interleaving a child that was given up again points to nothing |
| SharingLaws.FailureGivesUp | practica1/usac-linux/kernel/fork.c:2593-2659 | Any failure, of a copy or after them, gives the child up and changes no counter by itself |
| SharingLaws.GivenUpForGood | practica1/usac-linux/kernel/fork.c:2732-2793 | A child that was given up is published by no run |
| SharingLaws.LeavesAlone | practica1/usac-linux/kernel/fork.c:1709-1870 | A step of one task changes no pointer of any other task, except those of the child it builds |
| SharingLaws.UnshareTouchesOnlyAsked | practica1/usac-linux/kernel/fork.c:3382-3499 | Whatever others do meanwhile, unshare leaves its caller the fs and files structs it has, unless it asked to separate that one and has not failed |
| SharingLaws.UnsharedFsIsNotCopied | practica1/usac-linux/kernel/fork.c:3337-3356 | An fs struct that nobody shares is not copied, so there is nothing to fail |
| SharingLaws.UnsharedFilesAreNotCopied | practica1/usac-linux/kernel/fork.c:3358-3374 | The same for files |
| SharingLaws.NoMemoryForFs | practica1/usac-linux/kernel/fork.c:3337-3356 | A shared fs struct that cannot be copied ends the call with nothing changed |
| SharingLaws.NoMemoryForFiles | practica1/usac-linux/kernel/fork.c:3358-3374 | Shared files that cannot be copied make the call give up what it had copied before |
| SharingLaws.RestDecides | practica1/usac-linux/kernel/fork.c:3427-3441 | Whether the rest of the call works decides whether the copies are swapped in or given up |
| SharingLaws.UnshareEnds | practica1/usac-linux/kernel/fork.c:3484-3499 | At the end the caller has what it had after the swaps, and nothing that was copied or replaced is left |
| SharingLaws.CloneCanComplete | practica1/usac-linux/kernel/fork.c:2242-2708 | In every state that keeps the invariant a task outside a call can clone with any flags in which threads share handlers and handlers memory |
| SharingLaws.UnshareCanComplete | practica1/usac-linux/kernel/fork.c:3382-3499 | And it can unshare whatever it asks for |
| DupMmap.ChildMm.DupMmap | practica1/usac-linux/kernel/fork.c:628-791 | The call succeeds exactly when every area goes well and the architecture's part does; then the child has the parent's areas without the uncopied ones, and on failure the copied prefix with a marker where it stopped. No area of the child's own is ever locked. Counters, totals and outstanding charge agree with what is in the tree |
| DupMmap.ChildMm.DuplicateArea | practica1/usac-linux/kernel/fork.c:681-735 | Copying one area takes its charge, policy, anon chain and file references together or gives all of them back |
| DupMmap.ChildMm.CopyArea | practica1/usac-linux/kernel/fork.c:681-755 | A copied area takes its place in the tree, or a marker does |
| DupMmap.ChildMm.ClearArea | practica1/usac-linux/kernel/fork.c:672-680 | An area that is not copied leaves the tree and the totals |
| DupMmap.EveryKeptAreaIsMirrored | practica1/usac-linux/kernel/fork.c:671-748 | The child has, in the parent's order and with nothing in between, an area with the same range, file and flags for each one not marked VM_DONTCOPY; it is unlocked, and without pages when it is wiped on fork |
| DupMmap.OwnAreasAreClean | practica1/usac-linux/kernel/fork.c:707-716 | Whatever becomes of the call, no area of the child's own is locked, was to be left out, or keeps the pages of a wiped one |
| DupMmap.StopsAtFirstTrouble | practica1/usac-linux/kernel/fork.c:671-757 | The first area that does not go well decides where the work stops and with which error |
| DupMmap.SucceedsExactly | practica1/usac-linux/kernel/fork.c:671-760 | The work ends without an error if and only if every area goes well and so does the architecture's part |
| DupMmap.TeardownBalances | practica1/usac-linux/kernel/fork.c:759-791 | Tearing down a half-built child uncharges exactly what was charged and touches none of the parent's areas |
| DupMmap.TotalsMatch | practica1/usac-linux/kernel/fork.c:650-680 | If the parent's page totals are the sums over its areas, the child's are the sums over those it keeps |
| DupMmap.CountersAreSums | practica1/usac-linux/kernel/fork.c:628-791 | Every counter has grown by the sum over the copied areas |
| Credentials.Contained | practica1/usac-linux/kernel/sys.c:529-740 | Over every run without the capability the real, effective and saved ids stay within the first three and the file-system id within those and its own first value, for uids and gids |
| Credentials.ReachableExactly | practica1/usac-linux/kernel/sys.c:667-740 | An unprivileged task can reach a triple of ids, in one call, if and only if each is one of its three |
| Credentials.DroppedForGood | practica1/usac-linux/kernel/sys.c:610-655 | After setuid with the capability and then losing it, no run brings another id back |
| Credentials.ReplacedForGood | practica1/usac-linux/kernel/sys.c:529-740 | The same after setreuid with both ids or setresuid with all three, by whoever was let to make the call |
| Credentials.SwapRegains | practica1/usac-linux/kernel/sys.c:529-596 | Swapping real and effective id always works unprivileged, and swapping again restores both |
| Credentials.SavedMoves | practica1/usac-linux/kernel/sys.c:573-576 | setreuid moves the saved id to the new effective one exactly when a real id is given, or an effective one other than the old real id |
| Credentials.PutAwayAndTakenBack | practica1/usac-linux/kernel/sys.c:529-655 | An effective id that is also the saved one can be put away for the real one and taken back, by setreuid and by setuid |
| Credentials.GivenIdsAreSet | practica1/usac-linux/kernel/sys.c:372-941 | After a call that succeeds, each id that was given is set and each that was not is as before; when the file-system id follows |
| Credentials.PermittedExactly | practica1/usac-linux/kernel/sys.c:372-941 | Which ids each of the eight calls may name, with and without the capability, as an equivalence |
| Credentials.ErrorsMean | practica1/usac-linux/kernel/sys.c:372-941 | What each error is for, in which order, and that no failed call changes anything |
| Credentials.NothingAsked | practica1/usac-linux/kernel/sys.c:687-696 | Asking setresuid for what is so already succeeds without memory, capability or security module and leaves the file-system id alone |
| Credentials.UserMatches | practica1/usac-linux/kernel/sys.c:482-493 | Privileged or not, the accounting user is that of the real uid in every committed state |
| Credentials.ShadowsUntilSet | practica1/usac-linux/kernel/sys.c:863-941 | The file-system id equals the effective id in every state until it is set on its own |
| Credentials.FamiliesApart | practica1/usac-linux/kernel/sys.c:372-941 | Runs of uid calls never change a gid, nor the other way round |
| Credentials.Task.SetReUid | practica1/usac-linux/kernel/sys.c:529-596 | The code gives the result and the credentials of the id machine, whose ids `Credentials.GivenIdsAreSet` and `Credentials.SavedMoves` state outright; an id that is not mapped is -EINVAL, and a failed call changes nothing |
| Credentials.Task.SetUid | practica1/usac-linux/kernel/sys.c:610-655 | As above |
| Credentials.Task.SetResUid | practica1/usac-linux/kernel/sys.c:667-740 | As above, with the early return when nothing would change and success when nothing is asked |
| Credentials.Task.SetFsUid | practica1/usac-linux/kernel/sys.c:863-900 | As above; the previous id is returned whether it changed or not |
| Credentials.Task.SetReGid | practica1/usac-linux/kernel/sys.c:372-427 | As for uids, the saved id included, for groups |
| Credentials.Task.SetGid | practica1/usac-linux/kernel/sys.c:438-472 | As above |
| Credentials.Task.SetResGid | practica1/usac-linux/kernel/sys.c:769-830 | As above |
| Credentials.Task.SetFsGid | practica1/usac-linux/kernel/sys.c:907-941 | As above |
| AccessCheck.SkipsExactly | practica1/usac-linux/fs/open.c:381-406 | Without AT_EACCESS the fast check skips building credentials if and only if they would leave fsuid, fsgid and effective capabilities as they are |
| AccessCheck.AnswersForTheRealUser | practica1/usac-linux/fs/open.c:408-460 | The view depends on real ids, permitted capabilities and namespace only, not on the ids and capabilities the caller acts with |
| AccessCheck.Task.Override | practica1/usac-linux/fs/open.c:408-460 | The built credentials are the real view of the caller's: real ids, and permitted or no capabilities by the real uid |
| AccessCheck.Task.Faccessat | practica1/usac-linux/fs/open.c:464-533 | The permission check runs under the real view whether or not it was built, the caller's credentials are back afterwards, and no memory is an error only when building was needed |
| FilePositions.VerifyRangeIsExact | practica1/usac-linux/fs/read_write.c:357-377 | The wrapped test accepts exactly when, on unbounded integers, the transfer starts and ends inside the file's range |
| FilePositions.File.SetPos | practica1/usac-linux/fs/read_write.c:56-68 | A position is stored exactly when it is in range; otherwise nothing changes |
| FilePositions.File.Llseek | practica1/usac-linux/fs/read_write.c:86-133 | With signed offsets the wrapped arithmetic does what unbounded integers would do; with unsigned ones the file ends up at the target modulo 2^64 if that is in its range, and stays otherwise |
| FilePositions.SeeksRelate | practica1/usac-linux/fs/read_write.c:86-133 | Seeks from the end and from the current position are seeks to the sum; data is where it is asked for and the only hole is the end |
| FilePositions.SeeksCompose | practica1/usac-linux/fs/read_write.c:96-119 | Seeking by two offsets in turn is seeking by their sum, and seeking back undoes a seek |
| FilePositions.SeeksAgreeExactly | practica1/usac-linux/fs/read_write.c:86-133 | On an unsigned-offset file a seek does what an unbounded one would do if and only if its target fits 64 unsigned bits or the wrapped target is refused, for every whence |
| FilePositions.OnlyRelativeSeeksWrap | practica1/usac-linux/fs/read_write.c:86-133 | Seeks to a given offset, to data or to a hole never differ from unbounded ones |
| FilePositions.UnsignedSeekWraps | practica1/usac-linux/fs/read_write.c:86-133 | Seeking back by one from the start of an unsigned-offset file lands at its very end |
| FilePositions.RunsStayInRange | practica1/usac-linux/fs/read_write.c:56-133 | Every run of seeks on a signed-offset file keeps the position between zero and the maximum, at the last position returned |
| FilePositions.UnsignedRunsStayInRange | practica1/usac-linux/fs/read_write.c:56-133 | No run of seeks on an unsigned-offset file leaves its range, wrapping or not |
| CopyRange.WriteCheckLimits | practica1/usac-linux/fs/read_write.c:1650-1673 | A write is cut to the least of the process limit, the file-system limit and the request, and refused exactly when it starts at or past a limit |
| CopyRange.HugeLimitRefusesAll | practica1/usac-linux/fs/read_write.c:1650-1673 | A finite limit works as a limit if and only if it is below 2^63; above, every position is refused |
| CopyRange.RangeChecks | practica1/usac-linux/fs/read_write.c:1457-1480 | The checks on offsets, sizes and overlap pass exactly when the unbounded ranges fit, and leave exactly the clipped length; for all positions read as unsigned, what passes is no more than the request, runs past 2^64 nowhere and does not overlap |
| CopyRange.CopyChecks | practica1/usac-linux/fs/read_write.c:1416-1480 | Together with modes and file types: the whole test before a copy, each error with its own condition, in the order of the code |
| CopyRange.ClippedIsLongest | practica1/usac-linux/fs/read_write.c:1457-1480 | A request that is let through is shortened no more than the source's end and the two limits demand |
| CopyRange.OneByteDecides | practica1/usac-linux/fs/read_write.c:1650-1673 | Between two files, with a limit that works as one, a request is let through exactly when one byte of it would be inside the limits |
| CopyRange.PassesVerification | practica1/usac-linux/fs/read_write.c:1487-1512 | What the checks leave of a request is never refused by the checks of the two transfers |
| CopyRange.ChunksCopyOriginal | practica1/usac-linux/fs/read_write.c:1487-1512 | Between disjoint ranges, chunks in any order, repeated or overlapping, leave at every moved offset the byte the source had at first |
| CopyRange.OrderIrrelevantIff | practica1/usac-linux/fs/read_write.c:1472-1476 | The result is independent of order and chunking if and only if the ranges are disjoint or the copy is onto itself |
| CopyRange.OverlapDepends | practica1/usac-linux/fs/read_write.c:1472-1476 | For every overlapping pair of ranges some contents and some cutting give a wrong copy |
| CopyRange.CoverCopies | practica1/usac-linux/fs/read_write.c:1487-1570 | Chunks that cover a length copy that length and touch nothing else |
| CopyRange.Files.CopyFileRange | practica1/usac-linux/fs/read_write.c:1487-1570 | For signed and unsigned offsets: a copy that moved bytes moved at most the request, never between overlapping ranges, as if from the original contents; it lies inside the source, and inside destination size and limits, if and only if the position is below 2^63; otherwise nothing changed. For positions below 2^63 a request that passes reaches the file system with exactly the clipped length |
| CopyRange.PastTheEnd | practica1/usac-linux/fs/read_write.c:1461-1466 | Every source position from 2^63 on gets past the test against the end of the source |
| VectoredIo.MovedIsPrefix | practica1/usac-linux/fs/read_write.c:753-784 | What is moved is a prefix of the joined segments, all of it exactly when no operation was short |
| VectoredIo.StopsInSegment | practica1/usac-linux/fs/read_write.c:769-781 | The bytes of the segments before the first that is not dealt with, and what was moved of that one; an error there is the result only if nothing came before |
| VectoredIo.MovesEverything | practica1/usac-linux/fs/read_write.c:760-784 | If every segment is dealt with, everything is moved |
| VectoredIo.Sink.LoopReadvWritev | practica1/usac-linux/fs/read_write.c:753-784 | The loop moves exactly that prefix, ending at the first short or failing segment, and returns its length, or the error exactly when nothing was moved |
| OpenFile.File.GetWriteAccess | practica1/usac-linux/fs/open.c:880-902 | Write access to inode, mount and backing mount is taken all or nothing, with the first error |
| OpenFile.File.TakeAccess | practica1/usac-linux/fs/open.c:923-930 | Either the reader's or writer's share is counted and the mode says so, or nothing changed |
| OpenFile.File.DropAll | practica1/usac-linux/fs/open.c:1014-1018 | The clean-up returns what was taken and makes a positive error negative |
| OpenFile.File.MarkOpen | practica1/usac-linux/fs/open.c:959-977 | Which capabilities an open file has, and that the late direct I/O test changes no reference |
| OpenFile.File.DoDentryOpen | practica1/usac-linux/fs/open.c:904-1025 | For every outcome of the callbacks the result is zero or negative, the references held are those of a file marked open and none otherwise, counter by counter; it is marked open exactly when no callback refused, the late direct I/O error included; and an opened file can seek, read, write and do direct I/O exactly as its driver and the request allow |
| OpenFile.SucceedsExactly | practica1/usac-linux/fs/open.c:923-957 | When a file ends up open, over the answers alone |
| OpenFile.FirstRefusalDecides | practica1/usac-linux/fs/open.c:923-957 | Which refusal is reported when several would be |
| Sysinfo.DoSysinfo | practica1/usac-linux/kernel/sys.c:2812-2841 | The loops that add up and shift find out whether the whole sum in bytes fits, and rescale exactly then |
| Sysinfo.ScaledIsExact | practica1/usac-linux/kernel/sys.c:2812-2841 | For every power-of-two unit the report is in bytes exactly when memory and swap in bytes fit 64 bits, and then each figure is the old one times the unit, without overflow |
| Sysinfo.OtherUnitsAreWrong | practica1/usac-linux/kernel/sys.c:2812-2841 | The rescaling step gives right figures if and only if the unit is a power of two, unless they are zero |
| Sysinfo.Shrink | practica1/usac-linux/kernel/sys.c:2887-2903 | The loop of the 32-bit form raises the unit until it is at least a page, and shifts the figures with it |
| Sysinfo.ShrinkLosesLessThanUnit | practica1/usac-linux/kernel/sys.c:2887-2903 | For every unit, shrinking loses less than one new unit of each figure; the new unit is between one and two pages unless it was not changed, and exactly a page for a power of two up to a page |
| Sysinfo.ZeroNeverReachesPage | practica1/usac-linux/kernel/sys.c:2890-2893 | From a unit of zero no number of doublings reaches a page |
| Sysinfo.NarrowIsExact | practica1/usac-linux/kernel/sys.c:2905-2919 | Narrowing to 32 bits keeps the report if and only if every figure fits |
| Sysinfo.ShrunkExactlyWhenNeeded | practica1/usac-linux/kernel/sys.c:2887-2889 | A consistent report is shrunk if and only if narrowing would change it |
| BootArgs.RepairEnvString | practica1/usac-linux/init/main.c:488-500 | In place, in both layouts, name and value become one string joined by an equals sign |
| BootArgs.StepKeepsBounds | practica1/usac-linux/init/main.c:188-190 | Whatever the option, the last slot of both tables stays free until the latch is set, and afterwards no string is stored |
| BootArgs.EachToItsTable | practica1/usac-linux/init/main.c:503-574 | Which parameters leave no trace, which become an environment string and which an argument, with the string that is stored |
| BootArgs.RunMatches | practica1/usac-linux/init/main.c:503-603 | For every command line that did not set the latch, the tables hold the arguments since the last `init=` and one string per name; a slot is stale exactly after an `init=` that came when all slots were full |
| BootArgs.LatchExactly | practica1/usac-linux/init/main.c:503-574 | An option sets the latch if and only if a table overflows, an argument runs into a stale slot, or the last name that fits is given again |
| BootArgs.StartedExactly | practica1/usac-linux/init/main.c:576-603 | Init sees the arguments asked for if and only if they do not reach up to a stale slot |
| BootArgs.StaleArgument | practica1/usac-linux/init/main.c:576-590 | For every table size and any strings: as many arguments as fit, `init=`, then one fewer start init with the last argument that should have been dropped |
| BootArgs.SpuriousLatch | practica1/usac-linux/init/main.c:550-561 | For every table size, once the names given fill the environment exactly, a new value for the last of them sets the latch although nothing overflows |
| BootArgs.LastValueWins | practica1/usac-linux/init/main.c:550-561 | For every command line and name, the environment holds the value given last |
| BootArgs.Boot.SetInitArg | practica1/usac-linux/init/main.c:503-522 | The scan stays inside the array and stores in the first free slot, or sets the latch |
| BootArgs.Boot.InitSetup | practica1/usac-linux/init/main.c:576-590 | Clears every argument slot but the first and the last two |
| BootArgs.Boot.UnknownBootoption | practica1/usac-linux/init/main.c:528-574 | Both scans stay inside their arrays; the tables afterwards are those of the option machine |
| MemoryLimits.CallRefines | practica1/usac-linux/kernel/usac/project3/syscall7.c:57-86 | Add and update answer as a map from pids to limits would, and the list goes on holding that map in order of arrival; a refused call changes nothing |
| MemoryLimits.GrantedExactly | practica1/usac-linux/kernel/usac/project3/syscall7.c:28-86 | A call is granted if and only if an administrator makes it, the process exists, has memory and uses no more than the limit, and the pid is new to an addition or known to an update; otherwise nothing changes |
| MemoryLimits.AnswersMean | practica1/usac-linux/kernel/usac/project3/syscall7.c:34-82 | Each answer has a condition of its own, as an equivalence |
| MemoryLimits.GrantedChanges | practica1/usac-linux/kernel/usac/project3/syscall7.c:67-80 | A granted call sets the limit of its own pid and no other, and no pid changes its place |
| MemoryLimits.RunRefines | practica1/usac-linux/kernel/usac/project3/syscall7.c:28-86 | So do all calls of any run |
| MemoryLimits.ListIsSound | practica1/usac-linux/kernel/usac/project3/syscall7.c:14-24 | From the empty list on, pids are distinct and positive and limits are not zero |
| MemoryLimits.EveryInterleaving | practica1/usac-linux/kernel/usac/project3/syscall7.c:57-208 | In every interleaving of calls that lock, walk the list step by step and unlock, and of readers that copy out later, the answers are those of the map called one at a time, the list holds it, and each reader's buffer is the newest entries of the one instant it held the lock |
| MemoryLimits.EveryLimitWasGranted | practica1/usac-linux/kernel/usac/project3/syscall7.c:28-209 | In every interleaving each entry has the limit of the last call granted for its pid, which an administrator made for a process that used no more; a pid without an entry was granted none |
| MemoryLimits.NeverPastTheRoom | practica1/usac-linux/kernel/usac/project3/syscall7.c:105-130 | In every interleaving the copying walk, bounded by the caller's maximum only, goes on exactly while the buffer sized by the counting walk has room |
| MemoryLimits.NegativeRefusedExactly | practica1/usac-linux/kernel/usac/project3/syscall7.c:34-36 | A negative limit is refused as invalid if and only if the pid is |
| MemoryLimits.NegativeIsNeverExceeded | practica1/usac-linux/kernel/usac/project3/syscall7.c:34-55 | A negative limit passes every check of a privileged call on a process with memory |
| MemoryLimits.UsageExactly | practica1/usac-linux/kernel/usac/project3/syscall7.c:53-55 | The usage compared with the limit is the resident size in KB if and only if that size in bytes fits 64 bits |
| MemoryLimits.CountExactly | practica1/usac-linux/kernel/usac/project3/syscall7.c:142-146 | The number of entries stored for the caller is right if and only if it is below 2^31 |
| LimitList.Limits.ListAdd | practica1/usac-linux/kernel/usac/project3/syscall7.c:78 | Linking a node in after the head keeps the nodes one ring in both directions and puts its entry in front |
| LimitList.Limits.Search | practica1/usac-linux/kernel/usac/project3/syscall7.c:60-65 | Following the links finds the first entry with the pid, or comes back to the head when there is none |
| LimitList.Limits.AddLimit | practica1/usac-linux/kernel/usac/project3/syscall7.c:28-86 | The code on the linked list answers and changes the entries as the map does, and keeps the ring |
| LimitList.Limits.UpdateLimit | practica1/usac-linux/kernel/usac/project3/syscall7.c:152-209 | As above; the entry is changed in place and no link is |
| LimitList.Limits.Collect | practica1/usac-linux/kernel/usac/project3/syscall7.c:102-133 | The buffer sized by the first walk is filled to its last slot and no further by the second, with the newest entries first |
| LimitList.Limits.GetLimits | practica1/usac-linux/kernel/usac/project3/syscall7.c:89-150 | Every error in its order, and what reaches the caller in each case, the count as a 32-bit number |

## Left out

- Sysinfo.Shrink: a unit of zero, for which the loop does not end (`Sysinfo.ZeroNeverReachesPage`), is excluded.
- AccessCheck.Task.Faccessat: the path walk, the permission check and the read-only test are one function of the credentials.
- OpenFile.File.DoDentryOpen: error sampling, read-ahead, page-cache flushing and notification are not modelled; the callbacks are outcomes that may also clear the seek flag.
- BootArgs.Boot.UnknownBootoption: sysctl aliases and old-style handlers are outcomes of the lookup, and the string is given already repaired.
- LimitList.Limits.GetLimits: the two copies to user memory either work as a whole or fail as a whole.
- SharingRuns.RunKeeps: the namespace set that unshare builds is not among the counted objects; on one error path the code does not release it (practica1/usac-linux/kernel/fork.c:3437-3441).
- Sessions.RunKeeps: a new pid is taken to be one that names no process, group or session, as the pid allocator provides; nested pid namespaces are not modelled.
- Subreaper.FlagIsExact: removal of processes and reparenting are not among the steps, since their code is not part of this model.
- StackCache.RunKeeps: page allocation and memory-cgroup charging are outcomes; preemption on one CPU is the interleaving of its tasks.
- CloneUnwind.Kernel.CopyProcess: scheduler, perf, audit, security, cgroup and pid allocation are opaque resources that are acquired and released.
- That the early return of setresuid equals its slow path: it does not, with the effective id absent the slow path resets the file-system id.
- Exec and exit beyond dropping references; ptrace; tracing; the rest of prctl, uname, rusage and times.
- default_llseek and the other seek variants, which differ from the modelled one on holes.
- System calls 1 to 6 of `kernel/usac`, which read one counter or call one library function each, and 8 to 10 of `project3`, which are commented out.
- The test programs, `/proc` modules, manuals and build files. One test expects the oldest limit first; the list is newest first, and the model follows the code.
