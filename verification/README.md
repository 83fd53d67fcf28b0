# Proofs about checkpoint and restart in xnd

xnd checkpoints a tree of multi-threaded macOS processes and restarts it. A coordinator asks
every process to stop; inside each process a checkpoint thread signals all user threads and
waits for them at a barrier; every process writes an image; the coordinator writes a manifest
and lets everybody go on. On restart a forest of processes is forked again, each loads its
image, and all of them leave a common barrier.

This project models these parts of xnd and proves what they promise. `dafny verify dfyconfig.toml`
checks all of it.

| module | what it is about |
|---|---|
| ThreadSuspension, SuspensionInvariant, SuspensionTheorems | threads, signals and the barrier inside one process, as a transition system with one action per atomic step |
| ProgramTheorems, CompletionTheorems | what the program notices of checkpoints and restarts; that they can be completed, for any number of threads |
| SlipRun, AbortTheorems | what the two-load tests of a thread's state can do wrong: a run with a stale image; when the assertion of wait_for_exiting_threads fails |
| CheckpointProtocol, ProtocolInvariant, GlobalTheorems, SnapshotTheorems | coordinator, clients (each a whole thread system), FIFO channels, directories on disk, death of a process, crash and restart |
| ProcessTheorems | single processes between checkpoints |
| RetryTheorems, ProtocolRuns | a checkpoint that finds its directory in place; runs of the whole system with concrete states |
| Manifest | the scan for images that fills the manifest |
| Forest, ForestRestart | who forks whom on restart, and what parents, sessions and groups come out |
| Identity | the ids the coordinator gives out; they discharge what Forest assumes of ids |
| ImageFormat, ImageAbi, ImageContents, ImageIO | the image file: printer, parser, contents, and the writing and reading loops |
| FdTable, FdTheorems | tracked descriptors: the table, saving and restoring it; a process and its descriptors across a restart |
| Leb128, Frames, ThreadLists | LEB128 numbers, re-signing of stack frames, the two intrusive lists |
| Wrappers | two shared types |

## Assumptions

- A signalled thread enters the handler before it can execute `thread_exit`, and the test of
  `exiting` (xnd/thread_info.c:673) is atomic with the compare-and-swap at line 682. The code
  tests before it takes the lock. In the model `Exit` needs the state Running.
- A pending cancellation is not acted on inside the handler (pthread_cond_wait in thread_barrier
  is a cancellation point): in the model a thread dies only outside it.
- `xnd_assert` is compiled in, as with DEVELOPMENT=1 (Makefile:4). Without it some
  compare-and-swaps and both calls of the coordinator's barrier would not be executed at all.
- `LeftBeforeScan`: every thread has left the previous barrier before `threads_arrived` is reset
  for the next checkpoint. The theorems that need it name it. BarrierSafety, with no slip, does not.
- The theorems about the whole system (GlobalTheorems, SnapshotTheorems, RetryTheorems) hold of
  every run in which either that assumption holds of every client, or no client's last pass lets a
  thread slip. `AssumptionOf` tells the two apart. Nothing is assumed about slips under the first one.
- In these runs a process may end at any time, by exit, by a signal or by a failed assertion. It
  may exec only before the first checkpoint; EpochsAgreeIff says why.
- Only RestartResumesAnInstant and RestartStaysAtTheInstant, which load saved contexts, ask for
  clean images (`CleanDir`): no thread that slipped was alive when they were written.
- Processes join by launch, fork and exec only while the coordinator is between two checkpoints. A
  message arrives once and in order. Image files are written successfully. Writing to a closed
  connection fails, and does not end the coordinator by SIGPIPE.
- Forest: the demands of `WellFormed`. Identity.HeadersMeetForest proves those about ids; that a
  session leader is at least as old as its members and `GroupAssumption` remain. `KernelIds` is
  what the kernel guarantees about session and group ids.
- ImageContents: regions are disjoint and page aligned. WriteCkpt and WriteThenRead assume that no
  page of a region saved whole is written in part (`PartialFailure`); WriteRegion and
  WriteRegionThen say what happens if one is.
- Frames: the chain of frames ends and is 16-byte aligned; pointer authentication is abstract and
  stripping removes exactly a signature.
- FdTable, FdTheorems: tracked descriptors can be saved (fcntl, lseek and telldir succeed); an
  inherited descriptor's root is not itself overwritten before it is copied (`RootsAreIntact`);
  a process has fewer descriptors than the table has entries.

## Findings

Where the code does not do what one would expect: the member gives an input, the exact condition, or both.

| what | where | member |
|---|---|---|
| A thread that changes state between two loads of `th->state` falls through every test of the last pass. It may be suspended and not counted, so the barrier fills early and a context is written before it is saved. The barrier is safe exactly if nobody who slipped is alive. | xnd/thread_info.c:692-708 | SlipRun.SlipMakesTheImageStale, SuspensionTheorems.BarrierSafeIff |
| The assertion of wait_for_exiting_threads has the same race. It fails exactly for a thread outside the handler, which takes a slip, and for one that becomes ST_SUSPENDED between the two loads, which takes nothing: it can fail exactly if some listed thread is neither exiting nor joined nor suspended when the pass begins. | xnd/thread_info.c:753-757 | AbortTheorems.AbortWithoutSlip, AbortTheorems.AbortIff, AbortTheorems.AbortPossibleIff |
| A process that ends while the coordinator sends to everybody, or before it has completed its checkpoint, makes the coordinator give up; nothing else does. | xnd/coordinator/xnd_coord.c:695-727, 775-796 | GlobalTheorems.GivesUpIff |
| If the directory of an epoch already exists, which takes a crash, the coordinator removes it and every process stays in the pre-checkpoint barrier; the next checkpoint starts from there, without a request to them. | xnd/coordinator/xnd_coord.c:764-769 and 819 | ProtocolRuns.RestartFindsDirectory, RetryTheorems.DirectoryExistsIff, RetryTheorems.ReadyWhenIdle |
| If every process ends while the coordinator waits for XND_CKPT_READY, a checkpoint of nobody succeeds and the previous one is removed. A new manifest can be restarted from exactly if some process is left. | xnd/coordinator/xnd_coord.c:647-693, 798-803 | ProtocolRuns.NobodyLeftLosesAll, SnapshotTheorems.ManifestCompleteIff |
| A process that execs after the first checkpoint starts at epoch 0 again, and the handshake does not tell it the epoch. The epochs agree throughout exactly if no process does. | xnd/coordinator/xnd_coord.c:506-517 with xnd/xnd_lib.c:38 | GlobalTheorems.EpochsAgreeIff |
| A second launch from the same shell makes the coordinator abort: the pid table knows the parent, the process list does not. | xnd/coordinator/xnd_coord.c:527-529 | Identity.SecondLaunchFails, Identity.Registry.Launch |
| A root whose checkpointed group leader is neither itself nor its session leader is created by that leader and once more. | xnd/xnd_restart.cpp:161-166 and 203-208 | Forest.PipelineTailIsCreatedTwice, Forest.OneCopyIff |
| A process can lose its session: a grandchild that belongs to its grandparent's session is forked by a parent that was itself forked before the grandparent called `setsid`. | xnd/xnd_restart.cpp:169-182 | Forest.GrandchildLosesItsSession, Forest.RestoredIff |
| If every independent root was an orphan, create_orphan returns and the process goes on into `unreachable()`. | xnd/xnd_restart.cpp:244-250 | ForestRestart.Restart.ProcessTargets |
| After a partial page write the position is moved back twice as far as needed, and the next entry overwrites the end of the region. The record survives exactly if its last bytes happen to be the same. | xnd/writeckpt.c:124 | ImageIO.PartialWriteLosesAByte, ImageIO.WriteRegionThen |
| `dirty_only` is never set for regions outside the shared cache and malloc arenas. If it happens to be true, and the shortened size of such a region lies inside the cache, the reader expects a list of pages. | xnd/writeckpt.c:146-154 with xnd/vm_restore.c:331 | ImageContents.MisreadRegion, ImageContents.FramedIff |
| A source that has been saved is skipped by the next save, and nothing but a restart clears that mark. So from the second checkpoint on the offset of a file, and its flags, are those of the first one. | xnd/fd_table.c:196 | FdTheorems.SecondCheckpointKeepsTheOffset, FdTheorems.Process.CheckpointAndRestart |
| After dup2 of an untracked descriptor onto a tracked one the table keeps the entry of the replaced file, and a restart opens that file. The table stays right exactly in all other cases. | xnd/fd_table.c:313-317 | FdTheorems.UntrackedDupIsUndone, FdTheorems.Process.Dup2 |
| A restored descriptor is closed on exec exactly if it was, is the lowest one of its file, and the kernel happens to return its own number; dup2 drops the flag otherwise. | xnd/fd_table.c:66-76 | FdTable.Restorer.FdTableRestore, FdTheorems.Process.CheckpointAndRestart |
| Append and non-blocking mode that a program has switched off are switched on again. | xnd/fd_table.c:33-38 | FdTheorems.SavedIsReopened |

## Model

| member | source | states |
|---|---|---|
| SuspensionInvariant.UserStep | xnd/thread_info.h:122-142 | any step of user code (unsafe sections, create, join, exit) keeps the invariant, in every phase of the checkpoint thread |
| SuspensionInvariant.HandlerStep | xnd/thread_info.c:806-834 | any step of a signal handler keeps it |
| SuspensionInvariant.CkptStep | xnd/thread_info.c:559-607 | any step of the checkpoint thread keeps it |
| SuspensionInvariant.PassEnd | xnd/thread_info.c:671-717 | at the end of the last pass every live thread was counted, slipped, or is exiting, or runs because somebody slipped or left |
| SuspensionTheorems.RunInv | xnd/thread_info.c:540-607 | the invariant holds in every state of every run, restarts included |
| SuspensionTheorems.BarrierSafety | xnd/thread_info.c:626-653 | without a slip, from the return of barrier_arrival_wait to barrier_release the live, counted, arrived and listed threads are the same set; each waits in thread_barrier with its context saved, none is in an unsafe section, half created or exiting |
| SuspensionTheorems.BarrierSafeIff | xnd/thread_info.c:655-720 | with everybody out of the previous barrier, that holds if and only if no thread that slipped is alive |
| SuspensionTheorems.FrozenStateIsStable | xnd/thread_info.c:779-804 | between barrier and release no step changes memory, the thread list or a continuation |
| SuspensionTheorems.MemoryIsFrozen | xnd/thread_info.c:744-804 | this holds after slips too; only a context that is still being saved can be stale |
| SuspensionTheorems.ScanIsExact | xnd/thread_info.c:665-719 | when the last pass ends, no thread was missed and the count is the number of suspended threads, if and only if every live thread that slipped is exiting |
| SuspensionTheorems.NoThreadIsMissed | xnd/wrappers/pthread_wrappers.c:46-63 | threads created during the passes are not missed: every live thread is listed and exiting or suspended, and threads_expected is the number suspended |
| SuspensionTheorems.ListIsExpected | xnd/thread_info.c:744-777 | after wait_for_exiting_threads the list is exactly the suspended live threads, threads_expected of them |
| SuspensionTheorems.RestartKeepsUserState | xnd/thread_info.c:869-890 | from the jump into an image to the release of its threads the program is what it was when the image was written |
| SuspensionTheorems.RestartConservesThreads | xnd/thread_info.c:722-742 | each listed thread is recreated once, nobody arrives before the count is final, and the count is that of the image |
| ProgramTheorems.EveryRunHasAHistory | xnd/thread_info.c:540-607 | every run, restarts included, is one of the histories the following rows speak of |
| ProgramTheorems.UnsafeIffUnmatched | xnd/thread_info.h:122-142 | in every run a thread is ST_UNSAFE exactly while it has entered more unsafe sections than it has left; in user code and in the signal handler every enter has had its exit |
| ProgramTheorems.BarrierIsBalanced | xnd/thread_info.c:626-653 | at a safe barrier no thread has an unmatched enter, however deeply sections were nested |
| ProgramTheorems.LifeCycle | xnd/thread_info.c:428-445 | a descriptor is exiting, without a thread, or joined exactly if the thread has exited, ended, or been joined |
| ProgramTheorems.RunIsReplay | xnd/thread_info.c:806-834 | in every run memory, continuations and saved contexts are what the program's own steps, the saving of contexts and the restarts make of them; no other step of a handler or checkpoint thread changes any |
| ProgramTheorems.CheckpointsAreTransparent | xnd/thread_info.c:506-610 | leave all checkpoints and restarts out of a run, and the program is in the same state, if no image was written with a stale context |
| ProgramTheorems.VisitsChangeNothing | xnd/thread_info.c:806-890 | a thread comes back from the handler, through thread_restart too, with the continuation it had when it was interrupted |
| CompletionTheorems.CheckpointCompletes | xnd/thread_info.c:559-607 | for any number of threads outside of unsafe sections there is a way through a whole checkpoint, over a safe barrier, back to all of them running the same program |
| CompletionTheorems.RestartCompletes | xnd/thread_info.c:540-557 | from an image written without a slip there is a way to all its threads running again where they were |
| SlipRun.SlipMakesTheImageStale | xnd/thread_info.c:692-708 | a run in which one of two suspended threads is counted and a stale context is written |
| AbortTheorems.AbortIff | xnd/thread_info.c:753-757 | the second load makes the assertion fail if and only if the thread runs outside the handler, and then somebody slipped, or it was marked ST_SUSPENDED between the two loads |
| AbortTheorems.AbortPossibleIff | xnd/thread_info.c:744-777 | from the beginning of a turn some continuation fails if and only if a listed thread is neither exiting nor joined nor ST_SUSPENDED; without a slip these are the counted threads still saving their context |
| AbortTheorems.AbortWithoutSlip | xnd/thread_info.c:753-757 | a run of one thread, with nobody slipping or straggling, in which it fails |
| ProtocolInvariant.StepInv | xnd/coordinator/xnd_coord.c:647-823 | every step of coordinator, clients and disk, the death of a process, a crash and a restart included, keeps the invariant that ties process states, phases, channels, epochs and directories together |
| ProtocolInvariant.ReceiveIsExpected | xnd/coordinator/xnd_coord_client.c:335-418 | a client never reads a header it does not expect |
| ProtocolInvariant.TurnIsExpected | xnd/coordinator/xnd_coord.c:324-344 | no assertion about a process state fails, and the coordinator receives what it waits for |
| ProtocolInvariant.ScanFindsAll | xnd/ckptfile.c:272-286 | when the manifest is filled the directory holds one image per process and no other |
| GlobalTheorems.RunGood | xnd/coordinator/xnd_coord.c:729-823 | both invariants hold in every state of every run of the whole system |
| GlobalTheorems.Lockstep | xnd/coordinator/xnd_coord.c:295-347 | in every run the recorded state of a process, its phase and the messages in flight match; nobody is surprised and no assertion about a process state fails |
| GlobalTheorems.GivesUpIff | xnd/coordinator/xnd_coord.c:695-727 | the coordinator gives up exactly in the steps in which it fails to send to a dead process, counts too few processes, or has too few completions because one died |
| GlobalTheorems.GaveUpAfterADeath | xnd/coordinator/xnd_coord.c:324-344 | a coordinator that has given up has a dead process on its list |
| GlobalTheorems.StartFollowsEveryReady | xnd/coordinator/xnd_coord.c:752-780 | XND_CKPT_START is sent only when every process has sent XND_CKPT_READY |
| GlobalTheorems.RestartBarrier | xnd/coordinator/xnd_coord.c:871-914 | no restarted process leaves the restart barrier before all peers have registered |
| GlobalTheorems.ImageGoesToTheRightEpoch | xnd/writeckpt.c:243-255 | a client about to write has the coordinator's epoch, whose directory exists and holds no file of that name |
| GlobalTheorems.EpochsAgree | xnd/xnd_lib.c:61-85 | whenever the coordinator is idle and a client has read all messages, their epochs are equal, over any sequence of checkpoints, forks, deaths and restarts |
| GlobalTheorems.EpochsAgreeIff | xnd/coordinator/xnd_coord.c:506-517 | with exec at any time: the epochs agree throughout a run if and only if no process execs after the first checkpoint |
| ProcessTheorems.AbortedIsDead | xnd/thread_info.c:744-777 | in every run a process whose assertion failed, or that read an unexpected message, has ended |
| ProcessTheorems.PeersAgree | xnd/coordinator/xnd_coord.c:764-774 | whenever the coordinator is idle every process, a forked one included, has the coordinator's number of peers |
| ProcessTheorems.ImagesNeverChange | xnd/writeckpt.c:243-255 | no step changes an image that is on the disk; it stays or is removed |
| ProcessTheorems.ManifestHasImages | xnd/ckptfile.c:272-294 | a manifest names as many processes as there are peers, each with an image |
| SnapshotTheorems.GlobalSnapshot | xnd/coordinator/xnd_coord.c:782-796 | for every written manifest there is one state of the run whose processes it names and in which every process has the memory, the threads and the contexts of its image, but for contexts still being saved after a slip |
| SnapshotTheorems.RestartResumesAnInstant | xnd/xnd_lib.c:71-105 | a restart from clean images brings all processes back to one earlier state of the run |
| SnapshotTheorems.RestartStaysAtTheInstant | xnd/thread_info.c:540-557 | until it releases its threads a restarted process stays there, whatever the others do |
| SnapshotTheorems.CrashConsistency | xnd/coordinator/xnd_coord.c:764-819 | after the first success every later state of the disk holds a complete directory, whatever ends, crashes or gives up in between, until a manifest that names nobody has been written |
| SnapshotTheorems.RestartableIff | xnd/coordinator/xnd_coord.c:782-805 | there is a complete directory exactly if a manifest has been written, and the last one names somebody or another directory is complete; it names nobody only if no process is left |
| SnapshotTheorems.ManifestCompleteIff | xnd/ckptfile.c:272-294 | filling the manifest makes the directory complete if and only if some process is left |
| SnapshotTheorems.FirstSuccess | xnd/ckptfile.c:272-294 | the first success is the step that fills the manifest of epoch 0 |
| SnapshotTheorems.RemovedOnlyAfterwards | xnd/coordinator/xnd_coord.c:798-805 | a complete directory loses a file only while another one is complete, or no process is left |
| SnapshotTheorems.ManifestNamesTheDone | xnd/coordinator/xnd_coord.c:695-727 | a written manifest names exactly the processes whose XND_CKPT_DONE was received; these are all listed ones and those with an image |
| RetryTheorems.DirectoryExistsIff | xnd/coordinator/xnd_coord.c:764-769 | the coordinator stops and removes the directory exactly if it was there, and it is never there before a crash |
| RetryTheorems.EverybodyIsParked | xnd/coordinator/xnd_coord.c:810-819 | while it is removed every process waits in the pre-checkpoint barrier with nothing in flight |
| RetryTheorems.ReadyWhenIdle | xnd/coordinator/xnd_coord.c:764-769 | when the coordinator is idle a process is recorded as ready only since such an attempt in the same epoch |
| RetryTheorems.NoNewRequest | xnd/coordinator/xnd_coord.c:655-677 | until a directory is created such a process stays there and is sent nothing |
| ProtocolRuns.RestartFindsDirectory | xnd/coordinator/xnd_coord.c:764-819 | a run: crash after the directory of epoch 1 was created, restart from epoch 0, next checkpoint |
| ProtocolRuns.NobodyLeftLosesAll | xnd/coordinator/xnd_coord.c:647-693 | a run: after a checkpoint the only process dies, and the next checkpoint removes the only directory one could restart from |
| Manifest.Bounds | xnd/coordinator/xnd_coord.c:613-622 | the smallest and the largest id of the process list |
| Manifest.WriteManifest | xnd/ckptfile.c:272-286 | in ascending order exactly the ids between the bounds that have an image; fails unless there are as many as peers |
| Forest.OneCreator | xnd/xnd_restart.cpp:157-210 | an independent root has no creator, every other target exactly one, which is older |
| Forest.OneCopy | xnd/xnd_restart.cpp:157-210 | counting every fork of every copy, each target is created exactly once |
| Forest.OneCopyIff | xnd/xnd_restart.cpp:194-209 | a root whose creators are created once is created once if and only if it meets the group assumption |
| Forest.PipelineTailIsCreatedTwice | xnd/xnd_restart.cpp:161-166 | two processes of one pipeline of which the second is created twice |
| Forest.OneCreatorIffGroupAssumption | xnd/xnd_restart.cpp:194-209 | a root has one creator if and only if its checkpointed group leader is itself or its session leader |
| Forest.PipelineTailHasTwoCreators | xnd/xnd_restart.cpp:161-166 | an input where that fails |
| Forest.OneRoot | xnd/xnd_restart.cpp:157-177 | every target is created, directly or not, by exactly one independent root |
| Forest.SiblingsDisjoint | xnd/xnd_restart.cpp:169-209 | two forks of one process create nothing twice |
| Forest.SomeIndependentRoot | xnd/xnd_restart.cpp:224-239 | there is an independent root, so the assertion holds |
| Forest.ParentIsRestored | xnd/xnd_restart.cpp:117-155 | in the new forest one process is the parent of another exactly if it was |
| Forest.LeadIs | xnd/xnd_restart.cpp:179-192 | setsid and setpgid never find the process already leading, and have their effect |
| Forest.SessionAndGroupAreRestored | xnd/xnd_restart.cpp:169-210 | a process whose session and group are its own or its creator's, like those it is created under, gets both back |
| Forest.RestoredIff | xnd/xnd_restart.cpp:169-210 | exactly when the session and the group of a process are restored |
| Forest.NearestLateFork | xnd/xnd_restart.cpp:194-209 | what a process inherits comes from the nearest creator that became a leader before the fork |
| Forest.GrandchildLosesItsSession | xnd/xnd_restart.cpp:169-182 | three processes of which one does not get its session back |
| ForestRestart.Dag.constructor | xnd/xnd_restart.h:239-257 | the children of each target in order, and a positive indegree exactly for those with a parent |
| ForestRestart.Restart.CreateProcess | xnd/xnd_restart.cpp:157-213 | creates each target under it exactly once, as Forest.Restored says, and terminates |
| ForestRestart.Restart.CreateOrphan | xnd/xnd_restart.cpp:131-155 | the same for a process handed to init |
| ForestRestart.Restart.FindIndependentRoots | xnd/xnd_restart.cpp:224-237 | the assertions about the root flag hold and the roots found are the independent ones |
| ForestRestart.Restart.ProcessTargets | xnd/xnd_restart.cpp:215-251 | every target is created exactly once, each as Forest.Restored says; the launcher's process comes back exactly if all independent roots were orphans |
| Identity.Registry.NextVirtPid | xnd/coordinator/xnd_coord.c:45-55 | a virtual pid that is not in use: the error branch is never taken |
| Identity.Registry.Launch | xnd/coordinator/xnd_coord.c:502-554 | registration keeps ids distinct, parents before children, real, virtual and xnd parenthood the same and children in their parent's group; the exact condition for success and for a known process |
| Identity.SecondLaunchFails | xnd/coordinator/xnd_coord.c:527-529 | two launches from one shell, of which the second fails |
| Identity.Registry.AtFork | xnd/coordinator/xnd_coord.c:924-989 | the same for a forked child, registered exactly if its parent is listed and is its real parent |
| Identity.Registry.Exit | xnd/coordinator/xnd_coord.c:248-257 | exactly the process that exited is removed, from the list and from the pid table |
| Identity.Registry.DoRestart | xnd/coordinator/xnd_coord.c:882-900 | restarted processes register in any order, and the counters end up above all their ids, by one |
| Identity.RestartedAreReborn | xnd/coordinator/xnd_coord.c:556-586 | checkpointed processes may register again if their new real pids repeat the old parenthood |
| Identity.Registry.DetermineRoots | xnd/coordinator/xnd_coord.c:633-645 | the flag found by real pids holds exactly if no listed process has that xnd_ppid |
| Identity.HeadersMeetForest | xnd/coordinator/xnd_coord.c:502-645 | the ids in the headers meet what Forest.WellFormed demands of ids and of the root flag |
| ImageFormat.EntriesRoundTrip | xnd/readckpt.c:41-89 | parsing what was printed yields the same entries and uses exactly their bytes |
| ImageFormat.FullReadBackIff | xnd/vm_restore.c:323-339 | a whole region is read back exactly if it does not look like one saved by page |
| ImageAbi.Arm64IsLawful | xnd/vm_region.h:17-31 | the layout of the structs on arm64 meets what ImageFormat asks of a layout |
| ImageContents.DirtyPagesExact | xnd/writeckpt.c:83-97 | exactly the dirty pages are saved, with their contents |
| ImageContents.DirtyPagesAscend | xnd/writeckpt.c:84-95 | in ascending order, at most as many as the region has pages |
| ImageContents.ByPageIsNotLonger | xnd/writeckpt.c:146-151 | with a right count, a region qualifies for saving by page exactly if that costs less than one header more than saving it whole |
| ImageContents.FramedIff | xnd/vm_restore.c:331-339 | the reader recognises the encoding of a saved region except in exactly one case |
| ImageContents.MisreadRegion | xnd/writeckpt.c:146-154 | a region in that case |
| ImageContents.FullIsRestored | xnd/vm_restore.c:334-347 | every page that could be written is restored at its address |
| ImageContents.ByPageIsRestoredIff | xnd/vm_restore.c:202-257 | a page of a region saved by page is restored exactly if it was dirty, or all zeros outside of the shared cache, or in the cache equal to the page that is there |
| ImageContents.UnsavedPage | xnd/vm_restore.c:202-228 | a page that is not in the list is a fresh page afterwards, or unchanged if the region is in the shared cache |
| ImageContents.ImageIsRestored | xnd/readckpt.c:49-80 | restoring all records puts every covered page of every region back |
| ImageContents.ImageRoundTrip | xnd/readckpt.c:41-85 | from the regions of the writer to the memory of the reader, with conditions on the regions only |
| ImageIO.CountDirty | xnd/writeckpt.c:73-78 | the recount is the number of dirty pages |
| ImageIO.WriteDirtyPages | xnd/writeckpt.c:83-98 | the second pass writes exactly the dirty pages; the early break loses none |
| ImageIO.WriteAllPages | xnd/writeckpt.c:105-133 | the pages up to the first that cannot be written, what is left of that one, where the position is then, and when the seek fails |
| ImageIO.WriteRegion | xnd/writeckpt.c:135-222 | the record of the region with its corrected header; what was left of a page follows it, and the position is that much in front of its end |
| ImageIO.WriteRegionThen | xnd/writeckpt.c:119-127 | the record survives the next write exactly if its last bytes are the same |
| ImageIO.PartialWriteLosesAByte | xnd/writeckpt.c:119-127 | a region of which one byte is overwritten |
| ImageIO.WriteCkpt | xnd/writeckpt.c:263-288 | succeeds exactly if every entry can be saved, and then the file holds these entries |
| ImageIO.Loader.RestoreSavedPages | xnd/vm_restore.c:184-200 | reads and places exactly the pages the parser finds, or fails |
| ImageIO.Loader.RestoreRegion | xnd/vm_restore.c:318-350 | restores what the parser finds, or fails; every page of a region read whole has its bytes, and every unsaved page outside of the shared cache is mapped and zero, inside it untouched |
| ImageIO.Loader.ReadCkpt | xnd/readckpt.c:41-89 | succeeds exactly if the file holds that many entries; kinds, regions, context and memory are theirs |
| ImageIO.WriteThenRead | xnd/writeckpt.c:232-304 | writing and then reading returns the kinds, the corrected regions, the context and every covered page |
| Leb128.EncodeUleb | include/common/leb128.h:39-50 | stores the encoding and nothing else |
| Leb128.EncodeSleb | include/common/leb128.h:6-17 | the same for signed values |
| Leb128.DecodeUleb | include/common/leb128.h:52-65 | the low 64 bits of what the bytes mean, and stops behind the encoding |
| Leb128.DecodeSleb | include/common/leb128.h:19-37 | the same for signed values |
| Leb128.UnsignedRoundTrip | include/common/leb128.h:39-65 | for every u64 the encoding, followed by anything, is decoded to the value and ends where it ended; at most ten bytes |
| Leb128.SignedRoundTrip | include/common/leb128.h:6-37 | the same for every s64 |
| Leb128.UlebIsShortest | include/common/leb128.h:39-50 | no other encoding of the same number is shorter |
| Leb128.SlebIsShortest | include/common/leb128.h:6-17 | the same for signed numbers |
| Frames.Stack.FirstSignedFrame | xnd/pac.c:9-18 | the first signed frame of the rest of the chain, or NULL if there is none |
| Frames.Stack.NextSignedFrame | xnd/pac.c:20-33 | the same after this frame |
| Frames.Stack.ResignFrames | xnd/pac.c:74-84 | every signed return address becomes the stripped one signed with fp + 16, once, from the innermost frame outwards; every other word is unchanged |
| Frames.Stack.ResignFramesSimply | internals.md:953-963 | the one loop of the documentation does the same |
| Frames.ResignedIsUnique | internals.md:953-963 | there is one such result, so both forms yield the same memory |
| Frames.ResigningTwice | xnd/pac.c:74-84 | a second run changes nothing |
| Frames.ChainIsDistinct | xnd/pac.h:159-160 | a chain that ends visits no frame twice |
| FdTable.Table.Open | xnd/fd_table.c:248-271 | a fresh source with one reference, this path, these flags and this mode; no entry dangles and all others are unchanged |
| FdTable.Table.Dup | xnd/fd_table.c:303-322 | the new descriptor shares the source of the old one, with one reference more; nothing dangles |
| FdTable.Table.Close | xnd/fd_table.c:324-346 | a source is freed exactly with its last reference, and then no descriptor holds it |
| FdTable.SaveSource | xnd/fd_table.c:23-54 | offset and flags of the open file, less truncation and exclusive creation, with the close-on-exec flag of the descriptor |
| FdTable.Save | xnd/fd_table.c:188-199 | each source is saved once, by its lowest descriptor, unless it had been saved before |
| FdTable.Restorer.RestoreInherited | xnd/fd_table.c:206-215 | each inherited descriptor becomes what its root was |
| FdTable.Restorer.RestoreSource | xnd/fd_table.c:61-86 | a new open file on the right descriptor, with the saved path, flags, mode and offset |
| FdTable.Restorer.FdTableRestore | xnd/fd_table.c:201-246 | two tracked descriptors share an open file exactly if they shared a source; offsets are restored; untracked standard descriptors are closed; which descriptors stay close-on-exec; when it fails |
| FdTheorems.Process.Open | xnd/wrappers/file_wrappers.c:17-39 | the table knows the open file of every tracked descriptor and who shares it, and the new entry has what was given to open |
| FdTheorems.Process.Dup2 | xnd/wrappers/file_wrappers.c:102-117 | that stays so if and only if no untracked descriptor replaces a tracked one |
| FdTheorems.Process.Close | xnd/wrappers/file_wrappers.c:70-84 | that stays so |
| FdTheorems.Process.CheckpointAndRestart | xnd/fd_table.c:188-246 | after a restart every tracked descriptor has a file of the same path, mode and offset, and two share a file exactly if they did |
| FdTheorems.OpenedFileComesBack | xnd/fd_table.c:61-86 | from open to restore: the path, the mode, the flags less O_TRUNC and O_EXCL, and the offset at the checkpoint |
| FdTheorems.SecondCheckpointKeepsTheOffset | xnd/fd_table.c:196 | for every process and tracked file: the second checkpoint keeps the offset of the first |
| FdTheorems.UntrackedDupIsUndone | xnd/fd_table.c:313-317 | for every process: what replaced a tracked descriptor untracked is replaced by the old file on restart |
| FdTheorems.SavedIsReopened | xnd/fd_table.c:33-51 | what the saved flags are, bit by bit |
| ThreadLists.List.Add | xnd/thread_info.c:133-146 | the list stays well formed and has the thread in front |
| ThreadLists.List.Unlink | xnd/thread_info.c:155-166 | the list stays well formed and lacks exactly that thread |
| ThreadLists.Lists.ThreadListRemove | xnd/thread_info.c:155-182 | every descriptor stays on exactly one list or is freed, once, after it was joined, also if the join comes in between |
| ThreadLists.Lists.Sweep | xnd/thread_info.c:753-770 | removing while iterating keeps the others in order; of the removed threads the joined ones are freed in order and the others become zombies, the last first |
| ThreadLists.Lists.ZombieListFilter | xnd/thread_info.c:313-323 | exactly the joined zombies are freed, in order |
| ThreadLists.RestAndOnly | xnd/thread_info.c:313-323 | filtering loses and doubles nothing |

## Left out

- Fairness: CompletionTheorems says that a checkpoint can be completed from threads outside of unsafe sections, not that it will be. A fork or a pid query inside an unsafe section can wait for a coordinator that is itself waiting for a checkpoint.
- Exec while a checkpoint is under way, and the removal of the old connection before the new one is made.
- The normal end of the coordinator when its list becomes empty, and its end by a signal.
- Failing image writes: their result is ignored at xnd/xnd_lib.c:146.
- Sockets, select, heartbeats, signal masks, logging, environment, command line, compression.
- The error path of the wait4 hook, which leaves `wrapper_depth` unbalanced.
- Mach calls, registers, thread-local storage: a thread's continuation and its saved context are one number each.
- Forest names the new processes after their targets instead of by pid; that each target is created once makes the names unique. What `unreachable()` does is not part of this model.
- ForestRestart runs each child to its exec before its parent goes on.
- Identity.Registry.AtFork: what the parent says about itself in its message is taken to be true. Counters do not overflow.
- Manifest.WriteManifest: an id equal to the largest u32 is excluded, because the u32 loop of the source then wraps around. The limit on manifest entries is not modelled.
- ImageIO.WriteRegion: protection changes and errors of the page query are left out, as is the EFAULT recovery of the reader.
- ImageIO.Loader.RestoreSavedPages: the EFAULT recovery is left out.
- ImageIO.Loader.RestoreRegion: failures of mapping and of protection changes are left out.
- ImageFormat leaves the size of the context a constant and its bytes opaque; the reader then sets one pointer in it.
- Leb128.DecodeUleb and DecodeSleb demand at most ten bytes: longer encodings shift by 64 or more, which C leaves undefined. Both use one method for the common loop.
- FdTable.Restorer.RestoreSource: the position of a directory stream is treated like a file offset. A source overwritten by open or dup keeps its reference, as in the code.
- FdTable: fd_table_opendir, so the table itself makes no directory sources; saving that fails; what the kernel does with the flags of open beyond recording them.
- ThreadLists: locks, and the freeing of everything at shutdown. The pass of suspend_threads, which removes by the same procedure, is modelled in ThreadSuspension only.
- Printing of images, Mach-O handling, path helpers.
