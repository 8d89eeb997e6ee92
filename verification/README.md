# OceanBase log service: a verified model

A Dafny model of the parts of OceanBase's log service that are hard to get right, with proofs about every run,
interleaving, crash or input of them. `dafny verify dfyconfig.toml` checks the whole project.

- **The log pool** (`LogPool.dfy`, `LogPoolIds.dfy`, `LogPoolTheorems.dfy`, `LogPoolSizes.dfy`,
  `LogPoolRecovery.dfy`, `LogPoolRuns.dfy`, `LogPoolSteps.dfy`, `BlockMgr.dfy`). The server keeps 64MB log blocks as files with consecutive ids and renames them to tenants and
  back while a single resizer grows or shrinks the pool. `LogPool` is a transition system whose events are the single
  locked sections and file-system calls of all these threads, a crash at any point, and every step of the restart
  that follows. `LogPoolIds` holds the invariant of ids, files and counters, `LogPoolTheorems` what follows for every
  run, `LogPoolSizes` by how much the recorded size can be wrong in it, `LogPoolRecovery` what a restart makes of any
  disk whatever. `LogPoolRuns` has concrete runs from a new pool, `LogPoolSteps` says exactly when each thread may go on,
  whatever the others are at. `BlockMgr` is the manager as a class, with its loops;
  its ghost field `run` shows that each method is a run of the transition system, through every failure.
- **Tenant charges** (`TenantQuota.dfy`): create, abort, update and remove of tenants under the resize lock, PALF's
  disk options with their sequence number, and PALF's recycling thread in between; then the code as two classes.
- **Flashback** (`Flashback.dfy`, `FlashbackSnapshot.dfy`, `FlashbackProgress.dfy`): the coordinator as a class with its retry loops. The
  cluster is a `World` of arbitrary functions of time, so leaders change, calls fail and replies are lost, repeated or
  reordered at will. `FlashbackSnapshot` says what its sync check, which polls replicas one after the other, is worth,
  `FlashbackProgress` when a flashback comes to its end.
- **Garbage collection** (`GcState.dfy`, `GcReplication.dfy`, `GcCheckpoint.dfy`, `GcHandler.dfy`): what a gc log does
  to a replica, all replicas of a log stream with crashes and leader changes, the leader's race with the checkpoint,
  and the handler as a class.
- **Append fencing** (`LogHandler.dfy`): the append loop with everything other threads can do to the handler between
  and during its rounds.
- **External reads** (`ExternalRead.dfy`, `IoTaskLatch.dfy`): splitting a read into tasks that finish in any order,
  and the life of the context they share.
- **Handshake timeouts** (`TimeoutList.dfy`): the circular list of the ussl hook and its sweep, on heap nodes.
- `Options.dfy` has the one `Option` type.

Transition systems follow one pattern: `Enabled` and `Apply` give an event's guard and effect, `Steps` hides the
event, `IsRun` says that consecutive states are linked by `Steps`, `Inv` is kept by every event (`InvKept`), and the
theorems take a run and an index. Beside what can never happen, each system has lemmas about what always can: the step
a thread may take, stated by the states that can follow, and an end that can be reached from every state. Classes state their whole new state and keep `Valid()`.

## Where the code does not do what it is meant to

Each of these is kept as the code has it, with a concrete case and the exact condition.

- If `expanding.tmp` cannot be removed after all blocks of an expansion have been moved, a running server writes the
  old meta back as NORMAL: its size is then short by the whole expansion, and after a crash no restart gets past the
  integrity check (`FailedCleanupLosesCount`; a run from a new pool: `CleanupCanFail`).
- A shrink that runs out of blocks half-way also writes the old meta back, short by the blocks freed so far, and no
  restart gets past the integrity check unless there were none (`FailedShrinkLosesCount`, `ShrinkCanFail`). It cannot
  run out while tenants keep within the new size and cleanups succeed (`AcceptedShrinkHasBlocks`).
- These two are the only ways: in every run the recorded size is out by exactly what they sum up to since the server
  came up (`NormalMeansAccounted`, `Resize`), and a crash in NORMAL can be recovered from if and only if that is zero
  (`CrashIsRecoverableIff`).
- A restart can finish an interrupted shrink if and only if the tenants' own block files fit the target
  (`RecoverableIff`, for any disk whatever). That the in-use counter is within the charges is not enough, because a
  block being returned is no longer counted but still on a tenant's disk (`CounterWithinQuotaIsNotEnough`); counting
  those blocks is (`OccupancyWithinQuotaIsEnough`).
- A request to update a tenant's size to zero drops the charge at once, so it no longer covers PALF's stable size
  (`ZeroUncovers`, `ChargeCoversPalf`).
- PREPARE_FLASHBACK stops appends, but replicas still receive logs (`src/logservice/palf/palf_options.h:95`). A comment
  (`src/logservice/ob_log_flashback_service.cpp:437-441`) lets a log stream pass whose members are all committed short
  of the flashback scn, for the reason that its end will not increase. A member that lags behind may still be handed a
  log of the stream after it was polled, so the members are not committed when the logs are cut. The same happens to
  replicas counted as in sync if the scn is before the end of the log stream, and then the late log is one that the
  flashback was to cut off, which the check is there to exclude (`src/logservice/ob_log_flashback_service.h:193-196`).
  `CheckSucceedsTooEarly` has both. In a log stream that takes no new logs, a check that has succeeded stays right if
  and only if the replicas had committed the whole log by then (`CheckIsSafeIff`). Replicas all seen in sync with an scn
  that the log stream does not go past have; so, with such an scn, the logs are committed at every flashback message
  except in log streams that passed as short with a replica that lagged (`MessagesFindSnapshot`).
- Writing WAIT_GC overwrites the offline scn with an invalid one, so at the deletion of the entry the scn is there if
  and only if that write failed (`OfflineScnKnownIff`, `HandleGcLsOffline`).
- `push_append_cb` must not return OB_EAGAIN: every time it does, `append_` appends the log again (`Append`).
- `get_ret_code` looks at the first task only: success of a parallel read stands for all tasks exactly if there is one
  task (`FirstSpeaksForAllIff`). The number of bytes read does tell whether all of them succeeded (`CompleteIff`).
- The comment that a task reads at least 2MB (`src/logservice/ob_log_external_storage_handler.h:100`) does not hold:
  `HalfTasks`, `MinimumHoldsIff`, `MinimumNeedsMultiple`.
- The comment of `start` (`src/logservice/ob_server_log_block_mgr.h:314-329`) says that it updates the sum of tenant
  sizes; the code does not, and neither does the model.

## Model

| member | source | states |
|---|---|---|
| LogPool.LowerAlignIsFloor | deps/oblib/src/lib/utility/ob_utility.cpp:42-48 | the two-step alignment is rounding down to whole blocks, for every size |
| LogPool.BlockCountOfBytes | src/logservice/ob_server_log_block_mgr.cpp:1212-1217 | counting the blocks of a whole number of blocks gives that number |
| LogPool.SortedHolds | src/logservice/ob_server_log_block_mgr.cpp:636-646 | the sorted ids are exactly the scanned ones, as many as there are |
| LogPool.SortedIsIncreasing | src/logservice/ob_server_log_block_mgr.cpp:636-646 | they increase strictly |
| LogPool.FirstGap | src/logservice/ob_server_log_block_mgr.cpp:647-654 | the ids before the result are consecutive and the one at it does not continue them; zero means all are consecutive |
| LogPoolIds.TrimMovesDown | src/logservice/ob_server_log_block_mgr.cpp:683-709 | each rename of the compaction goes to a strictly smaller id that no file has, and keeps the picture of range and rest |
| LogPoolIds.InvKept | src/logservice/ob_server_log_block_mgr.cpp:237-309 | every event of every thread, the crash and the restart keep the invariant: ids, files, counters, progress of the resize |
| LogPoolTheorems.EveryStateKeepsInv | src/logservice/ob_server_log_block_mgr.cpp:237-309 | the invariant holds in every state of every run |
| LogPoolTheorems.IdsStayApart | src/logservice/ob_server_log_block_mgr.cpp:874-918 | no two threads hold the same id, and every id of the range or awaited by a taker is a file or awaits exactly one putter, never both |
| LogPoolTheorems.NoRenameOverwrites | src/logservice/ob_server_log_block_mgr.cpp:272-309 | no rename into the pool, by tenants, expansion or compaction, ever meets an existing file |
| LogPoolTheorems.TakerNeverStuck | src/logservice/ob_server_log_block_mgr.cpp:237-270 | a taker whose file is missing always has an enabled putter of that very file |
| LogPoolTheorems.EveryoneFinishes | src/logservice/ob_server_log_block_mgr.cpp:237-309 | from every reachable state all pending takers and putters can finish, one step each; then the files are the range, and the tenants have what was taken and lack what was returned |
| LogPoolSteps.TakerMayReserveIff | src/logservice/ob_server_log_block_mgr.cpp:898-918 | whatever the others are at and whatever files there are, a taker gets the lowest id iff the range is not empty |
| LogPoolSteps.PutterMayReserveIff | src/logservice/ob_server_log_block_mgr.cpp:874-896 | a putter gets the id past the highest iff the tenant has the file and nobody else returns it |
| LogPoolSteps.ResizerMayReserveIff | src/logservice/ob_server_log_block_mgr.cpp:1142-1159 | a shrink that is not done takes the lowest id iff the range is not empty, gives up iff it is, and never ends otherwise |
| LogPoolSteps.TakerMayFinishIff | src/logservice/ob_server_log_block_mgr.cpp:237-270 | a taker's rename goes through iff the file is there |
| LogPoolSteps.ResizerMayFinishIff | src/logservice/ob_server_log_block_mgr.cpp:1142-1159 | so does the unlink of a shrink |
| LogPoolSteps.ResizeMayBeginIff | src/logservice/ob_server_log_block_mgr.cpp:174-222 | whatever tenants are at, a resize is taken up iff none is under way, the size changes and it covers what tenants are promised |
| LogPoolSteps.QuotaMayChangeIff | src/logservice/ob_server_log_block_mgr.cpp:311-343 | the promises change iff no resize is under way and the size covers them |
| LogPoolSteps.TakerCanWait | src/logservice/ob_server_log_block_mgr.cpp:237-270 | a run from a new pool to a taker that holds an id whose file is still on its way, and cannot go on before it is there |
| LogPoolSteps.ResizerCanWait | src/logservice/ob_server_log_block_mgr.cpp:1142-1159 | a run from a new pool to a shrink that does |
| LogPoolSizes.StepBalances | src/logservice/ob_server_log_block_mgr.cpp:874-1029 | every step of a running server leaves the accounts out by exactly what a failed cleanup or shrink adds, and by nothing otherwise |
| LogPoolSizes.NormalMeansAccounted | src/logservice/ob_server_log_block_mgr.cpp:832-842 | in every run, whenever the status is NORMAL, blocks in use and free blocks add up to the recorded size plus what failures have put it out by |
| LogPoolSizes.AcceptedShrinkHasBlocks | src/logservice/ob_server_log_block_mgr.cpp:174-222 | with tenants within the new size during shrinks, and cleanups that succeed, a shrink never meets an empty pool in any interleaving |
| LogPoolRecovery.CrashRecovery | src/logservice/ob_server_log_block_mgr.cpp:574-606 | after a crash anywhere and any number of failed restarts, a completed one leaves NORMAL, tenants' blocks untouched, files compact and the size equal to the files: the target if the first meta write landed, the old size if not |
| LogPoolRecovery.ResizeRemembersTarget | src/logservice/ob_server_log_block_mgr.cpp:951-986 | between its first and last meta write a resize records the aligned size asked for |
| LogPoolRecovery.RestartCompletes | src/logservice/ob_server_log_block_mgr.cpp:711-732 | from every state of a restart without failures that can recover there is a run to a running server |
| LogPoolRecovery.RecoverableIff | src/logservice/ob_server_log_block_mgr.cpp:711-761 | any disk whatever can be brought up again if and only if its files make up the recorded size, or no more than an expansion's target, or no less than a shrink's target that holds the tenants' blocks |
| LogPoolRecovery.CrashIsRecoverableIff | src/logservice/ob_server_log_block_mgr.cpp:574-606 | a crash of a running server can be recovered from: in NORMAL iff the accounts are exact; with exact accounts iff no interrupted shrink's target is exceeded by the tenants' files |
| LogPoolRecovery.FailedCleanupLosesCount | src/logservice/ob_server_log_block_mgr.cpp:991-1029 | a failed removal of expanding.tmp after the moves leaves NORMAL with the size short by the expansion, and no restart from there succeeds |
| LogPoolRecovery.FailedShrinkLosesCount | src/logservice/ob_server_log_block_mgr.cpp:951-986 | a shrink that fails half-way leaves NORMAL with the count short by the blocks freed, and a restart from there can succeed iff there were none |
| LogPoolRecovery.CompactionIsRestartable | src/logservice/ob_server_log_block_mgr.cpp:614-709 | however often compaction is interrupted and rerun, it ends with exactly the range from the smallest id found first, as long as there are files |
| LogPoolRecovery.OccupancyWithinQuotaIsEnough | src/logservice/ob_server_log_block_mgr.cpp:711-732 | with exact accounts, if the charges also cover blocks being returned, every crash can be recovered from |
| LogPoolRuns.Grown | src/logservice/ob_server_log_block_mgr.cpp:951-986 | from a new pool there is a run to any number of blocks |
| LogPoolRuns.CleanupCanFail | src/logservice/ob_server_log_block_mgr.cpp:991-1029 | a run from a new pool in which a failed cleanup leaves a disk that cannot be restarted |
| LogPoolRuns.ShrinkCanFail | src/logservice/ob_server_log_block_mgr.cpp:951-986 | a run from a new pool in which a shrink that fails half-way does |
| LogPoolRuns.CounterWithinQuotaIsNotEnough | src/logservice/ob_server_log_block_mgr.cpp:874-918 | a run from a new pool that keeps the counter within the charges and still ends on a disk that cannot be restarted |
| BlockMgr.ServerLogBlockMgr.GetAndIncMaxBlockId | src/logservice/ob_server_log_block_mgr.cpp:874-896 | when an id is handed out at the top, which, and what happens to the counter |
| BlockMgr.ServerLogBlockMgr.GetAndIncMinBlockId | src/logservice/ob_server_log_block_mgr.cpp:898-918 | the same at the bottom, with both errors |
| BlockMgr.ServerLogBlockMgr.CreateBlockAt | src/logservice/ob_server_log_block_mgr.cpp:237-270 | with any other threads under way: succeeds iff the range is not empty, waits for the one thread that brings the file if it is still to come, moves it to the tenant, and is a run |
| BlockMgr.ServerLogBlockMgr.RemoveBlockAt | src/logservice/ob_server_log_block_mgr.cpp:272-309 | with any other threads under way: always succeeds, moves the tenant's file to an id no file has, and is a run |
| BlockMgr.ServerLogBlockMgr.MakeResizingTmpDir | src/logservice/ob_server_log_block_mgr.cpp:1031-1047 | when it succeeds, and that a directory made but not opened stays behind |
| BlockMgr.ServerLogBlockMgr.AllocateBlocksAtTmpDir | src/logservice/ob_server_log_block_mgr.cpp:1087-1140 | the loop succeeds iff there is space for all blocks and the sync succeeds |
| BlockMgr.ServerLogBlockMgr.MoveBlocksFromTmpDirToLogPool | src/logservice/ob_server_log_block_mgr.cpp:1182-1210 | the loop extends the range by exactly the blocks and is a run |
| BlockMgr.ServerLogBlockMgr.FreeBlocksAtLogPool | src/logservice/ob_server_log_block_mgr.cpp:1142-1180 | the loop succeeds iff there are enough blocks, and otherwise has freed them all |
| BlockMgr.ServerLogBlockMgr.RemoveResizingTmpDir | src/logservice/ob_server_log_block_mgr.cpp:1049-1067 | its result, what it leaves behind, and that a failure spoils the resize |
| BlockMgr.ServerLogBlockMgr.DoExpand | src/logservice/ob_server_log_block_mgr.cpp:991-1029 | succeeds iff every call does, and by how much the range grew in each case |
| BlockMgr.ServerLogBlockMgr.Expand | src/logservice/ob_server_log_block_mgr.cpp:951-986 | do_resize_ upwards: meta, range and history after success and each failure |
| BlockMgr.ServerLogBlockMgr.Shrink | src/logservice/ob_server_log_block_mgr.cpp:951-986 | do_resize_ downwards, through do_shrink_: the same |
| BlockMgr.ServerLogBlockMgr.Resize | src/logservice/ob_server_log_block_mgr.cpp:174-222 | refused iff tenants are promised more; a shrink succeeds iff there are blocks enough and otherwise frees them all; an expansion succeeds iff every call does; the range and meta in each case; and by exactly how much the accounts go out |
| BlockMgr.ServerLogBlockMgr.ScanLogPoolDir | src/logservice/ob_server_log_block_mgr.cpp:614-646 | the scan with its sort gives the files' ids in order |
| BlockMgr.ServerLogBlockMgr.FindFirstGap | src/logservice/ob_server_log_block_mgr.cpp:647-656 | the loop finds the first gap |
| BlockMgr.ServerLogBlockMgr.InitRange | src/logservice/ob_server_log_block_mgr.cpp:670-684 | the range before trimming |
| BlockMgr.ServerLogBlockMgr.ScanLogPoolDirAndDoTrim | src/logservice/ob_server_log_block_mgr.cpp:614-709 | ends with exactly the range from the smallest id, keeps the number of files, and is a run |
| BlockMgr.IntegrityIff | src/logservice/ob_server_log_block_mgr.cpp:711-761 | the integrity check after a continued resize holds exactly on the disks that can be restarted |
| BlockMgr.ServerLogBlockMgr.TryContinueToResize | src/logservice/ob_server_log_block_mgr.cpp:711-732 | succeeds iff the meta is NORMAL, the expansion's calls succeed or the pool has the blocks to free; the size and number of files then; failure leaves the meta as found |
| BlockMgr.ServerLogBlockMgr.StartUp | src/logservice/ob_server_log_block_mgr.cpp:755-761 | once the integrity check has held the server is up with exact accounts |
| BlockMgr.ServerLogBlockMgr.DoLoad | src/logservice/ob_server_log_block_mgr.cpp:574-606 | on every disk a run can end with: succeeds iff it can be restarted and the file system lets it, keeps the tenants' blocks, settles on the target with exact accounts; a failure keeps blocks and target, and the meta too if the disk can be restarted |
| TenantQuota.NoOverselling | src/logservice/ob_server_log_block_mgr.cpp:311-477 | in every run the quota is the sum of the charges and within the total, and stays so when any tenant is taken out: the assertion of abort and the guard of remove never fail |
| TenantQuota.ChargeCoversPalf | src/logservice/ob_server_log_block_mgr.cpp:345-457 | in every run a charge covers PALF's stable size iff the last effective request was not for zero, or PALF has nothing left |
| TenantQuota.ZeroUncovers | src/logservice/ob_server_log_block_mgr.cpp:391-397 | a run in which a request for zero leaves PALF uncovered |
| TenantQuota.HiddenOnlyByZero | src/logservice/ob_server_log_block_mgr.cpp:391-397 | nothing else does |
| TenantQuota.NoStaleNormal | src/logservice/palf/palf_env_impl.cpp:127-137 | the recycling thread lowers the stable size only to the limit it measured against, never to one set since |
| TenantQuota.RepeatChargesExactly | src/logservice/ob_server_log_block_mgr.cpp:345-457 | once PALF has finished shrinking, the repeated request is accepted (iff it fits, for a tenant once set to zero) and charges exactly what was asked for, whatever PALF does meanwhile |
| TenantQuota.UpdateSettles | src/logservice/ob_server_log_block_mgr.cpp:391-457 | in every run an update that ends changes nothing, or tells PALF what was asked for and charges that if it is zero or at least the stable size read, and else leaves the charge |
| TenantQuota.UpdateMayBeginIff | src/logservice/ob_server_log_block_mgr.cpp:391-430 | an update is taken up iff the charge that follows from it fits |
| TenantQuota.CreateMayHappenIff | src/logservice/ob_server_log_block_mgr.cpp:311-330 | a tenant is created iff it fits, charged its size, with PALF's limits at it |
| TenantQuota.PalfCanSettle | src/logservice/palf/palf_env_impl.cpp:127-137 | from every state of every run PALF's recycling thread can end a shrink in two steps |
| TenantQuota.OtherOptionMakesStale | src/logservice/palf/palf_env_impl.cpp:139-176 | a change of another option makes what that thread has read stale |
| TenantQuota.PalfDiskOptionsWrapper.ChangeToNormal | src/logservice/palf/palf_env_impl.cpp:127-137 | takes effect iff the sequence is unchanged and the status is shrinking |
| TenantQuota.PalfDiskOptionsWrapper.UpdateDiskOptions | src/logservice/palf/palf_env_impl.cpp:139-176 | the limits, status and sequence after a shrink, an expansion, a change of another option, a repeated and an invalid request |
| TenantQuota.LogDiskQuota.CreateTenant | src/logservice/ob_server_log_block_mgr.cpp:311-330 | refused iff it does not fit; charged its size; balanced either way |
| TenantQuota.LogDiskQuota.AbortCreateTenant | src/logservice/ob_server_log_block_mgr.cpp:332-343 | the charge is returned and the code's assertion holds |
| TenantQuota.LogDiskQuota.RemoveTenant | src/logservice/ob_server_log_block_mgr.cpp:459-477 | never fails for a tenant that was charged |
| TenantQuota.LogDiskQuota.UpdateTenant | src/logservice/ob_server_log_block_mgr.cpp:345-457 | with PALF recycling between read and update: charges the new size if that is zero or at least PALF's stable size, else leaves the charge; succeeds iff valid, readable, fitting with that charge and accepted by PALF; else nothing changes; covers PALF |
| Flashback.LogFlashbackService.SwitchMode | src/logservice/ob_log_flashback_service.cpp:459-500 | succeeds iff a leader answers in the mode asked for or in FLASHBACK, remembers its mode version, and asks that leader for the change iff it answers in another mode |
| Flashback.LogFlashbackService.MotivateModes | src/logservice/ob_log_flashback_service.cpp:330-364 | a pass succeeds iff every operator's step does; then every leader answered in it and had arrived |
| Flashback.LogFlashbackService.GetAndChangeAccessMode | src/logservice/ob_log_flashback_service.cpp:193-234 | passes until one succeeds or the deadline comes; success is one such pass, and no flashback message is sent |
| Flashback.LogFlashbackService.CheckListLogSync | src/logservice/ob_log_flashback_service.h:170-207 | exactly the polls of the specification; counted as in sync means seen in sync; as many short ones as members means all were seen short in this pass |
| Flashback.LogFlashbackService.SwitchSync | src/logservice/ob_log_flashback_service.cpp:415-457 | exactly the step of the specification; success means already in FLASHBACK, or all listed members and learners seen in sync, or all listed members seen committed short of the scn |
| Flashback.LogFlashbackService.WaitAllReplicasLogSync | src/logservice/ob_log_flashback_service.cpp:144-191 | result, operators and time are those of the specification, pass by pass; success means that for every log stream |
| Flashback.LogFlashbackService.FlashbackList | src/logservice/ob_log_flashback_service.h:305-330 | a message goes to exactly the listed replicas that have not replied; success iff there is none |
| Flashback.LogFlashbackService.SwitchFlashback | src/logservice/ob_log_flashback_service.cpp:502-527 | succeeds iff a leader is found, the replicas are known and every one is counted as done: it has replied for this log stream and mode version |
| Flashback.LogFlashbackService.HandleFlashbackResp | src/logservice/ob_log_flashback_service.cpp:529-566 | a reply of a listed replica is counted by the first operator with its log stream and mode version, and changes nothing else |
| Flashback.LogFlashbackService.DoFlashback | src/logservice/ob_log_flashback_service.cpp:236-284 | passes until one succeeds or the deadline comes; success means that for every log stream, under loss, repetition and reordering of replies; messages carry the mode version they were given |
| Flashback.LogFlashbackService.Flashback | src/logservice/ob_log_flashback_service.cpp:69-123 | wherever a flashback message is sent, every leader has reported PREPARE_FLASHBACK or FLASHBACK in one pass, all sync checks have passed, and every leader has then reported FLASHBACK in one later pass, whose mode version the message carries; it succeeds iff all four stages do |
| FlashbackSnapshot.LastsIff | src/logservice/ob_log_flashback_service.cpp:437-441 | in a log stream that takes no new logs, a snapshot lasts in every continuation iff the replicas it is about have committed the whole log |
| FlashbackSnapshot.WaitIsLocal | src/logservice/ob_log_flashback_service.cpp:144-191 | the sync check does the same in worlds that are the same until it ends |
| FlashbackSnapshot.CheckIsSafeIff | src/logservice/ob_log_flashback_service.cpp:415-457 | after a successful check the log stream is and stays a snapshot, in every world the coordinator cannot tell apart, iff the replicas had committed the whole log by then |
| FlashbackSnapshot.SyncedStaySynced | src/logservice/ob_log_flashback_service.h:170-207 | if logs are never taken back, replicas seen in sync stay at or past the scn, and exactly at it while the log stream does not go past it |
| FlashbackSnapshot.SyncedIsCaughtUp | src/logservice/ob_log_flashback_service.h:170-207 | replicas all seen in sync with an scn the log stream does not go past have |
| FlashbackSnapshot.MessagesFindSnapshot | src/logservice/ob_log_flashback_service.cpp:69-123 | at every flashback message a log stream that takes no new logs is a snapshot if its replicas had; if the scn is not before its end they had, unless it passed as short |
| FlashbackSnapshot.CheckSucceedsTooEarly | src/logservice/ob_log_flashback_service.cpp:442-446 | a sync check that succeeds, short of the scn or in sync with one before the end, on a log stream that takes no new logs and is no snapshot afterwards |
| FlashbackProgress.FlashbackEnds | src/logservice/ob_log_flashback_service.cpp:69-123 | if every log stream in the end has one leader in FLASHBACK whose replicas are in sync and reply, the flashback succeeds for every deadline late enough, whatever happened before |
| FlashbackProgress.ModesChange | src/logservice/ob_log_flashback_service.cpp:193-234 | a change of modes gets through once leaders are located, answer and have arrived, known ones that no longer lead included |
| FlashbackProgress.ReplicasSync | src/logservice/ob_log_flashback_service.cpp:144-191 | the sync check gets through once all replicas answer and are in sync |
| FlashbackProgress.RepliesArrive | src/logservice/ob_log_flashback_service.cpp:236-284 | the last stage gets through once the replies are there |
| FlashbackProgress.FlashbackModePasses | src/logservice/ob_log_flashback_service.cpp:426-427 | a log stream whose leader is asked and answers in FLASHBACK passes the sync check without a poll |
| FlashbackProgress.FailureAsksAgain | src/logservice/ob_log_flashback_service.h:185-192 | a member that does not answer fails the step and makes the next one go by what the leader then says |
| Flashback.LeaderAnswerIff | src/logservice/ob_log_flashback_service.cpp:366-399 | an answer is that of a server that leads at the time, located first unless it is known |
| GcState.UpdateMeans | src/logservice/ob_garbage_collector.cpp:1095-1171 | applying the next log moves the state to what the longer log means |
| GcState.ReplayIsIdempotent | src/logservice/ob_garbage_collector.cpp:1095-1171 | replaying an applied log changes nothing |
| GcState.ReplayAgain | src/logservice/ob_garbage_collector.cpp:603-668 | replaying any applied suffix again changes nothing |
| GcReplication.ReplicasAgree | src/logservice/ob_garbage_collector.cpp:1072-1171 | in every run replicas that applied the same prefix agree up to LS_OFFLINE |
| GcReplication.OfflineScnIsFirst | src/logservice/ob_garbage_collector.cpp:1133-1171 | in LS_OFFLINE the offline scn is that of the first OFFLINE_LS log, after a block log |
| GcReplication.OfflineScnKnownIff | src/storage/ls/ob_ls_meta.cpp:354-378 | past LS_BLOCKED the offline scn is known iff WAIT_GC has not been written |
| GcReplication.StepsForward | src/logservice/ob_garbage_collector.cpp:1206-1298 | no step takes a state back; LS_OFFLINE is entered from LS_BLOCKED only, WAIT_GC from LS_OFFLINE only |
| GcReplication.NeverGoesBack | src/logservice/ob_garbage_collector.h:63-72 | over any run a replica's state never regresses |
| GcReplication.SubmitMayHappenIff | src/logservice/ob_garbage_collector.cpp:1206-1298 | a replica submits a block log in the normal state, an offline log in LS_BLOCKED, and nothing otherwise |
| GcReplication.CatchUp | src/logservice/ob_garbage_collector.cpp:603-668 | from every state of every run a replica can apply all that is committed |
| GcReplication.EveryoneCanFinish | src/logservice/ob_garbage_collector.cpp:1206-1298 | from every state of every run a replica that leads can get to WAIT_GC, logging what its state calls for and nothing else |
| GcCheckpoint.CallbackKnowsScn | src/logservice/ob_garbage_collector.cpp:408-420 | in every interleaving the callback stores the scn append returned |
| GcCheckpoint.CheckpointWaits | src/logservice/ob_garbage_collector.cpp:985-1093 | from the callback until the state is saved rec_scn_ is the log's scn, and the checkpoint never passes an unsaved log |
| GcCheckpoint.RecScnIsReleasedAfterSave | src/logservice/ob_garbage_collector.cpp:1072-1093 | rec_scn_ returns to the maximum only after the save |
| GcCheckpoint.CommitMayHappenIff | src/logservice/ob_garbage_collector.cpp:985-1070 | a log may be committed or lost as soon as it is appended, and only until its callback has been called |
| GcCheckpoint.CallbackMayStartIff | src/logservice/ob_garbage_collector.cpp:408-420 | the callback of a committed log gets going iff nobody has the lock |
| GcCheckpoint.CallbackCanBeEarly | src/logservice/ob_garbage_collector.cpp:985-1070 | a run to a committed log whose callback does not know its scn yet |
| GcCheckpoint.SubmissionEnds | src/logservice/ob_garbage_collector.cpp:985-1093 | from every state of every run the submission can end with everything saved |
| GcCheckpoint.CheckpointCatchesUp | src/logservice/ob_garbage_collector.cpp:985-1093 | and then the checkpoint can come up to everything decided |
| GcHandler.GcHandler.SetLsGcState | src/storage/ls/ob_ls_meta.cpp:354-378 | when a state is written, and that the offline scn is overwritten with it |
| GcHandler.GcHandler.BlockLsTransferIn | src/logservice/ob_garbage_collector.cpp:1095-1130 | succeeds iff done before or saved now; the state is that of the model |
| GcHandler.GcHandler.OfflineLs | src/logservice/ob_garbage_collector.cpp:1133-1171 | the same for going offline |
| GcHandler.GcHandler.UpdateLsGcStateAfterSubmitLog | src/logservice/ob_garbage_collector.cpp:1072-1093 | succeeds iff the log has had its effect before or can be saved; rec_scn_ is released on success and on success only |
| GcHandler.GcHandler.Replay | src/logservice/ob_garbage_collector.cpp:603-668 | succeeds iff a standby tenant's block log finds everything decided readable and the log can take effect; the state follows the log |
| GcHandler.GcHandler.SubmitLog | src/logservice/ob_garbage_collector.cpp:985-1070 | the wait loop ends with the state saved iff the log was appended and confirmed |
| GcHandler.GcHandler.ArchiveOffSaysGo | src/logservice/ob_garbage_collector.cpp:857-928 | without an archive: tenant dropping, restore or clone, or the offline scn, in microseconds, is the delay or more in the past, and nothing else |
| GcHandler.GcHandler.TryCheckAndSetWaitGc | src/logservice/ob_garbage_collector.cpp:805-855 | the entry may go iff readable and archived, ignored or past the delay; what is written then |
| GcHandler.GcHandler.HandleGcLsOffline | src/logservice/ob_garbage_collector.cpp:1251-1298 | a blocked leader whose log is confirmed goes offline at its scn; deletion is asked for iff leader and in WAIT_GC, or offline with that condition; every decision for WAIT_GC met it; the offline scn is still there iff the write failed |
| GcHandler.GcHandler.HandleGcLsDropping | src/logservice/ob_garbage_collector.cpp:1206-1249 | a leader in a normal state whose log is appended and confirmed ends in LS_BLOCKED, and nothing else changes the state; a block log is submitted in WAIT_OFFLINE too, where it changes nothing |
| GcHandler.GcHandler.ExecuteGc | src/logservice/ob_garbage_collector.cpp:1760-1832 | an entry is deleted only by a leader past LS_OFFLINE with a decision that met the condition |
| LogHandler.ObLogHandler.SwitchRoleTo | src/logservice/ob_log_handler.cpp:266-271 | role and proposal id change together, nothing else does |
| LogHandler.ObLogHandler.Offline | src/logservice/ob_log_handler.cpp:1679-1721 | the proposal id becomes invalid and the handler offline |
| LogHandler.ObLogHandler.Online | src/logservice/ob_log_handler.cpp:1737-1766 | refused without effect once stopped; otherwise the handler comes back as follower with an invalid proposal id |
| LogHandler.ObLogHandler.Interfere | src/logservice/ob_log_handler.cpp:266-271 | what any sequence of role changes, offline, online, stop and new terms makes of the handler |
| LogHandler.ObLogHandler.AppendOnce | src/logservice/ob_log_handler.cpp:1351-1382 | what a round returns for everything others may do before and during it; PALF takes a log only from a leader that is online, running and at PALF's term, although the proposal id was read before the lock |
| LogHandler.ObLogHandler.Append | src/logservice/ob_log_handler.cpp:1323-1418 | a blocking append returns the first result that is not OB_EAGAIN, and OB_EAGAIN only if every round did; fenced in all rounds; a success took exactly one log iff no push of the callback said to try again, and how many logs and callbacks there are in general |
| ExternalRead.TaskCount | src/logservice/ob_log_external_storage_handler.cpp:249-258 | at least one task, at most the concurrency, as many as that or as cover the range at the minimum size, and not one more |
| ExternalRead.LastTaskIsNotEmpty | src/logservice/ob_log_external_storage_handler.cpp:249-272 | the rounded-up task size leaves something for the last task, for every concurrency up to 128 |
| ExternalRead.ConstructTasks | src/logservice/ob_log_external_storage_handler.cpp:260-317 | the loop makes exactly the tasks of the split |
| ExternalRead.SplitCovers | src/logservice/ob_log_external_storage_handler.cpp:260-317 | the tasks are nonempty, contiguous and disjoint and cover the range |
| ExternalRead.MinimumHoldsIff | src/logservice/ob_log_external_storage_handler.h:98-101 | every task has the documented minimum iff what the last is left has |
| ExternalRead.MinimumNeedsMultiple | src/logservice/ob_log_external_storage_handler.h:98-101 | with enough concurrency: iff the size is that many times the minimum |
| ExternalRead.HalfTasks | src/logservice/ob_log_external_storage_handler.h:98-101 | a read whose two tasks are both below the minimum |
| ExternalRead.DoTask | src/logservice/ob_log_external_storage_io_task.cpp:437-454 | a task writes its bytes to their place and nothing else |
| ExternalRead.RunTasks | src/logservice/ob_log_external_storage_handler.cpp:319-336 | in any order of completion every task's bytes are in place and the counts add up |
| ExternalRead.CompleteIff | src/logservice/ob_log_external_storage_io_task.cpp:437-454 | the bytes read add up to the size iff every task got all, and then the buffer is the file's range |
| ExternalRead.GetRetCode | src/logservice/ob_log_external_storage_io_task.cpp:128-139 | the code is the first task's |
| ExternalRead.FirstSpeaksForAllIff | src/logservice/ob_log_external_storage_io_task.cpp:128-139 | for every concurrency and size, the code of a read speaks for all its tasks iff there is one task: without concurrency, or up to the minimum size |
| ExternalRead.Pread | src/logservice/ob_log_external_storage_handler.cpp:158-220 | for every offset, size, concurrency, order and outcome: each error, the bytes past the range untouched, every task's bytes in their place, the count what all tasks got, full iff each got its own size, and then the file's range in the buffer |
| IoTaskLatch.CountIsExact | src/logservice/ob_log_external_storage_io_task.cpp:53-97 | in every schedule the count is the number of tasks that have not signalled, and no signal finds it at zero |
| IoTaskLatch.WaitMeansDone | src/logservice/ob_log_external_storage_io_task.cpp:99-107 | the wait succeeds only when every task has been made and has signalled |
| IoTaskLatch.NoUseAfterFree | src/logservice/ob_log_external_storage_handler.cpp:194-218 | no task ever touches a freed context, early failures included |
| IoTaskLatch.TasksAreFree | src/logservice/ob_log_external_storage_io_task.cpp:437-454 | a pushed task starts, writes and signals whatever the reader and the others are at |
| IoTaskLatch.ReaderCanLeave | src/logservice/ob_log_external_storage_handler.cpp:194-218 | from every state of every schedule the reader can get all tasks done, free the context and go |
| IoTaskLatch.IoTaskCtx.Init | src/logservice/ob_log_external_storage_io_task.cpp:53-76 | when it succeeds, that every task is then still to signal, and that nothing stays behind otherwise |
| IoTaskLatch.IoTaskCtx.Signal | src/logservice/ob_log_external_storage_io_task.cpp:86-97 | one signal takes one task off the count, its error case never happens, and the last one wakes the waiter |
| IoTaskLatch.IoTaskCtx.Wait | src/logservice/ob_log_external_storage_io_task.cpp:99-107 | the loop succeeds iff the signals before the first time-out reach the count; then everyone has signalled |
| TimeoutList.Insert | deps/ussl-hook/ussl-deps.h:120-134 | a new node comes right after the head and the list stays well formed |
| TimeoutList.Delete | deps/ussl-hook/ussl-deps.h:128-142 | a node is taken out of a well-formed list; deleting it again changes nothing |
| TimeoutList.YoungIsExact | deps/ussl-hook/ussl-loop.c:180-208 | the nodes that stay are exactly those that started at most three seconds ago |
| TimeoutList.YoungKeepsOrder | deps/ussl-hook/ussl-loop.c:180-208 | and they keep their order |
| TimeoutList.CheckAndHandleTimeoutEvent | deps/ussl-hook/ussl-loop.c:180-208 | the sweep ends, visits every node once, destroys exactly those that started more than three seconds ago, leaves the rest a well-formed list, and never looks at a destroyed node |

## Left out

- Real file systems, fsync order and checksums: each rename, unlink and meta write is atomic and durable when it
  returns, and calls named "until success" or "with retry" succeed in the end.
- Argument checks for null pointers, uninitialised objects and bad file descriptors.
- `remove_block_at` of a file whose size is not a block's, which is just unlinked, and temporary block files of tenants.
- LogPoolSizes.AcceptedShrinkHasBlocks: that tenants keep within the new size of a shrink is what the log pool is
  promised about them; the code nowhere checks it.
- BlockMgr.ServerLogBlockMgr.Resize: one thread's view, with no other call under way; that other threads run in between
  is `LogPoolTheorems` and `LogPoolSizes`.
- BlockMgr.ServerLogBlockMgr.ScanLogPoolDir: qsort and the directory scan are replaced by repeatedly taking the smallest id.
- BlockMgr.ServerLogBlockMgr.CreateBlockAt: a tenant names a file it does not have yet; during the call other threads
  stand still, except for the one that brings the file.
- BlockMgr.ServerLogBlockMgr.RemoveBlockAt: a tenant names a file that it has; other threads stand still.
- TenantQuota.LogDiskQuota.CreateTenant: sizes are not negative, and callers pass the charge they were told before.
- `force_update_tenant_log_disk`, which passes PALF's size as the old charge.
- Flashback.LogFlashbackService.Flashback: the tenant checks and the trylock at its start are not modelled, and the
  operator array is not reset under a reply that is being handled.
- FlashbackSnapshot takes it that a log stream in PREPARE_FLASHBACK takes no new logs, whoever leads it; the leader's own
  handling of access modes is not part of this model.
- GcReplication leaves elections to the environment: any replica may submit what its own state calls for, and every
  replica applies committed logs in order. That a new leader has replayed everything before it applies its own logs is
  taken from the role change service.
- GcCheckpoint: other checkpoint sub-handlers are left out; they can only lower the checkpoint.
- GcHandler.GcHandler.SubmitLog: the number of failing saves before the first success is finite and given.
- LogHandler.ObLogHandler.Append: the number of rounds is given; an append that is still retrying after them counts as
  OB_EAGAIN. Compression of the payload is left out. Proposal ids are taken to be PALF's terms, in order.
- ExternalRead: what a failed task leaves in its own part of the buffer is left out.
- IoTaskLatch: a signal is one step, with the release of its mutex.
- TimeoutList: epoll, sockets and the ready list.
- ObLogHandler's delegations, adapters, monitors, heartbeats, log serialization, and the ussl negotiation: plumbing or
  single-branch logic that would only add easy members.
