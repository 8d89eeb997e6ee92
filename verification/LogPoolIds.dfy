/**
 Ids, files and counts: what holds in every run of the log pool, whatever tenants take, whichever call fails and
 whenever the server crashes.
 */
module LogPoolIds {
  import opened LogPool

  // ---------------------------------------------------------------- the invariant

  /** Every id of the range or awaited by a taker is a file or awaits a putter, never both, and nothing else is. */
  ghost predicate Parted(min: nat, max: nat, pool: set<nat>, taking: set<nat>, putting: set<nat>) {
    && min <= max
    && (forall i | i in taking :: i < min)
    && pool !! putting
    && (forall i: nat :: i in pool || i in putting <==> min <= i < max || i in taking)
  }

  predicate DistinctOps(m: map<nat, Op>) {
    forall r1, r2 | r1 in m && r2 in m && r1 != r2 :: m[r1].id != m[r2].id && m[r1].slot != m[r2].slot
  }

  /** No two threads hold the same id, and the ids, the files and the range fit together. */
  ghost predicate Partition(s: State) {
    && DistinctOps(s.takes) && DistinctOps(s.puts)
    && (s.rz.FreeHeld? ==> s.rz.id !in Ids(s.takes))
    && (s.rz.MoveHeld? ==> s.rz.id !in Ids(s.puts))
    && Parted(s.min, s.max, s.disk.pool, TakeIds(s.takes, s.rz), PutIds(s.puts, s.rz))
  }

  function Bit(b: bool): nat {
    if b then 1 else 0
  }

  // Blocks given to tenants: the counter, or what the scan found while it is not yet set.
  function Used(s: State): int {
    if s.phase.Up? then s.inUse else |s.disk.tenant|
  }

  // Blocks the manager accounts for.
  function Owned(s: State): int {
    Used(s) + s.max - s.min
  }

  // Block files that exist outside expanding.tmp.
  function OnDisk(d: Disk): nat {
    |d.pool| + |d.tenant|
  }

  ghost predicate Counted(s: State) {
    && |s.disk.pool| + |s.puts| + Bit(s.rz.MoveHeld?) == s.max - s.min + |s.takes| + Bit(s.rz.FreeHeld?)
    && |s.disk.tenant| == Used(s) - |s.takes| + |s.puts|
    && Slots(s.takes) !! s.disk.tenant
    && Slots(s.puts) <= s.disk.tenant
  }

  /** Which steps belong to which status, and how far their counters may run. */
  predicate Staged(rz: Resizer, status: Status) {
    match rz
    case Idle => status.NormalStatus?
    case MakingTmp(_, _) => status.ExpandingStatus?
    case Allocating(_, want, made) => status.ExpandingStatus? && made <= want
    case Moving(_, want, moved) => status.ExpandingStatus? && moved <= want
    case MoveHeld(_, want, moved, _) => status.ExpandingStatus? && moved < want
    case RemovingTmp(_, _) => status.ExpandingStatus?
    case Freeing(_, want, freed) => status.ShrinkingStatus? && freed <= want
    case FreeHeld(_, want, freed, _) => status.ShrinkingStatus? && freed < want
    case Committing(_, _) => !status.NormalStatus?
  }

  /** The blocks waiting in expanding.tmp. */
  ghost predicate TmpOk(rz: Resizer, tmp: set<nat>, tmpDir: bool) {
    match rz
    case Allocating(_, _, made) => tmpDir && forall i: nat :: i in tmp <==> i < made
    case Moving(_, want, moved) => tmpDir && forall i: nat :: i in tmp <==> moved <= i < want
    case MoveHeld(_, want, moved, _) => tmpDir && forall i: nat :: i in tmp <==> moved <= i < want
    case RemovingTmp(_, _) => tmpDir
    case _ => true
  }

  // What a failed resize writes back.
  predicate PriorOk(rz: Resizer, m: Meta, resuming: bool) {
    !rz.Idle? ==> if resuming then rz.prior == m else rz.prior.status.NormalStatus? && rz.prior.curr == m.curr
  }

  ghost predicate ResizerOk(s: State) {
    && Staged(s.rz, s.disk.meta.status)
    && TmpOk(s.rz, s.disk.tmp, s.disk.tmpDir)
    && PriorOk(s.rz, s.disk.meta, s.phase.Resuming?)
  }

  /** While the restart moves ids down: the range so far, and beyond a gap the ids still to be moved. */
  ghost predicate TrimOk(min: nat, max: nat, pool: set<nat>, rest: seq<nat>) {
    && min <= max && Increasing(rest)
    && (rest != [] ==> max < rest[0])
    && (forall x: nat :: x in pool <==> min <= x < max || x in rest)
    && |pool| == max - min + |rest|
  }

  predicate Quiet(s: State) {
    s.takes == map[] && s.puts == map[] && s.inUse == 0 && s.quota == 0
  }

  ghost predicate Inv(s: State) {
    && (s.phase.Down? ==> s == Rebooted(s.disk))
    && (s.phase.Trimming? ==>
          Quiet(s) && s.rz.Idle? && !s.disk.tmpDir && TrimOk(s.min, s.max, s.disk.pool, s.phase.rest))
    && (s.phase.Resuming? ==> Quiet(s) && (s.rz.MakingTmp? ==> !s.disk.tmpDir))
    && (Active(s) ==> Partition(s) && Counted(s) && ResizerOk(s))
  }

  // ---------------------------------------------------------------- sets and maps of reservations

  lemma AddOp(m: map<nat, Op>, r: nat, op: Op)
    requires r !in m
    ensures Ids(m[r := op]) == Ids(m) + {op.id}
    ensures Slots(m[r := op]) == Slots(m) + {op.slot}
    ensures |m[r := op]| == |m| + 1
    ensures DistinctOps(m) && op.id !in Ids(m) && op.slot !in Slots(m) ==> DistinctOps(m[r := op])
  {
    var m' := m[r := op];
    forall i ensures i in Ids(m') <==> i in Ids(m) + {op.id} {
      if i in Ids(m) { var q :| q in m && m[q].id == i; assert q in m' && m'[q].id == i; }
      if i == op.id { assert m'[r].id == i; }
    }
    forall i ensures i in Slots(m') <==> i in Slots(m) + {op.slot} {
      if i in Slots(m) { var q :| q in m && m[q].slot == i; assert q in m' && m'[q].slot == i; }
      if i == op.slot { assert m'[r].slot == i; }
    }
  }

  lemma DropOp(m: map<nat, Op>, r: nat)
    requires r in m && DistinctOps(m)
    ensures m[r].id in Ids(m) && m[r].slot in Slots(m)
    ensures Ids(m - {r}) == Ids(m) - {m[r].id}
    ensures Slots(m - {r}) == Slots(m) - {m[r].slot}
    ensures |m - {r}| == |m| - 1
    ensures DistinctOps(m - {r})
  {
    var m' := m - {r};
    forall i ensures i in Ids(m') <==> i in Ids(m) - {m[r].id} {
      if i in Ids(m) && i != m[r].id { var q :| q in m && m[q].id == i; assert q in m' && m'[q].id == i; }
      if i in Ids(m') { var q :| q in m' && m'[q].id == i; assert q in m; }
    }
    forall i ensures i in Slots(m') <==> i in Slots(m) - {m[r].slot} {
      if i in Slots(m) && i != m[r].slot { var q :| q in m && m[q].slot == i; assert q in m' && m'[q].slot == i; }
      if i in Slots(m') { var q :| q in m' && m'[q].slot == i; assert q in m; }
    }
    assert m'.Keys == m.Keys - {r};
    assert |m'.Keys| == |m'| && |m.Keys| == |m|;
  }

  // Taking or putting, by a tenant's thread or by the resizer, in two steps each.

  lemma ReserveMin(min: nat, max: nat, pool: set<nat>, taking: set<nat>, putting: set<nat>)
    requires Parted(min, max, pool, taking, putting) && min < max
    ensures min !in taking
    ensures Parted(min + 1, max, pool, taking + {min}, putting)
  {
  }

  lemma RemoveFile(min: nat, max: nat, pool: set<nat>, taking: set<nat>, putting: set<nat>, id: nat)
    requires Parted(min, max, pool, taking, putting) && id in taking && id in pool
    ensures Parted(min, max, pool - {id}, taking - {id}, putting)
  {
  }

  lemma ReserveMax(min: nat, max: nat, pool: set<nat>, taking: set<nat>, putting: set<nat>)
    requires Parted(min, max, pool, taking, putting)
    ensures max !in putting && max !in pool
    ensures Parted(min, max + 1, pool, taking, putting + {max})
  {
  }

  lemma AddFile(min: nat, max: nat, pool: set<nat>, taking: set<nat>, putting: set<nat>, id: nat)
    requires Parted(min, max, pool, taking, putting) && id in putting
    ensures id !in pool
    ensures Parted(min, max, pool + {id}, taking, putting - {id})
  {
  }

  // ---------------------------------------------------------------- tenants' threads

  lemma PartTakeReserve(s: State, r: nat, slot: nat)
    requires Partition(s) && r !in s.takes && s.min < s.max && slot !in Slots(s.takes)
    ensures Partition(TakeReserved(s, r, slot))
  {
    AddOp(s.takes, r, Op(s.min, slot));
    ReserveMin(s.min, s.max, s.disk.pool, TakeIds(s.takes, s.rz), PutIds(s.puts, s.rz));
    assert TakeIds(s.takes[r := Op(s.min, slot)], s.rz) == TakeIds(s.takes, s.rz) + {s.min};
  }

  lemma KeepTakeReserve(s: State, r: nat, slot: nat)
    requires Inv(s) && Enabled(s, TakeReserve(r, slot))
    ensures Inv(TakeReserved(s, r, slot))
  {
    PartTakeReserve(s, r, slot);
    AddOp(s.takes, r, Op(s.min, slot));
  }

  lemma PartTakeRename(s: State, r: nat)
    requires Partition(s) && r in s.takes && s.takes[r].id in s.disk.pool
    ensures Partition(TakeRenamed(s, r))
  {
    var id := s.takes[r].id;
    DropOp(s.takes, r);
    RemoveFile(s.min, s.max, s.disk.pool, TakeIds(s.takes, s.rz), PutIds(s.puts, s.rz), id);
    assert TakeIds(s.takes - {r}, s.rz) == TakeIds(s.takes, s.rz) - {id};
  }

  lemma CountTakeRename(s: State, r: nat)
    requires Partition(s) && Counted(s) && s.phase.Up? && r in s.takes && s.takes[r].id in s.disk.pool
    ensures Counted(TakeRenamed(s, r))
  {
    DropOp(s.takes, r);
  }

  lemma KeepTakeRename(s: State, r: nat)
    requires Inv(s) && Enabled(s, TakeRename(r))
    ensures Inv(TakeRenamed(s, r))
  {
    hide Partition, Counted, ResizerOk;
    PartTakeRename(s, r);
    CountTakeRename(s, r);
    ResizerKept(s, TakeRenamed(s, r));
  }

  // The resizer's part of the state is all that ResizerOk looks at.
  lemma ResizerKept(s: State, s': State)
    requires ResizerOk(s) && s'.rz == s.rz && s'.disk.meta == s.disk.meta && s'.phase == s.phase
    requires s'.disk.tmp == s.disk.tmp && s'.disk.tmpDir == s.disk.tmpDir
    ensures ResizerOk(s')
  {
  }

  lemma PartPutReserve(s: State, r: nat, slot: nat)
    requires Partition(s) && r !in s.puts && slot !in Slots(s.puts)
    ensures Partition(PutReserved(s, r, slot))
  {
    AddOp(s.puts, r, Op(s.max, slot));
    ReserveMax(s.min, s.max, s.disk.pool, TakeIds(s.takes, s.rz), PutIds(s.puts, s.rz));
    assert PutIds(s.puts[r := Op(s.max, slot)], s.rz) == PutIds(s.puts, s.rz) + {s.max};
  }

  lemma KeepPutReserve(s: State, r: nat, slot: nat)
    requires Inv(s) && Enabled(s, PutReserve(r, slot))
    ensures Inv(PutReserved(s, r, slot))
  {
    PartPutReserve(s, r, slot);
    AddOp(s.puts, r, Op(s.max, slot));
  }

  lemma PartPutRename(s: State, r: nat)
    requires Partition(s) && r in s.puts
    ensures s.puts[r].id !in s.disk.pool
    ensures Partition(PutRenamed(s, r))
  {
    var id := s.puts[r].id;
    DropOp(s.puts, r);
    AddFile(s.min, s.max, s.disk.pool, TakeIds(s.takes, s.rz), PutIds(s.puts, s.rz), id);
    assert PutIds(s.puts - {r}, s.rz) == PutIds(s.puts, s.rz) - {id};
  }

  lemma KeepPutRename(s: State, r: nat)
    requires Inv(s) && Enabled(s, PutRename(r))
    ensures Inv(PutRenamed(s, r))
  {
    PartPutRename(s, r);
    DropOp(s.puts, r);
  }

  // ---------------------------------------------------------------- the resizer

  // Files, counters and range agree once nothing is held.
  lemma OwnedIsOnDisk(s: State)
    requires Counted(s)
    ensures OnDisk(s.disk) == Owned(s) - Bit(s.rz.MoveHeld?) + Bit(s.rz.FreeHeld?)
  {
  }

  lemma KeepBegin(s: State, size: int)
    requires Inv(s) && Enabled(s, Begin(size))
    ensures Inv(Begun(s, size))
  {
  }

  lemma KeepMakeTmp(s: State, ok: bool, left: bool)
    requires Inv(s) && Enabled(s, MakeTmp(ok, left))
    ensures Inv(TmpMade(s, ok, left))
  {
  }

  lemma KeepAllocate(s: State, ok: bool)
    requires Inv(s) && Enabled(s, Allocate(ok))
    ensures Inv(Allocated(s, ok))
  {
  }

  lemma KeepAllocateDone(s: State, ok: bool)
    requires Inv(s) && Enabled(s, AllocateDone(ok))
    ensures Inv(Apply(s, AllocateDone(ok)))
  {
  }

  lemma PartMoveReserve(s: State)
    requires Partition(s) && s.rz.Moving?
    ensures Partition(MoveReserved(s))
  {
    ReserveMax(s.min, s.max, s.disk.pool, TakeIds(s.takes, s.rz), PutIds(s.puts, s.rz));
  }

  lemma KeepMoveReserve(s: State)
    requires Inv(s) && Enabled(s, MoveReserve)
    ensures Inv(MoveReserved(s))
  {
    PartMoveReserve(s);
  }

  lemma PartMoveRename(s: State)
    requires Partition(s) && s.rz.MoveHeld?
    ensures s.rz.id !in s.disk.pool
    ensures Partition(MoveRenamed(s))
  {
    AddFile(s.min, s.max, s.disk.pool, TakeIds(s.takes, s.rz), PutIds(s.puts, s.rz), s.rz.id);
    assert PutIds(s.puts, s.rz) - {s.rz.id} == Ids(s.puts);
  }

  lemma CountMoveRename(s: State)
    requires s.rz.MoveHeld? && s.rz.id !in s.disk.pool && Counted(s)
    ensures Counted(MoveRenamed(s))
  {
  }

  lemma ResizerMoveRename(s: State)
    requires s.rz.MoveHeld? && ResizerOk(s)
    ensures ResizerOk(MoveRenamed(s))
  {
  }

  lemma KeepMoveRename(s: State)
    requires Inv(s) && Enabled(s, MoveRename)
    ensures Inv(MoveRenamed(s))
  {
    hide Partition, Counted, Staged, TmpOk;
    PartMoveRename(s);
    CountMoveRename(s);
    ResizerMoveRename(s);
  }

  lemma KeepMoveDone(s: State)
    requires Inv(s) && Enabled(s, MoveDone)
    ensures Inv(Apply(s, MoveDone))
  {
  }

  lemma KeepRemoveTmp(s: State, removed: bool)
    requires Inv(s) && Enabled(s, RemoveTmp(removed))
    ensures Inv(TmpRemoved(s, removed))
  {
  }

  lemma PartFreeReserve(s: State)
    requires Partition(s) && s.rz.Freeing? && s.min < s.max
    ensures Partition(FreeReserved(s))
  {
    ReserveMin(s.min, s.max, s.disk.pool, TakeIds(s.takes, s.rz), PutIds(s.puts, s.rz));
  }

  lemma KeepFreeReserve(s: State)
    requires Inv(s) && Enabled(s, FreeReserve)
    ensures Inv(FreeReserved(s))
  {
    PartFreeReserve(s);
  }

  lemma PartFreeUnlink(s: State)
    requires Partition(s) && s.rz.FreeHeld? && s.rz.id in s.disk.pool
    ensures Partition(FreeUnlinked(s))
  {
    RemoveFile(s.min, s.max, s.disk.pool, TakeIds(s.takes, s.rz), PutIds(s.puts, s.rz), s.rz.id);
    assert TakeIds(s.takes, s.rz) - {s.rz.id} == Ids(s.takes);
  }

  lemma KeepFreeUnlink(s: State)
    requires Inv(s) && Enabled(s, FreeUnlink)
    ensures Inv(FreeUnlinked(s))
  {
    PartFreeUnlink(s);
  }

  lemma KeepFreeEnd(s: State, e: Event)
    requires Inv(s) && (e.FreeFail? || e.FreeDone?) && Enabled(s, e)
    ensures Inv(Apply(s, e))
  {
  }

  lemma KeepCommit(s: State)
    requires Inv(s) && Enabled(s, Commit)
    ensures Inv(Committed(s))
  {
  }

  // ---------------------------------------------------------------- restart

  // Ids that each continue the one before them fill a range.
  lemma {:induction false} Contiguous(ids: seq<nat>, k: nat)
    requires 0 < k <= |ids|
    requires forall j | 0 <= j < k - 1 :: ids[j + 1] == ids[j] + 1
    ensures forall j | 0 <= j < k :: ids[j] == ids[0] + j
    ensures ids[k - 1] == ids[0] + k - 1
  {
    if 1 < k { Contiguous(ids, k - 1); }
  }

  // The first n ids fill a range and the next one, if any, leaves a gap.
  lemma ScanRange(pool: set<nat>, ids: seq<nat>, n: nat)
    requires Increasing(ids) && 0 < n <= |ids| == |pool|
    requires forall x :: x in ids <==> x in pool
    requires forall j | 0 <= j < n :: ids[j] == ids[0] + j
    requires n < |ids| ==> ids[n] != ids[n - 1] + 1
    ensures TrimOk(ids[0], ids[0] + n, pool, ids[n..])
  {
    forall x: nat ensures x in pool <==> ids[0] <= x < ids[0] + n || x in ids[n..] {
      if x in pool {
        var j :| 0 <= j < |ids| && ids[j] == x;
        if n <= j { assert ids[n..][j - n] == x; }
      }
      if ids[0] <= x < ids[0] + n { assert ids[x - ids[0]] == x; }
    }
    if n < |ids| { assert ids[n - 1] < ids[n]; }
  }

  lemma ScanIsTrimOk(s: State, ids: seq<nat>)
    requires Increasing(ids) && |ids| == |s.disk.pool|
    requires forall x :: x in ids <==> x in s.disk.pool
    ensures var s' := Ranged(s, ids);
            && s'.phase.Trimming? && s' == s.(min := s'.min, max := s'.max, phase := s'.phase)
            && TrimOk(s'.min, s'.max, s.disk.pool, s'.phase.rest)
  {
    if ids != [] {
      var k := FirstGap(ids, 0);
      var n := if k == 0 then |ids| else k;
      Contiguous(ids, n);
      ScanRange(s.disk.pool, ids, n);
      assert k == 0 ==> ids[n..] == [];
    }
  }

  lemma KeepScan(s: State)
    requires Inv(s) && Enabled(s, Scan)
    ensures Inv(Apply(s, Scan))
  {
    hide Sorted, RangeOf, Increasing, TrimOk;
    SortedHolds(s.disk.pool);
    SortedIsIncreasing(s.disk.pool);
    ScanIsTrimOk(Rebooted(s.disk.(tmp := {}, tmpDir := false)), Sorted(s.disk.pool));
  }

  /** Each move of the restart goes to a strictly smaller id that no file has, and keeps the picture. */
  lemma TrimMovesDown(min: nat, max: nat, pool: set<nat>, rest: seq<nat>)
    requires TrimOk(min, max, pool, rest) && rest != []
    ensures max < rest[0] && max !in pool && rest[0] in pool && |pool - {rest[0]} + {max}| == |pool|
    ensures TrimOk(min, max + 1, pool - {rest[0]} + {max}, rest[1..])
  {
    var pool' := pool - {rest[0]} + {max};
    assert forall i | 0 <= i < |rest| :: rest[0] <= rest[i];
    assert |pool'| == |pool|;
    forall x: nat ensures x in pool' <==> min <= x < max + 1 || x in rest[1..] {
      if x in rest && x != rest[0] {
        var i :| 0 <= i < |rest| && rest[i] == x;
        assert rest[1..][i - 1] == x;
      }
    }
  }

  lemma KeepTrimMove(s: State)
    requires Inv(s) && Enabled(s, TrimMove)
    ensures Inv(Trimmed(s))
  {
    hide Partition, Counted, ResizerOk, Increasing;
    TrimMovesDown(s.min, s.max, s.disk.pool, s.phase.rest);
  }

  // Nobody holds an id when a restart resumes.
  lemma KeepLoadMeta(s: State)
    requires Inv(s) && Enabled(s, LoadMeta)
    ensures Inv(Resumed(s)) && Owned(Resumed(s)) == OnDisk(s.disk)
  {
    assert Ids(map[]) == {} && Slots(map[]) == {};
  }

  lemma KeepFinish(s: State)
    requires Inv(s) && Enabled(s, Finish)
    ensures Inv(Apply(s, Finish))
  {
  }

  // ---------------------------------------------------------------- all events

  lemma TenantEventKeepsInv(s: State, e: Event)
    requires Inv(s) && Enabled(s, e)
    requires e.TakeReserve? || e.TakeRename? || e.PutReserve? || e.PutRename?
    ensures Inv(Apply(s, e))
  {
    hide Inv;
    match e
    case TakeReserve(r, slot) => KeepTakeReserve(s, r, slot);
    case TakeRename(r) => KeepTakeRename(s, r);
    case PutReserve(r, slot) => KeepPutReserve(s, r, slot);
    case PutRename(r) => KeepPutRename(s, r);
  }

  predicate ExpandEvent(e: Event) {
    e.MakeTmp? || e.Allocate? || e.AllocateDone? || e.MoveReserve? || e.MoveRename? || e.MoveDone? || e.RemoveTmp?
  }

  lemma MoveEventKeepsInv(s: State, e: Event)
    requires Inv(s) && Enabled(s, e) && (e.MoveReserve? || e.MoveRename? || e.MoveDone?)
    ensures Inv(Apply(s, e))
  {
    hide Inv;
    match e
    case MoveReserve => KeepMoveReserve(s);
    case MoveRename => KeepMoveRename(s);
    case MoveDone => KeepMoveDone(s);
  }

  lemma ExpandEventKeepsInv(s: State, e: Event)
    requires Inv(s) && Enabled(s, e) && ExpandEvent(e)
    ensures Inv(Apply(s, e))
  {
    hide Inv;
    match e
    case MakeTmp(ok, left) => KeepMakeTmp(s, ok, left);
    case Allocate(ok) => KeepAllocate(s, ok);
    case AllocateDone(ok) => KeepAllocateDone(s, ok);
    case RemoveTmp(removed) => KeepRemoveTmp(s, removed);
    case _ => MoveEventKeepsInv(s, e);
  }

  predicate ShrinkEvent(e: Event) {
    e.FreeReserve? || e.FreeUnlink? || e.FreeFail? || e.FreeDone?
  }

  lemma ShrinkEventKeepsInv(s: State, e: Event)
    requires Inv(s) && Enabled(s, e) && ShrinkEvent(e)
    ensures Inv(Apply(s, e))
  {
    hide Inv;
    match e
    case FreeReserve => KeepFreeReserve(s);
    case FreeUnlink => KeepFreeUnlink(s);
    case _ => KeepFreeEnd(s, e);
  }

  predicate RestartEvent(e: Event) {
    e.Crash? || e.Scan? || e.TrimMove? || e.LoadMeta? || e.Finish?
  }

  lemma KeepCrash(s: State)
    ensures Inv(Rebooted(s.disk))
  {
  }

  lemma RestartEventKeepsInv(s: State, e: Event)
    requires Inv(s) && Enabled(s, e) && RestartEvent(e)
    ensures Inv(Apply(s, e))
  {
    hide Inv;
    match e
    case Crash => KeepCrash(s);
    case Scan => KeepScan(s);
    case TrimMove => KeepTrimMove(s);
    case LoadMeta => KeepLoadMeta(s);
    case Finish => KeepFinish(s);
  }

  lemma KeepSetQuota(s: State, q: int)
    requires Inv(s) && Enabled(s, SetQuota(q))
    ensures Inv(Apply(s, SetQuota(q)))
  {
  }

  /** Every event keeps the invariant. */
  lemma InvKept(s: State, e: Event)
    requires Inv(s) && Enabled(s, e)
    ensures Inv(Apply(s, e))
  {
    hide Inv;
    if ExpandEvent(e) { ExpandEventKeepsInv(s, e); }
    else if ShrinkEvent(e) { ShrinkEventKeepsInv(s, e); }
    else if RestartEvent(e) { RestartEventKeepsInv(s, e); }
    else if e.SetQuota? { KeepSetQuota(s, e.q); }
    else if e.Begin? { KeepBegin(s, e.size); }
    else if e.Commit? { KeepCommit(s); }
    else { TenantEventKeepsInv(s, e); }
  }
}
