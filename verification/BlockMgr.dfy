/**
 The block manager itself: the loops that allocate, move, free and trim blocks, and the methods that call them.

 `run` records every state the manager passes through, so that what is proved of every run of the log pool, crashes
 included, holds at each step of these methods.
 */
module BlockMgr {
  import opened LogPool
  import opened LogPoolIds
  import opened LogPoolTheorems
  import opened LogPoolSizes
  import opened LogPoolRecovery
  import opened LogPoolRuns

  // What the file system will do to an expansion: `space` blocks can be allocated.
  datatype Faults = Faults(mkdirOk: bool, openOk: bool, space: nat, syncOk: bool, rmdirOk: bool)

  // Everything an expansion by that many blocks needs.
  predicate BlocksArrive(blocks: nat, tmpDir: bool, f: Faults) {
    f.mkdirOk && f.openOk && !tmpDir && blocks <= f.space && f.syncOk
  }

  predicate ExpandSucceeds(blocks: nat, tmpDir: bool, f: Faults) {
    BlocksArrive(blocks, tmpDir, f) && f.rmdirOk
  }

  // All blocks were moved, but expanding.tmp could not be removed.
  predicate Stranded(blocks: nat, tmpDir: bool, f: Faults) {
    BlocksArrive(blocks, tmpDir, f) && !f.rmdirOk
  }

  // The event starts this resize, with no tenant's thread about.
  ghost predicate Starts(s: State, e: Event, prior: Meta, blocks: nat, target: Meta)
    requires Enabled(s, e)
  {
    var t := Apply(s, e);
    && t == s.(disk := s.disk.(meta := target), rz := t.rz, phase := t.phase)
    && t.takes == t.puts == map[] && Active(t) && t.min <= t.max
    && ((target.status.ExpandingStatus? && t.rz == MakingTmp(prior, blocks))
        || (target.status.ShrinkingStatus? && t.rz == Freeing(prior, blocks, 0)))
  }

  datatype Ret = Success | NotSupported | EntryNotExist | Failed

  // ---------------------------------------------------------------- steps

  // The number of blocks a resize changes makes up the difference of the sizes.
  lemma WantedBlocks(curr: int, size: int)
    requires Whole(curr)
    ensures Bytes(Distance(BlockCount(curr), BlockCount(LowerAlign(size)))) == Distance(curr, LowerAlign(size))
  {
    LowerAlignIsFloor(size);
    BlockCountOfBytes(curr / 0x400_0000);
    BlockCountOfBytes(size / 0x400_0000);
  }

  lemma RecordedIsWhole(run: seq<State>, s: State)
    requires History(run, s) && s.phase.Up?
    ensures Whole(s.disk.meta.curr)
  {
    DriftNow(run, s);
  }

  // A resize that resize_ lets through, and what it starts from.
  lemma ResizeBegins(run: seq<State>, s: State, size: int)
    requires History(run, s) && Calm(s) && LowerAlign(size) != s.disk.meta.curr && s.quota <= LowerAlign(size)
    ensures var m, next := s.disk.meta, LowerAlign(size);
            var want := Distance(BlockCount(m.curr), BlockCount(next));
            var status := if m.curr < next then ExpandingStatus else ShrinkingStatus;
            && Enabled(s, Begin(size)) && Starts(s, Begin(size), m, want, Meta(m.curr, next, status))
            && Bytes(want) == Distance(m.curr, next)
  {
    hide LowerAlign, BlockCount;
    CalmPool(run, s);
    RecordedIsWhole(run, s);
    WantedBlocks(s.disk.meta.curr, size);
  }

  lemma TrimSteps(run: seq<State>, s: State)
    requires History(run, s) && s.phase.Trimming? && s.phase.rest != []
    ensures History(run + [Trimmed(s)], Trimmed(s)) && s.min <= s.max
    ensures s.phase.rest[0] in s.disk.pool && |Trimmed(s).disk.pool| == |s.disk.pool|
  {
    HistoryIsInv(run, s);
    TrimMovesDown(s.min, s.max, s.disk.pool, s.phase.rest);
    Extend(run, s, TrimMove);
  }

  lemma TrimEnds(run: seq<State>, s: State)
    requires History(run, s) && s.phase == Trimming([])
    ensures |s.disk.pool| == s.max - s.min && s.takes == s.puts == map[] && s.rz.Idle? && !s.disk.tmpDir
    ensures forall id: nat :: id in s.disk.pool <==> s.min <= id < s.max
  {
    HistoryIsInv(run, s);
  }

  // How many blocks a restart has to add or free.
  function ResumeCount(d: Disk): nat {
    Distance(OnDisk(d), BlockCount(d.meta.next))
  }

  // Whether the continued resize gets through.
  predicate Continues(d: Disk, f: Faults) {
    match d.meta.status
    case NormalStatus => true
    case ExpandingStatus => ExpandSucceeds(ResumeCount(d), false, f)
    case ShrinkingStatus => ResumeCount(d) <= |d.pool|
  }

  // The files there are after it.
  function FilesAfter(d: Disk): int {
    match d.meta.status
    case NormalStatus => OnDisk(d)
    case ExpandingStatus => OnDisk(d) + ResumeCount(d)
    case ShrinkingStatus => OnDisk(d) - ResumeCount(d)
  }

  predicate RestartSucceeds(d: Disk, f: Faults) {
    CanRestart(d) && (d.meta.status.ExpandingStatus? ==> ExpandSucceeds(ResumeCount(d), false, f))
  }

  /** The integrity check after a continued resize holds exactly on the disks that can be restarted. */
  lemma IntegrityIff(d: Disk, f: Faults)
    ensures Continues(d, f) && Bytes(FilesAfter(d)) == Target(d.meta) <==> RestartSucceeds(d, f)
  {
  }

  lemma ResumeBegins(run: seq<State>, s: State)
    requires History(run, s) && s.phase == Trimming([])
    ensures var m, want := s.disk.meta, ResumeCount(s.disk);
            && Enabled(s, LoadMeta) && Apply(s, LoadMeta).phase.Resuming?
            && want == Distance(BlockCount(Bytes(|s.disk.tenant| + (s.max - s.min))), BlockCount(m.next))
            && (m.status.NormalStatus? ==> Apply(s, LoadMeta) == s.(phase := Resuming))
            && (!m.status.NormalStatus? ==> Starts(s, LoadMeta, m, want, m))
  {
    hide LowerAlign;
    TrimEnds(run, s);
    BlockCountOfBytes(|s.disk.tenant| + (s.max - s.min));
  }

  lemma CrashStep(run: seq<State>, s: State)
    requires History(run, s)
    ensures History(run + [Rebooted(s.disk)], Rebooted(s.disk))
  {
    Extend(run, s, Crash);
  }

  lemma ScanStep(run: seq<State>, s: State)
    requires History(run, s) && s.phase.Down?
    ensures var d := s.disk.(tmp := {}, tmpDir := false);
            var t := Ranged(Rebooted(d), Sorted(d.pool));
            && s == Rebooted(s.disk) && History(run + [t], t)
  {
    HistoryIsInv(run, s);
    Extend(run, s, Scan);
  }

  lemma FinishStep(run: seq<State>, s: State)
    requires History(run, s) && s.phase.Resuming? && s.rz.Idle?
    requires s.disk.meta.curr == Bytes(|s.disk.tenant|) + Bytes(s.max - s.min)
    ensures var t := s.(phase := Up, inUse := |s.disk.tenant|);
            History(run + [t], t) && Calm(t) && t.disk.meta.status.NormalStatus?
  {
    HistoryIsInv(run, s);
    Extend(run, s, Finish);
  }

  // What a resize to `next` that is let through makes of a calm server.
  predicate Resized(s: State, t: State, next: int, ret: Ret, f: Faults) {
    var want := Distance(BlockCount(s.disk.meta.curr), BlockCount(next));
    && t.disk.meta == (if ret.Success? then Meta(next, next, NormalStatus) else s.disk.meta)
    && if s.disk.meta.curr < next then
         && (ret.Success? <==> ExpandSucceeds(want, s.disk.tmpDir, f)) && t.min == s.min
         && t.max == s.max + if BlocksArrive(want, s.disk.tmpDir, f) then want else 0
       else
         && (ret.Success? <==> want <= s.max - s.min) && t.max == s.max
         && t.min == if ret.Success? then s.min + want else s.max
  }

  // By how much it puts the accounts out.
  function ResizeGap(s: State, next: int, f: Faults): int {
    var want := Distance(BlockCount(s.disk.meta.curr), BlockCount(next));
    if next < s.quota || next == s.disk.meta.curr then 0
    else if s.disk.meta.curr < next then
      if Stranded(want, s.disk.tmpDir, f) then next - s.disk.meta.curr else 0
    else if want <= s.max - s.min then 0 else -Bytes(s.max - s.min)
  }

  lemma ResumedIsNormal(run: seq<State>, s: State)
    requires History(run, s) && s.phase.Resuming? && s.rz.Idle?
    ensures s.disk.meta.status.NormalStatus?
  {
    HistoryIsInv(run, s);
  }

  class ServerLogBlockMgr {
    // names of block files, and the meta file
    var pool: set<nat>
    var tenant: set<nat>
    var tmp: set<nat>
    var tmpDir: bool
    var meta: Meta
    // memory
    var min: nat
    var max: nat
    var inUse: int
    var quota: int
    // where the calling thread stands, and where it has been
    ghost var takes: map<nat, Op>
    ghost var puts: map<nat, Op>
    ghost var rz: Resizer
    ghost var phase: Phase
    ghost var run: seq<State>

    ghost function View(): State
      reads this
    {
      State(Disk(pool, tenant, tmp, tmpDir, meta), min, max, inUse, quota, takes, puts, rz, phase)
    }

    ghost predicate Valid()
      reads this
    {
      History(run, View())
    }

    // What the blocks in use and the free blocks exceed the recorded size by.
    ghost function Gap(): int
      reads this
    {
      Size(View()) - meta.curr
    }

    // A running server between two calls.
    ghost predicate Ready()
      reads this
    {
      Valid() && Calm(View())
    }

    constructor ()
      ensures Ready() && View() == Fresh() && run == [View()]
    {
      pool, tenant, tmp, tmpDir, meta := {}, {}, {}, false, Meta(0, 0, NormalStatus);
      min, max, inUse, quota := 0, 0, 0, 0;
      takes, puts, rz, phase := map[], map[], Idle, Up;
      run := [Fresh()];
    }

    // ---------------------------------------------------------------- ids, under the range lock

    method GetAndIncMaxBlockId(removeBlock: bool) returns (ret: Ret, id: nat)
      modifies this`max, this`inUse
      ensures ret.Success? <==> min <= old(max)
      ensures ret.Success? ==> id == old(max) && max == old(max) + 1
      ensures ret.Success? ==> inUse == old(inUse) - (if removeBlock then 1 else 0)
      ensures !ret.Success? ==> max == old(max) && inUse == old(inUse)
    {
      id := 0;
      if min > max {
        ret := Failed;
      } else {
        ret, id, max := Success, max, max + 1;
        if removeBlock { inUse := inUse - 1; }
      }
    }

    method GetAndIncMinBlockId(createBlock: bool) returns (ret: Ret, id: nat)
      modifies this`min, this`inUse
      ensures ret.Success? <==> old(min) < max
      ensures ret.EntryNotExist? <==> old(min) == max
      ensures ret.Success? ==> id == old(min) && min == old(min) + 1
      ensures ret.Success? ==> inUse == old(inUse) + (if createBlock then 1 else 0)
      ensures !ret.Success? ==> min == old(min) && inUse == old(inUse)
    {
      id := 0;
      if min == max {
        ret := EntryNotExist;
      } else if min > max {
        ret := Failed;
      } else {
        ret, id, min := Success, min, min + 1;
        if createBlock { inUse := inUse + 1; }
      }
    }

    // ---------------------------------------------------------------- blocks for tenants

    // While the caller waits for the file of its id, the thread that has it finishes.
    method LetFinish(id: nat, p: Putter)
      requires if p.Nobody? then id in pool else id !in pool && (p.FromExpansion? ==> rz.MoveHeld?)
      modifies this`pool, this`tenant, this`tmp, this`puts, this`rz
      ensures id in pool
      ensures p.Nobody? ==> View() == old(View())
      ensures p.FromTenant? ==>
                && pool == old(pool) + {id} && tenant == old(tenant) - {p.slot} && puts == old(puts) - {p.r}
                && tmp == old(tmp) && rz == old(rz)
      ensures p.FromExpansion? ==>
                && pool == old(pool) + {id} && tmp == old(tmp) - {p.file} && tenant == old(tenant) && puts == old(puts)
                && old(rz).MoveHeld? && rz == Moving(old(rz).prior, old(rz).want, old(rz).moved + 1)
    {
      match p
      case Nobody =>
      case FromTenant(r, slot) =>
        pool, tenant := pool + {id}, tenant - {slot};
        puts := puts - {r};
      case FromExpansion(file) =>
        pool, tmp := pool + {id}, tmp - {file};
        rz := Moving(rz.prior, rz.want, rz.moved + 1);
    }

    // The rename to the tenant, which waits for the file.
    method TakeFile(id: nat, slot: nat, p: Putter)
      requires if p.Nobody? then id in pool else id !in pool && (p.FromExpansion? ==> rz.MoveHeld?)
      modifies this`pool, this`tenant, this`tmp, this`puts, this`rz
      ensures pool == old(pool) - {id} && (!p.Nobody? ==> pool == old(pool))
      ensures tenant == (if p.FromTenant? then old(tenant) - {p.slot} else old(tenant)) + {slot}
      ensures puts == if p.FromTenant? then old(puts) - {p.r} else old(puts)
      ensures tmp == if p.FromExpansion? then old(tmp) - {p.file} else old(tmp)
      ensures rz == if p.FromExpansion? then Moving(old(rz).prior, old(rz).want, old(rz).moved + 1) else old(rz)
    {
      LetFinish(id, p);
      pool, tenant := pool - {id}, tenant + {slot};
    }

    /**
     create_block_at by thread r, while others may be under way.  If the file of the lowest id is still to come, it
     waits for the thread `p` that brings it; there is always exactly one.
     */
    method CreateBlockAt(slot: nat, p: Putter, ghost r: nat) returns (ret: Ret)
      requires Valid() && phase.Up? && r !in takes && slot !in tenant && slot !in Slots(takes)
      requires min < max ==> Brings(View(), p)
      modifies this`pool, this`tenant, this`tmp, this`min, this`inUse, this`puts, this`rz, this`run
      ensures Valid() && old(run) <= run
      ensures ret.Success? <==> old(min) < max
      ensures ret.Success? ==> View() == Created(old(View()), slot, p)
      ensures ret.Success? ==> slot in tenant && min == old(min) + 1 && pool == old(pool) - {old(min)}
      ensures !ret.Success? ==> View() == old(View()) && run == old(run)
    {
      hide History, Slots, Size;
      ghost var s := View();
      var id;
      ret, id := GetAndIncMinBlockId(true);
      if ret.Success? {
        TakeFile(id, slot, p);
        ghost var run' := WaitSteps(run, s, r, slot, p);
        run := run';
      }
    }

    /** remove_block_at by thread r, while others may be under way. */
    method RemoveBlockAt(slot: nat, ghost r: nat) returns (ret: Ret)
      requires Valid() && phase.Up? && r !in puts && slot in tenant && slot !in Slots(puts)
      modifies this`pool, this`tenant, this`max, this`inUse, this`run
      ensures Valid() && old(run) <= run && ret.Success? && old(max) !in old(pool)
      ensures pool == old(pool) + {old(max)} && tenant == old(tenant) - {slot}
      ensures max == old(max) + 1 && inUse == old(inUse) - 1
    {
      ghost var run', _ := RemoveSteps(run, View(), r, slot);
      var id;
      ret, id := GetAndIncMaxBlockId(true);
      pool, tenant := pool + {id}, tenant - {slot};
      run := run';
    }

    // ---------------------------------------------------------------- growing and shrinking

    ghost method Log(s: State, e: Event)
      requires History(run, s) && Enabled(s, e) && View() == Apply(s, e)
      modifies this`run
      ensures Valid() && run == old(run) + [View()]
    {
      Extend(run, s, e);
      run := run + [View()];
    }

    method MakeResizingTmpDir(f: Faults) returns (ok: bool)
      requires Valid() && rz.MakingTmp?
      modifies this`tmp, this`tmpDir, this`rz, this`run
      ensures Valid() && old(run) <= run
      ensures ok <==> f.mkdirOk && f.openOk && !old(tmpDir)
      ensures ok ==> rz == Allocating(old(rz).prior, old(rz).want, 0)
      ensures !ok ==> rz == Committing(old(rz).prior, false) && tmpDir == (old(tmpDir) || f.mkdirOk)
    {
      ghost var s := View();
      if !f.mkdirOk || tmpDir {
        ok := false;
        rz := Committing(rz.prior, false);
        Log(s, MakeTmp(false, false));
      } else if !f.openOk {
        tmpDir, ok := true, false;
        rz := Committing(rz.prior, false);
        Log(s, MakeTmp(false, true));
      } else {
        tmp, tmpDir, ok := {}, true, true;
        rz := Allocating(rz.prior, rz.want, 0);
        Log(s, MakeTmp(true, false));
      }
    }

    method AllocateBlocksAtTmpDir(blockCount: nat, f: Faults) returns (ok: bool)
      requires Valid() && rz.Allocating? && rz.made == 0 && rz.want == blockCount
      modifies this`tmp, this`rz, this`run
      ensures Valid() && old(run) <= run
      ensures ok <==> blockCount <= f.space && f.syncOk
      ensures rz == if ok then Moving(old(rz).prior, blockCount, 0) else RemovingTmp(old(rz).prior, false)
    {
      var remain, id := blockCount, 0;
      ok := true;
      while ok && 0 < remain
        invariant Valid() && old(run) <= run && 0 <= remain && id + remain == blockCount
        invariant ok ==> id <= f.space || blockCount == 0
        invariant rz == if ok then Allocating(old(rz).prior, blockCount, id) else RemovingTmp(old(rz).prior, false)
        invariant !ok ==> f.space < blockCount
        decreases ok, remain
      {
        ghost var s := View();
        ok := id < f.space;
        tmp := tmp + {id};
        rz := Allocated(s, ok).rz;
        Log(s, Allocate(ok));
        if ok { remain, id := remain - 1, id + 1; }
      }
      if ok {
        ghost var s := View();
        ok := f.syncOk;
        rz := if ok then Moving(rz.prior, rz.want, 0) else RemovingTmp(rz.prior, false);
        Log(s, AllocateDone(ok));
      }
    }

    method MoveBlock(src: nat)
      requires Valid() && rz.Moving? && rz.moved == src < rz.want
      modifies this`pool, this`tmp, this`max, this`inUse, this`rz, this`run
      ensures Valid() && old(run) <= run
      ensures max == old(max) + 1 && inUse == old(inUse) && rz == Moving(old(rz).prior, old(rz).want, src + 1)
    {
      ghost var run', _ := MoveSteps(run, View());
      var _, dest := GetAndIncMaxBlockId(false);
      pool, tmp := pool + {dest}, tmp - {src};
      rz := Moving(rz.prior, rz.want, rz.moved + 1);
      run := run';
    }

    method MoveBlocksFromTmpDirToLogPool(blockCount: nat)
      requires Valid() && rz.Moving? && rz.moved == 0 && rz.want == blockCount
      modifies this`pool, this`tmp, this`max, this`inUse, this`rz, this`run
      ensures Valid() && old(run) <= run
      ensures max == old(max) + blockCount && inUse == old(inUse)
      ensures rz == RemovingTmp(old(rz).prior, true)
    {
      var remain, src := blockCount, 0;
      while 0 < remain
        invariant Valid() && old(run) <= run && 0 <= remain && src + remain == blockCount
        invariant rz == Moving(old(rz).prior, blockCount, src)
        invariant max == old(max) + src && inUse == old(inUse)
      {
        MoveBlock(src);
        remain, src := remain - 1, src + 1;
      }
      ghost var s := View();
      rz := RemovingTmp(rz.prior, true);
      Log(s, MoveDone);
    }

    method FreeBlock() returns (ret: Ret)
      requires Valid() && rz.Freeing? && rz.freed < rz.want && puts == map[] && min <= max
      modifies this`pool, this`min, this`inUse, this`rz, this`run
      ensures Valid() && old(run) <= run && inUse == old(inUse) && min <= max
      ensures ret.Success? <==> old(min) < max
      ensures ret.Success? ==> min == old(min) + 1 && rz == Freeing(old(rz).prior, old(rz).want, old(rz).freed + 1)
      ensures !ret.Success? ==> min == old(min) && rz == Committing(old(rz).prior, false)
    {
      ghost var s := View();
      var id;
      ret, id := GetAndIncMinBlockId(false);
      if ret.Success? {
        pool := pool - {id};
        rz := Freeing(rz.prior, rz.want, rz.freed + 1);
        ghost var run', _ := FreeSteps(run, s);
        run := run';
      } else {
        rz := Committing(rz.prior, false);
        Log(s, FreeFail);
      }
    }

    method FreeBlocksAtLogPool(blockCount: nat) returns (ok: bool)
      requires Valid() && rz.Freeing? && rz.freed == 0 && rz.want == blockCount && puts == map[] && min <= max
      modifies this`pool, this`min, this`inUse, this`rz, this`run
      ensures Valid() && old(run) <= run && inUse == old(inUse)
      ensures ok <==> blockCount <= max - old(min)
      ensures min == if ok then old(min) + blockCount else max
      ensures rz == Committing(old(rz).prior, ok)
    {
      var remain := blockCount;
      ok := true;
      while ok && 0 < remain
        invariant Valid() && old(run) <= run && 0 <= remain <= blockCount && inUse == old(inUse)
        invariant min == old(min) + (blockCount - remain) && min <= max
        invariant ok ==> rz == Freeing(old(rz).prior, blockCount, blockCount - remain)
        invariant !ok ==> rz == Committing(old(rz).prior, false) && 0 < remain && min == max
        decreases ok, remain
      {
        var ret := FreeBlock();
        ok := ret.Success?;
        if ok { remain := remain - 1; }
      }
      if ok {
        ghost var s := View();
        rz := Committing(rz.prior, true);
        Log(s, FreeDone);
      }
    }

    method RemoveResizingTmpDir(f: Faults) returns (ok: bool)
      requires Valid() && rz.RemovingTmp?
      modifies this`tmp, this`tmpDir, this`rz, this`run
      ensures Valid() && old(run) <= run && ok == f.rmdirOk
      ensures rz == Committing(old(rz).prior, old(rz).ok && ok)
      ensures tmpDir == (old(tmpDir) && !ok)
    {
      ghost var s := View();
      ok := f.rmdirOk;
      if ok { tmp, tmpDir := {}, false; }
      rz := Committing(rz.prior, rz.ok && ok);
      Log(s, RemoveTmp(ok));
    }

    method DoExpand(blockCount: nat, f: Faults) returns (ok: bool)
      requires Valid() && rz.MakingTmp? && rz.want == blockCount
      modifies this`pool, this`tmp, this`tmpDir, this`max, this`inUse, this`rz, this`run
      ensures Valid() && old(run) <= run
      ensures ok <==> ExpandSucceeds(blockCount, old(tmpDir), f)
      ensures inUse == old(inUse) && rz == Committing(old(rz).prior, ok)
      ensures max == old(max) + if ok || Stranded(blockCount, old(tmpDir), f) then blockCount else 0
      ensures ok ==> !tmpDir
    {
      ok := MakeResizingTmpDir(f);
      if ok {
        ok := AllocateBlocksAtTmpDir(blockCount, f);
        if ok { MoveBlocksFromTmpDirToLogPool(blockCount); }
        var removed := RemoveResizingTmpDir(f);
        ok := ok && removed;
      }
    }

    // The first meta write of a resize.  `e` is its event: the start of the resize, or its continuation by a restart.
    method BeginResize(prior: Meta, blockCount: nat, target: Meta, ghost e: Event)
      requires Valid() && Enabled(View(), e) && Starts(View(), e, prior, blockCount, target)
      modifies this`meta, this`rz, this`phase, this`run
      ensures Valid() && old(run) <= run
      ensures meta == target && phase == Apply(old(View()), e).phase && Active(View())
      ensures target.status.ExpandingStatus? ==> rz == MakingTmp(prior, blockCount)
      ensures !target.status.ExpandingStatus? ==> rz == Freeing(prior, blockCount, 0)
    {
      ghost var s := View();
      meta := target;
      rz, phase := Apply(s, e).rz, Apply(s, e).phase;
      Log(s, e);
    }

    // The last meta write of a resize.  A restart that failed has nothing left in memory.
    method EndResize(ok: bool, prior: Meta, target: Meta)
      requires Valid() && rz == Committing(prior, ok) && meta == target && Active(View())
      modifies this`meta, this`rz, this`run
      ensures meta == (if ok then Meta(target.next, target.next, NormalStatus) else prior) && rz.Idle?
      ensures old(run) <= run && History(run, if ok || phase.Up? then View() else Rebooted(View().disk))
    {
      ghost var s := View();
      meta := if ok then Meta(target.next, target.next, NormalStatus) else prior;
      rz := Idle;
      Extend(run, s, Commit);
      run := run + [Committed(s)];
    }

    // do_resize_ upwards
    method Expand(prior: Meta, blockCount: nat, target: Meta, f: Faults, ghost e: Event) returns (ok: bool)
      requires Valid() && Enabled(View(), e) && Starts(View(), e, prior, blockCount, target)
      requires target.status.ExpandingStatus?
      modifies this`pool, this`tmp, this`tmpDir, this`max, this`inUse, this`meta, this`rz, this`phase, this`run
      ensures ok <==> ExpandSucceeds(blockCount, old(tmpDir), f)
      ensures rz.Idle? && inUse == old(inUse) && phase == Apply(old(View()), e).phase
      ensures meta == if ok then Meta(target.next, target.next, NormalStatus) else prior
      ensures max == old(max) + if ok || Stranded(blockCount, old(tmpDir), f) then blockCount else 0
      ensures old(run) <= run && History(run, if ok || phase.Up? then View() else Rebooted(View().disk))
    {
      hide Enabled, Apply, Starts, IsRun;
      BeginResize(prior, blockCount, target, e);
      ok := DoExpand(blockCount, f);
      EndResize(ok, prior, target);
    }

    // do_resize_ downwards
    method Shrink(prior: Meta, blockCount: nat, target: Meta, ghost e: Event) returns (ok: bool)
      requires Valid() && Enabled(View(), e) && Starts(View(), e, prior, blockCount, target)
      requires target.status.ShrinkingStatus? && puts == map[] && min <= max
      modifies this`pool, this`min, this`inUse, this`meta, this`rz, this`phase, this`run
      ensures ok <==> blockCount <= max - old(min)
      ensures rz.Idle? && inUse == old(inUse) && phase == Apply(old(View()), e).phase
      ensures meta == if ok then Meta(target.next, target.next, NormalStatus) else prior
      ensures min == if ok then old(min) + blockCount else max
      ensures old(run) <= run && History(run, if ok || phase.Up? then View() else Rebooted(View().disk))
    {
      hide Enabled, Apply, Starts, IsRun;
      BeginResize(prior, blockCount, target, e);
      ok := FreeBlocksAtLogPool(blockCount);
      EndResize(ok, prior, target);
    }

    /**
     resize_: refused if the tenants are promised more than the new size.  A shrink that is let through succeeds
     exactly if there are blocks enough to free, and otherwise has thrown all free blocks away.  An expansion succeeds
     unless a system call fails, and then changes nothing unless all blocks had already been moved when the removal
     of expanding.tmp failed.  In these two cases, and no other, the accounts go out, by exactly those blocks.
     */
    method Resize(newSize: int, f: Faults) returns (ret: Ret)
      requires Ready()
      modifies this
      ensures Ready() && old(run) <= run && tenant == old(tenant) && inUse == old(inUse) && quota == old(quota)
      ensures LowerAlign(newSize) == old(meta).curr ==> ret == Success && View() == old(View())
      ensures LowerAlign(newSize) != old(meta).curr && LowerAlign(newSize) < quota ==>
                ret == NotSupported && View() == old(View())
      ensures quota <= LowerAlign(newSize) != old(meta).curr ==>
                Resized(old(View()), View(), LowerAlign(newSize), ret, f) && !ret.NotSupported?
      ensures Gap() == old(Gap()) + ResizeGap(old(View()), LowerAlign(newSize), f)
    {
      var next := LowerAlign(newSize);
      var prior := meta;
      var want := Distance(BlockCount(prior.curr), BlockCount(next));
      if prior.curr == next {
        ret := Success;
      } else if next < quota {
        ret := NotSupported;
      } else {
        ResizeBegins(run, View(), newSize);
        var ok;
        if prior.curr < next {
          ok := Expand(prior, want, Meta(prior.curr, next, ExpandingStatus), f, Begin(newSize));
        } else {
          ok := Shrink(prior, want, Meta(prior.curr, next, ShrinkingStatus), Begin(newSize));
        }
        ret := if ok then Success else Failed;
      }
    }

    // ---------------------------------------------------------------- restart

    method Crash()
      requires Valid()
      modifies this
      ensures Valid() && old(run) <= run && View() == Rebooted(old(View()).disk)
    {
      CrashStep(run, View());
      min, max, inUse, quota := 0, 0, 0, 0;
      takes, puts, rz, phase := map[], map[], Idle, Down;
      run := run + [View()];
    }

    static method SmallestId(ids: set<nat>) returns (m: nat)
      requires ids != {}
      ensures IsMin(m, ids)
    {
      m :| m in ids;
      var rest := ids - {m};
      while rest != {}
        invariant rest <= ids && m in ids && forall x | x in ids && x !in rest :: m <= x
      {
        var x :| x in rest;
        if x < m { m := x; }
        rest := rest - {x};
      }
    }

    // scan_dir and qsort
    method ScanLogPoolDir() returns (ids: seq<nat>)
      ensures ids == Sorted(pool)
    {
      var rest := pool;
      ids := [];
      while rest != {}
        invariant Sorted(pool) == ids + Sorted(rest)
      {
        var m := SmallestId(rest);
        MinIsUnique(rest, m);
        ids, rest := ids + [m], rest - {m};
      }
    }

    static method FindFirstGap(ids: seq<nat>) returns (k: nat)
      requires ids != []
      ensures k == FirstGap(ids, 0)
    {
      var i := 0;
      while i < |ids| - 1 && ids[i + 1] == ids[i] + 1
        invariant 0 <= i < |ids| && FirstGap(ids, 0) == FirstGap(ids, i)
      {
        i := i + 1;
      }
      k := if i < |ids| - 1 then i + 1 else 0;
    }

    method InitRange(ids: seq<nat>) returns (first: nat)
      requires min == max == 0
      modifies this`min, this`max, this`phase
      ensures first <= |ids| && RangeOf(ids) == Range(min, max, ids[first..]) && phase == Trimming(ids[first..])
      ensures if ids == [] then min == max == 0 else min == ids[0]
    {
      if ids == [] {
        first, phase := 0, Trimming([]);
      } else {
        first := FindFirstGap(ids);
        min := ids[0];
        if first == 0 {
          max, first, phase := ids[|ids| - 1] + 1, |ids|, Trimming([]);
        } else {
          max, phase := ids[first - 1] + 1, Trimming(ids[first..]);
        }
      }
    }

    // delete_tmp_file_or_directory_at, scan_dir and the search for the first gap
    method ScanAndInitRange() returns (ids: seq<nat>, first: nat)
      requires Valid() && phase.Down?
      modifies this`tmp, this`tmpDir, this`min, this`max, this`phase, this`run
      ensures Valid() && old(run) <= run && ids == Sorted(pool)
      ensures first <= |ids| && phase == Trimming(ids[first..])
      ensures if ids == [] then min == max == 0 else min == ids[0]
    {
      hide Sorted, RangeOf;
      ScanStep(run, View());
      tmp, tmpDir := {}, false;
      ids := ScanLogPoolDir();
      first := InitRange(ids);
      run := run + [View()];
    }

    method TrimBlock(ids: seq<nat>, idx: nat)
      requires Valid() && idx < |ids| && phase == Trimming(ids[idx..])
      modifies this`pool, this`max, this`inUse, this`phase, this`run
      ensures Valid() && old(run) <= run && phase == Trimming(ids[idx + 1..])
      ensures |pool| == |old(pool)| && inUse == old(inUse)
    {
      TrimSteps(run, View());
      assert ids[idx..][0] == ids[idx] && ids[idx..][1..] == ids[idx + 1..];
      ghost var t := Trimmed(View());
      var _, dest := GetAndIncMaxBlockId(false);
      pool := pool - {ids[idx]} + {dest};
      phase := Trimming(ids[idx + 1..]);
      run := run + [t];
    }

    method ScanLogPoolDirAndDoTrim()
      requires Valid() && phase.Down?
      modifies this`pool, this`tmp, this`tmpDir, this`min, this`max, this`inUse, this`phase, this`run
      ensures Valid() && old(run) <= run && phase == Trimming([])
      ensures Compacts(old(pool), min, max) && |pool| == |old(pool)|
      ensures forall id: nat :: id in pool <==> min <= id < max
    {
      var ids, idx := ScanAndInitRange();
      while idx < |ids|
        invariant Valid() && old(run) <= run && idx <= |ids| && phase == Trimming(ids[idx..])
        invariant |pool| == |old(pool)| && if ids == [] then min == max == 0 else min == ids[0]
      {
        TrimBlock(ids, idx);
        idx := idx + 1;
      }
      TrimEnds(run, View());
    }

    method TryContinueToResize(f: Faults) returns (ok: bool)
      requires Valid() && phase == Trimming([])
      modifies this`pool, this`tmp, this`tmpDir, this`min, this`max, this`inUse, this`meta, this`rz, this`phase
      modifies this`run
      ensures old(run) <= run && phase.Resuming? && rz.Idle?
      ensures ok <==> Continues(old(View()).disk, f)
      ensures ok ==> Valid() && meta.curr == Target(old(meta)) && |tenant| + (max - min) == FilesAfter(old(View()).disk)
      ensures !ok ==> History(run, Rebooted(View().disk)) && meta == old(meta)
    {
      ResumeBegins(run, View());
      TrimEnds(run, View());
      var current := Bytes(|tenant| + (max - min));
      var want := Distance(BlockCount(current), BlockCount(meta.next));
      match meta.status
      case NormalStatus =>
        ghost var s := View();
        ok, phase := true, Resuming;
        Log(s, LoadMeta);
      case ExpandingStatus =>
        ok := Expand(meta, want, meta, f, LoadMeta);
      case ShrinkingStatus =>
        ok := Shrink(meta, want, meta, LoadMeta);
    }

    // The disk part of do_load_.
    method LoadPool(f: Faults) returns (ok: bool)
      requires Valid() && phase.Down?
      modifies this`pool, this`tmp, this`tmpDir, this`min, this`max, this`inUse, this`meta, this`rz, this`phase
      modifies this`run
      ensures old(run) <= run && phase.Resuming? && rz.Idle?
      ensures ok <==> Continues(old(View()).disk, f)
      ensures ok ==> Valid() && meta.curr == Target(old(meta)) && |tenant| + (max - min) == FilesAfter(old(View()).disk)
      ensures !ok ==> History(run, Rebooted(View().disk)) && meta == old(meta)
    {
      ScanLogPoolDirAndDoTrim();
      ok := TryContinueToResize(f);
    }

    // The end of do_load_, once check_log_pool_whehter_is_integrity_ has held.
    method StartUp()
      requires Valid() && phase.Resuming? && rz.Idle? && meta.curr == Bytes(|tenant|) + Bytes(max - min)
      modifies this`inUse, this`phase, this`run
      ensures Ready() && old(run) <= run && meta.status.NormalStatus? && inUse == |tenant| && Gap() == 0
    {
      FinishStep(run, View());
      inUse, phase := |tenant|, Up;
      run := run + [View()];
    }

    method GiveUp()
      requires History(run, Rebooted(View().disk)) && rz.Idle?
      modifies this`min, this`max, this`inUse, this`quota, this`takes, this`puts, this`phase
      ensures Valid() && phase.Down?
    {
      min, max, inUse, quota := 0, 0, 0, 0;
      takes, puts, phase := map[], map[], Down;
    }

    /**
     do_load_ on whatever disk there is: it succeeds exactly on those that can be restarted, if the file system lets
     it, finishes the resize the meta speaks of, keeps every tenant block and ends with exact accounts.  A failure
     changes neither the tenants' blocks nor the size to settle on.
     */
    method DoLoad(f: Faults) returns (ok: bool)
      requires Valid() && phase.Down?
      modifies this
      ensures Valid() && old(run) <= run && tenant == old(tenant)
      ensures ok <==> RestartSucceeds(old(View()).disk, f)
      ensures ok ==> Ready() && meta.status.NormalStatus? && meta.curr == Target(old(meta))
      ensures ok ==> inUse == |tenant| && Gap() == 0
      ensures !ok ==> phase.Down? && Target(meta) == Target(old(meta))
      ensures !ok && CanRestart(old(View()).disk) ==> meta == old(meta)
    {
      IntegrityIff(View().disk, f);
      ok := LoadPool(f);
      if !ok {
        GiveUp();
      } else if meta.curr == Bytes(|tenant|) + Bytes(max - min) {
        StartUp();
      } else {
        ok := false;
        ResumedIsNormal(run, View());
        Crash();
      }
    }
  }
}
