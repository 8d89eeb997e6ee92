/**
 The server-wide pool of pre-allocated log blocks as a transition system.

 Every file-system call and every locked section of the block manager is one event.  Threads that
 take or return blocks, the single resizer, a crash at any point and the restart that follows are
 all interleaved by `Next`.  `Disk` is what survives a crash; the rest of `State` is memory.
 */
module LogPool {
  datatype Status = NormalStatus | ExpandingStatus | ShrinkingStatus

  // curr and next are sizes in bytes.
  datatype Meta = Meta(curr: int, next: int, status: Status)

  // Names of the block files in the pool directory, in the tenants' directories and in expanding.tmp.
  datatype Disk = Disk(pool: set<nat>, tenant: set<nat>, tmp: set<nat>, tmpDir: bool, meta: Meta)

  // A reserved pool id together with the tenant file the block is renamed to or from.
  datatype Op = Op(id: nat, slot: nat)

  // Where the thread that holds the resize lock stands.  `prior` is what a failed resize writes back.
  datatype Resizer =
    | Idle
    | MakingTmp(prior: Meta, want: nat)
    | Allocating(prior: Meta, want: nat, made: nat)
    | Moving(prior: Meta, want: nat, moved: nat)
    | MoveHeld(prior: Meta, want: nat, moved: nat, id: nat)
    | RemovingTmp(prior: Meta, ok: bool)
    | Freeing(prior: Meta, want: nat, freed: nat)
    | FreeHeld(prior: Meta, want: nat, freed: nat, id: nat)
    | Committing(prior: Meta, ok: bool)

  datatype Phase = Down | Trimming(rest: seq<nat>) | Resuming | Up

  datatype State = State(
    disk: Disk, min: nat, max: nat, inUse: int, quota: int,
    takes: map<nat, Op>, puts: map<nat, Op>, rz: Resizer, phase: Phase)

  datatype Event =
    // create_block_at and remove_block_at by thread r
    | TakeReserve(r: nat, slot: nat) | TakeRename(r: nat)
    | PutReserve(r: nat, slot: nat) | PutRename(r: nat)
    // tenant accounting, under the resize lock
    | SetQuota(q: int)
    // resize_
    | Begin(size: int)
    | MakeTmp(ok: bool, left: bool) | Allocate(ok: bool) | AllocateDone(ok: bool)
    | MoveReserve | MoveRename | MoveDone | RemoveTmp(removed: bool)
    | FreeReserve | FreeUnlink | FreeFail | FreeDone
    | Commit
    // crash and restart
    | Crash | Scan | TrimMove | LoadMeta | Finish

  // ---------------------------------------------------------------- sizes

  // The size of that many blocks; PALF_PHY_BLOCK_SIZE is 64MB.
  function Bytes(blocks: int): int {
    0x400_0000 * blocks
  }

  function RoundDown(size: int): int {
    Bytes(size / 0x400_0000)
  }

  // lower_align: round up, then subtract the rounded-up excess.
  function LowerAlign(size: int): int {
    var up := RoundDown(size + 0x400_0000 - 1);
    up - RoundDown(up - size + 0x400_0000 - 1)
  }

  lemma LowerAlignIsFloor(size: int)
    ensures LowerAlign(size) == Bytes(size / 0x400_0000)
    ensures LowerAlign(size) <= size < LowerAlign(size) + Bytes(1)
  {
    var q, m := size / 0x400_0000, size % 0x400_0000;
    assert size == 0x400_0000 * q + m;
    if m == 0 {
      assert RoundDown(size + 0x400_0000 - 1) == Bytes(q);
    } else {
      assert RoundDown(size + 0x400_0000 - 1) == Bytes(q + 1);
    }
  }

  // calc_block_cnt_by_size_
  function BlockCount(size: int): int {
    LowerAlign(size) / 0x400_0000
  }

  lemma BlockCountOfBytes(blocks: int)
    ensures BlockCount(Bytes(blocks)) == blocks && LowerAlign(Bytes(blocks)) == Bytes(blocks)
  {
    LowerAlignIsFloor(Bytes(blocks));
  }

  function Distance(a: int, b: int): nat {
    if a < b then b - a else a - b
  }

  // ---------------------------------------------------------------- names

  function Ids(m: map<nat, Op>): set<nat> {
    set r | r in m :: m[r].id
  }

  function Slots(m: map<nat, Op>): set<nat> {
    set r | r in m :: m[r].slot
  }

  // Pool ids whose file some thread is about to take away.
  function TakeIds(takes: map<nat, Op>, rz: Resizer): set<nat> {
    if rz.FreeHeld? then Ids(takes) + {rz.id} else Ids(takes)
  }

  // Pool ids some thread is about to rename a file to.
  function PutIds(puts: map<nat, Op>, rz: Resizer): set<nat> {
    if rz.MoveHeld? then Ids(puts) + {rz.id} else Ids(puts)
  }

  // ---------------------------------------------------------------- scan of the pool directory

  ghost predicate IsMin(m: nat, s: set<nat>) {
    m in s && forall x | x in s :: m <= x
  }

  lemma {:induction false} MinExists(s: set<nat>)
    requires s != {}
    ensures exists m :: IsMin(m, s)
  {
    var x :| x in s;
    if s - {x} == {} {
      assert s == {x};
      assert IsMin(x, s);
    } else {
      MinExists(s - {x});
      var m :| IsMin(m, s - {x});
      assert forall y | y in s :: y == x || y in s - {x};
      assert IsMin(if x < m then x else m, s);
    }
  }

  ghost function MinOf(s: set<nat>): (m: nat)
    requires s != {}
    ensures IsMin(m, s)
  {
    MinExists(s);
    var m :| IsMin(m, s);
    m
  }

  // What qsort makes of the scanned ids.
  ghost function Sorted(s: set<nat>): seq<nat> {
    if s == {} then [] else [MinOf(s)] + Sorted(s - {MinOf(s)})
  }

  lemma {:induction false} SortedHolds(s: set<nat>)
    ensures |Sorted(s)| == |s|
    ensures forall x :: x in Sorted(s) <==> x in s
  {
    if s != {} {
      var m := MinOf(s);
      SortedHolds(s - {m});
      assert Sorted(s) == [m] + Sorted(s - {m});
    }
  }

  lemma {:induction false} SortedIsIncreasing(s: set<nat>)
    ensures Increasing(Sorted(s))
  {
    if s != {} {
      var m := MinOf(s);
      var tail := Sorted(s - {m});
      SortedIsIncreasing(s - {m});
      SortedHolds(s - {m});
      assert forall i | 0 <= i < |tail| :: tail[i] in s - {m};
    }
  }

  predicate Increasing(ids: seq<nat>) {
    forall i, j | 0 <= i < j < |ids| :: ids[i] < ids[j]
  }

  // Index of the first id that does not continue the one before it; 0 when there is none.
  function FirstGap(ids: seq<nat>, i: nat): (k: nat)
    requires i < |ids|
    ensures k == 0 || i < k < |ids|
    ensures k == 0 ==> forall j | i <= j < |ids| - 1 :: ids[j + 1] == ids[j] + 1
    ensures k != 0 ==> ids[k] != ids[k - 1] + 1 && forall j | i <= j < k - 1 :: ids[j + 1] == ids[j] + 1
    decreases |ids| - i
  {
    if i + 1 == |ids| then 0
    else if ids[i + 1] == ids[i] + 1 then FirstGap(ids, i + 1)
    else i + 1
  }

  datatype Range = Range(min: nat, max: nat, rest: seq<nat>)

  // The id range a scan starts from, and the ids left to be moved down.
  function RangeOf(ids: seq<nat>): Range {
    if ids == [] then Range(0, 0, [])
    else
      var k := FirstGap(ids, 0);
      if k == 0 then Range(ids[0], ids[|ids| - 1] + 1, []) else Range(ids[0], ids[k - 1] + 1, ids[k..])
  }

  function Ranged(s: State, ids: seq<nat>): State {
    s.(min := RangeOf(ids).min, max := RangeOf(ids).max, phase := Trimming(RangeOf(ids).rest))
  }

  // ---------------------------------------------------------------- transitions

  // What a restart finds: the disk, and nothing in memory.
  function Rebooted(d: Disk): State {
    State(d, 0, 0, 0, 0, map[], map[], Idle, Down)
  }

  function Fresh(): State {
    State(Disk({}, {}, {}, false, Meta(0, 0, NormalStatus)), 0, 0, 0, 0, map[], map[], Idle, Up)
  }

  predicate Active(s: State) {
    s.phase.Up? || s.phase.Resuming?
  }

  /** When an event may happen.  A rename or unlink retries until its source exists, so it waits for it. */
  ghost predicate Enabled(s: State, e: Event) {
    match e
    case TakeReserve(r, slot) =>
      && s.phase.Up? && r !in s.takes && s.min < s.max
      && slot !in s.disk.tenant && slot !in Slots(s.takes)
    case TakeRename(r) => s.phase.Up? && r in s.takes && s.takes[r].id in s.disk.pool
    case PutReserve(r, slot) =>
      s.phase.Up? && r !in s.puts && slot in s.disk.tenant && slot !in Slots(s.puts)
    case PutRename(r) => s.phase.Up? && r in s.puts && s.puts[r].slot in s.disk.tenant
    case SetQuota(q) => s.phase.Up? && s.rz.Idle? && q <= s.disk.meta.curr
    case Begin(size) =>
      s.phase.Up? && s.rz.Idle? && LowerAlign(size) != s.disk.meta.curr && s.quota <= LowerAlign(size)
    case MakeTmp(ok, left) => s.rz.MakingTmp? && (ok || left ==> !s.disk.tmpDir)
    case Allocate(ok) => s.rz.Allocating? && s.rz.made < s.rz.want
    case AllocateDone(ok) => s.rz.Allocating? && s.rz.made == s.rz.want
    case MoveReserve => s.rz.Moving? && s.rz.moved < s.rz.want
    case MoveRename => s.rz.MoveHeld? && s.rz.moved in s.disk.tmp
    case MoveDone => s.rz.Moving? && s.rz.moved == s.rz.want
    case RemoveTmp(removed) => s.rz.RemovingTmp?
    case FreeReserve => s.rz.Freeing? && s.rz.freed < s.rz.want && s.min < s.max
    case FreeUnlink => s.rz.FreeHeld? && s.rz.id in s.disk.pool
    case FreeFail => s.rz.Freeing? && s.rz.freed < s.rz.want && s.min == s.max
    case FreeDone => s.rz.Freeing? && s.rz.freed == s.rz.want
    case Commit => s.rz.Committing?
    case Crash => true
    case Scan => s.phase.Down?
    case TrimMove => s.phase.Trimming? && s.phase.rest != [] && s.phase.rest[0] in s.disk.pool
    case LoadMeta => s.phase == Trimming([])
    case Finish =>
      && s.phase.Resuming? && s.rz.Idle?
      && s.disk.meta.curr == Bytes(|s.disk.tenant|) + Bytes(s.max - s.min)
  }

  // try_continous_to_resize_: finish what the meta says, counting from the blocks actually found.
  function Resumed(s: State): State {
    var m := s.disk.meta;
    var want := Distance(|s.disk.tenant| + (s.max - s.min), BlockCount(m.next));
    s.(phase := Resuming,
       rz := match m.status
             case NormalStatus => Idle
             case ExpandingStatus => MakingTmp(m, want)
             case ShrinkingStatus => Freeing(m, want, 0))
  }

  // Last meta write of do_resize_; a restart that could not finish gives up.
  function Committed(s: State): State
    requires s.rz.Committing?
  {
    var m := s.disk.meta;
    if s.rz.ok then
      s.(disk := s.disk.(meta := Meta(m.next, m.next, NormalStatus)), rz := Idle)
    else if s.phase.Resuming? then
      Rebooted(s.disk.(meta := s.rz.prior))
    else
      s.(disk := s.disk.(meta := s.rz.prior), rz := Idle)
  }

  function TakeReserved(s: State, r: nat, slot: nat): State {
    s.(min := s.min + 1, inUse := s.inUse + 1, takes := s.takes[r := Op(s.min, slot)])
  }

  function TakeRenamed(s: State, r: nat): State
    requires r in s.takes
  {
    var op := s.takes[r];
    s.(disk := s.disk.(pool := s.disk.pool - {op.id}, tenant := s.disk.tenant + {op.slot}), takes := s.takes - {r})
  }

  function PutReserved(s: State, r: nat, slot: nat): State {
    s.(max := s.max + 1, inUse := s.inUse - 1, puts := s.puts[r := Op(s.max, slot)])
  }

  // A rename replaces a file that already has the new name.
  function PutRenamed(s: State, r: nat): State
    requires r in s.puts
  {
    var op := s.puts[r];
    s.(disk := s.disk.(pool := s.disk.pool + {op.id}, tenant := s.disk.tenant - {op.slot}), puts := s.puts - {r})
  }

  function Begun(s: State, size: int): State {
    var m := s.disk.meta;
    var next := LowerAlign(size);
    var want := Distance(BlockCount(m.curr), BlockCount(next));
    if m.curr < next then
      s.(disk := s.disk.(meta := Meta(m.curr, next, ExpandingStatus)), rz := MakingTmp(m, want))
    else
      s.(disk := s.disk.(meta := Meta(m.curr, next, ShrinkingStatus)), rz := Freeing(m, want, 0))
  }

  function TmpMade(s: State, ok: bool, left: bool): State
    requires s.rz.MakingTmp?
  {
    if ok then s.(disk := s.disk.(tmpDir := true, tmp := {}), rz := Allocating(s.rz.prior, s.rz.want, 0))
    else s.(disk := s.disk.(tmpDir := s.disk.tmpDir || left), rz := Committing(s.rz.prior, false))
  }

  // A failed allocation leaves its file behind.
  function Allocated(s: State, ok: bool): State
    requires s.rz.Allocating?
  {
    s.(disk := s.disk.(tmp := s.disk.tmp + {s.rz.made}),
       rz := if ok then Allocating(s.rz.prior, s.rz.want, s.rz.made + 1) else RemovingTmp(s.rz.prior, false))
  }

  function MoveReserved(s: State): State
    requires s.rz.Moving?
  {
    s.(max := s.max + 1, rz := MoveHeld(s.rz.prior, s.rz.want, s.rz.moved, s.max))
  }

  function MoveRenamed(s: State): State
    requires s.rz.MoveHeld?
  {
    s.(disk := s.disk.(pool := s.disk.pool + {s.rz.id}, tmp := s.disk.tmp - {s.rz.moved}),
       rz := Moving(s.rz.prior, s.rz.want, s.rz.moved + 1))
  }

  function TmpRemoved(s: State, removed: bool): State
    requires s.rz.RemovingTmp?
  {
    if removed then
      s.(disk := s.disk.(tmp := {}, tmpDir := false), rz := Committing(s.rz.prior, s.rz.ok))
    else
      s.(rz := Committing(s.rz.prior, false))
  }

  function FreeReserved(s: State): State
    requires s.rz.Freeing?
  {
    s.(min := s.min + 1, rz := FreeHeld(s.rz.prior, s.rz.want, s.rz.freed, s.min))
  }

  function FreeUnlinked(s: State): State
    requires s.rz.FreeHeld?
  {
    s.(disk := s.disk.(pool := s.disk.pool - {s.rz.id}), rz := Freeing(s.rz.prior, s.rz.want, s.rz.freed + 1))
  }

  function Trimmed(s: State): State
    requires s.phase.Trimming? && s.phase.rest != []
  {
    s.(disk := s.disk.(pool := s.disk.pool - {s.phase.rest[0]} + {s.max}), max := s.max + 1,
       phase := Trimming(s.phase.rest[1..]))
  }

  ghost function Apply(s: State, e: Event): State
    requires Enabled(s, e)
  {
    match e
    case TakeReserve(r, slot) => TakeReserved(s, r, slot)
    case TakeRename(r) => TakeRenamed(s, r)
    case PutReserve(r, slot) => PutReserved(s, r, slot)
    case PutRename(r) => PutRenamed(s, r)
    case SetQuota(q) => s.(quota := q)
    case Begin(size) => Begun(s, size)
    case MakeTmp(ok, left) => TmpMade(s, ok, left)
    case Allocate(ok) => Allocated(s, ok)
    case AllocateDone(ok) =>
      s.(rz := if ok then Moving(s.rz.prior, s.rz.want, 0) else RemovingTmp(s.rz.prior, false))
    case MoveReserve => MoveReserved(s)
    case MoveRename => MoveRenamed(s)
    case MoveDone => s.(rz := RemovingTmp(s.rz.prior, true))
    case RemoveTmp(removed) => TmpRemoved(s, removed)
    case FreeReserve => FreeReserved(s)
    case FreeUnlink => FreeUnlinked(s)
    case FreeFail => s.(rz := Committing(s.rz.prior, false))
    case FreeDone => s.(rz := Committing(s.rz.prior, true))
    case Commit => Committed(s)
    case Crash => Rebooted(s.disk)
    case Scan => Ranged(Rebooted(s.disk.(tmp := {}, tmpDir := false)), Sorted(s.disk.pool))
    case TrimMove => Trimmed(s)
    case LoadMeta => Resumed(s)
    case Finish => s.(phase := Up, inUse := |s.disk.tenant|)
  }

  ghost predicate Next(s: State, e: Event, s': State) {
    Enabled(s, e) && s' == Apply(s, e)
  }

  ghost predicate Steps(s: State, s': State) {
    exists e :: Next(s, e, s')
  }

  ghost predicate Linked(run: seq<State>, i: nat)
    requires i + 1 < |run|
  {
    Steps(run[i], run[i + 1])
  }

  /** A run: consecutive states linked by events. */
  ghost predicate IsRun(run: seq<State>) {
    run != [] && forall i | 0 <= i < |run| - 1 :: Linked(run, i)
  }
}
