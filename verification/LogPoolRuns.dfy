/** Runs of the log pool from a new server on, step by step, and what some of them show. */
module LogPoolRuns {
  import opened LogPool
  import opened LogPoolIds
  import opened LogPoolTheorems
  import opened LogPoolSizes
  import opened LogPoolRecovery

  // ---------------------------------------------------------------- histories

  /** A run that starts with a new pool and ends in s. */
  ghost predicate History(run: seq<State>, s: State) {
    IsRun(run) && run[0] == Fresh() && run[|run| - 1] == s
  }

  lemma HistoryIsInv(run: seq<State>, s: State)
    requires History(run, s)
    ensures Inv(s)
  {
    FreshIsInv();
    EveryStateKeepsInv(run, |run| - 1);
  }

  lemma Extend(run: seq<State>, s: State, e: Event)
    requires History(run, s) && Enabled(s, e)
    ensures History(run + [Apply(s, e)], Apply(s, e)) && run <= run + [Apply(s, e)]
  {
    var run' := run + [Apply(s, e)];
    assert Next(s, e, Apply(s, e));
    forall i | 0 <= i < |run'| - 1 ensures Linked(run', i) {
      if i < |run| - 1 { assert Linked(run, i); }
    }
  }

  // A running server with nobody under way.
  predicate Calm(s: State) {
    s.phase.Up? && s.rz.Idle? && s.takes == map[] && s.puts == map[]
  }

  // ---------------------------------------------------------------- reserve and rename

  lemma CanMove(run: seq<State>, s: State)
    requires History(run, s) && s.rz.Moving? && s.rz.moved < s.rz.want
    ensures s.min <= s.max && s.rz.moved in s.disk.tmp
  {
    HistoryIsInv(run, s);
  }

  lemma CanFree(run: seq<State>, s: State)
    requires History(run, s) && s.rz.Freeing? && s.min < s.max && s.puts == map[]
    ensures s.min in s.disk.pool
  {
    HistoryIsInv(run, s);
    assert Ids(map[]) == {};
  }

  lemma CalmPool(run: seq<State>, s: State)
    requires History(run, s) && Calm(s)
    ensures s.min <= s.max && s.disk.meta.status.NormalStatus?
    ensures forall id: nat :: id in s.disk.pool <==> s.min <= id < s.max
  {
    HistoryIsInv(run, s);
    assert Ids(map[]) == {};
  }

  // A taker whose file is there, with others under way but not moving.
  lemma CreateSteps(run: seq<State>, s: State, r: nat, slot: nat) returns (run': seq<State>, s': State)
    requires History(run, s) && s.phase.Up? && s.min < s.max && s.min in s.disk.pool
    requires r !in s.takes && slot !in s.disk.tenant && slot !in Slots(s.takes)
    ensures History(run', s') && run' == run + [TakeReserved(s, r, slot)] + [s']
    ensures s' == s.(disk := s.disk.(pool := s.disk.pool - {s.min}, tenant := s.disk.tenant + {slot}),
                     min := s.min + 1, inUse := s.inUse + 1)
  {
    var s1 := TakeReserved(s, r, slot);
    Extend(run, s, TakeReserve(r, slot));
    assert s1.takes - {r} == s.takes;
    Extend(run + [s1], s1, TakeRename(r));
    s' := TakeRenamed(s1, r);
    run' := run + [s1] + [s'];
  }

  // Who has still to bring the file of the lowest id: nobody, if it is there.
  datatype Putter = Nobody | FromTenant(r: nat, slot: nat) | FromExpansion(file: nat)

  predicate Brings(s: State, p: Putter) {
    match p
    case Nobody => s.min in s.disk.pool
    case FromTenant(r, slot) => s.min !in s.disk.pool && r in s.puts && s.puts[r] == Op(s.min, slot)
    case FromExpansion(file) => s.min !in s.disk.pool && s.rz.MoveHeld? && s.rz.id == s.min && s.rz.moved == file
  }

  // There is always exactly one.
  lemma SomeoneBrings(run: seq<State>, s: State) returns (p: Putter)
    requires History(run, s) && s.phase.Up? && s.min < s.max
    ensures Brings(s, p) && forall p' | Brings(s, p') :: p' == p
  {
    HistoryIsInv(run, s);
    if s.min in s.disk.pool {
      p := Nobody;
    } else if s.rz.MoveHeld? && s.rz.id == s.min {
      p := FromExpansion(s.rz.moved);
      assert forall r | r in s.puts :: s.puts[r].id in Ids(s.puts);
    } else {
      assert s.min in PutIds(s.puts, s.rz);
      var r :| r in s.puts && s.puts[r].id == s.min;
      p := FromTenant(r, s.puts[r].slot);
    }
  }

  // A block has been created at slot, by a thread that waited for its file if need be.
  function Created(s: State, slot: nat, p: Putter): State
    requires Brings(s, p)
  {
    var s' := s.(min := s.min + 1, inUse := s.inUse + 1);
    match p
    case Nobody => s'.(disk := s.disk.(pool := s.disk.pool - {s.min}, tenant := s.disk.tenant + {slot}))
    case FromTenant(r, from) =>
      s'.(disk := s.disk.(tenant := s.disk.tenant - {from} + {slot}), puts := s.puts - {r})
    case FromExpansion(file) =>
      s'.(disk := s.disk.(tenant := s.disk.tenant + {slot}, tmp := s.disk.tmp - {file}),
          rz := Moving(s.rz.prior, s.rz.want, s.rz.moved + 1))
  }

  // The putter's rename, if there is one.
  function Brought(s: State, p: Putter): State
    requires (p.FromTenant? ==> p.r in s.puts) && (p.FromExpansion? ==> s.rz.MoveHeld?)
  {
    match p
    case Nobody => s
    case FromTenant(r, _) => PutRenamed(s, r)
    case FromExpansion(_) => MoveRenamed(s)
  }

  lemma CanBring(run: seq<State>, s: State, p: Putter)
    requires History(run, s) && s.phase.Up? && Brings(s, p)
    ensures p.FromTenant? ==> p.slot in s.disk.tenant
    ensures p.FromExpansion? ==> p.file in s.disk.tmp
  {
    HistoryIsInv(run, s);
    if p.FromTenant? { assert s.puts[p.r].slot in Slots(s.puts); }
  }

  lemma BringSteps(run: seq<State>, s: State, p: Putter) returns (run': seq<State>)
    requires History(run, s) && s.phase.Up?
    requires p.FromTenant? ==> p.r in s.puts && s.puts[p.r].slot in s.disk.tenant
    requires p.FromExpansion? ==> s.rz.MoveHeld? && s.rz.moved in s.disk.tmp
    ensures History(run', Brought(s, p)) && run <= run'
  {
    hide History;
    match p
    case Nobody => run' := run;
    case FromTenant(r, _) =>
      Extend(run, s, PutRename(r));
      run' := run + [PutRenamed(s, r)];
    case FromExpansion(_) =>
      Extend(run, s, MoveRename);
      run' := run + [MoveRenamed(s)];
  }

  lemma CreatedInSteps(s: State, r: nat, slot: nat, p: Putter)
    requires Brings(s, p) && r !in s.takes
    ensures var t := Brought(TakeReserved(s, r, slot), p);
            && t.phase == s.phase && r in t.takes && t.takes[r].id in t.disk.pool
            && TakeRenamed(t, r) == Created(s, slot, p)
  {
    assert s.takes[r := Op(s.min, slot)] - {r} == s.takes;
    if !p.Nobody? { assert s.disk.pool + {s.min} - {s.min} == s.disk.pool; }
  }

  // Reserve, let the putter finish, rename.
  lemma WaitSteps(run: seq<State>, s: State, r: nat, slot: nat, p: Putter) returns (run': seq<State>)
    requires History(run, s) && s.phase.Up? && s.min < s.max && Brings(s, p)
    requires r !in s.takes && slot !in s.disk.tenant && slot !in Slots(s.takes)
    ensures History(run', Created(s, slot, p)) && run <= run'
  {
    hide History, Created, Brought;
    CanBring(run, s, p);
    var s1 := TakeReserved(s, r, slot);
    Extend(run, s, TakeReserve(r, slot));
    run' := BringSteps(run + [s1], s1, p);
    CreatedInSteps(s, r, slot, p);
    Extend(run', Brought(s1, p), TakeRename(r));
    run' := run' + [Created(s, slot, p)];
  }

  lemma CanPut(run: seq<State>, s: State)
    requires History(run, s) && s.phase.Up?
    ensures s.min <= s.max && s.max !in s.disk.pool
  {
    HistoryIsInv(run, s);
    ReserveMax(s.min, s.max, s.disk.pool, TakeIds(s.takes, s.rz), PutIds(s.puts, s.rz));
  }

  lemma RemoveSteps(run: seq<State>, s: State, r: nat, slot: nat) returns (run': seq<State>, s': State)
    requires History(run, s) && s.phase.Up? && r !in s.puts && slot in s.disk.tenant && slot !in Slots(s.puts)
    ensures History(run', s') && run <= run' && s.max !in s.disk.pool && s.min <= s.max
    ensures s' == s.(disk := s.disk.(pool := s.disk.pool + {s.max}, tenant := s.disk.tenant - {slot}),
                     max := s.max + 1, inUse := s.inUse - 1)
  {
    CanPut(run, s);
    var s1 := PutReserved(s, r, slot);
    Extend(run, s, PutReserve(r, slot));
    assert s1.puts - {r} == s.puts;
    Extend(run + [s1], s1, PutRename(r));
    s' := PutRenamed(s1, r);
    run' := run + [s1] + [s'];
  }

  lemma MoveSteps(run: seq<State>, s: State) returns (run': seq<State>, s': State)
    requires History(run, s) && s.rz.Moving? && s.rz.moved < s.rz.want
    ensures History(run', s') && run' == run + [MoveReserved(s)] + [s'] && s.min <= s.max && s.rz.moved in s.disk.tmp
    ensures s' == s.(disk := s.disk.(pool := s.disk.pool + {s.max}, tmp := s.disk.tmp - {s.rz.moved}),
                     max := s.max + 1, rz := Moving(s.rz.prior, s.rz.want, s.rz.moved + 1))
  {
    CanMove(run, s);
    var s1 := MoveReserved(s);
    Extend(run, s, MoveReserve);
    Extend(run + [s1], s1, MoveRename);
    s' := MoveRenamed(s1);
    run' := run + [s1] + [s'];
  }

  lemma FreeSteps(run: seq<State>, s: State) returns (run': seq<State>, s': State)
    requires History(run, s) && s.rz.Freeing? && s.rz.freed < s.rz.want && s.min < s.max && s.puts == map[]
    ensures History(run', s') && run <= run' && s.min in s.disk.pool
    ensures s' == s.(disk := s.disk.(pool := s.disk.pool - {s.min}),
                     min := s.min + 1, rz := Freeing(s.rz.prior, s.rz.want, s.rz.freed + 1))
  {
    CanFree(run, s);
    var s1 := FreeReserved(s);
    Extend(run, s, FreeReserve);
    Extend(run + [s1], s1, FreeUnlink);
    s' := FreeUnlinked(s1);
    run' := run + [s1] + [s'];
  }

  // ---------------------------------------------------------------- a pool of n blocks

  // Nothing taken and nothing promised.
  ghost predicate Unused(run: seq<State>) {
    forall x | x in run :: x.inUse == 0 && x.quota == 0
  }

  // What is the same all through the growth of a new pool.
  predicate Growing(s: State, n: nat) {
    && s.phase.Up? && s.takes == map[] && s.puts == map[] && s.inUse == 0 && s.quota == 0 && s.min == 0
    && s.disk.tenant == {} && s.disk.meta == Meta(0, Bytes(n), ExpandingStatus)
  }

  const ZERO := Meta(0, 0, NormalStatus)

  lemma BeginGrows(s: State, n: nat)
    requires s.phase.Up? && s.rz.Idle? && s.disk.meta == ZERO && s.quota == 0 && 0 < n
    ensures Enabled(s, Begin(Bytes(n)))
    ensures Begun(s, Bytes(n)) ==
            s.(disk := s.disk.(meta := Meta(0, Bytes(n), ExpandingStatus)), rz := MakingTmp(ZERO, n))
  {
    BlockCountOfBytes(n);
    BlockCountOfBytes(0);
  }

  lemma GrowthBegins(n: nat) returns (run: seq<State>, s: State)
    requires 0 < n
    ensures History(run, s) && Unused(run) && Growing(s, n) && s.max == 0 && s.rz == Allocating(ZERO, n, 0)
  {
    hide Begun, LowerAlign, BlockCount;
    var s0 := Fresh();
    run := [s0];
    BeginGrows(s0, n);
    Extend(run, s0, Begin(Bytes(n)));
    var s1 := Begun(s0, Bytes(n));
    run := run + [s1];
    Extend(run, s1, MakeTmp(true, false));
    s := TmpMade(s1, true, false);
    run := run + [s];
  }

  lemma AllAllocated(n: nat) returns (run: seq<State>, s: State)
    requires 0 < n
    ensures History(run, s) && Unused(run) && Growing(s, n) && s.max == 0 && s.rz == Moving(ZERO, n, 0)
  {
    run, s := GrowthBegins(n);
    var made := 0;
    while made < n
      invariant 0 <= made <= n && History(run, s) && Unused(run) && Growing(s, n) && s.max == 0
      invariant s.rz == Allocating(ZERO, n, made)
    {
      Extend(run, s, Allocate(true));
      s := Allocated(s, true);
      run := run + [s];
      made := made + 1;
    }
    Extend(run, s, AllocateDone(true));
    s := s.(rz := Moving(ZERO, n, 0));
    run := run + [s];
  }

  lemma AllMoved(n: nat) returns (run: seq<State>, s: State)
    requires 0 < n
    ensures History(run, s) && Unused(run) && Growing(s, n) && s.max == n && s.rz == RemovingTmp(ZERO, true)
  {
    run, s := AllAllocated(n);
    var moved := 0;
    while moved < n
      invariant 0 <= moved <= n && History(run, s) && Unused(run) && Growing(s, n) && s.max == moved
      invariant s.rz == Moving(ZERO, n, moved)
    {
      run, s := MoveSteps(run, s);
      moved := moved + 1;
    }
    Extend(run, s, MoveDone);
    s := s.(rz := RemovingTmp(ZERO, true));
    run := run + [s];
  }

  /** Any number of blocks can be had. */
  lemma Grown(n: nat) returns (run: seq<State>, s: State)
    requires 0 < n
    ensures History(run, s) && Unused(run) && Calm(s) && s.disk.meta == Meta(Bytes(n), Bytes(n), NormalStatus)
    ensures s.min == 0 && s.max == n && s.inUse == 0 && s.quota == 0 && s.disk.tenant == {} && !s.disk.tmpDir
  {
    run, s := AllMoved(n);
    Extend(run, s, RemoveTmp(true));
    s := TmpRemoved(s, true);
    run := run + [s];
    Extend(run, s, Commit);
    s := Committed(s);
    run := run + [s];
  }

  // ---------------------------------------------------------------- books that go out

  // The drift is what the books say it is.
  lemma DriftNow(run: seq<State>, s: State)
    requires History(run, s) && s.phase.Up?
    ensures Balanced(s, Drift(run, |run| - 1))
  {
    BooksAreKept(run, |run| - 1);
  }

  /** A new server can lose the count by a failed cleanup, and never come up again. */
  lemma CleanupCanFail() returns (run: seq<State>, s: State)
    ensures History(run, s) && s.phase.Up? && s.disk.meta == ZERO && Size(s) == Bytes(1)
    ensures !exists restart :: RestartsFrom(s.disk, restart)
  {
    hide Linked, Drift;
    var s0;
    run, s0 := AllMoved(1);
    var k := |run| - 1;
    DriftNow(run, s0);
    Extend(run, s0, RemoveTmp(false));
    var s1 := TmpRemoved(s0, false);
    Extend(run + [s1], s1, Commit);
    s := Committed(s1);
    DriftOfPrefix(run, run + [s1] + [s], k);
    run := run + [s1] + [s];
    FailedCleanupLosesCount(run, k);
  }

  lemma {:induction false} DriftOfPrefix(run: seq<State>, run': seq<State>, k: nat)
    requires k < |run| && run <= run'
    ensures Drift(run', k) == Drift(run, k)
  {
    if 0 < k { DriftOfPrefix(run, run', k - 1); }
  }

  // Two blocks, one of them with a tenant, and promises of that many bytes.
  lemma OneTaken(quota: nat) returns (run: seq<State>, s: State)
    requires quota <= Bytes(1)
    ensures History(run, s) && Calm(s) && s.disk.meta == Meta(Bytes(2), Bytes(2), NormalStatus)
    ensures s.min == 1 && s.max == 2 && s.inUse == 1 && s.quota == quota && s.disk.tenant == {7}
    ensures quota == Bytes(1) ==> forall x | x in run :: Bytes(x.inUse) <= x.quota
  {
    var s0;
    run, s0 := Grown(2);
    Extend(run, s0, SetQuota(quota));
    var s1 := s0.(quota := quota);
    run := run + [s1];
    CalmPool(run, s1);
    assert Slots(map[]) == {};
    run, s := CreateSteps(run, s1, 0, 7);
  }

  lemma BeginShrinks(s: State, n: nat, size: int)
    requires s.phase.Up? && s.rz.Idle? && s.disk.meta == Meta(Bytes(2), Bytes(2), NormalStatus)
    requires n < 2 && s.quota <= size == Bytes(n)
    ensures Enabled(s, Begin(size))
    ensures Begun(s, size) ==
              s.(disk := s.disk.(meta := Meta(Bytes(2), size, ShrinkingStatus)), rz := Freeing(s.disk.meta, 2 - n, 0))
  {
    BlockCountOfBytes(n);
    BlockCountOfBytes(2);
  }

  // A pool of two blocks, one of them in use, that is to be shrunk to nothing: one block is freed.
  lemma OneFreed() returns (run: seq<State>, s: State)
    ensures History(run, s) && s.phase.Up? && s.min == s.max == 2 && s.inUse == 1
    ensures s.rz == Freeing(Meta(Bytes(2), Bytes(2), NormalStatus), 2, 1)
    ensures s.disk.meta == Meta(Bytes(2), 0, ShrinkingStatus)
  {
    hide Begun, LowerAlign, BlockCount;
    var s0;
    run, s0 := OneTaken(0);
    BeginShrinks(s0, 0, 0);
    Extend(run, s0, Begin(0));
    var s1 := Begun(s0, 0);
    run := run + [s1];
    run, s := FreeSteps(run, s1);
  }

  /** It can lose the count by a shrink that fails half-way, too. */
  lemma ShrinkCanFail() returns (run: seq<State>, s: State)
    ensures History(run, s) && s.phase.Up? && s.disk.meta.status.NormalStatus?
    ensures s.disk.meta.curr == Bytes(2) && Size(s) == Bytes(1)
    ensures !exists restart :: RestartsFrom(s.disk, restart)
  {
    hide Linked, Drift;
    var s0;
    run, s0 := OneFreed();
    var k := |run| - 1;
    DriftNow(run, s0);
    Extend(run, s0, FreeFail);
    var s1 := s0.(rz := Committing(s0.rz.prior, false));
    Extend(run + [s1], s1, Commit);
    s := Committed(s1);
    DriftOfPrefix(run, run + [s1] + [s], k);
    run := run + [s1] + [s];
    FailedShrinkLosesCount(run, k);
  }

  // ---------------------------------------------------------------- the quota and an interrupted shrink

  // The same pool while it is shrunk to one block, with one block on its way back and another one taken.
  lemma TwoTaken() returns (run: seq<State>, s: State)
    ensures History(run, s) && s.phase.Up? && s.disk.meta == Meta(Bytes(2), Bytes(1), ShrinkingStatus)
    ensures s.disk.tenant == {7, 8}
    ensures forall x | x in run :: Bytes(x.inUse) <= x.quota
  {
    hide Begun, LowerAlign, BlockCount;
    var s0;
    run, s0 := OneTaken(Bytes(1));
    BeginShrinks(s0, 1, Bytes(1));
    Extend(run, s0, Begin(Bytes(1)));
    var s1 := Begun(s0, Bytes(1));
    run := run + [s1];
    assert Slots(map[]) == {};
    Extend(run, s1, PutReserve(0, 7));
    var s2 := PutReserved(s1, 0, 7);
    run := run + [s2];
    CanTakeOne(run, s2);
    run, s := CreateSteps(run, s2, 0, 8);
  }

  // The block on its way back is not the one to be taken.
  lemma CanTakeOne(run: seq<State>, s: State)
    requires History(run, s) && s.phase.Up? && s.rz.Freeing? && s.takes == map[] && s.min == 1 && s.max == 3
    requires s.puts == map[0 := Op(2, 7)]
    ensures 1 in s.disk.pool
  {
    HistoryIsInv(run, s);
    assert Ids(map[]) == {} && Ids(s.puts) == {2};
  }

  /**
   The counter of blocks in use leaves out a block that is on its way back.  Keeping that counter within the
   quota is therefore not enough for a restart: here two blocks lie in the tenants' directories while the pool
   is shrunk to one, and a crash at that point cannot be recovered from.
   */
  lemma CounterWithinQuotaIsNotEnough() returns (run: seq<State>, s: State)
    ensures History(run, s) && s.phase.Up?
    ensures forall x | x in run :: Bytes(x.inUse) <= x.quota
    ensures !exists restart :: RestartsFrom(s.disk, restart)
  {
    run, s := TwoTaken();
    assert |{7, 8}| == 2;
    RecoverableIff(s.disk);
  }
}
