/** Sizes: how the blocks a running server accounts for relate to the size its meta records, in every run. */
module LogPoolSizes {
  import opened LogPool
  import opened LogPoolIds
  import opened LogPoolTheorems

  // ---------------------------------------------------------------- the books

  // The blocks in use and the free blocks, in bytes.
  function Size(s: State): int {
    Bytes(s.inUse) + Bytes(s.max - s.min)
  }

  /** What a resize has reserved so far, and what it still has to, between the old size and the new. */
  predicate Ledger(rz: Resizer, m: Meta, size: int) {
    match rz
    case Idle => size == m.curr
    case MakingTmp(_, want) => size == m.curr && size + Bytes(want) == m.next
    case Allocating(_, want, _) => size == m.curr && size + Bytes(want) == m.next
    case Moving(_, want, moved) => size - Bytes(moved) == m.curr && size + Bytes(want - moved) == m.next
    case MoveHeld(_, want, moved, _) => size - Bytes(moved + 1) == m.curr && size + Bytes(want - moved - 1) == m.next
    case RemovingTmp(_, ok) => size == if ok then m.next else m.curr
    case Freeing(_, want, freed) => size + Bytes(freed) == m.curr && size - Bytes(want - freed) == m.next
    case FreeHeld(_, want, freed, _) => size + Bytes(freed + 1) == m.curr && size - Bytes(want - freed - 1) == m.next
    case Committing(_, ok) => size == if ok then m.next else m.curr
  }

  predicate Promised(s: State) {
    s.quota <= s.disk.meta.curr && (!s.rz.Idle? ==> s.quota <= s.disk.meta.next)
  }

  // Removing expanding.tmp fails after all blocks have been moved.
  predicate CleanupFails(s: State, s': State) {
    s.phase.Up? && s.rz.RemovingTmp? && s.rz.ok && s'.rz.Committing? && !s'.rz.ok
  }

  // A shrink finds the pool empty before it is done.
  predicate ShrinkFails(s: State, s': State) {
    s.phase.Up? && s.rz.Freeing? && s'.rz.Committing? && !s'.rz.ok
  }

  // By how much a step of a running server puts the books out, in bytes.
  function StepDrift(s: State, s': State): int {
    if CleanupFails(s, s') then s.disk.meta.next - s.disk.meta.curr
    else if ShrinkFails(s, s') then -Bytes(s.rz.freed)
    else 0
  }

  // By how much the books are out since the server last came up.
  function Drift(run: seq<State>, k: nat): int
    requires k < |run|
  {
    if k == 0 || !run[k - 1].phase.Up? || !run[k].phase.Up? then 0
    else Drift(run, k - 1) + StepDrift(run[k - 1], run[k])
  }

  predicate Whole(size: int) {
    size == Bytes(size / 0x400_0000)
  }

  /** The books are out by exactly that much. */
  predicate Balanced(s: State, drift: int) {
    && Ledger(s.rz, s.disk.meta, Size(s) - drift) && Promised(s)
    && Whole(s.disk.meta.curr) && (!s.rz.Idle? ==> Whole(s.disk.meta.next))
    && (s.disk.meta.status.ExpandingStatus? ==> s.disk.meta.curr < s.disk.meta.next)
    && (s.disk.meta.status.ShrinkingStatus? ==> s.disk.meta.next < s.disk.meta.curr)
  }

  // ---------------------------------------------------------------- every step

  lemma BeginBalances(s: State, size: int, drift: int)
    requires Balanced(s, drift) && Enabled(s, Begin(size))
    ensures Balanced(Begun(s, size), drift) && StepDrift(s, Begun(s, size)) == 0
  {
    LowerAlignIsFloor(size);
    BlockCountOfBytes(size / 0x400_0000);
    BlockCountOfBytes(s.disk.meta.curr / 0x400_0000);
  }

  lemma AllocateBalances(s: State, e: Event, drift: int)
    requires s.phase.Up? && Balanced(s, drift) && Enabled(s, e) && (e.MakeTmp? || e.Allocate? || e.AllocateDone?)
    ensures Balanced(Apply(s, e), drift + StepDrift(s, Apply(s, e)))
  {
  }

  lemma MoveBalances(s: State, e: Event, drift: int)
    requires Staged(s.rz, s.disk.meta.status) && s.phase.Up? && Balanced(s, drift) && Enabled(s, e)
    requires ExpandEvent(e) && !e.MakeTmp? && !e.Allocate? && !e.AllocateDone?
    ensures Balanced(Apply(s, e), drift + StepDrift(s, Apply(s, e)))
  {
  }

  lemma ExpandBalances(s: State, e: Event, drift: int)
    requires Staged(s.rz, s.disk.meta.status) && s.phase.Up? && Balanced(s, drift) && Enabled(s, e) && ExpandEvent(e)
    ensures Balanced(Apply(s, e), drift + StepDrift(s, Apply(s, e)))
  {
    hide Balanced, StepDrift, Enabled, Apply;
    if e.MakeTmp? || e.Allocate? || e.AllocateDone? {
      AllocateBalances(s, e, drift);
    } else {
      MoveBalances(s, e, drift);
    }
  }

  lemma ShrinkBalances(s: State, e: Event, drift: int)
    requires s.phase.Up? && Balanced(s, drift) && Enabled(s, e) && ShrinkEvent(e)
    ensures Balanced(Apply(s, e), drift + StepDrift(s, Apply(s, e)))
  {
  }

  lemma CommitBalances(s: State, drift: int)
    requires PriorOk(s.rz, s.disk.meta, false) && s.phase.Up? && Balanced(s, drift) && s.rz.Committing?
    ensures Balanced(Committed(s), drift) && StepDrift(s, Committed(s)) == 0
  {
  }

  // What tenants do moves blocks between use and pool.
  lemma OtherKeepsSize(s: State, e: Event)
    requires s.phase.Up? && Enabled(s, e) && Apply(s, e).phase.Up?
    requires !ExpandEvent(e) && !ShrinkEvent(e) && !e.Commit? && !e.Begin?
    ensures var t := Apply(s, e);
            && t.rz == s.rz && t.disk.meta == s.disk.meta && t.inUse + (t.max - t.min) == s.inUse + (s.max - s.min)
            && (t.quota == s.quota || (s.rz.Idle? && t.quota <= s.disk.meta.curr))
  {
  }

  lemma SameSizeBalances(s: State, t: State, drift: int)
    requires Balanced(s, drift) && t.rz == s.rz && t.disk.meta == s.disk.meta
    requires t.inUse + (t.max - t.min) == s.inUse + (s.max - s.min)
    requires t.quota == s.quota || (s.rz.Idle? && t.quota <= s.disk.meta.curr)
    ensures Balanced(t, drift) && StepDrift(s, t) == 0
  {
    assert Size(t) == Size(s);
  }

  lemma OtherBalances(s: State, e: Event, drift: int)
    requires s.phase.Up? && Balanced(s, drift) && Enabled(s, e) && Apply(s, e).phase.Up?
    requires !ExpandEvent(e) && !ShrinkEvent(e) && !e.Commit? && !e.Begin?
    ensures Balanced(Apply(s, e), drift) && StepDrift(s, Apply(s, e)) == 0
  {
    hide Balanced, StepDrift;
    OtherKeepsSize(s, e);
    SameSizeBalances(s, Apply(s, e), drift);
  }

  /** Every step of a running server leaves the books out by what StepDrift says. */
  lemma StepBalances(s: State, e: Event, drift: int)
    requires Inv(s) && s.phase.Up? && Balanced(s, drift) && Enabled(s, e) && Apply(s, e).phase.Up?
    ensures Balanced(Apply(s, e), drift + StepDrift(s, Apply(s, e)))
  {
    hide Balanced, StepDrift, Ledger, Size, Partition;
    if ExpandEvent(e) { ExpandBalances(s, e, drift); }
    else if ShrinkEvent(e) { ShrinkBalances(s, e, drift); }
    else if e.Commit? { CommitBalances(s, drift); }
    else if e.Begin? { BeginBalances(s, e.size, drift); }
    else { OtherBalances(s, e, drift); }
  }

  // A server that comes up has just passed the integrity check.
  lemma ComesUpBalanced(s: State, e: Event)
    requires Inv(s) && !s.phase.Up? && Enabled(s, e) && Apply(s, e).phase.Up?
    ensures Balanced(Apply(s, e), 0)
  {
  }

  lemma EmptyIsBalanced(s: State)
    requires s.rz.Idle? && s.inUse == 0 && s.min == s.max && s.quota <= 0
    requires s.disk.meta.status.NormalStatus? && s.disk.meta.curr == 0
    ensures Balanced(s, 0)
  {
  }

  lemma {:induction false} BooksAreKept(run: seq<State>, k: nat)
    requires IsRun(run) && run[0] == Fresh() && k < |run| && run[k].phase.Up?
    ensures Balanced(run[k], Drift(run, k))
  {
    hide Inv, Enabled, Apply, Balanced, StepDrift;
    FreshIsInv();
    EmptyIsBalanced(Fresh());
    if 0 < k {
      EveryStateKeepsInv(run, k - 1);
      assert Linked(run, k - 1);
      var e :| Next(run[k - 1], e, run[k]);
      if run[k - 1].phase.Up? {
        BooksAreKept(run, k - 1);
        StepBalances(run[k - 1], e, Drift(run, k - 1));
      } else {
        ComesUpBalanced(run[k - 1], e);
      }
    }
  }

  // ---------------------------------------------------------------- theorems

  /**
   Conservation: in every run, whenever the status is NORMAL, blocks in use and free blocks add up to the recorded
   size and the drift since the server came up.  So they add up to the recorded size exactly if the drift is zero.
   */
  lemma NormalMeansAccounted(run: seq<State>, k: nat)
    requires IsRun(run) && run[0] == Fresh() && k < |run|
    requires run[k].phase.Up? && run[k].disk.meta.status.NormalStatus?
    ensures run[k].rz.Idle? && Size(run[k]) == run[k].disk.meta.curr + Drift(run, k)
    ensures run[k].quota <= run[k].disk.meta.curr
  {
    hide IsRun, Fresh, Inv, Enabled, Apply, Linked, Size, Drift, Balanced;
    FreshIsInv();
    EveryStateKeepsInv(run, k);
    BooksAreKept(run, k);
    NormalIsIdle(run[k], Drift(run, k));
  }

  lemma NormalIsIdle(s: State, drift: int)
    requires Inv(s) && s.phase.Up? && s.disk.meta.status.NormalStatus? && Balanced(s, drift)
    ensures s.rz.Idle? && Size(s) == s.disk.meta.curr + drift && s.quota <= s.disk.meta.curr
  {
  }

  // While the pool is being shrunk, the new size covers the blocks in use; it covers what tenants are charged.
  predicate Within(s: State) {
    s.phase.Up? && s.disk.meta.status.ShrinkingStatus? ==> Bytes(s.inUse) <= s.disk.meta.next
  }

  /** Up to k, tenants keep within the new size of a shrink, and expanding.tmp can be removed. */
  ghost predicate Disciplined(run: seq<State>, k: nat)
    requires k < |run|
  {
    && (forall i | 0 <= i <= k :: Within(run[i]))
    && (forall i | 0 <= i < k :: CleansUp(run, i))
  }

  predicate CleansUp(run: seq<State>, i: nat)
    requires i + 1 < |run|
  {
    !CleanupFails(run[i], run[i + 1])
  }

  // With balanced books, a shrink that finds the pool empty is one whose target the blocks in use exceed.
  lemma EmptyPoolMeansOutside(s: State)
    requires Inv(s) && s.phase.Up? && Balanced(s, 0) && Enabled(s, FreeFail)
    ensures !Within(s) && Bytes(s.inUse) == s.disk.meta.next + Bytes(s.rz.want - s.rz.freed)
  {
  }

  lemma {:induction false} DisciplineKeepsBooks(run: seq<State>, k: nat)
    requires IsRun(run) && run[0] == Fresh() && k < |run| && Disciplined(run, k)
    ensures Drift(run, k) == 0
    decreases k, 0
  {
    hide Inv, Enabled, Apply;
    if 0 < k && run[k - 1].phase.Up? && run[k].phase.Up? {
      assert forall i | 0 <= i <= k - 1 :: Within(run[i]);
      assert forall i | 0 <= i < k - 1 :: CleansUp(run, i);
      DisciplineKeepsBooks(run, k - 1);
      assert CleansUp(run, k - 1);
      if ShrinkFails(run[k - 1], run[k]) {
        OnlyFreeFailFails(run, k - 1);
        AcceptedShrinkHasBlocks(run, k - 1);
      }
    }
  }

  lemma OnlyFreeFailFails(run: seq<State>, k: nat)
    requires IsRun(run) && k + 1 < |run| && ShrinkFails(run[k], run[k + 1])
    ensures Enabled(run[k], FreeFail)
  {
    assert Linked(run, k);
    var e :| Next(run[k], e, run[k + 1]);
    assert e.FreeFail?;
  }

  /** If tenants keep within the new size and cleanups succeed, a running server's shrink never meets an empty pool. */
  lemma {:induction false} AcceptedShrinkHasBlocks(run: seq<State>, k: nat)
    requires IsRun(run) && run[0] == Fresh() && k < |run| && run[k].phase.Up? && Disciplined(run, k)
    ensures !Enabled(run[k], FreeFail)
    decreases k, 1
  {
    hide Inv, Apply;
    FreshIsInv();
    EveryStateKeepsInv(run, k);
    BooksAreKept(run, k);
    DisciplineKeepsBooks(run, k);
    assert Within(run[k]);
    if Enabled(run[k], FreeFail) { EmptyPoolMeansOutside(run[k]); }
  }
}
