/** What a restart makes of the disk that a crash left behind. */
module LogPoolRecovery {
  import opened LogPool
  import opened LogPoolIds
  import opened LogPoolTheorems
  import opened LogPoolSizes

  // The size a restart settles on.
  function Target(m: Meta): int {
    if m.status.NormalStatus? then m.curr else m.next
  }

  /**
   Whether a restart can make anything of a disk: the files are what the meta says, or no more than what it expands
   to, or no fewer than what it shrinks to and the tenants' own files fit that.
   */
  predicate CanRestart(d: Disk) {
    match d.meta.status
    case NormalStatus => Bytes(OnDisk(d)) == d.meta.curr
    case ExpandingStatus => Whole(d.meta.next) && Bytes(OnDisk(d)) <= d.meta.next
    case ShrinkingStatus => Whole(d.meta.next) && Bytes(|d.tenant|) <= d.meta.next <= Bytes(OnDisk(d))
  }

  // ---------------------------------------------------------------- what a restart keeps

  /** What a continued resize has left to do makes up the difference to its target. */
  predicate Aim(rz: Resizer, m: Meta, owned: int) {
    match rz
    case Idle => true
    case MakingTmp(_, want) => Bytes(owned + want) == m.next
    case Allocating(_, want, _) => Bytes(owned + want) == m.next
    case Moving(_, want, moved) => Bytes(owned + want - moved) == m.next
    case MoveHeld(_, want, moved, _) => Bytes(owned + want - moved - 1) == m.next
    case RemovingTmp(_, ok) => ok ==> Bytes(owned) == m.next
    case Freeing(_, want, freed) => Bytes(owned - (want - freed)) == m.next
    case FreeHeld(_, want, freed, _) => Bytes(owned - (want - freed - 1)) == m.next
    case Committing(_, ok) => ok ==> Bytes(owned) == m.next
  }

  predicate Aimed(s: State) {
    s.phase.Resuming? && CanRestart(s.disk) ==> Aim(s.rz, s.disk.meta, Owned(s))
  }

  // What no step of a restart changes.
  predicate SameOutcome(d: Disk, d': Disk) {
    Target(d'.meta) == Target(d.meta) && d'.tenant == d.tenant && CanRestart(d') == CanRestart(d)
  }

  lemma CommitWhileResuming(s: State)
    requires Inv(s) && s.phase.Resuming? && s.rz.Committing? && Aimed(s)
    ensures SameOutcome(s.disk, Committed(s).disk) && !Committed(s).phase.Up? && Aimed(Committed(s))
  {
    OwnedIsOnDisk(s);
  }

  lemma MoveWhileResuming(s: State)
    requires Inv(s) && s.phase.Resuming? && s.rz.MoveHeld? && Aimed(s)
    ensures SameOutcome(s.disk, MoveRenamed(s).disk) && Aimed(MoveRenamed(s))
  {
    PartMoveRename(s);
    OwnedIsOnDisk(s);
    assert OnDisk(MoveRenamed(s).disk) == OnDisk(s.disk) + 1;
  }

  lemma FreeWhileResuming(s: State)
    requires Inv(s) && s.phase.Resuming? && s.rz.FreeHeld? && s.rz.id in s.disk.pool && Aimed(s)
    ensures SameOutcome(s.disk, FreeUnlinked(s).disk) && Aimed(FreeUnlinked(s))
  {
    OwnedIsOnDisk(s);
    assert OnDisk(FreeUnlinked(s).disk) == OnDisk(s.disk) - 1;
  }

  lemma TrimWhileRestarting(s: State)
    requires Inv(s) && Enabled(s, TrimMove)
    ensures SameOutcome(s.disk, Trimmed(s).disk) && Aimed(Trimmed(s))
  {
    TrimMovesDown(s.min, s.max, s.disk.pool, s.phase.rest);
  }

  lemma ResumeIsAimed(s: State)
    requires Inv(s) && Enabled(s, LoadMeta)
    ensures SameOutcome(s.disk, Resumed(s).disk) && Aimed(Resumed(s))
  {
    KeepLoadMeta(s);
    BlockCountOfBytes(s.disk.meta.next / 0x400_0000);
  }

  lemma OtherRestartStep(s: State, e: Event)
    requires Inv(s) && !s.phase.Up? && Aimed(s) && Enabled(s, e)
    requires !e.Commit? && !e.MoveRename? && !e.FreeUnlink? && !e.TrimMove? && !e.LoadMeta?
    ensures SameOutcome(s.disk, Apply(s, e).disk) && Aimed(Apply(s, e))
    ensures Apply(s, e).phase.Up? ==> e.Finish?
  {
  }

  lemma RestartStep(s: State, e: Event)
    requires Inv(s) && !s.phase.Up? && Aimed(s) && Enabled(s, e)
    ensures SameOutcome(s.disk, Apply(s, e).disk) && Aimed(Apply(s, e))
    ensures Apply(s, e).phase.Up? ==> e.Finish?
  {
    hide Partition, Counted, TrimOk, TmpOk, Target, SameOutcome, Aimed;
    match e
    case Commit => CommitWhileResuming(s);
    case MoveRename => MoveWhileResuming(s);
    case FreeUnlink => FreeWhileResuming(s);
    case TrimMove => TrimWhileRestarting(s);
    case LoadMeta => ResumeIsAimed(s);
    case _ => OtherRestartStep(s, e);
  }

  lemma {:induction false} RestartRun(run: seq<State>, k: nat)
    requires IsRun(run) && Inv(run[0]) && Aimed(run[0]) && k < |run|
    requires forall i | 0 <= i < k :: !run[i].phase.Up?
    ensures SameOutcome(run[0].disk, run[k].disk) && Aimed(run[k])
  {
    hide Inv, Enabled, Apply, Aimed;
    if 0 < k {
      RestartRun(run, k - 1);
      EveryStateKeepsInv(run, k - 1);
      assert Linked(run, k - 1);
      var e :| Next(run[k - 1], e, run[k]);
      RestartStep(run[k - 1], e);
    }
  }

  // A server that has just come up: no thread has started yet.
  ghost predicate Settled(t: State) {
    && t.rz.Idle? && t.inUse == |t.disk.tenant| && t.disk.meta.status.NormalStatus?
    && t.disk.meta.curr == Bytes(|t.disk.tenant| + |t.disk.pool|)
    && forall id: nat :: id in t.disk.pool <==> t.min <= id < t.max
  }

  // The step that ends a restart.
  lemma LastStep(s: State, e: Event)
    requires Inv(s) && !s.phase.Up? && Aimed(s) && Enabled(s, e) && Apply(s, e).phase.Up?
    ensures CanRestart(s.disk) && Settled(Apply(s, e))
  {
    RestartStep(s, e);
    assert e.Finish?;
    assert Ids(map[]) == {};
    OwnedIsOnDisk(s);
  }

  lemma ComesUpSettled(run: seq<State>, e: nat)
    requires IsRun(run) && Inv(run[0]) && Aimed(run[0]) && 0 < e < |run|
    requires (forall i | 0 <= i < e :: !run[i].phase.Up?) && run[e].phase.Up?
    ensures CanRestart(run[e - 1].disk) && Settled(run[e])
  {
    hide Inv, Enabled, Apply, Aimed;
    RestartRun(run, e - 1);
    EveryStateKeepsInv(run, e - 1);
    assert Linked(run, e - 1);
    var last :| Next(run[e - 1], last, run[e]);
    LastStep(run[e - 1], last);
  }

  /** What a completed restart makes of a disk. */
  ghost predicate Recovered(d: Disk, t: State) {
    t.disk.tenant == d.tenant && t.disk.meta.curr == Target(d.meta) && Settled(t)
  }

  lemma RestartEnds(run: seq<State>, e: nat)
    requires IsRun(run) && Inv(run[0]) && Aimed(run[0]) && 0 < e < |run|
    requires (forall i | 0 <= i < e :: !run[i].phase.Up?) && run[e].phase.Up?
    ensures CanRestart(run[0].disk) && Recovered(run[0].disk, run[e])
  {
    hide Inv, Enabled, Apply, Aimed;
    RestartRun(run, e - 1);
    RestartRun(run, e);
    ComesUpSettled(run, e);
  }

  lemma Suffix(run: seq<State>, c: nat)
    requires IsRun(run) && c < |run|
    ensures IsRun(run[c..])
  {
    var rest := run[c..];
    forall i | 0 <= i < |rest| - 1 ensures Linked(rest, i) {
      assert Linked(run, c + i);
    }
  }

  lemma RebootIsAimed(d: Disk)
    ensures Inv(Rebooted(d)) && Aimed(Rebooted(d))
  {
  }

  /**
   A crash at any point of any run, followed by any number of interrupted or failed restarts and then by one that
   completes, leaves the tenants' blocks alone and the meta NORMAL, with a size that is the number of block files.
   The size is the target of the resize under way, if the crash found its first meta write, and the old size if not.
   */
  lemma CrashRecovery(run: seq<State>, c: nat, e: nat)
    requires IsRun(run) && run[0] == Fresh() && c + 1 < e < |run|
    requires run[c].phase.Up? && run[c + 1] == Rebooted(run[c].disk)
    requires (forall i | c < i < e :: !run[i].phase.Up?) && run[e].phase.Up?
    ensures Recovered(run[c].disk, run[e])
  {
    hide Inv, Enabled, Apply, Aimed;
    Suffix(run, c + 1);
    RebootIsAimed(run[c].disk);
    RestartEnds(run[c + 1..], e - c - 1);
  }

  // ---------------------------------------------------------------- the target of a resize

  lemma ResizeStep(s: State, e: Event)
    requires s.phase.Up? && !s.rz.Idle? && Enabled(s, e)
    ensures var s' := Apply(s, e); s'.phase.Up? && !s'.rz.Idle? ==> s'.disk.meta == s.disk.meta
  {
    match e
    case Scan => assert false;
    case _ =>
  }

  /** From its first meta write to its last, a resize records the aligned size it was asked for. */
  lemma {:induction false} ResizeRemembersTarget(run: seq<State>, b: nat, size: int, c: nat)
    requires IsRun(run) && b < c < |run|
    requires Enabled(run[b], Begin(size)) && run[b + 1] == Begun(run[b], size)
    requires forall i | b < i <= c :: run[i].phase.Up? && !run[i].rz.Idle?
    ensures run[c].disk.meta.curr == run[b].disk.meta.curr && run[c].disk.meta.next == LowerAlign(size)
    ensures !run[c].disk.meta.status.NormalStatus? && Target(run[c].disk.meta) == LowerAlign(size)
    decreases c
  {
    hide Enabled, Apply;
    if b + 1 < c {
      ResizeRemembersTarget(run, b, size, c - 1);
      assert Linked(run, c - 1);
      var e :| Next(run[c - 1], e, run[c]);
      ResizeStep(run[c - 1], e);
    }
  }

  // ---------------------------------------------------------------- a restart completes

  // What a restart does next when no system call fails.
  function RestartEventOf(s: State): Event {
    match s.phase
    case Down => Scan
    case Trimming(rest) => if rest == [] then LoadMeta else TrimMove
    case _ =>
      match s.rz
      case Idle => Finish
      case MakingTmp(_, _) => MakeTmp(true, false)
      case Allocating(_, want, made) => if made < want then Allocate(true) else AllocateDone(true)
      case Moving(_, want, moved) => if moved < want then MoveReserve else MoveDone
      case MoveHeld(_, _, _, _) => MoveRename
      case RemovingTmp(_, _) => RemoveTmp(true)
      case Freeing(_, want, freed) => if freed < want then FreeReserve else FreeDone
      case FreeHeld(_, _, _, _) => FreeUnlink
      case Committing(_, _) => Commit
  }

  // No system call has failed so far.
  predicate NoFailure(s: State) {
    s.rz.RemovingTmp? || s.rz.Committing? ==> s.rz.ok
  }

  function PhaseRank(s: State): nat {
    match s.phase
    case Down => 3
    case Trimming(_) => 2
    case Resuming => 1
    case Up => 0
  }

  function RestLeft(s: State): nat {
    if s.phase.Trimming? then |s.phase.rest| else 0
  }

  function StageRank(rz: Resizer): nat {
    match rz
    case Idle => 0
    case Committing(_, _) => 1
    case RemovingTmp(_, _) => 2
    case Moving(_, _, _) => 3
    case MoveHeld(_, _, _, _) => 3
    case Freeing(_, _, _) => 3
    case FreeHeld(_, _, _, _) => 3
    case Allocating(_, _, _) => 4
    case MakingTmp(_, _) => 5
  }

  function BlocksLeft(rz: Resizer): int {
    match rz
    case Moving(_, want, moved) => 2 * (want - moved)
    case MoveHeld(_, want, moved, _) => 2 * (want - moved) - 1
    case Freeing(_, want, freed) => 2 * (want - freed)
    case FreeHeld(_, want, freed, _) => 2 * (want - freed) - 1
    case Allocating(_, want, made) => want - made
    case _ => 0
  }

  lemma RestartIsNeverStuck(s: State)
    requires Inv(s) && !s.phase.Up? && NoFailure(s) && Aimed(s) && CanRestart(s.disk)
    ensures Enabled(s, RestartEventOf(s))
  {
    if s.phase.Resuming? {
      assert Ids(map[]) == {};
      OwnedIsOnDisk(s);
      if s.rz.Freeing? && s.rz.freed < s.rz.want {
        assert Bytes(|s.disk.tenant|) <= s.disk.meta.next < Bytes(Owned(s));
      }
    }
  }

  // A restart in s' is nearer to its end than in s.
  predicate Closer(s': State, s: State) {
    || PhaseRank(s') < PhaseRank(s)
    || (PhaseRank(s') == PhaseRank(s)
        && (RestLeft(s') < RestLeft(s)
            || (RestLeft(s') == RestLeft(s)
                && (StageRank(s'.rz) < StageRank(s.rz)
                    || (StageRank(s'.rz) == StageRank(s.rz) && BlocksLeft(s'.rz) < BlocksLeft(s.rz))))))
  }

  lemma ScanAdvances(s: State)
    requires Inv(s) && s.phase.Down?
    ensures var s' := Apply(s, Scan); NoFailure(s') && BlocksLeft(s'.rz) >= 0 && Closer(s', s)
  {
  }

  lemma ResumeAdvances(s: State)
    requires Staged(s.rz, s.disk.meta.status) && s.phase.Resuming? && NoFailure(s) && Enabled(s, RestartEventOf(s))
    ensures var s' := Apply(s, RestartEventOf(s));
            NoFailure(s') && (s'.phase.Up? || BlocksLeft(s'.rz) >= 0) && Closer(s', s)
  {
  }

  lemma RestartAdvances(s: State)
    requires Inv(s) && !s.phase.Up? && NoFailure(s) && Enabled(s, RestartEventOf(s))
    ensures var s' := Apply(s, RestartEventOf(s));
            NoFailure(s') && (s'.phase.Up? || BlocksLeft(s'.rz) >= 0) && Closer(s', s)
  {
    match s.phase
    case Down => ScanAdvances(s);
    case Trimming(_) =>
    case _ => ResumeAdvances(s);
  }

  lemma {:induction false} RestartCompletes(s: State) returns (run: seq<State>)
    requires Inv(s) && Aimed(s) && NoFailure(s) && CanRestart(s.disk)
    ensures IsRun(run) && run[0] == s && run[|run| - 1].phase.Up?
    ensures forall i | 0 <= i < |run| - 1 :: !run[i].phase.Up?
    decreases PhaseRank(s), RestLeft(s), StageRank(s.rz), if BlocksLeft(s.rz) < 0 then 0 else BlocksLeft(s.rz)
  {
    hide Inv, Enabled, Apply, Aimed;
    if s.phase.Up? {
      run := [s];
    } else {
      var e := RestartEventOf(s);
      RestartIsNeverStuck(s);
      RestartAdvances(s);
      RestartStep(s, e);
      InvKept(s, e);
      assert Next(s, e, Apply(s, e));
      var tail := RestartCompletes(Apply(s, e));
      run := [s] + tail;
      PrependStep(s, tail);
    }
  }

  ghost predicate RestartsFrom(d: Disk, run: seq<State>) {
    && IsRun(run) && run[0] == Rebooted(d) && run[|run| - 1].phase.Up?
    && forall i | 0 <= i < |run| - 1 :: !run[i].phase.Up?
  }

  /** Any disk whatever can be brought up again exactly if it meets CanRestart. */
  lemma RecoverableIff(d: Disk)
    ensures CanRestart(d) <==> exists run :: RestartsFrom(d, run)
  {
    hide Inv, Enabled, Apply, Aimed;
    RebootIsAimed(d);
    if CanRestart(d) {
      var run := RestartCompletes(Rebooted(d));
      assert RestartsFrom(d, run);
    }
    if run :| RestartsFrom(d, run) {
      RestartEnds(run, |run| - 1);
    }
  }

  // ---------------------------------------------------------------- compaction of the ids

  // The files of a pool directory fill the range that starts at its smallest id.
  ghost predicate Compacts(pool: set<nat>, min: nat, max: nat) {
    if pool == {} then min == max == 0 else min == MinOf(pool) && max == min + |pool|
  }

  lemma MinIsUnique(s: set<nat>, m: nat)
    requires IsMin(m, s)
    ensures m == MinOf(s)
  {
  }

  ghost predicate SamePlace(pool: set<nat>, pool': set<nat>) {
    |pool'| == |pool| && (pool != {} && pool' != {} ==> MinOf(pool') == MinOf(pool))
  }

  lemma TrimKeepsPlace(s: State)
    requires Inv(s) && Enabled(s, TrimMove) && s.min < s.max
    ensures SamePlace(s.disk.pool, Trimmed(s).disk.pool)
  {
    var s' := Trimmed(s);
    TrimMovesDown(s.min, s.max, s.disk.pool, s.phase.rest);
    var rest := s.phase.rest;
    assert forall i | 0 <= i < |rest| :: s.min < rest[i];
    MinIsUnique(s.disk.pool, s.min);
    MinIsUnique(s'.disk.pool, s.min);
  }

  // A range found by a scan is empty only if the directory is.
  ghost predicate RangeStarted(s: State) {
    s.phase.Trimming? ==> if s.disk.pool == {} then s.min == s.max == 0 else s.min < s.max
  }

  lemma TrimStep(s: State, e: Event)
    requires Inv(s) && RangeStarted(s) && (s.phase.Down? || s.phase.Trimming?) && Enabled(s, e)
    ensures RangeStarted(Apply(s, e)) && SamePlace(s.disk.pool, Apply(s, e).disk.pool)
  {
    match e
    case TrimMove =>
      assert s.phase.rest[0] in s.disk.pool;
      TrimKeepsPlace(s);
    case Scan =>
      SortedHolds(s.disk.pool);
      SortedIsIncreasing(s.disk.pool);
      ScanIsTrimOk(Rebooted(s.disk.(tmp := {}, tmpDir := false)), Sorted(s.disk.pool));
    case _ =>
  }

  lemma {:induction false} TrimRun(run: seq<State>, k: nat)
    requires IsRun(run) && Inv(run[0]) && run[0].phase.Down? && k < |run|
    requires forall i | 0 <= i <= k :: run[i].phase.Down? || run[i].phase.Trimming?
    ensures RangeStarted(run[k]) && SamePlace(run[0].disk.pool, run[k].disk.pool)
  {
    hide Inv, Enabled, Apply;
    if 0 < k {
      TrimRun(run, k - 1);
      EveryStateKeepsInv(run, k - 1);
      assert Linked(run, k - 1);
      var e :| Next(run[k - 1], e, run[k]);
      TrimStep(run[k - 1], e);
    }
  }

  /**
   However often the compaction of ids is interrupted and started over, once it is done the files have exactly
   the ids of a range that starts at the smallest id the first scan found and is as long as there were files.
   */
  lemma CompactionIsRestartable(run: seq<State>, k: nat)
    requires IsRun(run) && Inv(run[0]) && run[0].phase.Down? && k < |run|
    requires forall i | 0 <= i <= k :: run[i].phase.Down? || run[i].phase.Trimming?
    requires run[k].phase == Trimming([])
    ensures Compacts(run[0].disk.pool, run[k].min, run[k].max)
    ensures forall id: nat :: id in run[k].disk.pool <==> run[k].min <= id < run[k].max
  {
    TrimRun(run, k);
    EveryStateKeepsInv(run, k);
    var s := run[k];
    if s.disk.pool != {} {
      MinIsUnique(s.disk.pool, s.min);
    }
  }

  // ---------------------------------------------------------------- what a crash leaves behind

  // Files on the disk, in bytes, against the books of a running server.
  lemma CrashDisk(s: State, drift: int)
    requires Inv(s) && s.phase.Up? && Balanced(s, drift)
    ensures s.disk.meta.status.NormalStatus? ==> (CanRestart(s.disk) <==> drift == 0)
    ensures drift == 0 ==>
              (CanRestart(s.disk) <==>
                 (s.disk.meta.status.ShrinkingStatus? ==> Bytes(|s.disk.tenant|) <= s.disk.meta.next))
  {
    OwnedIsOnDisk(s);
  }

  /**
   Which crashes of a running server can be recovered from.  In NORMAL status: exactly those with balanced books.
   With balanced books: exactly those that do not interrupt a shrink whose target the tenants' own files exceed.
   */
  lemma CrashIsRecoverableIff(run: seq<State>, c: nat)
    requires IsRun(run) && run[0] == Fresh() && c < |run| && run[c].phase.Up?
    ensures run[c].disk.meta.status.NormalStatus? ==>
              (Drift(run, c) == 0 <==> exists restart :: RestartsFrom(run[c].disk, restart))
    ensures Drift(run, c) == 0 ==>
              ((run[c].disk.meta.status.ShrinkingStatus? ==> Bytes(|run[c].disk.tenant|) <= run[c].disk.meta.next) <==>
               exists restart :: RestartsFrom(run[c].disk, restart))
  {
    hide Inv, Enabled, Apply, Balanced, Linked;
    FreshIsInv();
    EveryStateKeepsInv(run, c);
    BooksAreKept(run, c);
    CrashDisk(run[c], Drift(run, c));
    RecoverableIff(run[c].disk);
  }

  /** Counting a block as used until it is back in the pool is enough. */
  lemma OccupancyWithinQuotaIsEnough(run: seq<State>, c: nat)
    requires IsRun(run) && run[0] == Fresh() && c < |run| && run[c].phase.Up? && Drift(run, c) == 0
    requires run[c].disk.meta.status.ShrinkingStatus? ==> Bytes(run[c].inUse + |run[c].puts|) <= run[c].quota
    ensures exists restart :: RestartsFrom(run[c].disk, restart)
  {
    hide Enabled, Apply, Linked, Drift;
    FreshIsInv();
    EveryStateKeepsInv(run, c);
    BooksAreKept(run, c);
    CrashIsRecoverableIff(run, c);
  }

  lemma FailingStep(s: State, e: Event)
    requires Inv(s) && Enabled(s, e) && (CleanupFails(s, Apply(s, e)) || ShrinkFails(s, Apply(s, e)))
    ensures Apply(s, e) == s.(rz := Committing(s.rz.prior, false))
    ensures s.rz.prior.status.NormalStatus? && s.rz.prior.curr == s.disk.meta.curr
    ensures CleanupFails(s, Apply(s, e)) ==> s.disk.meta.status.ExpandingStatus?
  {
  }

  lemma FailureIsWrittenBack(run: seq<State>, k: nat)
    requires IsRun(run) && run[0] == Fresh() && k + 2 < |run|
    requires CleanupFails(run[k], run[k + 1]) || ShrinkFails(run[k], run[k + 1])
    requires run[k + 1].rz.Committing? && run[k + 2] == Committed(run[k + 1])
    ensures var m, t := run[k].disk.meta, run[k + 2];
            && t.phase.Up? && t.disk.meta.status.NormalStatus? && t.disk.meta.curr == m.curr
            && Drift(run, k + 2) == Drift(run, k) + StepDrift(run[k], run[k + 1])
            && (CleanupFails(run[k], run[k + 1]) ==> m.curr < m.next)
  {
    hide Inv, Enabled, Apply, Ledger;
    FreshIsInv();
    EveryStateKeepsInv(run, k);
    BooksAreKept(run, k);
    assert Linked(run, k);
    var e :| Next(run[k], e, run[k + 1]);
    FailingStep(run[k], e);
    assert Drift(run, k + 1) == Drift(run, k) + StepDrift(run[k], run[k + 1]);
  }

  /**
   Where the books go out.  A running server that cannot remove expanding.tmp after the moves writes the old meta
   back as NORMAL although the blocks stay: its size is short by exactly the expansion, and should it crash then, no
   restart will ever pass the integrity check.
   */
  lemma FailedCleanupLosesCount(run: seq<State>, k: nat)
    requires IsRun(run) && run[0] == Fresh() && k + 2 < |run| && Drift(run, k) == 0
    requires CleanupFails(run[k], run[k + 1]) && run[k + 1].rz.Committing? && run[k + 2] == Committed(run[k + 1])
    ensures var m, t := run[k].disk.meta, run[k + 2];
            && t.phase.Up? && t.disk.meta.status.NormalStatus? && Size(t) == m.next > m.curr == t.disk.meta.curr
            && !exists restart :: RestartsFrom(t.disk, restart)
  {
    hide Linked, Drift, Committed;
    FailureIsWrittenBack(run, k);
    NormalMeansAccounted(run, k + 2);
    CrashIsRecoverableIff(run, k + 2);
  }

  /**
   So does a shrink that finds the pool empty after it has freed some blocks: short by exactly those.
   */
  lemma FailedShrinkLosesCount(run: seq<State>, k: nat)
    requires IsRun(run) && run[0] == Fresh() && k + 2 < |run| && Drift(run, k) == 0
    requires ShrinkFails(run[k], run[k + 1]) && run[k + 1].rz.Committing? && run[k + 2] == Committed(run[k + 1])
    ensures var t := run[k + 2];
            && t.phase.Up? && t.disk.meta.status.NormalStatus? && Size(t) == t.disk.meta.curr - Bytes(run[k].rz.freed)
            && (run[k].rz.freed == 0 <==> exists restart :: RestartsFrom(t.disk, restart))
  {
    hide Linked, Drift, Committed;
    FailureIsWrittenBack(run, k);
    NormalMeansAccounted(run, k + 2);
    CrashIsRecoverableIff(run, k + 2);
  }
}
