/**
 The leader's side of a garbage-collection log: the thread that submits it, the callback that tells it is committed,
 and the checkpoint that must not move past it before its effect is on disk.

 The three threads interleave freely; `rec_scn_lock_` is the only thing they share besides atomic variables.
 */
module GcCheckpoint {
  import opened Options

  // rec_scn_: None stands for the maximum.
  type RecScn = Option<int>

  // Where the submitting thread stands.  The scn is that of the appended log.
  datatype Submitter =
    | Idle
    | Locked
    | Appended(scn: int)    // holds the lock, the callback does not know the scn yet
    | Filled(scn: int)      // holds the lock
    | Waiting(scn: int)     // polls the callback's state
    | Persisted(scn: int)   // has written the gc state, has not reset rec_scn_

  datatype CbState = Init | Running(scn: Option<int>) | Stored | Succeeded | Failed

  datatype Checkpointer = Resting | KnowsDecided(decided: int)

  // `decided`: every log up to it has had its callback.  `unsaved`: the log whose effect is not on disk, if any.
  datatype State = State(
    lock: bool, rec: RecScn, sub: Submitter, cbScn: Option<int>, cb: CbState, committed: bool,
    decided: int, unsaved: Option<int>, ck: Checkpointer, checkpoint: int)

  datatype Event =
    | Lock | Append(scn: int) | AppendFails | Fill | Unlock | Persist(ok: bool) | Reset | SeeFailure
    | Commit | LoseLog | CbLock | CbStore | CbUnlock
    | Decide(scn: int) | CkReadDecided | CkReadRec

  // The log appended and not yet answered by its callback.
  predicate InFlight(s: State) {
    (s.sub.Appended? || s.sub.Filled? || s.sub.Waiting?) && !s.cb.Succeeded? && !s.cb.Failed?
  }

  predicate Enabled(s: State, e: Event) {
    match e
    case Lock => s.sub.Idle? && !s.lock
    case Append(scn) => s.sub.Locked? && s.decided < scn
    case AppendFails => s.sub.Locked?
    case Fill => s.sub.Appended?
    case Unlock => s.sub.Filled?
    case Persist(_) => s.sub.Waiting? && s.cb.Succeeded?
    case Reset => s.sub.Persisted?
    case SeeFailure => s.sub.Waiting? && s.cb.Failed?
    // a log may be committed as soon as it is appended, and its callback called
    case Commit => InFlight(s) && !s.committed
    case LoseLog => InFlight(s) && !s.committed
    case CbLock => s.committed && s.cb.Init? && !s.lock
    case CbStore => s.cb.Running?
    case CbUnlock => s.cb.Stored?
    case Decide(scn) => s.decided <= scn && (InFlight(s) ==> scn < s.sub.scn)
    case CkReadDecided => s.ck.Resting?
    case CkReadRec => s.ck.KnowsDecided?
  }

  function Apply(s: State, e: Event): State
    requires Enabled(s, e)
  {
    match e
    case Lock => s.(lock := true, sub := Locked)
    case Append(scn) =>
      s.(sub := Appended(scn), cbScn := None, cb := Init, committed := false, unsaved := Some(scn))
    case AppendFails => s.(lock := false, sub := Idle)
    case Fill => s.(sub := Filled(s.sub.scn), cbScn := Some(s.sub.scn))
    case Unlock => s.(lock := false, sub := Waiting(s.sub.scn))
    case Persist(ok) => if ok then s.(sub := Persisted(s.sub.scn), unsaved := None) else s
    case Reset => s.(sub := Idle, rec := None)
    case SeeFailure => s.(sub := Idle)
    case Commit => s.(committed := true)
    case LoseLog => s.(cb := Failed, unsaved := None)
    case CbLock => s.(lock := true, cb := Running(s.cbScn))
    case CbStore => s.(cb := Stored, rec := s.cb.scn)
    case CbUnlock => s.(lock := false, cb := Succeeded)
    case Decide(scn) => s.(decided := scn)
    case CkReadDecided => s.(ck := KnowsDecided(s.decided))
    case CkReadRec =>
      var c := if s.rec.Some? && s.rec.value < s.ck.decided then s.rec.value else s.ck.decided;
      s.(ck := Resting, checkpoint := if s.checkpoint < c then c else s.checkpoint)
  }

  predicate Initial(s: State) {
    && !s.lock && s.rec.None? && s.sub.Idle? && s.cbScn.None? && s.cb.Init? && !s.committed
    && s.unsaved.None? && s.ck.Resting? && s.checkpoint <= s.decided
  }

  ghost predicate Steps(s: State, s': State) {
    exists e :: Enabled(s, e) && s' == Apply(s, e)
  }

  ghost predicate IsRun(run: seq<State>) {
    run != [] && Initial(run[0]) && forall i | 0 <= i < |run| - 1 :: Steps(run[i], run[i + 1])
  }

  // ---------------------------------------------------------------- the invariant

  predicate LockOk(s: State) {
    && (s.sub.Locked? || s.sub.Appended? || s.sub.Filled? ==> s.lock && !s.cb.Running? && !s.cb.Stored?)
    && (s.cb.Running? || s.cb.Stored? ==> s.lock && s.sub.Waiting? && s.committed)
    && (s.lock ==> s.sub.Locked? || s.sub.Appended? || s.sub.Filled? || s.cb.Running? || s.cb.Stored?)
  }

  predicate CallbackOk(s: State) {
    && (s.sub.Appended? || s.sub.Filled? ==> s.cb.Init? || s.cb.Failed?)
    && (s.sub.Filled? || s.sub.Waiting? ==> s.cbScn == Some(s.sub.scn))
    && (s.cb.Running? ==> s.cb.scn == s.cbScn)
    && (s.sub.Waiting? && (s.cb.Stored? || s.cb.Succeeded?) ==> s.rec == Some(s.sub.scn))
    && (s.sub.Persisted? ==> s.cb.Succeeded? && s.rec == Some(s.sub.scn))
    && (s.sub.Idle? || s.sub.Locked? ==> s.rec.None? && !s.cb.Running? && !s.cb.Stored?)
    && (InFlight(s) && !s.cb.Stored? ==> s.rec.None?)
    && (s.cb.Failed? ==> s.rec.None?)
    && (s.cb.Failed? ==> !s.committed)
    && (s.committed && s.cb.Init? ==> InFlight(s))
  }

  predicate SavedOk(s: State) {
    && (s.unsaved.Some? ==> (InFlight(s) || (s.sub.Waiting? && s.cb.Succeeded?)) && s.unsaved.value == s.sub.scn)
    && (InFlight(s) || (s.sub.Waiting? && s.cb.Succeeded?) ==> s.unsaved == Some(s.sub.scn))
  }

  predicate CheckpointOk(s: State) {
    && (InFlight(s) ==> s.decided < s.sub.scn)
    && (s.ck.KnowsDecided? ==> s.ck.decided <= s.decided)
    && s.checkpoint <= s.decided
    && (s.unsaved.Some? ==> s.checkpoint <= s.unsaved.value)
  }

  predicate Inv(s: State) {
    LockOk(s) && CallbackOk(s) && SavedOk(s) && CheckpointOk(s)
  }

  lemma InvKept(s: State, e: Event)
    requires Inv(s) && Enabled(s, e)
    ensures Inv(Apply(s, e))
  {
  }

  lemma {:induction false} EveryStateKeepsInv(run: seq<State>, k: nat)
    requires IsRun(run) && k < |run|
    ensures Inv(run[k])
  {
    if 0 < k {
      EveryStateKeepsInv(run, k - 1);
      assert Steps(run[k - 1], run[k]);
      var e :| Enabled(run[k - 1], e) && run[k] == Apply(run[k - 1], e);
      InvKept(run[k - 1], e);
    }
  }

  // ---------------------------------------------------------------- theorems

  /** The callback never stores an unassigned scn: it reads the one that append returned. */
  lemma CallbackKnowsScn(run: seq<State>, k: nat)
    requires IsRun(run) && k < |run| && Enabled(run[k], CbStore)
    ensures run[k].sub.Waiting? && run[k].cb.scn == Some(run[k].sub.scn)
  {
    EveryStateKeepsInv(run, k);
  }

  /**
   From the callback until the gc state is on disk rec_scn_ is the log's scn, and as long as any log's effect is not
   on disk the checkpoint has not passed that log.  With nothing submitted rec_scn_ is the maximum.
   */
  lemma CheckpointWaits(run: seq<State>, k: nat)
    requires IsRun(run) && k < |run|
    ensures var s := run[k];
            && (s.unsaved.Some? && s.cb.Succeeded? ==> s.rec == s.unsaved)
            && (s.unsaved.Some? ==> s.checkpoint <= s.unsaved.value)
            && (s.sub.Idle? ==> s.rec.None? && s.unsaved.None?)
  {
    EveryStateKeepsInv(run, k);
  }

  /** rec_scn_ goes back to the maximum only once nothing is left to be saved. */
  lemma RecScnIsReleasedAfterSave(run: seq<State>, k: nat)
    requires IsRun(run) && k + 1 < |run| && run[k].rec.Some? && run[k + 1].rec.None?
    ensures run[k].unsaved.None? && run[k].sub.Persisted?
  {
    EveryStateKeepsInv(run, k);
    assert Steps(run[k], run[k + 1]);
    var e :| Enabled(run[k], e) && run[k + 1] == Apply(run[k], e);
  }

  // ---------------------------------------------------------------- who may go on

  /**
   A log may be committed, or lost, as soon as it is appended: before the callback has been given its scn, and while the
   submitter still holds the lock.
   */
  lemma CommitMayHappenIff(s: State)
    requires !s.committed
    ensures (exists s' :: Steps(s, s') && s'.committed && s'.sub == s.sub && s'.cb == s.cb) <==>
              (s.sub.Appended? || s.sub.Filled? || s.sub.Waiting?) && !s.cb.Succeeded? && !s.cb.Failed?
    ensures (exists s' :: Steps(s, s') && s'.cb.Failed?) <==>
              s.cb.Failed? || ((s.sub.Appended? || s.sub.Filled? || s.sub.Waiting?) && !s.cb.Succeeded?)
  {
    if (s.sub.Appended? || s.sub.Filled? || s.sub.Waiting?) && !s.cb.Succeeded? && !s.cb.Failed? {
      assert Enabled(s, Commit) && Enabled(s, LoseLog);
      assert Steps(s, Apply(s, Commit)) && Steps(s, Apply(s, LoseLog));
    }
    if s.cb.Failed? {
      assert Enabled(s, Decide(s.decided));
      assert Steps(s, Apply(s, Decide(s.decided)));
    }
    forall s', e | Enabled(s, e) && s' == Apply(s, e)
      ensures s'.committed ==> e.Commit?
      ensures s'.cb.Failed? && !s.cb.Failed? ==> e.LoseLog?
    {
    }
  }

  /** The callback of a committed log gets going exactly when nobody has the lock. */
  lemma CallbackMayStartIff(s: State)
    requires s.committed && s.cb.Init?
    ensures (exists s' :: Steps(s, s') && s'.cb == Running(s.cbScn)) <==> !s.lock
  {
    if !s.lock {
      assert Enabled(s, CbLock);
      assert Steps(s, Apply(s, CbLock));
    }
    if s' :| Steps(s, s') && s'.cb == Running(s.cbScn) {
      var e :| Enabled(s, e) && s' == Apply(s, e);
    }
  }

  /** The checkpoint may read what is decided, and later rec_scn_, at any time. */
  lemma CheckpointMayMove(s: State)
    ensures s.ck.Resting? ==> Steps(s, s.(ck := KnowsDecided(s.decided)))
    ensures s.ck.KnowsDecided? ==>
              exists s' :: Steps(s, s') && s'.ck.Resting? && s'.rec == s.rec
                           && (s.rec.None? ==> s.ck.decided <= s'.checkpoint)
                           && (s.rec.Some? ==> s.ck.decided <= s'.checkpoint || s.rec.value <= s'.checkpoint)
  {
    if s.ck.Resting? {
      assert Enabled(s, CkReadDecided);
    } else {
      assert Enabled(s, CkReadRec);
      assert Steps(s, Apply(s, CkReadRec));
    }
  }

  /** More logs may be decided at any time, short of one that is in flight. */
  lemma DecideMayHappenIff(s: State, scn: int)
    requires s.decided < scn
    ensures (exists s' :: Steps(s, s') && s'.decided == scn) <==>
              (&& (s.sub.Appended? || s.sub.Filled? || s.sub.Waiting?) && !s.cb.Succeeded? && !s.cb.Failed?
               ==> scn < s.sub.scn)
  {
    if InFlight(s) ==> scn < s.sub.scn {
      assert Enabled(s, Decide(scn));
      assert Steps(s, Apply(s, Decide(scn)));
    }
    if s' :| Steps(s, s') && s'.decided == scn {
      var e :| Enabled(s, e) && s' == Apply(s, e);
    }
  }

  lemma Extend(run: seq<State>, e: Event)
    requires IsRun(run) && Enabled(run[|run| - 1], e)
    ensures IsRun(run + [Apply(run[|run| - 1], e)])
  {
    var run' := run + [Apply(run[|run| - 1], e)];
    forall i | 0 <= i < |run'| - 1 ensures Steps(run'[i], run'[i + 1]) {
      if i < |run| - 1 { assert Steps(run[i], run[i + 1]); }
    }
  }

  // What the submitter or, for it, the callback does next, if the log is to be saved.
  function Onward(s: State): Event {
    match s.sub
    case Idle => Lock
    case Locked => AppendFails
    case Appended(_) => Fill
    case Filled(_) => Unlock
    case Waiting(_) =>
      (match s.cb
       case Init => if s.committed then CbLock else Commit
       case Running(_) => CbStore
       case Stored => CbUnlock
       case Succeeded => Persist(true)
       case Failed => SeeFailure)
    case Persisted(_) => Reset
  }

  function Distance(s: State): nat {
    match s.sub
    case Idle => 0
    case Locked => 1
    case Appended(_) => 9
    case Filled(_) => 8
    case Waiting(_) =>
      (match s.cb
       case Init => if s.committed then 6 else 7
       case Running(_) => 5
       case Stored => 4
       case Succeeded => 3
       case Failed => 1)
    case Persisted(_) => 2
  }

  /** From every state of every run the submission under way can come to its end, with everything saved. */
  lemma {:induction false} SubmissionEnds(run: seq<State>) returns (run': seq<State>)
    requires IsRun(run)
    ensures IsRun(run') && run <= run'
    ensures var t := run'[|run'| - 1]; t.sub.Idle? && !t.lock && t.rec.None? && t.unsaved.None?
    decreases Distance(run[|run| - 1])
  {
    var s := run[|run| - 1];
    EveryStateKeepsInv(run, |run| - 1);
    if s.sub.Idle? {
      run' := run;
    } else {
      Extend(run, Onward(s));
      run' := SubmissionEnds(run + [Apply(s, Onward(s))]);
    }
  }

  /** And then the checkpoint can come up to everything decided. */
  lemma CheckpointCatchesUp(run: seq<State>) returns (run': seq<State>)
    requires IsRun(run)
    ensures IsRun(run') && run <= run'
    ensures var t := run'[|run'| - 1]; t.unsaved.None? && t.checkpoint == t.decided
  {
    run' := SubmissionEnds(run);
    if run'[|run'| - 1].ck.KnowsDecided? {
      Extend(run', CkReadRec);
      run' := run' + [Apply(run'[|run'| - 1], CkReadRec)];
    }
    Extend(run', CkReadDecided);
    run' := run' + [Apply(run'[|run'| - 1], CkReadDecided)];
    Extend(run', CkReadRec);
    run' := run' + [Apply(run'[|run'| - 1], CkReadRec)];
    EveryStateKeepsInv(run', |run'| - 1);
  }

  /** A callback can be due before it has been given its log's scn: the log is committed, and the lock keeps it off. */
  lemma CallbackCanBeEarly(scn: nat) returns (run: seq<State>)
    requires 0 < scn
    ensures IsRun(run)
    ensures var s := run[|run| - 1];
            s.sub == Appended(scn) && s.committed && s.cb.Init? && s.cbScn.None? && s.lock
  {
    var s0 := State(false, None, Idle, None, Init, false, 0, None, Resting, 0);
    run := [s0];
    Extend(run, Lock);
    var s1 := Apply(s0, Lock);
    run := run + [s1];
    Extend(run, Append(scn));
    var s2 := Apply(s1, Append(scn));
    run := run + [s2];
    Extend(run, Commit);
    run := run + [Apply(s2, Commit)];
  }
}
