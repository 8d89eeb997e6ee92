/**
 The garbage-collection logs of one log stream and the replicas that apply them.

 Any replica may act as leader at any time and submits what its own state calls for.  A submitted log is committed
 or lost.  Every replica applies the committed logs in order, its own ones through the callback and the others by
 replay; it may crash anywhere and start over from a point before, and its writes of the state may fail.
 */
module GcReplication {
  import opened Options
  import opened GcState

  // `applied` is the next log to apply; `high` is how far the replica has ever come.
  datatype Replica = Replica(meta: Meta, applied: nat, high: nat)

  datatype State = State(log: seq<Entry>, flying: set<Entry>, replicas: map<nat, Replica>)

  datatype Event =
    | Submit(r: nat, e: Entry) | Commit(e: Entry) | Lose(e: Entry)
    | ApplyNext(r: nat, ok: bool) | Restart(r: nat, from: nat) | DecideWaitGc(r: nat)

  function Max(a: nat, b: nat): nat {
    if a < b then b else a
  }

  function Applied(n: Replica, e: Entry): Replica {
    Replica(Updated(n.meta, e), n.applied + 1, Max(n.high, n.applied + 1))
  }

  predicate Enabled(s: State, e: Event) {
    match e
    case Submit(r, entry) => r in s.replicas && LeaderSubmits(s.replicas[r].meta.phase, entry.kind)
    case Commit(entry) => entry in s.flying
    case Lose(entry) => entry in s.flying
    case ApplyNext(r, _) => r in s.replicas && s.replicas[r].applied < |s.log|
    case Restart(r, from) => r in s.replicas && from <= s.replicas[r].applied
    case DecideWaitGc(r) => r in s.replicas && s.replicas[r].meta.phase == Offline
  }

  function Apply(s: State, e: Event): State
    requires Enabled(s, e)
  {
    match e
    case Submit(_, entry) => s.(flying := s.flying + {entry})
    case Commit(entry) => s.(log := s.log + [entry], flying := s.flying - {entry})
    case Lose(entry) => s.(flying := s.flying - {entry})
    case ApplyNext(r, ok) =>
      if ok then s.(replicas := s.replicas[r := Applied(s.replicas[r], s.log[s.replicas[r].applied])]) else s
    case Restart(r, from) => s.(replicas := s.replicas[r := s.replicas[r].(applied := from)])
    case DecideWaitGc(r) => s.(replicas := s.replicas[r := s.replicas[r].(meta := SetGcState(WaitGc, None))])
  }

  ghost predicate Steps(s: State, s': State) {
    exists e :: Enabled(s, e) && s' == Apply(s, e)
  }

  // A log stream starts with nothing logged and every replica normal.
  ghost predicate Initial(s: State) {
    s.log == [] && s.flying == {} && forall r | r in s.replicas :: s.replicas[r] == Replica(Meta(Normal, None), 0, 0)
  }

  ghost predicate IsRun(run: seq<State>) {
    run != [] && Initial(run[0]) && forall i | 0 <= i < |run| - 1 :: Steps(run[i], run[i + 1])
  }

  // ---------------------------------------------------------------- the invariant

  ghost predicate ReplicaOk(log: seq<Entry>, n: Replica) {
    n.applied <= n.high <= |log| && Means(log[..n.high], n.meta)
  }

  ghost predicate Inv(s: State) {
    && BlockFirst(s.log)
    && (forall e | e in s.flying && e.kind == OfflineLog :: Has(s.log, BlockLog))
    && (forall r | r in s.replicas :: ReplicaOk(s.log, s.replicas[r]))
  }

  lemma BlockFirstPrefix(log: seq<Entry>, n: nat)
    requires BlockFirst(log) && n <= |log|
    ensures BlockFirst(log[..n])
  {
    forall i | 0 <= i < n && log[..n][i].kind == OfflineLog ensures Has(log[..n][..i], BlockLog) {
      assert log[..n][..i] == log[..i];
    }
  }

  // In a phase that calls for an OFFLINE_LS log, a block log has been committed.
  lemma SubmitterSawBlock(log: seq<Entry>, n: Replica)
    requires ReplicaOk(log, n) && LeaderSubmits(n.meta.phase, OfflineLog)
    ensures Has(log, BlockLog)
  {
    HasGrows(log[..n.high], log, BlockLog);
  }

  lemma KeepApply(log: seq<Entry>, n: Replica)
    requires BlockFirst(log) && ReplicaOk(log, n) && n.applied < |log|
    ensures ReplicaOk(log, Applied(n, log[n.applied]))
  {
    var prefix, e := log[..n.high], log[n.applied];
    if n.applied < n.high {
      BlockFirstPrefix(log, n.high);
      assert prefix[n.applied] == e;
      ReplayIsIdempotent(prefix, n.applied, n.meta);
    } else {
      assert log[..n.high + 1] == prefix + [e];
      UpdateMeans(prefix, e, n.meta);
    }
  }

  lemma KeepCommit(s: State, e: Entry)
    requires Inv(s) && e in s.flying
    ensures Inv(Apply(s, Commit(e)))
  {
    var log' := s.log + [e];
    forall i | 0 <= i < |log'| && log'[i].kind == OfflineLog ensures Has(log'[..i], BlockLog) {
      assert log'[..i] == s.log[..i];
      assert i == |s.log| ==> s.log[..i] == s.log;
    }
    if Has(s.log, BlockLog) { HasGrows(s.log, log', BlockLog); }
    forall r | r in s.replicas ensures ReplicaOk(log', s.replicas[r]) {
      assert ReplicaOk(s.log, s.replicas[r]);
      assert log'[..s.replicas[r].high] == s.log[..s.replicas[r].high];
    }
  }

  lemma InvKept(s: State, e: Event)
    requires Inv(s) && Enabled(s, e)
    ensures Inv(Apply(s, e))
  {
    match e
    case Submit(r, entry) =>
      assert ReplicaOk(s.log, s.replicas[r]);
      if entry.kind == OfflineLog { SubmitterSawBlock(s.log, s.replicas[r]); }
    case Commit(entry) => KeepCommit(s, entry);
    case ApplyNext(r, ok) => KeepApply(s.log, s.replicas[r]);
    case Restart(r, _) => assert ReplicaOk(s.log, s.replicas[r]);
    case DecideWaitGc(r) => assert ReplicaOk(s.log, s.replicas[r]);
    case _ =>
  }

  lemma {:induction false} EveryStateKeepsInv(run: seq<State>, k: nat)
    requires IsRun(run) && k < |run|
    ensures Inv(run[k])
  {
    if k == 0 {
      forall r | r in run[0].replicas ensures ReplicaOk(run[0].log, run[0].replicas[r]) {}
    } else {
      EveryStateKeepsInv(run, k - 1);
      assert Steps(run[k - 1], run[k]);
      var e :| Enabled(run[k - 1], e) && run[k] == Apply(run[k - 1], e);
      InvKept(run[k - 1], e);
    }
  }

  // ---------------------------------------------------------------- theorems

  function UpToOffline(m: Meta): nat {
    if Rank(Offline) <= Rank(m.phase) then Rank(Offline) else Rank(m.phase)
  }

  /**
   Replicas that have applied the same prefix agree on the state up to LS_OFFLINE, whenever either of them was
   restarted, and on the offline scn: that of the first OFFLINE_LS log, as long as they are in LS_OFFLINE.
   */
  lemma ReplicasAgree(run: seq<State>, k: nat, a: nat, b: nat)
    requires IsRun(run) && k < |run| && a in run[k].replicas && b in run[k].replicas
    requires run[k].replicas[a].high == run[k].replicas[b].high
    ensures var m, m' := run[k].replicas[a].meta, run[k].replicas[b].meta;
            UpToOffline(m) == UpToOffline(m') && (m.phase == m'.phase ==> m == m')
  {
    EveryStateKeepsInv(run, k);
    var s := run[k];
    assert ReplicaOk(s.log, s.replicas[a]) && ReplicaOk(s.log, s.replicas[b]);
    if s.replicas[a].meta.phase == Offline && s.replicas[b].meta.phase == Offline {
      FirstOfflineIsUnique(s.log[..s.replicas[a].high], s.replicas[a].meta.offlineScn.value,
                           s.replicas[b].meta.offlineScn.value);
    }
  }

  /** In LS_OFFLINE the offline scn is that of the first OFFLINE_LS log ever committed, on every replica. */
  lemma OfflineScnIsFirst(run: seq<State>, k: nat, r: nat)
    requires IsRun(run) && k < |run| && r in run[k].replicas && run[k].replicas[r].meta.phase == Offline
    ensures run[k].replicas[r].meta.offlineScn.Some?
    ensures FirstOffline(run[k].log, run[k].replicas[r].meta.offlineScn.value) && Has(run[k].log, BlockLog)
  {
    EveryStateKeepsInv(run, k);
    var s := run[k];
    var n := s.replicas[r];
    assert ReplicaOk(s.log, n);
    FirstOfflineStays(s.log[..n.high], s.log, n.meta.offlineScn.value);
    var i :| 0 <= i < |s.log| && s.log[i].kind == OfflineLog;
    HasGrows(s.log[..i], s.log, BlockLog);
  }

  /** Once offline, a replica knows its offline scn exactly as long as WAIT_GC has not been written: that erases it. */
  lemma OfflineScnKnownIff(run: seq<State>, k: nat, r: nat)
    requires IsRun(run) && k < |run| && r in run[k].replicas
    ensures var m := run[k].replicas[r].meta;
            Rank(Offline) <= Rank(m.phase) ==> (m.offlineScn.Some? <==> m.phase != WaitGc)
  {
    EveryStateKeepsInv(run, k);
    assert ReplicaOk(run[k].log, run[k].replicas[r]);
  }

  /** A step never takes a replica's state back, and takes it to LS_OFFLINE only from LS_BLOCKED. */
  lemma StepsForward(run: seq<State>, k: nat, r: nat)
    requires IsRun(run) && k + 1 < |run| && r in run[k].replicas
    ensures r in run[k + 1].replicas
    ensures var m, m' := run[k].replicas[r].meta, run[k + 1].replicas[r].meta;
            && Rank(m.phase) <= Rank(m'.phase)
            && (m.phase != Offline && m'.phase == Offline ==> m.phase == Blocked)
            && (m.phase != WaitGc && m'.phase == WaitGc ==> m.phase == Offline)
  {
    hide BlockFirst, Has, Means, FirstOffline;
    EveryStateKeepsInv(run, k);
    assert Steps(run[k], run[k + 1]);
    var s := run[k];
    var e :| Enabled(s, e) && run[k + 1] == Apply(s, e);
    if e.ApplyNext? && e.r == r {
      OfflineFindsBlocked(s.log, s.replicas[r]);
    }
  }

  lemma OfflineFindsBlocked(log: seq<Entry>, n: Replica)
    requires BlockFirst(log) && ReplicaOk(log, n) && n.applied < |log|
    ensures Updated(n.meta, log[n.applied]).phase == Offline ==> n.meta.phase == Offline || n.meta.phase == Blocked
  {
    if log[n.applied].kind == OfflineLog {
      HasGrows(log[..n.applied], log[..n.high], BlockLog);
    }
  }

  /** Over a whole run, a replica's state never goes back. */
  lemma {:induction false} NeverGoesBack(run: seq<State>, i: nat, k: nat, r: nat)
    requires IsRun(run) && i <= k < |run| && r in run[i].replicas
    ensures r in run[k].replicas && Rank(run[i].replicas[r].meta.phase) <= Rank(run[k].replicas[r].meta.phase)
  {
    hide Steps;
    if i < k {
      NeverGoesBack(run, i, k - 1, r);
      StepsForward(run, k - 1, r);
    }
  }

  // ---------------------------------------------------------------- what may happen

  /** A replica submits a block log in Normal, an offline log in LS_BLOCKED, and neither past LS_OFFLINE. */
  lemma SubmitMayHappenIff(s: State, r: nat, e: Entry)
    requires s.replicas.Keys == {r} && s.replicas[r].meta.phase != WaitOffline && e !in s.flying
    ensures Steps(s, s.(flying := s.flying + {e})) <==>
              s.replicas[r].meta.phase == if e.kind == BlockLog then Normal else Blocked
  {
    if s.replicas[r].meta.phase == (if e.kind == BlockLog then Normal else Blocked) {
      assert Enabled(s, Submit(r, e));
    }
    if Steps(s, s.(flying := s.flying + {e})) {
      var event :| Enabled(s, event) && s.(flying := s.flying + {e}) == Apply(s, event);
      assert e in Apply(s, event).flying;
    }
  }

  /** A submitted log is committed or lost, a save fails and a replica restarts anywhere before, at any time. */
  lemma AnythingMayHappen(s: State, e: Entry, r: nat, from: nat)
    ensures e in s.flying ==>
              && Steps(s, s.(log := s.log + [e], flying := s.flying - {e}))
              && Steps(s, s.(flying := s.flying - {e}))
    ensures r in s.replicas && s.replicas[r].applied < |s.log| ==> Steps(s, s)
    ensures r in s.replicas && from <= s.replicas[r].applied ==>
              Steps(s, s.(replicas := s.replicas[r := s.replicas[r].(applied := from)]))
  {
    if e in s.flying { assert Enabled(s, Commit(e)) && Enabled(s, Lose(e)); }
    if r in s.replicas && s.replicas[r].applied < |s.log| { assert Enabled(s, ApplyNext(r, false)); }
    if r in s.replicas && from <= s.replicas[r].applied { assert Enabled(s, Restart(r, from)); }
  }

  // ---------------------------------------------------------------- everyone gets there

  // A run, with one more step.
  lemma Extend(run: seq<State>, e: Event)
    requires IsRun(run) && Enabled(run[|run| - 1], e)
    ensures IsRun(run + [Apply(run[|run| - 1], e)])
  {
    var run' := run + [Apply(run[|run| - 1], e)];
    forall i | 0 <= i < |run'| - 1 ensures Steps(run'[i], run'[i + 1]) {
      if i < |run| - 1 { assert Steps(run[i], run[i + 1]); }
    }
  }

  /** Every replica can apply all that is committed, whatever it has been through. */
  lemma {:induction false} CatchUp(run: seq<State>, r: nat) returns (run': seq<State>)
    requires IsRun(run) && r in run[|run| - 1].replicas
    ensures IsRun(run') && run <= run'
    ensures var s, t := run[|run| - 1], run'[|run'| - 1];
            && t.log == s.log && t.flying == s.flying && t.replicas.Keys == s.replicas.Keys
            && (forall q | q in s.replicas && q != r :: t.replicas[q] == s.replicas[q])
            && t.replicas[r].applied == t.replicas[r].high == |t.log|
    decreases |run[|run| - 1].log| - run[|run| - 1].replicas[r].applied
  {
    hide Means, BlockFirst, Has, Steps, Updated;
    var s := run[|run| - 1];
    EveryStateKeepsInv(run, |run| - 1);
    assert ReplicaOk(s.log, s.replicas[r]);
    if s.replicas[r].applied == |s.log| {
      run' := run;
    } else {
      Extend(run, ApplyNext(r, true));
      run' := CatchUp(run + [Apply(s, ApplyNext(r, true))], r);
    }
  }

  // A leader's log is submitted, committed and applied by the leader itself.
  lemma Leads(run: seq<State>, r: nat, e: Entry) returns (run': seq<State>)
    requires IsRun(run) && r in run[|run| - 1].replicas
    requires var n := run[|run| - 1].replicas[r];
             && n.applied == n.high == |run[|run| - 1].log|
             && (if e.kind == BlockLog then n.meta.phase == Normal else n.meta.phase == Blocked)
    ensures IsRun(run') && run <= run'
    ensures var s, t := run[|run| - 1], run'[|run'| - 1];
            && t.log == s.log + [e] && t.replicas.Keys == s.replicas.Keys
            && t.replicas[r].applied == t.replicas[r].high == |t.log|
            && t.replicas[r].meta == if e.kind == BlockLog then Meta(Blocked, None) else Meta(Offline, Some(e.scn))
  {
    var s := run[|run| - 1];
    Extend(run, Submit(r, e));
    var s1 := Apply(s, Submit(r, e));
    run' := run + [s1];
    Extend(run', Commit(e));
    var s2 := Apply(s1, Commit(e));
    run' := run' + [s2];
    Extend(run', ApplyNext(r, true));
    run' := run' + [Apply(s2, ApplyNext(r, true))];
  }

  /**
   From every state of every run, every replica, if it leads long enough, gets through LS_BLOCKED and LS_OFFLINE to
   WAIT_GC, logging what its state calls for and nothing else.
   */
  lemma EveryoneCanFinish(run: seq<State>, r: nat, block: int, offline: int) returns (run': seq<State>)
    requires IsRun(run) && r in run[|run| - 1].replicas
    ensures IsRun(run') && run <= run' && r in run'[|run'| - 1].replicas
    ensures var s, t := run[|run| - 1], run'[|run'| - 1];
            && t.replicas[r].meta == Meta(WaitGc, None)
            && t.log == s.log + (if Has(s.log, OfflineLog) then []
                                 else if Has(s.log, BlockLog) then [Entry(OfflineLog, offline)]
                                 else [Entry(BlockLog, block), Entry(OfflineLog, offline)])
  {
    var log := run[|run| - 1].log;
    run' := CatchUp(run, r);
    CaughtUpMeans(run', r);
    if run'[|run'| - 1].replicas[r].meta.phase == Normal {
      run' := Leads(run', r, Entry(BlockLog, block));
    }
    if run'[|run'| - 1].replicas[r].meta.phase == Blocked {
      run' := Leads(run', r, Entry(OfflineLog, offline));
    }
    if run'[|run'| - 1].replicas[r].meta.phase == Offline {
      Extend(run', DecideWaitGc(r));
      run' := run' + [Apply(run'[|run'| - 1], DecideWaitGc(r))];
    }
  }

  lemma CaughtUpMeans(run: seq<State>, r: nat)
    requires IsRun(run) && r in run[|run| - 1].replicas && run[|run| - 1].replicas[r].high == |run[|run| - 1].log|
    ensures Means(run[|run| - 1].log, run[|run| - 1].replicas[r].meta)
  {
    EveryStateKeepsInv(run, |run| - 1);
    var s := run[|run| - 1];
    assert ReplicaOk(s.log, s.replicas[r]) && s.log[..|s.log|] == s.log;
  }
}
