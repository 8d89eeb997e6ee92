/**
 What the sync check of a flashback is worth.  The replicas of a log stream are polled one after the other, and the
 logs are cut later still; in between, a log stream whose leader has stopped appending may still hand on logs to
 replicas that lag behind.
 */
module FlashbackSnapshot {
  import opened Options
  import opened Flashback

  /**
   From `from` on the log stream takes no new logs: its leaders hold the last one, nobody holds more, and replicas
   only catch up.
   */
  ghost predicate Frozen(w: World, ls: nat, last: int, from: nat) {
    && (forall t: nat, s: nat | from <= t :: var st := w.replica(t, ls, s); st.endScn <= st.maxScn <= last)
    && OnlyGrows(w, ls, from)
    && (forall t: nat, s: nat | from <= t && w.leads(t, ls, s) :: w.replica(t, ls, s).maxScn == last)
  }

  // Logs are never taken back.
  ghost predicate OnlyGrows(w: World, ls: nat, from: nat) {
    forall t: nat, t': nat, s: nat | from <= t <= t' :: Grows(w.replica(t, ls, s), w.replica(t', ls, s))
  }

  predicate Grows(st: Stat, st': Stat) {
    st.endScn <= st'.endScn && st.maxScn <= st'.maxScn
  }

  /** All replicas committed at one time, at or past scn, or all members committed short of it. */
  ghost predicate Snapshot(w: World, op: CheckOp, at: nat, scn: int) {
    || (forall s | s in op.members + op.learners ::
          var st := w.replica(at, op.ls, s); scn <= st.endScn == st.maxScn)
    || (forall s | s in op.members ::
          var st := w.replica(at, op.ls, s); st.endScn == st.maxScn < scn)
  }

  // The replicas that have to be there: if the log stream ends short of scn, its members.
  function Awaited(op: CheckOp, last: int, scn: int): seq<nat> {
    if op.members == [] || last < scn then op.members else op.members + op.learners
  }

  /** They have committed the whole log. */
  ghost predicate CaughtUp(w: World, op: CheckOp, at: nat, last: int, scn: int) {
    forall s | s in Awaited(op, last, scn) :: w.replica(at, op.ls, s).endScn == last
  }

  // ---------------------------------------------------------------- from one time on

  lemma CaughtUpLasts(w: World, op: CheckOp, from: nat, at: nat, at': nat, last: int, scn: int)
    requires Frozen(w, op.ls, last, from) && from <= at <= at' && CaughtUp(w, op, at, last, scn)
    ensures Snapshot(w, op, at', scn)
  {
    forall s | s in Awaited(op, last, scn)
      ensures w.replica(at', op.ls, s).endScn == w.replica(at', op.ls, s).maxScn == last
    {
      assert Grows(w.replica(at, op.ls, s), w.replica(at', op.ls, s));
    }
  }

  // Two worlds that nobody could tell apart before `to`.
  ghost predicate SameBefore(w: World, w': World, to: nat) {
    && (forall t: nat, ls: nat | t < to :: w.located(t, ls) == w'.located(t, ls))
    && (forall t: nat, ls: nat, s: nat | t < to ::
          && w.replica(t, ls, s) == w'.replica(t, ls, s)
          && w.answers(t, ls, s) == w'.answers(t, ls, s) && w.leads(t, ls, s) == w'.leads(t, ls, s))
  }

  // The same world until `to`, where all stand still but the server, which is handed the last log.
  ghost predicate HandedOn(w: World, w': World, server: nat, to: nat, last: int)
    requires 0 < to
  {
    && SameBefore(w, w', to)
    && (forall t: nat, ls: nat, s: nat | to <= t ::
          w'.replica(t, ls, s) == Handed(w.replica(to - 1, ls, s), s == server, last))
    && (forall t: nat, ls: nat, s: nat | to <= t && w'.leads(t, ls, s) :: w.leads(to - 1, ls, s))
  }

  function Handed(st: Stat, given: bool, last: int): Stat {
    if given then st.(maxScn := last) else st
  }

  lemma HandOn(w: World, server: nat, to: nat, last: int) returns (w': World)
    requires 0 < to
    ensures HandedOn(w, w', server, to, last)
  {
    var before := to - 1;
    w' := World(
      (t: nat, ls: nat, s: nat) =>
        if t < to then w.replica(t, ls, s) else Handed(w.replica(before, ls, s), s == server, last),
      w.answers,
      (t: nat, ls: nat, s: nat) => if t < to then w.leads(t, ls, s) else w.leads(before, ls, s),
      w.located, w.inbox);
  }

  lemma HandedOnGrows(w: World, w': World, ls: nat, server: nat, from: nat, to: nat, last: int,
                      t: nat, t': nat, s: nat)
    requires Frozen(w, ls, last, from) && from < to && HandedOn(w, w', server, to, last) && from <= t <= t'
    ensures Grows(w'.replica(t, ls, s), w'.replica(t', ls, s))
  {
    var u, u' := if t < to then t else to - 1, if t' < to then t' else to - 1;
    assert Grows(w.replica(u, ls, s), w.replica(u', ls, s));
    assert w.replica(u, ls, s).maxScn <= last;
  }

  lemma HandedOnIsBounded(w: World, w': World, ls: nat, server: nat, from: nat, to: nat, last: int, t: nat, s: nat)
    requires Frozen(w, ls, last, from) && from < to && HandedOn(w, w', server, to, last) && from <= t
    ensures var st := w'.replica(t, ls, s);
            st.endScn <= st.maxScn <= last && (w'.leads(t, ls, s) ==> st.maxScn == last)
  {
    var u := if t < to then t else to - 1;
    assert w.replica(u, ls, s).endScn <= w.replica(u, ls, s).maxScn <= last;
    assert w'.leads(t, ls, s) ==> w.leads(u, ls, s);
  }

  lemma HandedOnIsFrozen(w: World, w': World, ls: nat, server: nat, from: nat, to: nat, last: int)
    requires Frozen(w, ls, last, from) && from < to && HandedOn(w, w', server, to, last)
    ensures Frozen(w', ls, last, from)
  {
    hide HandedOn;
    forall t: nat, s: nat | from <= t
      ensures var st := w'.replica(t, ls, s); st.endScn <= st.maxScn <= last
      ensures w'.leads(t, ls, s) ==> w'.replica(t, ls, s).maxScn == last
    {
      HandedOnIsBounded(w, w', ls, server, from, to, last, t, s);
    }
    forall t: nat, t': nat, s: nat | from <= t <= t' ensures Grows(w'.replica(t, ls, s), w'.replica(t', ls, s)) {
      HandedOnGrows(w, w', ls, server, from, to, last, t, t', s);
    }
  }

  lemma CaughtUpIsSame(w: World, w': World, op: CheckOp, to: nat, last: int, scn: int)
    requires SameBefore(w, w', to) && 0 < to && CaughtUp(w, op, to - 1, last, scn)
    ensures CaughtUp(w', op, to - 1, last, scn)
  {
  }

  // One listed replica that is not committed, and one member not short of scn or not committed, are no snapshot.
  lemma NoSnapshot(w: World, op: CheckOp, at: nat, scn: int, server: nat, member: nat)
    requires server in op.members + op.learners && member in op.members
    requires w.replica(at, op.ls, server).endScn < w.replica(at, op.ls, server).maxScn
    requires member == server || scn <= w.replica(at, op.ls, member).maxScn
    ensures !Snapshot(w, op, at, scn)
  {
  }

  lemma BehindIsNoSnapshot(w: World, w': World, op: CheckOp, from: nat, to: nat, last: int, scn: int,
                           server: nat, member: nat)
    requires Frozen(w, op.ls, last, from) && from < to && HandedOn(w, w', server, to, last)
    requires server in op.members + op.learners && w.replica(to - 1, op.ls, server).endScn != last
    requires member in op.members
    requires member == server || (scn <= last && w.replica(to - 1, op.ls, member).endScn == last)
    ensures !Snapshot(w', op, to, scn)
  {
    assert w.replica(to - 1, op.ls, server).endScn < last && w.replica(to - 1, op.ls, member).maxScn <= last;
    NoSnapshot(w', op, to, scn, server, member);
  }

  // A member that is behind, or else a learner.
  lemma SomeoneIsBehind(w: World, op: CheckOp, from: nat, to: nat, last: int, scn: int) returns (w': World)
    requires Frozen(w, op.ls, last, from) && from < to && !CaughtUp(w, op, to - 1, last, scn)
    ensures Frozen(w', op.ls, last, from) && SameBefore(w, w', to) && !Snapshot(w', op, to, scn)
  {
    hide Frozen, SameBefore, Snapshot;
    var server, member;
    if s :| s in op.members && w.replica(to - 1, op.ls, s).endScn != last {
      server, member := s, s;
    } else {
      server :| server in Awaited(op, last, scn) && w.replica(to - 1, op.ls, server).endScn != last;
      member := op.members[0];
      assert member in op.members;
    }
    w' := HandOn(w, server, to, last);
    HandedOnIsFrozen(w, w', op.ls, server, from, to, last);
    BehindIsNoSnapshot(w, w', op, from, to, last, scn, server, member);
  }

  /**
   In a log stream that takes no new logs, a snapshot lasts, whatever is still handed on, exactly if the replicas it
   is about have committed the whole log.
   */
  lemma LastsIff(w: World, op: CheckOp, from: nat, to: nat, last: int, scn: int)
    requires Frozen(w, op.ls, last, from) && from < to
    ensures (forall w': World, at: nat | SameBefore(w, w', to) && Frozen(w', op.ls, last, from) && to <= at ::
               Snapshot(w', op, at, scn))
            <==> CaughtUp(w, op, to - 1, last, scn)
  {
    hide Frozen, SameBefore, Snapshot, CaughtUp;
    if CaughtUp(w, op, to - 1, last, scn) {
      forall w': World, at: nat | SameBefore(w, w', to) && Frozen(w', op.ls, last, from) && to <= at
        ensures Snapshot(w', op, at, scn)
      {
        CaughtUpIsSame(w, w', op, to, last, scn);
        CaughtUpLasts(w', op, from, to - 1, at, last, scn);
      }
    } else {
      var w' := SomeoneIsBehind(w, op, from, to, last, scn);
    }
  }

  // ---------------------------------------------------------------- what the coordinator can know

  lemma {:induction false} PollIsLocal(w: World, w': World, now: nat, ls: nat, list: seq<nat>, n: nat,
                                       synced: set<nat>, scn: int, to: nat)
    requires n <= |list| && PollTo(w, now, ls, list, n, synced, scn).now <= to && SameBefore(w, w', to)
    ensures PollTo(w', now, ls, list, n, synced, scn) == PollTo(w, now, ls, list, n, synced, scn)
  {
    if n > 0 {
      PollIsLocal(w, w', now, ls, list, n - 1, synced, scn, to);
    }
  }

  lemma PollAllIsLocal(w: World, w': World, now: nat, op: CheckOp, scn: int, to: nat)
    requires PollAll(w, now, op, scn).now <= to && SameBefore(w, w', to)
    ensures PollAll(w', now, op, scn) == PollAll(w, now, op, scn)
  {
    var m := PollTo(w, now, op.ls, op.members, |op.members|, op.syncedMembers, scn);
    PollIsLocal(w, w', m.now, op.ls, op.learners, |op.learners|, op.syncedLearners, scn, to);
    PollIsLocal(w, w', now, op.ls, op.members, |op.members|, op.syncedMembers, scn, to);
  }

  lemma StepIsLocal(w: World, w': World, now: nat, op: CheckOp, scn: int, to: nat)
    requires SyncStep(w, now, op, scn).now <= to && SameBefore(w, w', to)
    ensures SyncStep(w', now, op, scn) == SyncStep(w, now, op, scn)
  {
    hide PollAll;
    var leader, at := Leader(w, now, op.ls, op.leader), TimeAfter(now, op.leader);
    var found := op.(leader := leader);
    if leader.Some? {
      if op.hasList {
        PollAllIsLocal(w, w', at, found, scn, to);
      } else {
        var st := Ask(w, at, op.ls, leader.value);
        if st.Some? && st.value.mode != FlashbackMode {
          PollAllIsLocal(w, w', at + 1,
                         found.(hasList := true, members := st.value.members, learners := st.value.learners), scn, to);
        }
      }
    }
  }

  lemma {:induction false} PassIsLocal(w: World, w': World, now: nat, ops: seq<CheckOp>, n: nat, scn: int, to: nat)
    requires n <= |ops| && SyncPass(w, now, ops, n, scn).now <= to && SameBefore(w, w', to)
    ensures SyncPass(w', now, ops, n, scn) == SyncPass(w, now, ops, n, scn)
  {
    hide SyncStep, SameBefore;
    if n > 0 {
      var p := SyncPass(w, now, ops, n - 1, scn);
      StepIsLocal(w, w', p.now, p.ops[n - 1], scn, to);
      PassIsLocal(w, w', now, ops, n - 1, scn, to);
    }
  }

  /** The sync check does the same in worlds that are the same until it ends. */
  lemma {:induction false} WaitIsLocal(w: World, w': World, now: nat, ops: seq<CheckOp>, scn: int, deadline: nat,
                                       to: nat)
    requires Wait(w, now, ops, scn, deadline).now <= to && SameBefore(w, w', to)
    ensures Wait(w', now, ops, scn, deadline) == Wait(w, now, ops, scn, deadline)
    decreases deadline - now
  {
    hide SyncPass, SameBefore;
    if now < deadline {
      var p := SyncPass(w, now, ops, |ops|, scn);
      PassIsLocal(w, w', now, ops, |ops|, scn, to);
      if !p.ok {
        WaitIsLocal(w, w', p.now + 1, p.ops, scn, deadline, to);
      }
    }
  }

  /**
   When the sync check has succeeded, a log stream that takes no new logs is and stays a snapshot in every world that
   looks the same to the coordinator exactly if the replicas had committed the whole log by then.
   */
  lemma CheckIsSafeIff(w: World, now: nat, streams: seq<nat>, scn: int, deadline: nat, j: nat, last: int)
    requires Wait(w, now, NewChecks(streams), scn, deadline).ok
    requires j < |streams| && Frozen(w, streams[j], last, now)
    ensures var done := Wait(w, now, NewChecks(streams), scn, deadline);
            && (forall w': World | SameBefore(w, w', done.now) ::
                  Wait(w', now, NewChecks(streams), scn, deadline) == done)
            && ((forall w': World, at: nat |
                   SameBefore(w, w', done.now) && Frozen(w', streams[j], last, now) && done.now <= at ::
                   Snapshot(w', done.ops[j], at, scn))
                <==> CaughtUp(w, done.ops[j], done.now - 1, last, scn))
  {
    hide Wait, Frozen, Snapshot, CaughtUp, SameBefore;
    var done := Wait(w, now, NewChecks(streams), scn, deadline);
    LastsIff(w, done.ops[j], now, done.now, last, scn);
    forall w': World | SameBefore(w, w', done.now)
      ensures Wait(w', now, NewChecks(streams), scn, deadline) == done
    {
      WaitIsLocal(w, w', now, NewChecks(streams), scn, deadline, done.now);
    }
  }

  // ---------------------------------------------------------------- the two ways to pass

  /** If logs are never taken back, replicas seen in sync stay at or past scn, whatever the log stream still takes. */
  lemma SyncedStaySynced(w: World, ls: nat, servers: seq<nat>, from: nat, to: nat, scn: int, at: nat)
    requires AllSynced(w, ls, servers, from, to, scn) && OnlyGrows(w, ls, from) && to <= at
    ensures forall s | s in servers :: scn <= w.replica(at, ls, s).endScn
    ensures (forall s: nat :: w.replica(at, ls, s).endScn <= w.replica(at, ls, s).maxScn <= scn) ==>
              forall s | s in servers :: w.replica(at, ls, s).endScn == w.replica(at, ls, s).maxScn == scn
  {
    forall s | s in servers ensures scn <= w.replica(at, ls, s).endScn {
      assert SeenSynced(w, ls, s, from, to, scn);
      var t: nat :| from <= t < to && IsSynced(w.replica(t, ls, s), scn);
      assert Grows(w.replica(t, ls, s), w.replica(at, ls, s));
    }
  }

  /** Replicas all seen in sync have the whole log, if the log stream does not go past scn. */
  lemma SyncedIsCaughtUp(w: World, op: CheckOp, from: nat, to: nat, last: int, scn: int)
    requires AllSynced(w, op.ls, op.members, from, to, scn) && AllSynced(w, op.ls, op.learners, from, to, scn)
    requires Frozen(w, op.ls, last, from) && from < to && last <= scn
    ensures CaughtUp(w, op, to - 1, last, scn)
  {
    forall s | s in Awaited(op, last, scn) ensures w.replica(to - 1, op.ls, s).endScn == last {
      assert s in op.members || s in op.learners;
      assert SeenSynced(w, op.ls, s, from, to, scn);
      var t: nat :| from <= t < to && IsSynced(w.replica(t, op.ls, s), scn);
      assert Grows(w.replica(t, op.ls, s), w.replica(to - 1, op.ls, s));
    }
  }

  /**
   At every flashback message a log stream that takes no new logs and does not go past scn is a snapshot, unless it
   passed as short of scn with a replica that lagged behind.
   */
  lemma MessagesFindSnapshot(w: World, log: seq<Event>, streams: seq<nat>, scn: int, p: nat, q: nat, r: nat,
                             checks: seq<CheckOp>, from: nat, to: nat, j: nat, k: nat, last: int)
    requires Staged(w, log, streams, scn, p, q, r, checks, from, to) && p <= k < |log| && log[k].Sent?
    requires j < |streams| && Frozen(w, streams[j], last, from) && !AlreadyFlashedBack(log[..r], q, streams[j])
    ensures CaughtUp(w, checks[j], to - 1, last, scn) ==> Snapshot(w, checks[j], log[k].at, scn)
    ensures last <= scn && !CaughtUp(w, checks[j], to - 1, last, scn) ==>
              AllShort(w, streams[j], checks[j].members, from, to, scn)
  {
    var op := checks[j];
    assert Checked(w, log[..r], q, op, from, to, scn);
    if CaughtUp(w, op, to - 1, last, scn) {
      CaughtUpLasts(w, op, from, to - 1, log[k].at, last, scn);
    } else if last <= scn && AllSynced(w, op.ls, op.members, from, to, scn) &&
              AllSynced(w, op.ls, op.learners, from, to, scn) {
      SyncedIsCaughtUp(w, op, from, to, last, scn);
    }
  }

  // ---------------------------------------------------------------- a check that succeeds too early

  // Log stream 1 ends at 4, where its leader 7 is.  The other member has committed 3 when it is polled, at tick 3, and
  // is handed log 4 afterwards.
  function LaggingReplica(t: nat, s: nat): Stat {
    if s == 7 then Stat(PrepareFlashback, 1, 4, 4, [7, 8], [])
    else Stat(PrepareFlashback, 1, 3, if t <= 3 then 3 else 4, [7, 8], [])
  }

  function Lagging(): World {
    World((t: nat, ls: nat, s: nat) => LaggingReplica(t, s), (t: nat, ls: nat, s: nat) => true,
          (t: nat, ls: nat, s: nat) => s == 7, (t: nat, ls: nat) => Some(7), (t: nat) => [])
  }

  lemma LaggingIsFrozen()
    ensures Frozen(Lagging(), 1, 4, 0)
  {
  }

  lemma LaggingPolls(scn: int)
    requires scn != 4
    ensures var w, m := Lagging(), [7, 8];
            var p := PollTo(w, 2, 1, m, 2, {}, scn);
            p.now == 4 && !p.failed && (if scn < 4 then p.allSynced else p.short == 2)
  {
    var w, m := Lagging(), [7, 8];
    assert PollTo(w, 2, 1, m, 0, {}, scn) == Poll(2, {}, 0, false, true);
    assert PollTo(w, 2, 1, m, 1, {}, scn) ==
           if scn < 4 then Poll(3, {7}, 0, false, true) else Poll(3, {}, 1, false, false);
  }

  lemma LaggingSucceeds(scn: int)
    requires scn != 4
    ensures var done := Wait(Lagging(), 0, NewChecks([1]), scn, 1);
            done.ok && done.now == 5 && done.ops[0].ls == 1 && done.ops[0].members == [7, 8]
  {
    var w, ops := Lagging(), NewChecks([1]);
    LaggingPolls(scn);
    assert SyncStep(w, 0, ops[0], scn).ok && SyncStep(w, 0, ops[0], scn).now == 4;
    assert SyncPass(w, 0, ops, 0, scn) == Pass(ops, 0, true);
  }

  /**
   A check that succeeds on a log stream that takes no new logs and then is no snapshot: short of scn, if that is past
   the end of the log stream, or in sync with it, if that is before the end.
   */
  method CheckSucceedsTooEarly(scn: int) returns (ret: Ret, now: nat, op: CheckOp)
    requires scn != 4
    ensures ret.Success? && Frozen(Lagging(), 1, 4, 0) && !Snapshot(Lagging(), op, now, scn)
  {
    var service := new LogFlashbackService(Lagging());
    var ops;
    ret, ops := service.WaitAllReplicasLogSync([1], scn, 1);
    LaggingSucceeds(scn);
    LaggingIsFrozen();
    now, op := service.now, ops[0];
    assert 8 in op.members;
    NoSnapshot(Lagging(), op, now, scn, 8, 8);
  }
}
