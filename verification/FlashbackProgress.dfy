/**
 That a flashback ends.  The cluster may do anything for a while; if it settles down in the end, every stage gets
 through, and so does the flashback as a whole, for every deadline that is late enough.
 */
module FlashbackProgress {
  import opened Options
  import opened Flashback

  // What the log streams settle down to.
  datatype Plan = Plan(
    lead: nat -> nat, members: nat -> seq<nat>, learners: nat -> seq<nat>, version: nat -> int)

  /** Whoever leads the log stream names the same replicas and, in FLASHBACK, the same mode version. */
  ghost predicate Consistent(w: World, plan: Plan, ls: nat) {
    && (forall t: nat, s: nat | w.leads(t, ls, s) ::
          var st := w.replica(t, ls, s);
          && st.members == plan.members(ls) && st.learners == plan.learners(ls)
          && (st.mode == FlashbackMode ==> st.version == plan.version(ls)))
    && forall s | s in plan.members(ls) :: s !in plan.learners(ls)
  }

  /** From `calm` on it has one leader, which is located, answers and is in FLASHBACK. */
  ghost predicate Led(w: World, plan: Plan, ls: nat, calm: nat) {
    forall t: nat | calm <= t ::
      && w.located(t, ls) == Some(plan.lead(ls)) && w.answers(t, ls, plan.lead(ls))
      && w.replica(t, ls, plan.lead(ls)).mode == FlashbackMode
      && forall s: nat :: w.leads(t, ls, s) <==> s == plan.lead(ls)
  }

  /** From `calm` on its replicas answer, have committed all they have, and have reached scn. */
  ghost predicate InSync(w: World, plan: Plan, ls: nat, scn: int, calm: nat) {
    forall t: nat, s: nat | calm <= t && (s in plan.members(ls) || s in plan.learners(ls)) ::
      var st := w.replica(t, ls, s); w.answers(t, ls, s) && st.maxScn <= st.endScn && scn <= st.endScn
  }

  /** From `calm` on their replies can be found in the inbox. */
  ghost predicate Replies(w: World, plan: Plan, ls: nat, calm: nat) {
    forall t: nat, s: nat | calm <= t && (s in plan.members(ls) || s in plan.learners(ls)) ::
      Msg(ls, plan.version(ls), s) in w.inbox(t)
  }

  ghost predicate Settles(w: World, plan: Plan, streams: seq<nat>, scn: int, calm: nat) {
    && (forall i, j | 0 <= i < j < |streams| :: streams[i] != streams[j])
    && forall ls | ls in streams ::
         && Consistent(w, plan, ls) && Led(w, plan, ls, calm)
         && InSync(w, plan, ls, scn, calm) && Replies(w, plan, ls, calm)
  }

  // ---------------------------------------------------------------- modes

  predicate Knows(leader: Option<nat>, plan: Plan, ls: nat) {
    leader.None? || leader.value == plan.lead(ls)
  }

  // In a step that starts late enough.
  lemma ChangeStepLate(w: World, plan: Plan, op: ChangeOp, now: nat, calm: nat)
    requires Led(w, plan, op.ls, calm) && calm <= now
    ensures Knows(ChangeStep(w, now, op).op.leader, plan, op.ls)
    ensures Knows(op.leader, plan, op.ls) ==> ChangeStep(w, now, op).ok
  {
    assert w.located(now, op.ls) == Some(plan.lead(op.ls));
    assert w.answers(TimeAfter(now, op.leader), op.ls, plan.lead(op.ls));
  }

  lemma {:induction false} ChangePassLate(w: World, plan: Plan, now: nat, ops: seq<ChangeOp>, n: nat, calm: nat)
    requires n <= |ops| && calm <= now && forall j | 0 <= j < |ops| :: Led(w, plan, ops[j].ls, calm)
    ensures var p := ChangePass(w, now, ops, n);
            && (forall j | 0 <= j < |ops| :: p.ops[j].ls == ops[j].ls && p.ops[j].dst == ops[j].dst)
            && (forall j | n <= j < |ops| :: p.ops[j] == ops[j])
            && (forall j | 0 <= j < n :: Knows(p.ops[j].leader, plan, ops[j].ls))
            && ((forall j | 0 <= j < |ops| :: Knows(ops[j].leader, plan, ops[j].ls)) ==> p.ok)
  {
    if 0 < n {
      ChangePassLate(w, plan, now, ops, n - 1, calm);
      var p := ChangePass(w, now, ops, n - 1);
      ChangeStepLate(w, plan, p.ops[n - 1], p.now, calm);
    }
  }

  lemma {:induction false} ChangePassKeeps(w: World, now: nat, ops: seq<ChangeOp>, n: nat)
    requires n <= |ops|
    ensures var p := ChangePass(w, now, ops, n);
            forall j | 0 <= j < |ops| :: p.ops[j].ls == ops[j].ls && p.ops[j].dst == ops[j].dst
  {
    if 0 < n { ChangePassKeeps(w, now, ops, n - 1); }
  }

  function Until(now: nat, calm: nat): nat {
    if now < calm then calm - now else 0
  }

  /** The change of modes gets through, and from some deadline on it does not matter how late that is. */
  lemma {:induction false} ModesChange(w: World, plan: Plan, now: nat, ops: seq<ChangeOp>, calm: nat, known: bool)
    returns (late: nat, done: ModePass)
    requires forall j | 0 <= j < |ops| :: Led(w, plan, ops[j].ls, calm)
    requires known ==> forall j | 0 <= j < |ops| :: Knows(ops[j].leader, plan, ops[j].ls)
    ensures done.ok && |done.ops| == |ops| && forall j | 0 <= j < |ops| :: done.ops[j].ls == ops[j].ls
    ensures forall deadline: nat | late <= deadline :: ChangeModes(w, now, ops, deadline) == done
    decreases Until(now, calm), !known
  {
    var p := ChangePass(w, now, ops, |ops|);
    ChangePassKeeps(w, now, ops, |ops|);
    if p.ok {
      late, done := now + 1, p.(now := p.now + 1);
    } else {
      if calm <= now { ChangePassLate(w, plan, now, ops, |ops|, calm); }
      late, done := ModesChange(w, plan, p.now + 1, p.ops, calm, calm <= now);
      late := late + now + 1;
    }
  }

  // ---------------------------------------------------------------- replicas in sync

  ghost predicate CheckFits(plan: Plan, op: CheckOp) {
    op.hasList ==> op.members == plan.members(op.ls) && op.learners == plan.learners(op.ls)
  }

  // The operator needs no leader, or has the right one.
  predicate CheckKnows(plan: Plan, op: CheckOp) {
    op.hasList || Knows(op.leader, plan, op.ls)
  }

  lemma {:induction false} PollLate(w: World, now: nat, ls: nat, list: seq<nat>, n: nat, synced: set<nat>, scn: int)
    requires n <= |list|
    requires forall t: nat, s: nat | now <= t && s in list ::
               var st := w.replica(t, ls, s); w.answers(t, ls, s) && st.maxScn <= st.endScn && scn <= st.endScn
    ensures var p := PollTo(w, now, ls, list, n, synced, scn); p.allSynced && !p.failed
  {
    if 0 < n {
      PollLate(w, now, ls, list, n - 1, synced, scn);
      assert list[n - 1] in list;
    }
  }

  lemma SyncStepFits(w: World, plan: Plan, now: nat, op: CheckOp, scn: int)
    requires Consistent(w, plan, op.ls) && CheckFits(plan, op)
    ensures CheckFits(plan, SyncStep(w, now, op, scn).op)
  {
  }

  lemma PollAllLate(w: World, plan: Plan, now: nat, op: CheckOp, scn: int, calm: nat)
    requires InSync(w, plan, op.ls, scn, calm) && calm <= now
    requires op.members == plan.members(op.ls) && op.learners == plan.learners(op.ls)
    ensures PollAll(w, now, op, scn).ok && PollAll(w, now, op, scn).op.hasList
  {
    var m := PollTo(w, now, op.ls, op.members, |op.members|, op.syncedMembers, scn);
    PollLate(w, now, op.ls, op.members, |op.members|, op.syncedMembers, scn);
    PollLate(w, m.now, op.ls, op.learners, |op.learners|, op.syncedLearners, scn);
  }

  lemma SyncStepLate(w: World, plan: Plan, now: nat, op: CheckOp, scn: int, calm: nat)
    requires Led(w, plan, op.ls, calm) && InSync(w, plan, op.ls, scn, calm) && CheckFits(plan, op) && calm <= now
    ensures CheckKnows(plan, SyncStep(w, now, op, scn).op)
    ensures CheckKnows(plan, op) ==> SyncStep(w, now, op, scn).ok
  {
    hide PollAll;
    assert w.located(now, op.ls) == Some(plan.lead(op.ls));
    assert w.answers(TimeAfter(now, op.leader), op.ls, plan.lead(op.ls));
    if op.hasList {
      PollAllLate(w, plan, TimeAfter(now, op.leader), op.(leader := Leader(w, now, op.ls, op.leader)), scn, calm);
    }
  }

  lemma {:induction false} SyncPassFits(w: World, plan: Plan, now: nat, ops: seq<CheckOp>, n: nat, scn: int)
    requires n <= |ops| && forall j | 0 <= j < |ops| :: Consistent(w, plan, ops[j].ls) && CheckFits(plan, ops[j])
    ensures forall j | 0 <= j < |ops| :: CheckFits(plan, SyncPass(w, now, ops, n, scn).ops[j])
    ensures forall j | n <= j < |ops| :: SyncPass(w, now, ops, n, scn).ops[j] == ops[j]
  {
    hide SyncStep, Consistent;
    if 0 < n {
      SyncPassFits(w, plan, now, ops, n - 1, scn);
      var p := SyncPass(w, now, ops, n - 1, scn);
      SyncStepFits(w, plan, p.now, p.ops[n - 1], scn);
    }
  }

  lemma {:induction false} SyncPassLate(w: World, plan: Plan, now: nat, ops: seq<CheckOp>, n: nat, scn: int, calm: nat)
    requires n <= |ops| && calm <= now
    requires forall j | 0 <= j < |ops| :: Consistent(w, plan, ops[j].ls) && CheckFits(plan, ops[j])
    requires forall j | 0 <= j < |ops| :: Led(w, plan, ops[j].ls, calm) && InSync(w, plan, ops[j].ls, scn, calm)
    ensures forall j | 0 <= j < n :: CheckKnows(plan, SyncPass(w, now, ops, n, scn).ops[j])
    ensures (forall j | 0 <= j < |ops| :: CheckKnows(plan, ops[j])) ==> SyncPass(w, now, ops, n, scn).ok
  {
    hide SyncStep, Consistent, Led, InSync;
    if 0 < n {
      SyncPassLate(w, plan, now, ops, n - 1, scn, calm);
      SyncPassFits(w, plan, now, ops, n - 1, scn);
      var p := SyncPass(w, now, ops, n - 1, scn);
      SyncStepLate(w, plan, p.now, p.ops[n - 1], scn, calm);
    }
  }

  /** The sync check gets through. */
  lemma {:induction false} ReplicasSync(w: World, plan: Plan, now: nat, ops: seq<CheckOp>, scn: int, calm: nat,
                                        known: bool) returns (late: nat, done: Pass)
    requires forall j | 0 <= j < |ops| :: Consistent(w, plan, ops[j].ls) && CheckFits(plan, ops[j])
    requires forall j | 0 <= j < |ops| :: Led(w, plan, ops[j].ls, calm) && InSync(w, plan, ops[j].ls, scn, calm)
    requires known ==> forall j | 0 <= j < |ops| :: CheckKnows(plan, ops[j])
    ensures done.ok && forall deadline: nat | late <= deadline :: Wait(w, now, ops, scn, deadline) == done
    decreases Until(now, calm), !known
  {
    hide SyncPass, Consistent, Led, InSync;
    var p := SyncPass(w, now, ops, |ops|, scn);
    SyncPassFits(w, plan, now, ops, |ops|, scn);
    if p.ok {
      late, done := now + 1, p.(now := p.now + 1);
    } else {
      if calm <= now { SyncPassLate(w, plan, now, ops, |ops|, scn, calm); }
      assert forall j | 0 <= j < |ops| :: p.ops[j].ls == ops[j].ls;
      late, done := ReplicasSync(w, plan, p.now + 1, p.ops, scn, calm, calm <= now);
      late := late + now + 1;
    }
  }

  // ---------------------------------------------------------------- replies

  ghost predicate ExecFits(plan: Plan, op: ExecOp) {
    && op.version == plan.version(op.ls)
    && (op.hasList ==> op.members == plan.members(op.ls) && op.learners == plan.learners(op.ls))
  }

  // How many steps an operator is away from knowing its replicas.
  function Rank(plan: Plan, op: ExecOp): nat {
    if op.hasList then 0 else if Knows(op.leader, plan, op.ls) then 1 else 2
  }

  // Replies only add to what is done.
  predicate Adds(op: ExecOp, op': ExecOp) {
    && op' == op.(doneMembers := op'.doneMembers, doneLearners := op'.doneLearners)
    && op.doneMembers <= op'.doneMembers && op.doneLearners <= op'.doneLearners
  }

  lemma {:induction false} HeardAdds(ops: seq<ExecOp>, inbox: seq<Msg>, n: nat)
    requires n <= |inbox|
    ensures forall j | 0 <= j < |ops| :: Adds(ops[j], Heard(ops, inbox, n)[j])
  {
    if 0 < n { HeardAdds(ops, inbox, n - 1); }
  }

  ghost predicate Apart(ops: seq<ExecOp>) {
    forall i, j | 0 <= i < j < |ops| :: ops[i].ls != ops[j].ls
  }

  ghost predicate Counted(op: ExecOp, src: nat) {
    && (src in op.members ==> src in op.doneMembers)
    && (src !in op.members && src in op.learners ==> src in op.doneLearners)
  }

  lemma {:induction false} ReplyCounts(ops: seq<ExecOp>, inbox: seq<Msg>, n: nat, k: nat, i: nat)
    requires k < n <= |inbox| && i < |ops| && Apart(ops) && ops[i].hasList
    requires inbox[k].ls == ops[i].ls && inbox[k].version == ops[i].version
    ensures Counted(Heard(ops, inbox, n)[i], inbox[k].src)
  {
    HeardAdds(ops, inbox, n - 1);
    var before := Heard(ops, inbox, n - 1);
    assert Adds(ops[i], before[i]);
    if k == n - 1 {
      assert forall j | 0 <= j < i :: Adds(ops[j], before[j]);
      assert FirstMatch(before, inbox[k], 0) == i;
    } else {
      ReplyCounts(ops, inbox, n - 1, k, i);
    }
  }

  lemma AllReplied(w: World, plan: Plan, now: nat, ops: seq<ExecOp>, i: nat, calm: nat)
    requires calm <= now && i < |ops| && Apart(ops) && ops[i].hasList && ExecFits(plan, ops[i])
    requires Replies(w, plan, ops[i].ls, calm) && Consistent(w, plan, ops[i].ls)
    ensures var op := Heard(ops, w.inbox(now), |w.inbox(now)|)[i];
            && (forall s | s in op.members :: s in op.doneMembers)
            && (forall s | s in op.learners :: s in op.doneLearners)
  {
    var inbox := w.inbox(now);
    HeardAdds(ops, inbox, |inbox|);
    assert Adds(ops[i], Heard(ops, inbox, |inbox|)[i]);
    forall s | s in ops[i].members || s in ops[i].learners ensures Counted(Heard(ops, inbox, |inbox|)[i], s) {
      assert Msg(ops[i].ls, plan.version(ops[i].ls), s) in inbox;
      var k :| 0 <= k < |inbox| && inbox[k] == Msg(ops[i].ls, plan.version(ops[i].ls), s);
      ReplyCounts(ops, inbox, |inbox|, k, i);
    }
  }

  lemma ExecStepFits(w: World, plan: Plan, now: nat, op: ExecOp)
    requires Consistent(w, plan, op.ls) && ExecFits(plan, op)
    ensures ExecFits(plan, ExecStep(w, now, op).op) && ExecStep(w, now, op).op.ls == op.ls
  {
  }

  lemma ExecStepLate(w: World, plan: Plan, now: nat, op: ExecOp, calm: nat)
    requires Led(w, plan, op.ls, calm) && calm <= now
    ensures var r := Rank(plan, op); Rank(plan, ExecStep(w, now, op).op) <= if r == 0 then 0 else r - 1
    ensures && op.hasList
            && (forall s | s in op.members :: s in op.doneMembers)
            && (forall s | s in op.learners :: s in op.doneLearners)
            ==> ExecStep(w, now, op).ok
  {
    assert w.located(now, op.ls) == Some(plan.lead(op.ls));
    assert w.answers(TimeAfter(now, op.leader), op.ls, plan.lead(op.ls));
  }

  ghost predicate ExecsFit(w: World, plan: Plan, ops: seq<ExecOp>) {
    Apart(ops) && forall j | 0 <= j < |ops| :: Consistent(w, plan, ops[j].ls) && ExecFits(plan, ops[j])
  }

  lemma HeardFits(w: World, plan: Plan, ops: seq<ExecOp>, inbox: seq<Msg>)
    requires ExecsFit(w, plan, ops)
    ensures var heard := Heard(ops, inbox, |inbox|);
            && ExecsFit(w, plan, heard)
            && forall j | 0 <= j < |ops| :: heard[j].ls == ops[j].ls && Rank(plan, heard[j]) == Rank(plan, ops[j])
  {
    hide Consistent;
    HeardAdds(ops, inbox, |inbox|);
    assert forall j | 0 <= j < |ops| :: Adds(ops[j], Heard(ops, inbox, |inbox|)[j]);
  }

  lemma {:induction false} ExecPassFits(w: World, plan: Plan, now: nat, ops: seq<ExecOp>, n: nat)
    requires n <= |ops| && ExecsFit(w, plan, ops)
    ensures ExecsFit(w, plan, ExecPass(w, now, ops, n).ops)
    ensures forall j | 0 <= j < |ops| :: ExecPass(w, now, ops, n).ops[j].ls == ops[j].ls
    ensures forall j | n <= j < |ops| :: Rank(plan, ExecPass(w, now, ops, n).ops[j]) == Rank(plan, ops[j])
  {
    hide ExecStep, Consistent, Rank, Heard;
    if 0 < n {
      ExecPassFits(w, plan, now, ops, n - 1);
      var p := ExecPass(w, now, ops, n - 1);
      HeardFits(w, plan, p.ops, w.inbox(p.now));
      var heard := Heard(p.ops, w.inbox(p.now), |w.inbox(p.now)|);
      ExecStepFits(w, plan, p.now, heard[n - 1]);
    }
  }

  ghost predicate Answering(w: World, plan: Plan, ops: seq<ExecOp>, calm: nat) {
    forall j | 0 <= j < |ops| :: Led(w, plan, ops[j].ls, calm) && Replies(w, plan, ops[j].ls, calm)
  }

  // One operator of a late pass.
  lemma ExecTurnLate(w: World, plan: Plan, now: nat, ops: seq<ExecOp>, i: nat, calm: nat)
    requires i < |ops| && calm <= now && ExecsFit(w, plan, ops) && Answering(w, plan, ops, calm)
    ensures var heard := Heard(ops, w.inbox(now), |w.inbox(now)|);
            var s, r := ExecStep(w, now, heard[i]), Rank(plan, ops[i]);
            Rank(plan, s.op) <= (if r == 0 then 0 else r - 1) && (r == 0 ==> s.ok)
  {
    hide Consistent, Led, Replies, ExecStep;
    HeardFits(w, plan, ops, w.inbox(now));
    var heard := Heard(ops, w.inbox(now), |w.inbox(now)|);
    ExecStepLate(w, plan, now, heard[i], calm);
    if Rank(plan, ops[i]) == 0 { AllReplied(w, plan, now, ops, i, calm); }
  }

  lemma {:induction false} ExecPassLate(w: World, plan: Plan, now: nat, ops: seq<ExecOp>, n: nat, calm: nat, rank: nat)
    requires n <= |ops| && calm <= now && ExecsFit(w, plan, ops) && Answering(w, plan, ops, calm)
    requires forall j | 0 <= j < |ops| :: Rank(plan, ops[j]) <= rank
    ensures forall j | 0 <= j < n :: Rank(plan, ExecPass(w, now, ops, n).ops[j]) <= if rank == 0 then 0 else rank - 1
    ensures rank == 0 ==> ExecPass(w, now, ops, n).ok
  {
    hide Consistent, Led, Replies, ExecStep, Rank, Heard;
    if 0 < n {
      ExecPassLate(w, plan, now, ops, n - 1, calm, rank);
      ExecPassFits(w, plan, now, ops, n - 1);
      var p := ExecPass(w, now, ops, n - 1);
      assert Answering(w, plan, p.ops, calm);
      HeardFits(w, plan, p.ops, w.inbox(p.now));
      ExecTurnLate(w, plan, p.now, p.ops, n - 1, calm);
    }
  }

  /** The last stage gets through. */
  lemma {:induction false} RepliesArrive(w: World, plan: Plan, now: nat, ops: seq<ExecOp>, calm: nat, rank: nat)
    returns (late: nat, done: CutPass)
    requires ExecsFit(w, plan, ops) && Answering(w, plan, ops, calm)
    requires forall j | 0 <= j < |ops| :: Rank(plan, ops[j]) <= rank
    ensures done.ok && forall deadline: nat | late <= deadline :: Execute(w, now, ops, deadline) == done
    decreases Until(now, calm), rank
  {
    hide Consistent, Led, Replies, ExecPass;
    var p := ExecPass(w, now, ops, |ops|);
    ExecPassFits(w, plan, now, ops, |ops|);
    assert Answering(w, plan, p.ops, calm);
    if p.ok {
      late, done := now + 1, p.(now := p.now + 1);
    } else {
      if calm <= now { ExecPassLate(w, plan, now, ops, |ops|, calm, rank); }
      late, done := RepliesArrive(w, plan, p.now + 1, p.ops, calm, if calm <= now then rank - 1 else 2);
      late := late + now + 1;
    }
  }

  // ---------------------------------------------------------------- the whole flashback

  lemma {:induction false} ChangePassVersions(w: World, plan: Plan, now: nat, ops: seq<ChangeOp>, n: nat)
    requires n <= |ops| && forall j | 0 <= j < |ops| :: Consistent(w, plan, ops[j].ls) && ops[j].dst == FlashbackMode
    ensures ChangePass(w, now, ops, n).ok ==>
              forall j | 0 <= j < n :: ChangePass(w, now, ops, n).ops[j].version == plan.version(ops[j].ls)
  {
    if 0 < n {
      ChangePassVersions(w, plan, now, ops, n - 1);
      ChangePassKeeps(w, now, ops, n - 1);
    }
  }

  lemma {:induction false} ChangeModesVersions(w: World, plan: Plan, now: nat, ops: seq<ChangeOp>, deadline: nat)
    requires forall j | 0 <= j < |ops| :: Consistent(w, plan, ops[j].ls) && ops[j].dst == FlashbackMode
    ensures var done := ChangeModes(w, now, ops, deadline);
            done.ok ==> forall j | 0 <= j < |ops| :: done.ops[j].version == plan.version(ops[j].ls)
    decreases deadline - now
  {
    hide Consistent;
    if now < deadline {
      var p := ChangePass(w, now, ops, |ops|);
      ChangePassVersions(w, plan, now, ops, |ops|);
      ChangePassKeeps(w, now, ops, |ops|);
      if !p.ok { ChangeModesVersions(w, plan, p.now + 1, p.ops, deadline); }
    }
  }

  // The last two stages.
  lemma LastStages(w: World, plan: Plan, streams: seq<nat>, scn: int, calm: nat, now: nat)
    returns (late: nat, changed: ModePass)
    requires Settles(w, plan, streams, scn, calm)
    ensures changed.ok
    ensures forall deadline: nat | late <= deadline ::
              && ChangeModes(w, now, NewModes(streams, FlashbackMode), deadline) == changed
              && Execute(w, changed.now, NewExecs(changed.ops), deadline).ok
  {
    hide Consistent, Led, InSync, Replies, ChangeModes, Execute;
    var ops := NewModes(streams, FlashbackMode);
    assert forall j | 0 <= j < |ops| :: ops[j].ls == streams[j] && streams[j] in streams;
    late, changed := ModesChange(w, plan, now, ops, calm, false);
    ChangeModesVersions(w, plan, now, ops, late);
    var execs := NewExecs(changed.ops);
    assert forall j | 0 <= j < |execs| :: execs[j].ls == streams[j];
    var late', _ := RepliesArrive(w, plan, changed.now, execs, calm, 2);
    late := late + late';
  }

  /**
   A flashback succeeds for every deadline late enough if the cluster settles down at some time: then each log stream
   has one leader, in FLASHBACK, whose replicas are in sync and reply.  Before that anything may happen, except that
   leaders disagree about a log stream's replicas or about the mode version of FLASHBACK.
   */
  lemma FlashbackEnds(w: World, plan: Plan, streams: seq<nat>, scn: int, calm: nat, now: nat) returns (late: nat)
    requires Settles(w, plan, streams, scn, calm)
    ensures forall deadline: nat | late <= deadline :: Succeeds(w, now, streams, scn, deadline)
  {
    hide Consistent, Led, InSync, Replies, ChangeModes, Wait, Execute;
    var modes, checks := NewModes(streams, PrepareFlashback), NewChecks(streams);
    assert forall j | 0 <= j < |modes| :: modes[j].ls == streams[j] && streams[j] in streams;
    assert forall j | 0 <= j < |checks| :: checks[j].ls == streams[j] && !checks[j].hasList;
    var late1, prepared := ModesChange(w, plan, now, modes, calm, false);
    var late2, synced := ReplicasSync(w, plan, prepared.now, checks, scn, calm, false);
    var late3, changed := LastStages(w, plan, streams, scn, calm, synced.now);
    late := late1 + late2 + late3;
  }

  // One log stream with one replica, long since in FLASHBACK.
  lemma OneSettles() returns (w: World, plan: Plan)
    ensures Settles(w, plan, [1], 5, 0)
  {
    w := World((t: nat, ls: nat, s: nat) => Stat(FlashbackMode, 2, 5, 5, [7], []), (t: nat, ls: nat, s: nat) => true,
               (t: nat, ls: nat, s: nat) => s == 7, (t: nat, ls: nat) => Some(7), (t: nat) => [Msg(1, 2, 7)]);
    plan := Plan((ls: nat) => 7, (ls: nat) => [7], (ls: nat) => [], (ls: nat) => 2);
    assert Msg(1, 2, 7) in [Msg(1, 2, 7)];
  }

  /** A log stream whose leader is asked and answers in FLASHBACK passes the sync check without a poll. */
  lemma FlashbackModePasses(w: World, now: nat, op: CheckOp, scn: int)
    requires !op.hasList
    requires var st := LeaderAnswer(w, now, op.ls, op.leader); st.Some? && st.value.mode == FlashbackMode
    ensures SyncStep(w, now, op, scn).ok && SyncStep(w, now, op, scn).now <= now + 2
  {
  }

  // ---------------------------------------------------------------- a replica that does not answer

  lemma {:induction false} UnheardIsFailure(w: World, now: nat, ls: nat, list: seq<nat>, n: nat, synced: set<nat>,
                                            scn: int, s: nat)
    requires n <= |list| && s in list[..n] && s !in synced && forall t: nat | now <= t :: !w.answers(t, ls, s)
    ensures var p := PollTo(w, now, ls, list, n, synced, scn);
            p.failed && !p.allSynced && s !in p.synced && p.short < n
  {
    if s in list[..n - 1] {
      UnheardIsFailure(w, now, ls, list, n - 1, synced, scn, s);
    } else {
      StillUnheard(w, now, ls, list, n - 1, synced, scn, s);
      assert list[n - 1] == s;
    }
  }

  lemma {:induction false} StillUnheard(w: World, now: nat, ls: nat, list: seq<nat>, n: nat, synced: set<nat>,
                                        scn: int, s: nat)
    requires n <= |list| && s !in synced && forall t: nat | now <= t :: !w.answers(t, ls, s)
    ensures var p := PollTo(w, now, ls, list, n, synced, scn); s !in p.synced && p.short <= n
  {
    if 0 < n { StillUnheard(w, now, ls, list, n - 1, synced, scn, s); }
  }

  /**
   A member that does not answer, and is not known to be in sync, fails the step, and makes the next one ask the leader
   for the replicas again: it goes by what that leader says then.
   */
  lemma FailureAsksAgain(w: World, now: nat, op: CheckOp, scn: int, s: nat)
    requires op.hasList && Leader(w, now, op.ls, op.leader).Some?
    requires s in op.members && s !in op.syncedMembers && forall t: nat | now <= t :: !w.answers(t, op.ls, s)
    ensures var step := SyncStep(w, now, op, scn);
            && !step.ok && !step.op.hasList && step.op.leader.Some?
            && var st := LeaderAnswer(w, step.now, op.ls, step.op.leader);
               var again := SyncStep(w, step.now, step.op, scn);
               && (st.None? ==> !again.ok && again.op.leader.None?)
               && (st.Some? && st.value.mode != FlashbackMode ==>
                     again.op.members == st.value.members && again.op.learners == st.value.learners)
  {
    assert op.members[..|op.members|] == op.members;
    UnheardIsFailure(w, TimeAfter(now, op.leader), op.ls, op.members, |op.members|, op.syncedMembers, scn, s);
  }
}
