/**
 Flashback of a tenant's log streams: a coordinator that drives every log stream's leader to PREPARE_FLASHBACK, waits
 until the replicas' logs are in sync, drives the leaders to FLASHBACK and then has every replica cut its log.

 The rest of the cluster is a `World` of arbitrary functions of time: who is located as leader, which calls are
 answered and by whom, what each replica would say, which replies arrive.  Every call takes one tick.
 */
module Flashback {
  import opened Options

  datatype Mode = InvalidMode | AppendMode | RawWriteMode | PrepareFlashback | FlashbackMode

  // The parts of PalfStat that are looked at.
  datatype Stat = Stat(mode: Mode, version: int, endScn: int, maxScn: int, members: seq<nat>, learners: seq<nat>)

  // LogFlashbackMsg as a reply.
  datatype Msg = Msg(ls: nat, version: int, src: nat)

  // Arguments are a time, a log stream and, except for `located`, a server.
  datatype World = World(
    replica: (nat, nat, nat) -> Stat, answers: (nat, nat, nat) -> bool, leads: (nat, nat, nat) -> bool,
    located: (nat, nat) -> Option<nat>, inbox: nat -> seq<Msg>)

  datatype Ret = Success | Eagain | OpNotAllow

  // What the coordinator did and heard, in order.
  datatype Event =
    | Reported(ls: nat, server: nat, stat: Stat)  // a leader's answer
    | Asked(ls: nat, server: nat, version: int, mode: Mode)
    | Sent(at: nat, ls: nat, server: nat, version: int)  // a flashback message, and its tick
    | Handled(msg: Msg)

  datatype ChangeOp = ChangeOp(ls: nat, leader: Option<nat>, version: int, dst: Mode)

  datatype CheckOp = CheckOp(
    ls: nat, leader: Option<nat>, hasList: bool,
    members: seq<nat>, syncedMembers: set<nat>, learners: seq<nat>, syncedLearners: set<nat>)

  datatype ExecOp = ExecOp(
    ls: nat, leader: Option<nat>, version: int, hasList: bool,
    members: seq<nat>, doneMembers: set<nat>, learners: seq<nat>, doneLearners: set<nat>)

  // ---------------------------------------------------------------- what the log of events shows

  ghost predicate NothingSent(log: seq<Event>, from: nat) {
    forall i | from <= i < |log| :: !log[i].Sent?
  }

  predicate Arrived(mode: Mode, dst: Mode) {
    mode == dst || mode == FlashbackMode
  }

  predicate ReportsArrival(e: Event, ls: nat, dst: Mode) {
    e.Reported? && e.ls == ls && Arrived(e.stat.mode, dst)
  }

  /** One pass, starting at p: every log stream's leader answers once, and each has arrived at the mode. */
  ghost predicate AllReported(log: seq<Event>, p: nat, streams: seq<nat>, dst: Mode) {
    && p + |streams| <= |log|
    && forall k | p <= k < p + |streams| :: ReportsArrival(log[k], streams[k - p], dst)
  }

  ghost predicate Replied(log: seq<Event>, from: nat, ls: nat, version: int, server: nat) {
    exists k | from <= k < |log| :: log[k] == Handled(Msg(ls, version, server))
  }

  // A leader's answer named these replicas.
  ghost predicate Listed(log: seq<Event>, from: nat, ls: nat, members: seq<nat>, learners: seq<nat>) {
    exists k | from <= k < |log| ::
      log[k].Reported? && log[k].ls == ls && log[k].stat.members == members && log[k].stat.learners == learners
  }

  // ---------------------------------------------------------------- talking to leaders

  // The leader an operator turns to, and when it has found it.
  function Leader(w: World, now: nat, ls: nat, known: Option<nat>): Option<nat> {
    if known.Some? then known else w.located(now, ls)
  }

  function TimeAfter(now: nat, known: Option<nat>): nat {
    if known.Some? then now else now + 1
  }

  // get_palf_stat sent to a leader: only a leader answers.
  function Ask(w: World, now: nat, ls: nat, server: nat): Option<Stat> {
    if w.answers(now, ls, server) && w.leads(now, ls, server) then Some(w.replica(now, ls, server)) else None
  }

  function LeaderAnswer(w: World, now: nat, ls: nat, known: Option<nat>): Option<Stat> {
    var leader := Leader(w, now, ls, known);
    if leader.None? then None else Ask(w, TimeAfter(now, known), ls, leader.value)
  }

  /** Only a server that leads answers, and with its own state; it is located first, unless it is known. */
  lemma LeaderAnswerIff(w: World, now: nat, ls: nat, known: Option<nat>, st: Stat)
    ensures LeaderAnswer(w, now, ls, known) == Some(st) <==>
              if known.Some? then
                var l := known.value;
                w.answers(now, ls, l) && w.leads(now, ls, l) && st == w.replica(now, ls, l)
              else
                && w.located(now, ls).Some?
                && var l := w.located(now, ls).value;
                   w.answers(now + 1, ls, l) && w.leads(now + 1, ls, l) && st == w.replica(now + 1, ls, l)
  {
  }

  // ---------------------------------------------------------------- what polls show

  predicate IsSynced(st: Stat, scn: int) {
    st.maxScn <= st.endScn && scn <= st.endScn
  }

  predicate IsShort(st: Stat, scn: int) {
    st.maxScn <= st.endScn < scn
  }

  ghost predicate SeenSynced(w: World, ls: nat, server: nat, from: nat, to: nat, scn: int) {
    exists t: nat | from <= t < to :: IsSynced(w.replica(t, ls, server), scn)
  }

  ghost predicate SeenShort(w: World, ls: nat, server: nat, from: nat, to: nat, scn: int) {
    exists t: nat | from <= t < to :: IsShort(w.replica(t, ls, server), scn)
  }

  ghost predicate AllSynced(w: World, ls: nat, servers: seq<nat>, from: nat, to: nat, scn: int) {
    forall s | s in servers :: SeenSynced(w, ls, s, from, to, scn)
  }

  ghost predicate AllShort(w: World, ls: nat, servers: seq<nat>, from: nat, to: nat, scn: int) {
    forall s | s in servers :: SeenShort(w, ls, s, from, to, scn)
  }

  // ---------------------------------------------------------------- what the operators remember

  /** Replicas counted as in sync were seen in sync, and a kept list was named by a leader. */
  ghost predicate CheckOpOk(w: World, log: seq<Event>, mark: nat, op: CheckOp, from: nat, to: nat, scn: int) {
    && (forall s | s in op.syncedMembers :: SeenSynced(w, op.ls, s, from, to, scn))
    && (forall s | s in op.syncedLearners :: SeenSynced(w, op.ls, s, from, to, scn))
    && (op.hasList ==> Listed(log, mark, op.ls, op.members, op.learners))
  }

  ghost predicate AlreadyFlashedBack(log: seq<Event>, from: nat, ls: nat) {
    exists k | from <= k < |log| :: log[k].Reported? && log[k].ls == ls && log[k].stat.mode == FlashbackMode
  }

  /** Why a log stream passes the sync check. */
  ghost predicate Checked(w: World, log: seq<Event>, mark: nat, op: CheckOp, from: nat, to: nat, scn: int) {
    || AlreadyFlashedBack(log, mark, op.ls)
    || (&& Listed(log, mark, op.ls, op.members, op.learners)
        && ((AllSynced(w, op.ls, op.members, from, to, scn) && AllSynced(w, op.ls, op.learners, from, to, scn))
            || AllShort(w, op.ls, op.members, from, to, scn)))
  }

  /** Replicas counted as done are listed and have replied for this log stream and mode version. */
  ghost predicate ExecOpOk(log: seq<Event>, mark: nat, op: ExecOp) {
    && (forall s | s in op.doneMembers + op.doneLearners :: Replied(log, mark, op.ls, op.version, s))
    && (forall s | s in op.doneMembers :: s in op.members) && (forall s | s in op.doneLearners :: s in op.learners)
    && (if op.hasList then Listed(log, mark, op.ls, op.members, op.learners)
        else op.doneMembers + op.doneLearners == {})
  }

  ghost predicate Executed(log: seq<Event>, mark: nat, op: ExecOp) {
    && Listed(log, mark, op.ls, op.members, op.learners)
    && forall s | s in op.members + op.learners :: Replied(log, mark, op.ls, op.version, s)
  }

  // What was seen stays seen.
  lemma ChecksLast(w: World, log: seq<Event>, log': seq<Event>, mark: nat, ops: seq<CheckOp>,
                   from: nat, to: nat, to': nat, scn: int)
    requires log <= log' && to <= to'
    ensures forall j | 0 <= j < |ops| && CheckOpOk(w, log, mark, ops[j], from, to, scn) ::
              CheckOpOk(w, log', mark, ops[j], from, to', scn)
    ensures forall j | 0 <= j < |ops| && Checked(w, log, mark, ops[j], from, to, scn) ::
              Checked(w, log', mark, ops[j], from, to', scn)
  {
    forall j | 0 <= j < |ops|
      ensures CheckOpOk(w, log, mark, ops[j], from, to, scn) ==> CheckOpOk(w, log', mark, ops[j], from, to', scn)
      ensures Checked(w, log, mark, ops[j], from, to, scn) ==> Checked(w, log', mark, ops[j], from, to', scn)
    {
      var op := ops[j];
      assert Listed(log, mark, op.ls, op.members, op.learners) ==> Listed(log', mark, op.ls, op.members, op.learners);
      assert AlreadyFlashedBack(log, mark, op.ls) ==> AlreadyFlashedBack(log', mark, op.ls);
    }
  }

  predicate IsSent(e: Event, op: ExecOp, server: nat) {
    e.Sent? && e.ls == op.ls && e.server == server && e.version == op.version
  }

  ghost predicate SentTo(log: seq<Event>, from: nat, op: ExecOp, server: nat) {
    exists k | from <= k < |log| :: IsSent(log[k], op, server)
  }

  lemma SentStays(log: seq<Event>, log': seq<Event>, from: nat, op: ExecOp)
    requires log <= log'
    ensures forall s | SentTo(log, from, op, s) :: SentTo(log', from, op, s)
  {
    forall s | SentTo(log, from, op, s) ensures SentTo(log', from, op, s) {
      var k :| from <= k < |log| && IsSent(log[k], op, s);
      assert log'[k] == log[k];
    }
  }

  // The operator a reply is for.
  function FirstMatch(ops: seq<ExecOp>, msg: Msg, i: nat): (k: nat)
    requires i <= |ops|
    ensures i <= k <= |ops| && forall j | i <= j < k :: !(ops[j].ls == msg.ls && ops[j].version == msg.version)
    ensures k < |ops| ==> ops[k].ls == msg.ls && ops[k].version == msg.version
    decreases |ops| - i
  {
    if i == |ops| || (msg.ls == ops[i].ls && msg.version == ops[i].version) then i else FirstMatch(ops, msg, i + 1)
  }

  // The first operator of the reply's log stream and mode version.
  ghost predicate IsFirst(ops: seq<ExecOp>, msg: Msg, i: nat)
    requires i < |ops|
  {
    && ops[i].ls == msg.ls && ops[i].version == msg.version
    && forall j | 0 <= j < i :: !(ops[j].ls == msg.ls && ops[j].version == msg.version)
  }

  // What the operator makes of it.
  function Recorded(op: ExecOp, src: nat): ExecOp {
    if !op.hasList then op
    else if src in op.members then op.(doneMembers := op.doneMembers + {src})
    else if src in op.learners then op.(doneLearners := op.doneLearners + {src})
    else op
  }

  // A reply changes nothing else of an operator.
  predicate SameReplicas(op: ExecOp, op': ExecOp) {
    op'.ls == op.ls && op'.version == op.version && op'.members == op.members && op'.learners == op.learners
  }

  lemma ExecsLast(log: seq<Event>, log': seq<Event>, mark: nat, ops: seq<ExecOp>)
    requires log <= log'
    ensures forall j | 0 <= j < |ops| && ExecOpOk(log, mark, ops[j]) :: ExecOpOk(log', mark, ops[j])
    ensures forall j | 0 <= j < |ops| && Executed(log, mark, ops[j]) :: Executed(log', mark, ops[j])
  {
    forall j | 0 <= j < |ops|
      ensures ExecOpOk(log, mark, ops[j]) ==> ExecOpOk(log', mark, ops[j])
      ensures Executed(log, mark, ops[j]) ==> Executed(log', mark, ops[j])
    {
      var op := ops[j];
      assert Listed(log, mark, op.ls, op.members, op.learners) ==> Listed(log', mark, op.ls, op.members, op.learners);
      assert forall s | Replied(log, mark, op.ls, op.version, s) :: Replied(log', mark, op.ls, op.version, s);
    }
  }

  lemma RecordedIsOk(log: seq<Event>, mark: nat, op: ExecOp, src: nat)
    requires ExecOpOk(log, mark, op) && Replied(log, mark, op.ls, op.version, src)
    ensures ExecOpOk(log, mark, Recorded(op, src))
  {
  }

  lemma ExecutedLasts(log: seq<Event>, log': seq<Event>, mark: nat, ops: seq<ExecOp>, ops': seq<ExecOp>)
    requires log <= log' && |ops'| == |ops| && forall j | 0 <= j < |ops| :: SameReplicas(ops[j], ops'[j])
    ensures forall j | 0 <= j < |ops| && Executed(log, mark, ops[j]) :: Executed(log', mark, ops'[j])
  {
    ExecsLast(log, log', mark, ops);
  }

  /** The stages before the first flashback message. */
  ghost predicate Staged(w: World, log: seq<Event>, streams: seq<nat>, scn: int, p: nat, q: nat, r: nat,
                         checks: seq<CheckOp>, from: nat, to: nat) {
    var n := |streams|;
    && AllReported(log, p, streams, PrepareFlashback) && p + n == q <= r
    && AllReported(log, r, streams, FlashbackMode)
    && |checks| == n
    && (forall j | 0 <= j < n :: checks[j].ls == streams[j] && Checked(w, log[..r], q, checks[j], from, to, scn))
    && from < to
    && (forall k | 0 <= k < |log| && p <= k && log[k].Sent? ::
          r + n <= k && to <= log[k].at && CarriesReported(log, r, streams, log[k].ls, log[k].version))
  }

  // The mode version is the one the log stream's leader reported in the pass at r.
  ghost predicate CarriesReported(log: seq<Event>, r: nat, streams: seq<nat>, ls: nat, version: int) {
    exists k | r <= k < r + |streams| && k < |log| ::
      log[k].Reported? && log[k].ls == ls && log[k].stat.version == version
  }

  // What a pass that succeeded so far has recorded.
  ghost predicate PassSoFar(log: seq<Event>, p: nat, ops: seq<ChangeOp>, n: nat, dst: Mode)
    requires n <= |ops|
  {
    && |log| == p + n
    && forall k | p <= k < p + n ::
         ReportsArrival(log[k], ops[k - p].ls, dst) && ops[k - p].version == log[k].stat.version
  }

  // Messages since `from` are not sent before tick `at`, are for one of the operators' log streams and carry its mode
  // version.
  ghost predicate SentFor(log: seq<Event>, from: nat, ops: seq<ChangeOp>, at: nat) {
    forall k | from <= k < |log| && log[k].Sent? :: at <= log[k].at && Addressed(log[k].ls, log[k].version, ops)
  }

  ghost predicate Addressed(ls: nat, version: int, ops: seq<ChangeOp>) {
    exists j | 0 <= j < |ops| :: ops[j].ls == ls && ops[j].version == version
  }

  lemma AddressedIsReported(pass: seq<Event>, log: seq<Event>, r: nat, ops: seq<ChangeOp>, streams: seq<nat>, at: nat)
    requires PassSoFar(pass, r, ops, |ops|, FlashbackMode) && pass <= log && |streams| == |ops|
    requires SentFor(log, |pass|, ops, at)
    ensures forall k | |pass| <= k < |log| && log[k].Sent? ::
              CarriesReported(log, r, streams, log[k].ls, log[k].version)
  {
    forall k | |pass| <= k < |log| && log[k].Sent?
      ensures CarriesReported(log, r, streams, log[k].ls, log[k].version)
    {
      assert Addressed(log[k].ls, log[k].version, ops);
      var j :| 0 <= j < |ops| && ops[j].ls == log[k].ls && ops[j].version == log[k].version;
      assert ReportsArrival(pass[r + j], ops[r + j - r].ls, FlashbackMode);
      assert log[r + j] == pass[r + j];
    }
  }

  /** The first three stages: `synced` is the log after the second of them, `passed` after the third. */
  ghost predicate Readied(w: World, synced: seq<Event>, passed: seq<Event>, streams: seq<nat>, scn: int,
                          p: nat, q: nat, r: nat, checks: seq<CheckOp>, modes: seq<ChangeOp>, from: nat, to: nat) {
    && synced <= passed && p + |streams| == q <= |synced| <= r
    && AllReported(synced, p, streams, PrepareFlashback)
    && AllReported(passed, r, streams, FlashbackMode) && PassSoFar(passed, r, modes, |modes|, FlashbackMode)
    && NothingSent(passed, p) && |modes| == |streams| == |checks| && from < to
    && (forall j | 0 <= j < |streams| ::
          && checks[j].ls == streams[j] == modes[j].ls && Checked(w, synced, q, checks[j], from, to, scn))
  }

  // And the last one after them.
  lemma StagesFollow(w: World, synced: seq<Event>, passed: seq<Event>, log: seq<Event>, streams: seq<nat>, scn: int,
                     p: nat, q: nat, r: nat, checks: seq<CheckOp>, modes: seq<ChangeOp>, from: nat, to: nat)
    requires Readied(w, synced, passed, streams, scn, p, q, r, checks, modes, from, to)
    requires passed <= log && SentFor(log, |passed|, modes, to)
    ensures Staged(w, log, streams, scn, p, q, r, checks, from, to)
  {
    hide Checked, CarriesReported, Addressed;
    AddressedIsReported(passed, log, r, modes, streams, to);
    assert log[..r] == passed[..r];
    ChecksLast(w, synced, log[..r], q, checks, from, to, to, scn);
  }

  lemma ReadiedModes(w: World, synced: seq<Event>, passed: seq<Event>, streams: seq<nat>, scn: int,
                     p: nat, q: nat, r: nat, checks: seq<CheckOp>, modes: seq<ChangeOp>, from: nat, to: nat)
    requires Readied(w, synced, passed, streams, scn, p, q, r, checks, modes, from, to)
    ensures |passed| == r + |streams| && |modes| == |streams|
    ensures forall j | 0 <= j < |streams| ::
              passed[r + j].Reported? && modes[j].ls == streams[j] && modes[j].version == passed[r + j].stat.version
  {
    forall j | 0 <= j < |streams|
      ensures passed[r + j].Reported? && modes[j].ls == streams[j] && modes[j].version == passed[r + j].stat.version
    {
      var k := r + j;
      assert ReportsArrival(passed[k], modes[k - r].ls, FlashbackMode);
    }
  }

  lemma StagedModes(w: World, log: seq<Event>, streams: seq<nat>, scn: int, p: nat, q: nat, r: nat,
                    checks: seq<CheckOp>, from: nat, to: nat)
    requires Staged(w, log, streams, scn, p, q, r, checks, from, to)
    ensures r + |streams| <= |log| && p + |streams| <= r
    ensures forall k | p <= k < p + |streams| ::
              && log[k].Reported? && log[k].ls == streams[k - p]
              && (log[k].stat.mode == PrepareFlashback || log[k].stat.mode == FlashbackMode)
    ensures forall k | r <= k < r + |streams| ::
              log[k].Reported? && log[k].ls == streams[k - r] && log[k].stat.mode == FlashbackMode
  {
  }

  // ---------------------------------------------------------------- what a change of modes computes

  datatype ModeStep = ModeStep(op: ChangeOp, now: nat, ok: bool)

  function ChangeStep(w: World, now: nat, op: ChangeOp): (r: ModeStep)
    ensures now <= r.now && r.op.ls == op.ls && r.op.dst == op.dst
  {
    var leader, at := Leader(w, now, op.ls, op.leader), TimeAfter(now, op.leader);
    if leader.None? then ModeStep(op.(leader := None), at, false)
    else match Ask(w, at, op.ls, leader.value)
    case None => ModeStep(op.(leader := None), at + 1, false)
    case Some(st) =>
      var heard := op.(leader := leader, version := st.version);
      if st.mode == op.dst || st.mode == FlashbackMode then ModeStep(heard, at + 1, true)
      else ModeStep(heard, at + 2, false)
  }

  datatype ModePass = ModePass(ops: seq<ChangeOp>, now: nat, ok: bool)

  function ChangePass(w: World, now: nat, ops: seq<ChangeOp>, n: nat): (r: ModePass)
    requires n <= |ops|
    ensures now <= r.now && |r.ops| == |ops|
  {
    if n == 0 then ModePass(ops, now, true) else
    var p := ChangePass(w, now, ops, n - 1);
    var s := ChangeStep(w, p.now, p.ops[n - 1]);
    ModePass(p.ops[n - 1 := s.op], s.now, p.ok && s.ok)
  }

  function ChangeModes(w: World, now: nat, ops: seq<ChangeOp>, deadline: nat): (r: ModePass)
    ensures now <= r.now && |r.ops| == |ops|
    decreases deadline - now
  {
    if deadline <= now then ModePass(ops, now, false) else
    var p := ChangePass(w, now, ops, |ops|);
    if p.ok then p.(now := p.now + 1) else ChangeModes(w, p.now + 1, p.ops, deadline)
  }

  function NewModes(streams: seq<nat>, dst: Mode): (ops: seq<ChangeOp>)
    ensures |ops| == |streams| && forall j | 0 <= j < |ops| :: ops[j] == ChangeOp(streams[j], None, -1, dst)
  {
    seq(|streams|, i requires 0 <= i < |streams| => ChangeOp(streams[i], None, -1, dst))
  }

  // ---------------------------------------------------------------- what the last stage computes

  // How many of the first n replicas of a list get a message.
  function Missing(list: seq<nat>, done: set<nat>, n: nat): nat
    requires n <= |list|
  {
    if n == 0 then 0 else Missing(list, done, n - 1) + if list[n - 1] in done then 0 else 1
  }

  datatype CutStep = CutStep(op: ExecOp, now: nat, ok: bool)

  function SendAll(now: nat, op: ExecOp): CutStep {
    CutStep(op, now + Missing(op.members, op.doneMembers, |op.members|)
                + Missing(op.learners, op.doneLearners, |op.learners|),
            (forall s | s in op.members :: s in op.doneMembers)
            && (forall s | s in op.learners :: s in op.doneLearners))
  }

  function ExecStep(w: World, now: nat, op: ExecOp): (r: CutStep)
    ensures now <= r.now
  {
    var leader, at := Leader(w, now, op.ls, op.leader), TimeAfter(now, op.leader);
    var found := op.(leader := leader);
    if leader.None? then CutStep(found, at, false)
    else if op.hasList then SendAll(at, found)
    else match Ask(w, at, op.ls, leader.value)
    case None => CutStep(op.(leader := None), at + 1, false)
    case Some(st) => SendAll(at + 1, found.(hasList := true, members := st.members, learners := st.learners))
  }

  // The first n replies of an inbox.
  function Heard(ops: seq<ExecOp>, inbox: seq<Msg>, n: nat): (r: seq<ExecOp>)
    requires n <= |inbox|
    ensures |r| == |ops|
  {
    if n == 0 then ops else
    var before := Heard(ops, inbox, n - 1);
    var i := FirstMatch(before, inbox[n - 1], 0);
    if i < |before| then before[i := Recorded(before[i], inbox[n - 1].src)] else before
  }

  datatype CutPass = CutPass(ops: seq<ExecOp>, now: nat, ok: bool)

  function ExecPass(w: World, now: nat, ops: seq<ExecOp>, n: nat): (r: CutPass)
    requires n <= |ops|
    ensures now <= r.now && |r.ops| == |ops|
  {
    if n == 0 then CutPass(ops, now, true) else
    var p := ExecPass(w, now, ops, n - 1);
    var heard := Heard(p.ops, w.inbox(p.now), |w.inbox(p.now)|);
    var s := ExecStep(w, p.now, heard[n - 1]);
    CutPass(heard[n - 1 := s.op], s.now, p.ok && s.ok)
  }

  function Execute(w: World, now: nat, ops: seq<ExecOp>, deadline: nat): (r: CutPass)
    ensures now <= r.now && |r.ops| == |ops|
    decreases deadline - now
  {
    if deadline <= now then CutPass(ops, now, false) else
    var p := ExecPass(w, now, ops, |ops|);
    if p.ok then p.(now := p.now + 1) else Execute(w, p.now + 1, p.ops, deadline)
  }

  function NewExecs(modes: seq<ChangeOp>): (ops: seq<ExecOp>)
    ensures |ops| == |modes|
    ensures forall j | 0 <= j < |ops| :: ops[j] == ExecOp(modes[j].ls, None, modes[j].version, false, [], {}, [], {})
  {
    seq(|modes|, i requires 0 <= i < |modes| => ExecOp(modes[i].ls, None, modes[i].version, false, [], {}, [], {}))
  }

  // The first three stages, with the operators of the third.
  function Ready(w: World, now: nat, streams: seq<nat>, scn: int, deadline: nat): ModePass {
    var prepared := ChangeModes(w, now, NewModes(streams, PrepareFlashback), deadline);
    if !prepared.ok then prepared else
    var synced := Wait(w, prepared.now, NewChecks(streams), scn, deadline);
    if !synced.ok then ModePass([], synced.now, false)
    else ChangeModes(w, synced.now, NewModes(streams, FlashbackMode), deadline)
  }

  /** Whether a whole flashback succeeds: all four stages, one after the other. */
  predicate Succeeds(w: World, now: nat, streams: seq<nat>, scn: int, deadline: nat) {
    var ready := Ready(w, now, streams, scn, deadline);
    ready.ok && Execute(w, ready.now, NewExecs(ready.ops), deadline).ok
  }

  // ---------------------------------------------------------------- what the sync check computes

  datatype Poll = Poll(now: nat, synced: set<nat>, short: nat, failed: bool, allSynced: bool)

  // The first n replicas of a list, one tick each unless already known to be in sync.
  function PollTo(w: World, now: nat, ls: nat, list: seq<nat>, n: nat, synced: set<nat>, scn: int): (r: Poll)
    requires n <= |list|
    ensures now <= r.now
  {
    if n == 0 then Poll(now, synced, 0, false, true) else
    var p := PollTo(w, now, ls, list, n - 1, synced, scn);
    var server := list[n - 1];
    if server in p.synced then p else
    var st := w.replica(p.now, ls, server);
    var next := p.(now := p.now + 1);
    if !w.answers(p.now, ls, server) then next.(failed := true, allSynced := false)
    else if st.endScn < st.maxScn then next.(allSynced := false)
    else if st.endScn < scn then next.(short := p.short + 1, allSynced := false)
    else next.(synced := p.synced + {server})
  }

  datatype Step = Step(op: CheckOp, now: nat, ok: bool)

  function PollAll(w: World, now: nat, op: CheckOp, scn: int): (r: Step)
    ensures now <= r.now && r.op.ls == op.ls
  {
    var m := PollTo(w, now, op.ls, op.members, |op.members|, op.syncedMembers, scn);
    var l := PollTo(w, m.now, op.ls, op.learners, |op.learners|, op.syncedLearners, scn);
    Step(op.(syncedMembers := m.synced, syncedLearners := l.synced, hasList := !m.failed && !l.failed), l.now,
         (m.allSynced && l.allSynced) || m.short == |op.members|)
  }

  function SyncStep(w: World, now: nat, op: CheckOp, scn: int): (r: Step)
    ensures now <= r.now && r.op.ls == op.ls
  {
    var leader, at := Leader(w, now, op.ls, op.leader), TimeAfter(now, op.leader);
    var found := op.(leader := leader);
    if leader.None? then Step(found, at, false)
    else if op.hasList then PollAll(w, at, found, scn)
    else match Ask(w, at, op.ls, leader.value)
    case None => Step(op.(leader := None), at + 1, false)
    case Some(st) =>
      if st.mode == FlashbackMode then Step(found, at + 1, true)
      else PollAll(w, at + 1, found.(hasList := true, members := st.members, learners := st.learners), scn)
  }

  datatype Pass = Pass(ops: seq<CheckOp>, now: nat, ok: bool)

  // One pass over the first n operators.
  function SyncPass(w: World, now: nat, ops: seq<CheckOp>, n: nat, scn: int): (r: Pass)
    requires n <= |ops|
    ensures now <= r.now && |r.ops| == |ops| && forall j | 0 <= j < |ops| :: r.ops[j].ls == ops[j].ls
  {
    if n == 0 then Pass(ops, now, true) else
    var p := SyncPass(w, now, ops, n - 1, scn);
    var s := SyncStep(w, p.now, p.ops[n - 1], scn);
    Pass(p.ops[n - 1 := s.op], s.now, p.ok && s.ok)
  }

  // Passes until one succeeds or the deadline has come.
  function Wait(w: World, now: nat, ops: seq<CheckOp>, scn: int, deadline: nat): (r: Pass)
    ensures now <= r.now && |r.ops| == |ops| && forall j | 0 <= j < |ops| :: r.ops[j].ls == ops[j].ls
    ensures r.ok ==> now < r.now
    decreases deadline - now
  {
    if deadline <= now then Pass(ops, now, false) else
    var p := SyncPass(w, now, ops, |ops|, scn);
    if p.ok then p.(now := p.now + 1) else Wait(w, p.now + 1, p.ops, scn, deadline)
  }

  function NewChecks(streams: seq<nat>): (ops: seq<CheckOp>)
    ensures |ops| == |streams| && forall j | 0 <= j < |ops| :: ops[j].ls == streams[j]
  {
    seq(|streams|, i requires 0 <= i < |streams| => CheckOp(streams[i], None, false, [], {}, [], {}))
  }

  class LogFlashbackService {
    const w: World
    var now: nat
    var flashbackOps: seq<ExecOp>
    ghost var log: seq<Event>

    constructor (w: World)
      ensures this.w == w && now == 0 && flashbackOps == [] && log == []
    {
      this.w, now, flashbackOps, log := w, 0, [], [];
    }

    // update_leader_, unless the leader is known
    method FindLeader(ls: nat, known: Option<nat>) returns (leader: Option<nat>)
      modifies this`now
      ensures leader == Leader(w, old(now), ls, known) && now == TimeAfter(old(now), known)
    {
      leader := known;
      if known.None? {
        leader := w.located(now, ls);
        now := now + 1;
      }
    }

    // get_palf_stat sent to a leader: only a leader answers.
    method AskLeader(ls: nat, server: nat) returns (answer: Option<Stat>)
      modifies this`now, this`log
      ensures now == old(now) + 1 && answer == Ask(w, old(now), ls, server)
      ensures log == if answer.None? then old(log) else old(log) + [Reported(ls, server, answer.value)]
    {
      answer := None;
      if w.answers(now, ls, server) && w.leads(now, ls, server) {
        answer := Some(w.replica(now, ls, server));
        log := log + [Reported(ls, server, answer.value)];
      }
      now := now + 1;
    }

    // ---------------------------------------------------------------- changing the access mode

    /** Succeeds exactly if a leader answers, in the mode or in FLASHBACK; else that leader is asked for the mode. */
    method SwitchMode(op: ChangeOp) returns (op': ChangeOp, ret: Ret)
      modifies this`now, this`log
      ensures old(now) <= now && old(log) <= log && NothingSent(log, |old(log)|)
      ensures op'.ls == op.ls && op'.dst == op.dst && !ret.OpNotAllow?
      ensures ModeStep(op', now, ret.Success?) == ChangeStep(w, old(now), op)
      ensures var answer := LeaderAnswer(w, old(now), op.ls, op.leader);
              if answer.None? then !ret.Success? && log == old(log)
              else
                && op'.leader.Some? && op'.version == answer.value.version
                && (ret.Success? <==> answer.value.mode == op.dst || answer.value.mode == FlashbackMode)
                && log == old(log) + [Reported(op.ls, op'.leader.value, answer.value)]
                        + if ret.Success? then []
                          else [Asked(op.ls, op'.leader.value, answer.value.version, op.dst)]
    {
      ret := Eagain;
      var leader := FindLeader(op.ls, op.leader);
      op' := op.(leader := leader);
      if leader.Some? {
        var answer := AskLeader(op.ls, leader.value);
        match answer
        case None => op' := op'.(leader := None);
        case Some(stat) =>
          op' := op'.(version := stat.version);
          if stat.mode == op.dst || stat.mode == FlashbackMode {
            ret := Success;
          } else {
            log := log + [Asked(op.ls, leader.value, stat.version, op.dst)];
            now := now + 1;
          }
      }
    }

    ghost predicate ModesFor(ops: seq<ChangeOp>, streams: seq<nat>, dst: Mode) {
      |ops| == |streams| && forall j | 0 <= j < |ops| :: ops[j].ls == streams[j] && ops[j].dst == dst
    }

    method MotivateModes(ops: seq<ChangeOp>, streams: seq<nat>, dst: Mode) returns (ops': seq<ChangeOp>, ret: Ret)
      requires ModesFor(ops, streams, dst)
      modifies this`now, this`log
      ensures old(now) <= now && old(log) <= log && NothingSent(log, |old(log)|)
      ensures ModesFor(ops', streams, dst) && !ret.OpNotAllow?
      ensures ModePass(ops', now, ret.Success?) == ChangePass(w, old(now), ops, |ops|)
      ensures ret.Success? ==> PassSoFar(log, |old(log)|, ops', |ops'|, dst)
    {
      ops' := ops;
      var allSuccess := true;
      for i := 0 to |ops|
        invariant old(now) <= now && old(log) <= log && NothingSent(log, |old(log)|)
        invariant ModesFor(ops', streams, dst)
        invariant ModePass(ops', now, allSuccess) == ChangePass(w, old(now), ops, i)
        invariant allSuccess ==> PassSoFar(log, |old(log)|, ops', i, dst)
      {
        var op', r := SwitchMode(ops'[i]);
        ops' := ops'[i := op'];
        if !r.Success? { allSuccess := false; }
      }
      ret := if allSuccess then Success else Eagain;
    }

    method GetAndChangeAccessMode(streams: seq<nat>, dst: Mode, deadline: nat)
      returns (ret: Ret, ops: seq<ChangeOp>, ghost p: nat)
      modifies this`now, this`log
      ensures old(now) <= now && old(log) <= log && NothingSent(log, |old(log)|)
      ensures ModesFor(ops, streams, dst) && |old(log)| <= p
      ensures ModePass(ops, now, ret.Success?) == ChangeModes(w, old(now), NewModes(streams, dst), deadline)
      ensures ret.Success? ==> AllReported(log, p, streams, dst) && PassSoFar(log, p, ops, |ops|, dst)
    {
      hide ChangePass, ReportsArrival;
      ops := NewModes(streams, dst);
      ret, p := OpNotAllow, |log|;
      while now < deadline && !ret.Success?
        invariant old(now) <= now && old(log) <= log && NothingSent(log, |old(log)|)
        invariant ModesFor(ops, streams, dst) && |old(log)| <= p
        invariant ChangeModes(w, old(now), NewModes(streams, dst), deadline) ==
                    if ret.Success? then ModePass(ops, now, true) else ChangeModes(w, now, ops, deadline)
        invariant ret.Success? ==> PassSoFar(log, p, ops, |ops|, dst)
        decreases deadline - now
      {
        p := |log|;
        ops, ret := MotivateModes(ops, streams, dst);
        now := now + 1;
      }
      if !ret.Success? { ret := OpNotAllow; }
    }

    // ---------------------------------------------------------------- waiting for the replicas

    method CheckListLogSync(ls: nat, list: seq<nat>, synced: set<nat>, scn: int, ghost from: nat)
      returns (ret: Ret, synced': set<nat>, short: nat, failed: bool)
      requires from <= now && forall s | s in synced :: SeenSynced(w, ls, s, from, now, scn)
      modifies this`now
      ensures old(now) <= now
      ensures synced <= synced' && forall s | s in synced' :: SeenSynced(w, ls, s, from, now, scn)
      ensures Poll(now, synced', short, failed, ret.Success?) == PollTo(w, old(now), ls, list, |list|, synced, scn)
      ensures ret.Success? ==> forall s | s in list :: s in synced'
      ensures short == |list| ==> AllShort(w, ls, list, old(now), now, scn)
    {
      ret, synced', short, failed := Success, synced, 0, false;
      for i := 0 to |list|
        invariant old(now) <= now && short <= i && synced <= synced'
        invariant forall s | s in synced' :: SeenSynced(w, ls, s, from, now, scn)
        invariant Poll(now, synced', short, failed, ret.Success?) == PollTo(w, old(now), ls, list, i, synced, scn)
        invariant ret.Success? ==> forall s | s in list[..i] :: s in synced'
        invariant short == i ==> forall s | s in list[..i] :: SeenShort(w, ls, s, old(now), now, scn)
      {
        var server := list[i];
        assert list[..i + 1] == list[..i] + [server];
        if server !in synced' {
          var st := w.replica(now, ls, server);
          if !w.answers(now, ls, server) {
            ret, failed := Eagain, true;
          } else if st.endScn < st.maxScn {
            ret := Eagain;
          } else if st.endScn < scn {
            assert IsShort(st, scn);
            ret, short := Eagain, short + 1;
          } else {
            assert IsSynced(st, scn);
            synced' := synced' + {server};
          }
          now := now + 1;
        }
      }
      assert list[..|list|] == list;
    }

    method SwitchSync(op: CheckOp, scn: int, ghost from: nat, ghost mark: nat) returns (op': CheckOp, ret: Ret)
      requires from <= now && mark <= |log| && CheckOpOk(w, log, mark, op, from, now, scn)
      modifies this`now, this`log
      ensures old(now) <= now && old(log) <= log && NothingSent(log, |old(log)|)
      ensures Step(op', now, ret.Success?) == SyncStep(w, old(now), op, scn)
      ensures op.syncedMembers <= op'.syncedMembers && op.syncedLearners <= op'.syncedLearners
      ensures op'.ls == op.ls && CheckOpOk(w, log, mark, op', from, now, scn)
      ensures ret.Success? ==> Checked(w, log, mark, op', from, now, scn)
    {
      hide PollTo;
      op', ret := op, Eagain;
      var leader := FindLeader(op.ls, op.leader);
      op' := op'.(leader := leader);
      if leader.None? {
        return;
      }
      if !op.hasList {
        var answer := AskLeader(op.ls, leader.value);
        if answer.None? {
          op' := op'.(leader := None);
          return;
        }
        assert log[|log| - 1] == Reported(op.ls, leader.value, answer.value);
        if answer.value.mode == FlashbackMode {
          ret := Success;
          return;
        }
        op' := op'.(hasList := true, members := answer.value.members, learners := answer.value.learners);
      }
      var retMember, synced, short, failed := CheckListLogSync(op.ls, op'.members, op'.syncedMembers, scn, from);
      var retLearner, synced2, _, failed2 := CheckListLogSync(op.ls, op'.learners, op'.syncedLearners, scn, from);
      op' := op'.(syncedMembers := synced, syncedLearners := synced2, hasList := !failed && !failed2);
      if (retMember.Success? && retLearner.Success?) || short == |op'.members| {
        ret := Success;
      }
    }

    ghost predicate ChecksFor(ops: seq<CheckOp>, streams: seq<nat>, mark: nat, from: nat, scn: int)
      reads this
    {
      && |ops| == |streams| && from <= now && mark <= |log|
      && forall j | 0 <= j < |ops| :: ops[j].ls == streams[j] && CheckOpOk(w, log, mark, ops[j], from, now, scn)
    }

    method MotivateSync(ops: seq<CheckOp>, streams: seq<nat>, scn: int, ghost from: nat, ghost mark: nat)
      returns (ops': seq<CheckOp>, ret: Ret)
      requires ChecksFor(ops, streams, mark, from, scn)
      modifies this`now, this`log
      ensures old(now) <= now && old(log) <= log && NothingSent(log, |old(log)|)
      ensures Pass(ops', now, ret.Success?) == SyncPass(w, old(now), ops, |ops|, scn)
      ensures ChecksFor(ops', streams, mark, from, scn)
      ensures ret.Success? ==> forall j | 0 <= j < |ops'| :: Checked(w, log, mark, ops'[j], from, now, scn)
    {
      hide SyncStep, CheckOpOk, Checked;
      ops' := ops;
      var allSuccess := true;
      for i := 0 to |ops|
        invariant old(now) <= now && old(log) <= log && NothingSent(log, |old(log)|)
        invariant ChecksFor(ops', streams, mark, from, scn)
        invariant Pass(ops', now, allSuccess) == SyncPass(w, old(now), ops, i, scn)
        invariant allSuccess ==> forall j | 0 <= j < i :: Checked(w, log, mark, ops'[j], from, now, scn)
      {
        ghost var before, since := log, now;
        var op', r := SwitchSync(ops'[i], scn, from, mark);
        ChecksLast(w, before, log, mark, ops', from, since, now, scn);
        ops' := ops'[i := op'];
        if !r.Success? { allSuccess := false; }
      }
      ret := if allSuccess then Success else Eagain;
    }

    method WaitAllReplicasLogSync(streams: seq<nat>, scn: int, deadline: nat) returns (ret: Ret, ops: seq<CheckOp>)
      modifies this`now, this`log
      ensures old(now) <= now && old(log) <= log && NothingSent(log, |old(log)|)
      ensures Pass(ops, now, ret.Success?) == Wait(w, old(now), NewChecks(streams), scn, deadline)
      ensures ChecksFor(ops, streams, |old(log)|, old(now), scn)
      ensures ret.Success? ==> forall j | 0 <= j < |ops| :: Checked(w, log, |old(log)|, ops[j], old(now), now, scn)
    {
      hide SyncPass, Checked;
      ops := NewChecks(streams);
      ret := OpNotAllow;
      while now < deadline && !ret.Success?
        invariant old(now) <= now && old(log) <= log && NothingSent(log, |old(log)|)
        invariant ChecksFor(ops, streams, |old(log)|, old(now), scn)
        invariant Wait(w, old(now), NewChecks(streams), scn, deadline) ==
                    if ret.Success? then Pass(ops, now, true) else Wait(w, now, ops, scn, deadline)
        invariant ret.Success? ==> forall j | 0 <= j < |ops| :: Checked(w, log, |old(log)|, ops[j], old(now), now, scn)
        decreases deadline - now
      {
        ops, ret := MotivateSync(ops, streams, scn, old(now), |old(log)|);
        ChecksLast(w, log, log, |old(log)|, ops, old(now), now, now + 1, scn);
        now := now + 1;
      }
      if !ret.Success? { ret := OpNotAllow; }
    }

    // ---------------------------------------------------------------- cutting the logs

    method FlashbackList(op: ExecOp, list: seq<nat>, done: set<nat>) returns (ret: Ret)
      modifies this`now, this`log
      ensures old(now) <= now && old(log) <= log
      ensures forall k | |old(log)| <= k < |log| ::
                log[k].Sent? && log[k].ls == op.ls && log[k].version == op.version && old(now) <= log[k].at
      ensures forall k | |old(log)| <= k < |log| :: log[k].server in list && log[k].server !in done
      ensures forall s | s in list && s !in done :: SentTo(log, |old(log)|, op, s)
      ensures ret.Success? <==> forall s | s in list :: s in done
      ensures now == old(now) + Missing(list, done, |list|)
    {
      ret := Success;
      for i := 0 to |list|
        invariant now == old(now) + Missing(list, done, i) && old(log) <= log
        invariant forall k | |old(log)| <= k < |log| ::
                    log[k].Sent? && log[k].ls == op.ls && log[k].version == op.version && old(now) <= log[k].at
        invariant forall k | |old(log)| <= k < |log| :: log[k].server in list && log[k].server !in done
        invariant forall s | s in list[..i] && s !in done :: SentTo(log, |old(log)|, op, s)
        invariant ret.Success? <==> forall s | s in list[..i] :: s in done
      {
        assert list[..i + 1] == list[..i] + [list[i]];
        if list[i] !in done {
          ghost var before := log;
          log := log + [Sent(now, op.ls, list[i], op.version)];
          assert IsSent(log[|log| - 1], op, list[i]);
          SentStays(before, log, |old(log)|, op);
          now := now + 1;
          ret := Eagain;
        }
      }
      assert list[..|list|] == list;
    }

    method SwitchFlashback(op: ExecOp, ghost mark: nat) returns (op': ExecOp, ret: Ret)
      requires mark <= |log| && ExecOpOk(log, mark, op)
      modifies this`now, this`log
      ensures old(now) <= now && old(log) <= log
      ensures forall k | |old(log)| <= k < |log| && log[k].Sent? ::
                log[k].ls == op.ls && log[k].version == op.version && old(now) <= log[k].at
      ensures op'.ls == op.ls && op'.version == op.version && ExecOpOk(log, mark, op')
      ensures ret.Success? ==> Executed(log, mark, op')
      ensures CutStep(op', now, ret.Success?) == ExecStep(w, old(now), op)
      ensures ret.Success? <==>
                && Leader(w, old(now), op.ls, op.leader).Some?
                && (op.hasList || LeaderAnswer(w, old(now), op.ls, op.leader).Some?)
                && (forall s | s in op'.members :: s in op.doneMembers)
                && (forall s | s in op'.learners :: s in op.doneLearners)
    {
      hide Missing;
      op', ret := op, Eagain;
      var leader := FindLeader(op.ls, op.leader);
      op' := op'.(leader := leader);
      if leader.None? {
        return;
      }
      if !op.hasList {
        var answer := AskLeader(op.ls, leader.value);
        if answer.None? {
          op' := op'.(leader := None);
          return;
        }
        assert log[|log| - 1] == Reported(op.ls, leader.value, answer.value);
        op' := op'.(hasList := true, members := answer.value.members, learners := answer.value.learners);
      }
      var retMember := FlashbackList(op', op'.members, op'.doneMembers);
      var retLearner := FlashbackList(op', op'.learners, op'.doneLearners);
      if retMember.Success? && retLearner.Success? {
        ret := Success;
      }
    }

    // The operators of this flashback, with what they remember.
    ghost predicate ExecsFor(ops: seq<ExecOp>, modes: seq<ChangeOp>, log: seq<Event>, mark: nat) {
      && |ops| == |modes| && mark <= |log|
      && forall j | 0 <= j < |ops| ::
           ops[j].ls == modes[j].ls && ops[j].version == modes[j].version && ExecOpOk(log, mark, ops[j])
    }

    /** A reply counts only for the log stream and mode version it carries, and only from a listed replica. */
    method HandleFlashbackResp(msg: Msg, ghost modes: seq<ChangeOp>, ghost mark: nat)
      requires ExecsFor(flashbackOps, modes, log, mark)
      modifies this`flashbackOps, this`log
      ensures log == old(log) + [Handled(msg)] && ExecsFor(flashbackOps, modes, log, mark)
      ensures var i := FirstMatch(old(flashbackOps), msg, 0);
              flashbackOps ==
                if i < |old(flashbackOps)| then old(flashbackOps)[i := Recorded(old(flashbackOps)[i], msg.src)]
                else old(flashbackOps)
      ensures forall j | 0 <= j < |flashbackOps| :: SameReplicas(old(flashbackOps)[j], flashbackOps[j])
      ensures forall i |
                0 <= i < |old(flashbackOps)| && old(flashbackOps)[i].hasList && IsFirst(old(flashbackOps), msg, i) ::
                && (msg.src in old(flashbackOps)[i].members ==> msg.src in flashbackOps[i].doneMembers)
                && (msg.src !in old(flashbackOps)[i].members && msg.src in old(flashbackOps)[i].learners ==>
                      msg.src in flashbackOps[i].doneLearners)
    {
      hide ExecOpOk, Executed;
      log := log + [Handled(msg)];
      assert log[|log| - 1] == Handled(msg);
      ExecsLast(old(log), log, mark, flashbackOps);
      var i := 0;
      while i < |flashbackOps| && !(msg.ls == flashbackOps[i].ls && msg.version == flashbackOps[i].version)
        invariant 0 <= i <= |flashbackOps| && FirstMatch(flashbackOps, msg, 0) == FirstMatch(flashbackOps, msg, i)
      {
        i := i + 1;
      }
      if i < |flashbackOps| {
        var op := flashbackOps[i];
        RecordedIsOk(log, mark, op, msg.src);
        if op.hasList {
          if msg.src in op.members {
            op := op.(doneMembers := op.doneMembers + {msg.src});
          } else if msg.src in op.learners {
            op := op.(doneLearners := op.doneLearners + {msg.src});
          }
          flashbackOps := flashbackOps[i := op];
        }
      }
    }

    // Replies that have arrived by now, in any number and order.
    method HandleInbox(ghost modes: seq<ChangeOp>, ghost mark: nat)
      requires ExecsFor(flashbackOps, modes, log, mark)
      modifies this`flashbackOps, this`log
      ensures old(log) <= log && NothingSent(log, |old(log)|) && ExecsFor(flashbackOps, modes, log, mark)
      ensures forall j | 0 <= j < |flashbackOps| :: SameReplicas(old(flashbackOps)[j], flashbackOps[j])
      ensures flashbackOps == Heard(old(flashbackOps), w.inbox(now), |w.inbox(now)|)
    {
      hide ExecOpOk, FirstMatch, Recorded, IsFirst;
      var inbox := w.inbox(now);
      for i := 0 to |inbox|
        invariant flashbackOps == Heard(old(flashbackOps), inbox, i)
        invariant old(log) <= log && NothingSent(log, |old(log)|) && ExecsFor(flashbackOps, modes, log, mark)
        invariant forall j | 0 <= j < |flashbackOps| :: SameReplicas(old(flashbackOps)[j], flashbackOps[j])
      {
        HandleFlashbackResp(inbox[i], modes, mark);
      }
    }

    method MotivateFlashback(ghost modes: seq<ChangeOp>, ghost mark: nat, ghost since: nat) returns (ret: Ret)
      requires ExecsFor(flashbackOps, modes, log, mark) && SentFor(log, mark, modes, since) && since <= now
      modifies this`now, this`log, this`flashbackOps
      ensures old(now) <= now && old(log) <= log
      ensures ExecsFor(flashbackOps, modes, log, mark) && SentFor(log, mark, modes, since)
      ensures CutPass(flashbackOps, now, ret.Success?) == ExecPass(w, old(now), old(flashbackOps), |old(flashbackOps)|)
      ensures ret.Success? ==> forall j | 0 <= j < |flashbackOps| :: Executed(log, mark, flashbackOps[j])
    {
      hide ExecStep, Heard, ExecOpOk, Executed;
      var allSuccess := true;
      for i := 0 to |flashbackOps|
        invariant old(now) <= now && old(log) <= log && |flashbackOps| == |old(flashbackOps)|
        invariant ExecsFor(flashbackOps, modes, log, mark) && SentFor(log, mark, modes, since)
        invariant CutPass(flashbackOps, now, allSuccess) == ExecPass(w, old(now), old(flashbackOps), i)
        invariant allSuccess ==> forall j | 0 <= j < i :: Executed(log, mark, flashbackOps[j])
      {
        ghost var earlier, before := flashbackOps, log;
        HandleInbox(modes, mark);
        ghost var heard := log;
        ExecutedLasts(before, log, mark, earlier, flashbackOps);
        var op', r := SwitchFlashback(flashbackOps[i], mark);
        ExecsLast(heard, log, mark, flashbackOps);
        flashbackOps := flashbackOps[i := op'];
        if !r.Success? { allSuccess := false; }
      }
      ret := if allSuccess then Success else Eagain;
    }

    method DoFlashback(modes: seq<ChangeOp>, deadline: nat) returns (ret: Ret)
      modifies this
      ensures old(now) <= now && old(log) <= log && |flashbackOps| == |modes|
      ensures SentFor(log, |old(log)|, modes, old(now))
      ensures CutPass(flashbackOps, now, ret.Success?) == Execute(w, old(now), NewExecs(modes), deadline)
      ensures ret.Success? ==>
                forall j | 0 <= j < |modes| ::
                  && flashbackOps[j].ls == modes[j].ls && flashbackOps[j].version == modes[j].version
                  && Executed(log, |old(log)|, flashbackOps[j])
    {
      hide ExecPass, Executed, Addressed;
      flashbackOps := NewExecs(modes);
      ret := OpNotAllow;
      ghost var mark, since := |log|, now;
      while now < deadline && !ret.Success?
        invariant old(now) <= now && old(log) <= log
        invariant ExecsFor(flashbackOps, modes, log, mark) && SentFor(log, mark, modes, since)
        invariant Execute(w, old(now), NewExecs(modes), deadline) ==
                    if ret.Success? then CutPass(flashbackOps, now, true) else Execute(w, now, flashbackOps, deadline)
        invariant ret.Success? ==> forall j | 0 <= j < |flashbackOps| :: Executed(log, mark, flashbackOps[j])
        decreases deadline - now
      {
        ret := MotivateFlashback(modes, mark, since);
        now := now + 1;
      }
      if !ret.Success? { ret := OpNotAllow; }
    }

    // ---------------------------------------------------------------- the whole flashback

    // Everything before the first message.
    method GetReady(streams: seq<nat>, scn: int, deadline: nat)
      returns (ret: Ret, modes: seq<ChangeOp>, ghost p: nat, ghost q: nat, ghost r: nat,
               ghost checks: seq<CheckOp>, ghost from: nat, ghost to: nat, ghost synced: seq<Event>)
      modifies this`now, this`log
      ensures old(now) <= now && old(log) <= log && NothingSent(log, |old(log)|) && |old(log)| <= p
      ensures ret.Success? <==> Ready(w, old(now), streams, scn, deadline).ok
      ensures ret.Success? ==> Ready(w, old(now), streams, scn, deadline) == ModePass(modes, now, true)
      ensures ret.Success? ==> Readied(w, synced, log, streams, scn, p, q, r, checks, modes, from, to) && to <= now
    {
      hide ChangeModes, Wait, CheckOpOk, Checked, ReportsArrival;
      p, q, r, checks, from, to, synced := |log|, |log|, |log|, [], now, now, log;
      ret, modes, p := GetAndChangeAccessMode(streams, PrepareFlashback, deadline);
      if !ret.Success? {
        return;
      }
      q, from := |log|, now;
      var checkOps;
      ret, checkOps := WaitAllReplicasLogSync(streams, scn, deadline);
      if !ret.Success? {
        return;
      }
      checks, to, synced := checkOps, now, log;
      ret, modes, r := GetAndChangeAccessMode(streams, FlashbackMode, deadline);
    }

    /**
     No replica of any log stream is told to cut its log before, in this order, one pass in which every leader
     reported PREPARE_FLASHBACK or FLASHBACK (at p), every log stream's sync check (between q and r), and one pass
     in which every leader reported FLASHBACK (at r).  Success means that every replica listed by a leader for the
     last stage has replied for its log stream and the mode version reported in the pass at r.
     */
    method Flashback(streams: seq<nat>, scn: int, deadline: nat)
      returns (ret: Ret, ghost p: nat, ghost q: nat, ghost r: nat,
               ghost checks: seq<CheckOp>, ghost from: nat, ghost to: nat)
      modifies this
      ensures old(now) <= now && old(log) <= log && |old(log)| <= p
      ensures NothingSent(log, |old(log)|) || Staged(w, log, streams, scn, p, q, r, checks, from, to)
      ensures !NothingSent(log, |old(log)|) ==>
                && r + |streams| <= |log| && p + |streams| <= r
                && (forall k | p <= k < p + |streams| ::
                      && log[k].Reported? && log[k].ls == streams[k - p]
                      && (log[k].stat.mode == PrepareFlashback || log[k].stat.mode == FlashbackMode))
                && (forall k | r <= k < r + |streams| ::
                      log[k].Reported? && log[k].ls == streams[k - r] && log[k].stat.mode == FlashbackMode)
      ensures ret.Success? <==> Succeeds(w, old(now), streams, scn, deadline)
      ensures ret.Success? ==>
                && Staged(w, log, streams, scn, p, q, r, checks, from, to) && |flashbackOps| == |streams|
                && forall j | 0 <= j < |streams| ::
                     && flashbackOps[j].ls == streams[j] && flashbackOps[j].version == log[r + j].stat.version
                     && Executed(log, r + |streams|, flashbackOps[j])
    {
      hide Ready, Execute, Executed, Readied, Staged, Addressed;
      var modes;
      ghost var synced;
      ret, modes, p, q, r, checks, from, to, synced := GetReady(streams, scn, deadline);
      if !ret.Success? {
        return;
      }
      ghost var passed := log;
      ret := DoFlashback(modes, deadline);
      ReadiedModes(w, synced, passed, streams, scn, p, q, r, checks, modes, from, to);
      assert forall j | 0 <= j < |streams| ::
          modes[j].ls == streams[j] && log[r + j] == passed[r + j] && modes[j].version == log[r + j].stat.version;
      StagesFollow(w, synced, passed, log, streams, scn, p, q, r, checks, modes, from, to);
      StagedModes(w, log, streams, scn, p, q, r, checks, from, to);
    }
  }
}
