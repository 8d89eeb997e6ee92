/** What every run of the log pool satisfies, as far as ids and files go. */
module LogPoolTheorems {
  import opened LogPool
  import opened LogPoolIds

  lemma {:induction false} EveryStateKeepsInv(run: seq<State>, k: nat)
    requires IsRun(run) && Inv(run[0]) && k < |run|
    ensures Inv(run[k])
  {
    hide Inv, Enabled, Apply;
    if 0 < k {
      EveryStateKeepsInv(run, k - 1);
      assert Linked(run, k - 1);
      var e :| Next(run[k - 1], e, run[k]);
      InvKept(run[k - 1], e);
    }
  }

  lemma FreshIsInv()
    ensures Inv(Fresh())
  {
    assert Ids(map[]) == {} && Slots(map[]) == {};
  }

  // ---------------------------------------------------------------- ids and files

  /**
   In every interleaving of block creation, block removal, expansion and shrinking, after any number of
   crashes: no two takers and no two putters hold the same id, an id of the range or held by a taker is
   either a file or awaited from a putter but not both, and no other file exists.
   */
  lemma IdsStayApart(run: seq<State>, k: nat)
    requires IsRun(run) && run[0] == Fresh() && k < |run| && run[k].phase.Up?
    ensures var s := run[k];
            var taking, putting := TakeIds(s.takes, s.rz), PutIds(s.puts, s.rz);
            && DistinctOps(s.takes) && (s.rz.FreeHeld? ==> s.rz.id !in Ids(s.takes))
            && DistinctOps(s.puts) && (s.rz.MoveHeld? ==> s.rz.id !in Ids(s.puts))
            && (forall id: nat | s.min <= id < s.max || id in taking :: id in s.disk.pool <==> id !in putting)
            && (forall id | id in s.disk.pool || id in putting :: s.min <= id < s.max || id in taking)
  {
    FreshIsInv();
    EveryStateKeepsInv(run, k);
  }

  // The pool id an event renames a file to.
  function RenameTarget(s: State, e: Event): (t: set<nat>) {
    match e
    case PutRename(r) => if r in s.puts then {s.puts[r].id} else {}
    case MoveRename => if s.rz.MoveHeld? then {s.rz.id} else {}
    case TrimMove => {s.max}
    case _ => {}
  }

  lemma RenameTargetIsFree(s: State, e: Event)
    requires Inv(s) && Enabled(s, e)
    ensures RenameTarget(s, e) !! s.disk.pool
  {
    match e
    case PutRename(r) => PartPutRename(s, r);
    case MoveRename => if Active(s) { PartMoveRename(s); }
    case TrimMove => TrimMovesDown(s.min, s.max, s.disk.pool, s.phase.rest);
    case _ =>
  }

  /** No rename into the pool, by a tenant, by an expansion or by a restart, replaces a file. */
  lemma NoRenameOverwrites(run: seq<State>, k: nat, e: Event)
    requires IsRun(run) && run[0] == Fresh() && k < |run| && Enabled(run[k], e)
    ensures RenameTarget(run[k], e) !! run[k].disk.pool
  {
    hide Inv, Enabled, Apply;
    FreshIsInv();
    EveryStateKeepsInv(run, k);
    RenameTargetIsFree(run[k], e);
  }

  predicate Completion(e: Event) {
    e.TakeRename? || e.PutRename? || e.MoveRename? || e.FreeUnlink?
  }

  // Threads that hold an id.
  function Pending(s: State): nat {
    |s.takes| + |s.puts| + Bit(s.rz.MoveHeld?) + Bit(s.rz.FreeHeld?)
  }

  lemma PutterIsEnabled(s: State, id: nat) returns (e: Event)
    requires Inv(s) && s.phase.Up? && id in PutIds(s.puts, s.rz)
    ensures Completion(e) && Enabled(s, e) && RenameTarget(s, e) == {id}
  {
    if s.rz.MoveHeld? && s.rz.id == id {
      e := MoveRename;
    } else {
      var r :| r in s.puts && s.puts[r].id == id;
      assert s.puts[r].slot in Slots(s.puts);
      e := PutRename(r);
    }
  }

  lemma TakerGoesOn(s: State, id: nat) returns (e: Event)
    requires Inv(s) && s.phase.Up? && id in TakeIds(s.takes, s.rz)
    ensures Completion(e) && Enabled(s, e)
    ensures id in s.disk.pool || RenameTarget(s, e) == {id}
  {
    if id !in s.disk.pool {
      assert id in PutIds(s.puts, s.rz);
      e := PutterIsEnabled(s, id);
    } else if s.rz.FreeHeld? && s.rz.id == id {
      e := FreeUnlink;
    } else {
      var r :| r in s.takes && s.takes[r].id == id;
      e := TakeRename(r);
    }
  }

  /**
   In every run a thread that waits for its file waits for a putter of that very file that can go on at once: no
   deadlock, no lost block.
   */
  lemma TakerNeverStuck(run: seq<State>, k: nat, id: nat) returns (e: Event)
    requires IsRun(run) && run[0] == Fresh() && k < |run| && run[k].phase.Up?
    requires id in TakeIds(run[k].takes, run[k].rz)
    ensures Completion(e) && Enabled(run[k], e)
    ensures id in run[k].disk.pool || RenameTarget(run[k], e) == {id}
  {
    hide Inv, Enabled, Apply;
    FreshIsInv();
    EveryStateKeepsInv(run, k);
    e := TakerGoesOn(run[k], id);
  }

  lemma SomeCompletionEnabled(s: State) returns (e: Event)
    requires Inv(s) && s.phase.Up? && 0 < Pending(s)
    ensures Completion(e) && Enabled(s, e)
  {
    if s.puts != map[] {
      var r :| r in s.puts;
      assert s.puts[r].id in Ids(s.puts);
      e := PutterIsEnabled(s, s.puts[r].id);
    } else if s.rz.MoveHeld? {
      e := PutterIsEnabled(s, s.rz.id);
    } else if s.rz.FreeHeld? {
      e := TakerGoesOn(s, s.rz.id);
    } else {
      var r :| r in s.takes;
      assert s.takes[r].id in Ids(s.takes);
      e := TakerGoesOn(s, s.takes[r].id);
    }
  }

  // The files the tenants end up with once all threads under way are done.
  function Eventually(tenant: set<nat>, takes: map<nat, Op>, puts: map<nat, Op>): set<nat> {
    tenant + Slots(takes) - Slots(puts)
  }

  predicate SlotsOk(tenant: set<nat>, takes: map<nat, Op>, puts: map<nat, Op>) {
    DistinctOps(takes) && DistinctOps(puts) && Slots(takes) !! tenant && Slots(puts) <= tenant
  }

  lemma TakeEffect(tenant: set<nat>, takes: map<nat, Op>, puts: map<nat, Op>, r: nat)
    requires SlotsOk(tenant, takes, puts) && r in takes
    ensures Eventually(tenant + {takes[r].slot}, takes - {r}, puts) == Eventually(tenant, takes, puts)
    ensures |takes - {r}| == |takes| - 1
  {
    DropOp(takes, r);
  }

  lemma PutEffect(tenant: set<nat>, takes: map<nat, Op>, puts: map<nat, Op>, r: nat)
    requires SlotsOk(tenant, takes, puts) && r in puts
    ensures Eventually(tenant - {puts[r].slot}, takes, puts - {r}) == Eventually(tenant, takes, puts)
    ensures |puts - {r}| == |puts| - 1
  {
    DropOp(puts, r);
    assert puts[r].slot !in Slots(takes);
  }

  lemma CompletionEffect(s: State, e: Event)
    requires SlotsOk(s.disk.tenant, s.takes, s.puts) && s.phase.Up? && Completion(e) && Enabled(s, e)
    ensures var s' := Apply(s, e);
            && s'.phase == s.phase && s'.min == s.min && s'.max == s.max && s'.inUse == s.inUse
            && Pending(s') == Pending(s) - 1
            && Eventually(s'.disk.tenant, s'.takes, s'.puts) == Eventually(s.disk.tenant, s.takes, s.puts)
  {
    match e
    case TakeRename(r) => TakeEffect(s.disk.tenant, s.takes, s.puts, r);
    case PutRename(r) => PutEffect(s.disk.tenant, s.takes, s.puts, r);
    case _ =>
  }

  // s' is s after one of its pending threads has finished.
  ghost predicate Finishes(s: State, s': State) {
    && Steps(s, s') && s'.phase.Up? && s'.min == s.min && s'.max == s.max && s'.inUse == s.inUse
    && Pending(s') + 1 == Pending(s)
    && Eventually(s'.disk.tenant, s'.takes, s'.puts) == Eventually(s.disk.tenant, s.takes, s.puts)
  }

  lemma OneFinishes(s: State) returns (s': State)
    requires Inv(s) && s.phase.Up? && 0 < Pending(s)
    ensures Inv(s') && Finishes(s, s')
  {
    var e := SomeCompletionEnabled(s);
    s' := Apply(s, e);
    InvKept(s, e);
    CompletionEffect(s, e);
    assert Next(s, e, s');
  }

  lemma NothingPending(s: State)
    requires Inv(s) && s.phase.Up? && Pending(s) == 0
    ensures forall id: nat :: id in s.disk.pool <==> s.min <= id < s.max
    ensures s.disk.tenant == Eventually(s.disk.tenant, s.takes, s.puts) && |s.disk.tenant| == s.inUse
  {
    assert s.takes == map[] && s.puts == map[];
    assert Ids(map[]) == {} && Slots(map[]) == {};
  }

  lemma PrependStep(s: State, tail: seq<State>)
    requires IsRun(tail) && Steps(s, tail[0])
    ensures IsRun([s] + tail)
  {
    var run := [s] + tail;
    forall i | 0 <= i < |run| - 1 ensures Linked(run, i) {
      if 0 < i { assert Linked(tail, i - 1); }
    }
  }

  // A run in which all pending threads finish and nothing else happens.
  ghost predicate Drains(s: State, run: seq<State>) {
    && IsRun(run) && run[0] == s && |run| == Pending(s) + 1
    && var t := run[|run| - 1];
       && Inv(t) && t.phase.Up? && Pending(t) == 0
       && t.min == s.min && t.max == s.max && t.inUse == s.inUse
       && Eventually(t.disk.tenant, t.takes, t.puts) == Eventually(s.disk.tenant, s.takes, s.puts)
  }

  lemma DrainStep(s: State, s': State, tail: seq<State>)
    requires Finishes(s, s') && Drains(s', tail)
    ensures Drains(s, [s] + tail)
  {
    hide Inv, Steps, Linked, Eventually;
    PrependStep(s, tail);
  }

  lemma {:induction false} DrainRun(s: State) returns (run: seq<State>)
    requires Inv(s) && s.phase.Up?
    ensures Drains(s, run)
    decreases Pending(s)
  {
    if Pending(s) == 0 {
      run := [s];
    } else {
      var s' := OneFinishes(s);
      var tail := DrainRun(s');
      DrainStep(s, s', tail);
      run := [s] + tail;
    }
  }

  /**
   From every state of every run, if no further ids are reserved, the threads under way all finish, in as many steps
   as there are threads, and leave exactly the range in the pool and every tenant with the blocks it asked for.
   */
  lemma EveryoneFinishes(run: seq<State>, k: nat) returns (rest: seq<State>, t: State)
    requires IsRun(run) && run[0] == Fresh() && k < |run| && run[k].phase.Up?
    ensures IsRun(rest) && rest[0] == run[k] && |rest| == Pending(run[k]) + 1 && t == rest[|rest| - 1]
    ensures var s := run[k];
            && t.min == s.min && t.max == s.max && (forall id: nat :: id in t.disk.pool <==> s.min <= id < s.max)
            && t.disk.tenant == s.disk.tenant + Slots(s.takes) - Slots(s.puts) && |t.disk.tenant| == s.inUse
  {
    hide Enabled, Apply, Linked;
    FreshIsInv();
    EveryStateKeepsInv(run, k);
    rest := DrainRun(run[k]);
    t := rest[|rest| - 1];
    NothingPending(t);
  }
}
