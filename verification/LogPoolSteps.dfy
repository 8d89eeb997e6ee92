/**
 When a thread may take its next step, as seen from outside: by the states that can follow, whatever the other threads
 are at and whatever files there are.
 */
module LogPoolSteps {
  import opened LogPool
  import opened LogPoolIds
  import opened LogPoolTheorems
  import opened LogPoolSizes
  import opened LogPoolRuns

  // ---------------------------------------------------------------- reserving ids

  lemma StepOf(s: State, e: Event)
    requires Enabled(s, e)
    ensures Steps(s, Apply(s, e))
  {
    assert Next(s, e, Apply(s, e));
  }

  lemma TakesGrow(s: State, e: Event, s': State, r: nat)
    requires Next(s, e, s') && r in s'.takes && r !in s.takes
    ensures s.min < s.max
  {
    hide RangeOf, Sorted, LowerAlign, BlockCount;
  }

  lemma PutsGrow(s: State, e: Event, s': State, r: nat)
    requires Next(s, e, s') && r in s'.puts && r !in s.puts
    ensures s'.puts[r].slot in s.disk.tenant && s'.puts[r].slot !in Slots(s.puts)
  {
    hide RangeOf, Sorted, LowerAlign, BlockCount;
  }

  lemma QuotaChanges(s: State, e: Event, s': State)
    requires Next(s, e, s') && s'.phase.Up? && s.phase.Up? && s'.quota != s.quota
    ensures s.rz.Idle? && s'.quota <= s.disk.meta.curr
  {
    hide RangeOf, Sorted, Slots, LowerAlign, BlockCount;
  }

  lemma TakesShrink(s: State, e: Event, s': State, r: nat)
    requires Next(s, e, s') && s.phase.Up? && s'.phase.Up? && r in s.takes && r !in s'.takes
    ensures s.takes[r].id in s.disk.pool
  {
    hide RangeOf, Sorted, Slots, LowerAlign, BlockCount;
  }

  lemma ResizeBegins(s: State, e: Event, s': State)
    requires Next(s, e, s') && s.phase.Up? && s.rz.Idle? && !s'.rz.Idle?
    ensures s'.disk.meta.next != s.disk.meta.curr && s.quota <= s'.disk.meta.next
  {
    hide RangeOf, Sorted, Slots, LowerAlign, BlockCount;
  }

  lemma FreeFinishes(s: State, e: Event, s': State)
    requires Next(s, e, s') && s.rz.FreeHeld? && s'.rz.Freeing? && s'.rz.freed == s.rz.freed + 1
    requires s'.rz.prior == s.rz.prior && s'.rz.want == s.rz.want
    ensures s.rz.id in s.disk.pool || !s.phase.Up?
  {
    hide RangeOf, Sorted, Slots, LowerAlign, BlockCount;
  }

  /** A taker gets the lowest id exactly if the range is not empty, even if the file of that id is still to come. */
  lemma TakerMayReserveIff(s: State, r: nat, slot: nat)
    requires s.phase.Up? && r !in s.takes && slot !in s.disk.tenant && slot !in Slots(s.takes)
    ensures (exists s' :: Steps(s, s') && s'.min == s.min + 1 && s'.takes == s.takes[r := Op(s.min, slot)])
            <==> s.min < s.max
  {
    if s.min < s.max {
      StepOf(s, TakeReserve(r, slot));
    }
    if s' :| Steps(s, s') && s'.min == s.min + 1 && s'.takes == s.takes[r := Op(s.min, slot)] {
      hide Enabled, Apply;
      var e :| Next(s, e, s');
      TakesGrow(s, e, s', r);
    }
  }

  /** A putter gets the id past the highest exactly if the tenant has the file and no one else is returning it. */
  lemma PutterMayReserveIff(s: State, r: nat, slot: nat)
    requires s.phase.Up? && r !in s.puts
    ensures (exists s' :: Steps(s, s') && s'.max == s.max + 1 && s'.puts == s.puts[r := Op(s.max, slot)])
            <==> slot in s.disk.tenant && slot !in Slots(s.puts)
  {
    if slot in s.disk.tenant && slot !in Slots(s.puts) {
      StepOf(s, PutReserve(r, slot));
    }
    if s' :| Steps(s, s') && s'.max == s.max + 1 && s'.puts == s.puts[r := Op(s.max, slot)] {
      hide Enabled, Apply;
      var e :| Next(s, e, s');
      PutsGrow(s, e, s', r);
    }
  }

  /** A shrink that is not done takes the lowest id exactly if the range is not empty, and otherwise gives up. */
  lemma ResizerMayReserveIff(s: State)
    requires s.rz.Freeing? && s.rz.freed < s.rz.want
    ensures (exists s' :: Steps(s, s') && s'.min == s.min + 1
                          && s'.rz == FreeHeld(s.rz.prior, s.rz.want, s.rz.freed, s.min))
            <==> s.min < s.max
    ensures (exists s' :: Steps(s, s') && s'.rz == Committing(s.rz.prior, false)) <==> s.min == s.max
    ensures !exists s' :: Steps(s, s') && s'.rz == Committing(s.rz.prior, true)
  {
    if s.min < s.max {
      assert Next(s, FreeReserve, FreeReserved(s));
      assert Steps(s, FreeReserved(s));
    } else if s.min == s.max {
      var s' := s.(rz := Committing(s.rz.prior, false));
      assert Next(s, FreeFail, s');
      assert Steps(s, s');
    }
    forall s', e | Next(s, e, s') && s'.rz != s.rz
      ensures s'.rz.FreeHeld? ==> s.min < s.max
      ensures s'.rz.Committing? ==> s.min == s.max && !s'.rz.ok
    {
    }
  }

  // ---------------------------------------------------------------- finishing

  /** A taker's rename goes through exactly if the file is there. */
  lemma TakerMayFinishIff(s: State, r: nat)
    requires s.phase.Up? && r in s.takes
    ensures (exists s' :: Steps(s, s') && s'.phase.Up? && s'.takes == s.takes - {r})
            <==> s.takes[r].id in s.disk.pool
  {
    if s.takes[r].id in s.disk.pool {
      StepOf(s, TakeRename(r));
    }
    if s' :| Steps(s, s') && s'.phase.Up? && s'.takes == s.takes - {r} {
      hide Enabled, Apply;
      var e :| Next(s, e, s');
      TakesShrink(s, e, s', r);
    }
  }

  /** The unlink of a shrink, too. */
  lemma ResizerMayFinishIff(s: State)
    requires s.phase.Up? && s.rz.FreeHeld?
    ensures (exists s' :: Steps(s, s') && s'.rz == Freeing(s.rz.prior, s.rz.want, s.rz.freed + 1))
            <==> s.rz.id in s.disk.pool
  {
    if s.rz.id in s.disk.pool {
      StepOf(s, FreeUnlink);
    }
    if s' :| Steps(s, s') && s'.rz == Freeing(s.rz.prior, s.rz.want, s.rz.freed + 1) {
      hide Enabled, Apply;
      var e :| Next(s, e, s');
      FreeFinishes(s, e, s');
    }
  }

  // ---------------------------------------------------------------- resizing, promising, crashing

  /**
   A running server takes up a resize to a size exactly if none is under way, the size in whole blocks is another one
   and it covers what the tenants are promised, whatever the tenants' threads are at.
   */
  lemma ResizeMayBeginIff(s: State, blocks: nat)
    requires s.phase.Up? && s.rz.Idle?
    ensures (exists s' :: Steps(s, s') && !s'.rz.Idle? && s'.disk.meta.next == Bytes(blocks))
            <==> Bytes(blocks) != s.disk.meta.curr && s.quota <= Bytes(blocks)
  {
    if Bytes(blocks) != s.disk.meta.curr && s.quota <= Bytes(blocks) {
      LowerAlignIsFloor(Bytes(blocks));
      StepOf(s, Begin(Bytes(blocks)));
    }
    if s' :| Steps(s, s') && !s'.rz.Idle? && s'.disk.meta.next == Bytes(blocks) {
      hide Enabled, Apply;
      var e :| Next(s, e, s');
      ResizeBegins(s, e, s');
    }
  }

  /** What the tenants are promised changes exactly if no resize is under way and the size covers it. */
  lemma QuotaMayChangeIff(s: State, q: int)
    requires s.phase.Up? && q != s.quota
    ensures (exists s' :: Steps(s, s') && s'.phase.Up? && s'.quota == q) <==> s.rz.Idle? && q <= s.disk.meta.curr
  {
    if s.rz.Idle? && q <= s.disk.meta.curr {
      StepOf(s, SetQuota(q));
    }
    if s' :| Steps(s, s') && s'.phase.Up? && s'.quota == q {
      hide Enabled, Apply;
      var e :| Next(s, e, s');
      QuotaChanges(s, e, s');
    }
  }

  lemma MayCrash(s: State)
    ensures Steps(s, Rebooted(s.disk))
  {
    assert Next(s, Crash, Rebooted(s.disk));
  }

  // ---------------------------------------------------------------- waiting

  // A server with one block, which a tenant has begun to return.
  lemma OneComingBack() returns (run: seq<State>, s: State)
    ensures History(run, s) && s.phase.Up? && s.rz.Idle? && s.takes == map[] && s.puts == map[0 := Op(1, 7)]
    ensures s.min == 1 && s.max == 2 && s.quota == 0 && s.disk.tenant == {7} && s.disk.pool == {}
    ensures s.disk.meta == Meta(Bytes(1), Bytes(1), NormalStatus)
  {
    var s0;
    run, s0 := Grown(1);
    CalmPool(run, s0);
    assert Slots(map[]) == {};
    run, s0 := CreateSteps(run, s0, 0, 7);
    assert s0.disk.pool == {};
    Extend(run, s0, PutReserve(0, 7));
    s := PutReserved(s0, 0, 7);
    run := run + [s];
  }

  /** A taker can come to hold an id whose file is still on its way; it then waits for exactly one step. */
  lemma TakerCanWait() returns (run: seq<State>, s: State)
    ensures History(run, s) && s.phase.Up? && s.takes == map[1 := Op(1, 8)] && s.puts == map[0 := Op(1, 7)]
    ensures 1 !in s.disk.pool && !exists s' :: Steps(s, s') && s'.phase.Up? && s'.takes == map[]
  {
    var s0;
    run, s0 := OneComingBack();
    assert Slots(map[]) == {};
    Extend(run, s0, TakeReserve(1, 8));
    s := TakeReserved(s0, 1, 8);
    run := run + [s];
    TakerMayFinishIff(s, 1);
    assert s.takes - {1} == map[];
  }

  lemma BeginShrinksToNothing(s: State)
    requires s.phase.Up? && s.rz.Idle? && s.disk.meta == Meta(Bytes(1), Bytes(1), NormalStatus) && s.quota == 0
    ensures Enabled(s, Begin(0))
    ensures Begun(s, 0) ==
            s.(disk := s.disk.(meta := Meta(Bytes(1), 0, ShrinkingStatus)), rz := Freeing(s.disk.meta, 1, 0))
  {
    BlockCountOfBytes(0);
    BlockCountOfBytes(1);
  }

  /** So can a shrink. */
  lemma ResizerCanWait() returns (run: seq<State>, s: State)
    ensures History(run, s) && s.phase.Up? && s.rz.FreeHeld? && s.rz.id == 1 && s.puts == map[0 := Op(1, 7)]
    ensures 1 !in s.disk.pool
    ensures !exists s' :: Steps(s, s') && s'.rz == Freeing(s.rz.prior, s.rz.want, s.rz.freed + 1)
  {
    hide Begun, LowerAlign, BlockCount;
    var s0;
    run, s0 := OneComingBack();
    BeginShrinksToNothing(s0);
    Extend(run, s0, Begin(0));
    var s1 := Begun(s0, 0);
    run := run + [s1];
    Extend(run, s1, FreeReserve);
    s := FreeReserved(s1);
    run := run + [s];
    ResizerMayFinishIff(s);
  }
}
