/**
 The life of a read's task context: who may still touch it, and when it is freed.

 The reading thread makes the context, constructs and pushes the tasks, runs the last one itself, waits and frees
 the context.  Each task runs on whatever thread picks it up, writes its status into the context and signals.
 */
module IoTaskLatch {
  // Where a task stands; after signalling it never uses the context again.
  datatype TaskState = Queued | Running | Written | Signalled

  // Where the reading thread stands.
  datatype Reader =
    | Fresh
    | Constructing       // more tasks to come
    | OwnTask(i: nat)    // runs the last task
    | Waiting
    | Leaving            // about to free the context
    | Gone

  datatype State = State(
    total: nat, inited: bool, alive: bool, flying: int, tasks: map<nat, TaskState>, reader: Reader, complained: bool)

  datatype Event =
    | MakeContext(made: bool, inited: bool) | Construct | WaitTimesOut | WaitSucceeds | Free
    | Start(i: nat) | Write(i: nat) | Signal(i: nat)

  predicate Enabled(s: State, e: Event) {
    match e
    case MakeContext(made, inited) => s.reader.Fresh? && (inited ==> made)
    case Construct => s.reader.Constructing?
    case WaitTimesOut => s.reader.Waiting?
    case WaitSucceeds => s.reader.Waiting? && s.flying <= 0
    case Free => s.reader.Leaving?
    // the last task is the reader's own
    case Start(i) => i in s.tasks && s.tasks[i].Queued? && (i + 1 == s.total <==> s.reader == OwnTask(i))
    case Write(i) => i in s.tasks && s.tasks[i].Running?
    case Signal(i) => i in s.tasks && s.tasks[i].Written?
  }

  function Apply(s: State, e: Event): State
    requires Enabled(s, e)
  {
    match e
    case MakeContext(made, inited) =>
      if inited && 0 < s.total then s.(alive := true, inited := true, flying := s.total, reader := Constructing)
      else s.(alive := made, reader := Leaving)
    case Construct =>
      var i := |s.tasks|;
      s.(tasks := s.tasks[i := Queued], reader := if i + 1 < s.total then Constructing else OwnTask(i))
    case WaitTimesOut => s
    case WaitSucceeds => s.(reader := Leaving)
    case Free => s.(alive := false, reader := Gone)
    case Start(i) => s.(tasks := s.tasks[i := Running])
    case Write(i) => s.(tasks := s.tasks[i := Written])
    case Signal(i) =>
      s.(tasks := s.tasks[i := Signalled],
         // the count is checked before it is lowered
         flying := if 0 < s.flying then s.flying - 1 else s.flying, complained := s.complained || s.flying <= 0,
         reader := if s.reader == OwnTask(i) then Waiting else s.reader)
  }

  predicate Initial(s: State) {
    s.reader.Fresh? && !s.alive && !s.inited && s.tasks == map[] && s.flying == -1 && !s.complained
  }

  ghost predicate Steps(s: State, s': State) {
    exists e :: Enabled(s, e) && s' == Apply(s, e)
  }

  ghost predicate IsRun(run: seq<State>) {
    run != [] && Initial(run[0]) && forall i | 0 <= i < |run| - 1 :: Steps(run[i], run[i + 1])
  }

  // ---------------------------------------------------------------- the invariant

  // Tasks, made or still to be made, that have not signalled.
  function Unsignalled(s: State): set<nat> {
    set i: nat | i < s.total && !(i in s.tasks && s.tasks[i].Signalled?)
  }

  ghost predicate Inv(s: State) {
    && !s.complained
    && (forall i: nat :: i in s.tasks <==> i < |s.tasks|)
    && (s.reader.Fresh? ==> !s.inited && s.tasks == map[])
    && (!s.inited ==> s.tasks == map[] && (s.reader.Fresh? || s.reader.Leaving? || s.reader.Gone?))
    && (s.inited ==> 0 < s.total && s.flying == |Unsignalled(s)|)
    && (s.reader.Constructing? ==> |s.tasks| < s.total)
    && (s.inited && !s.reader.Constructing? ==> |s.tasks| == s.total)
    && (s.reader.OwnTask? ==> s.reader.i + 1 == s.total)
    && (s.inited ==> (s.alive <==> !s.reader.Gone?))
    && (s.inited && (s.reader.Leaving? || s.reader.Gone?) ==> Unsignalled(s) == {})
  }

  lemma SignalLowers(s: State, i: nat)
    requires i in s.tasks && i < s.total && !s.tasks[i].Signalled?
    ensures Unsignalled(s.(tasks := s.tasks[i := Signalled])) == Unsignalled(s) - {i}
    ensures |Unsignalled(s.(tasks := s.tasks[i := Signalled]))| == |Unsignalled(s)| - 1
  {
    var u, u' := Unsignalled(s), Unsignalled(s.(tasks := s.tasks[i := Signalled]));
    assert u' == u - {i};
    assert i in u;
  }

  // A step of a task that does not signal leaves the set as it is.
  lemma MoveKeeps(s: State, i: nat, t: TaskState)
    requires i !in s.tasks || !s.tasks[i].Signalled?
    requires !t.Signalled?
    ensures Unsignalled(s.(tasks := s.tasks[i := t])) == Unsignalled(s)
  {
  }

  lemma KeepSignal(s: State, i: nat)
    requires Inv(s) && Enabled(s, Signal(i))
    ensures Inv(Apply(s, Signal(i)))
  {
    SignalLowers(s, i);
    var s' := Apply(s, Signal(i));
    assert Unsignalled(s') == Unsignalled(s.(tasks := s.tasks[i := Signalled]));
    assert i in Unsignalled(s);
    assert |s'.tasks| == |s.tasks|;
  }

  lemma KeepTaskStep(s: State, e: Event)
    requires Inv(s) && (e.Start? || e.Write?) && Enabled(s, e)
    ensures Inv(Apply(s, e))
  {
    var s' := Apply(s, e);
    MoveKeeps(s, e.i, s'.tasks[e.i]);
    assert |s'.tasks| == |s.tasks|;
  }

  lemma KeepConstruct(s: State)
    requires Inv(s) && Enabled(s, Construct)
    ensures Inv(Apply(s, Construct))
  {
    MoveKeeps(s, |s.tasks|, Queued);
    var s' := Apply(s, Construct);
    assert Unsignalled(s') == Unsignalled(s.(tasks := s.tasks[|s.tasks| := Queued]));
    assert |s'.tasks| == |s.tasks| + 1;
  }

  // Nothing has signalled yet.
  lemma AllUnsignalled(s: State)
    requires s.tasks == map[]
    ensures |Unsignalled(s)| == s.total
  {
    BelowCounts(s.total);
    assert Unsignalled(s) == Below(s.total);
  }

  function Below(n: nat): set<nat> {
    if n == 0 then {} else Below(n - 1) + {n - 1}
  }

  lemma {:induction false} BelowCounts(n: nat)
    ensures |Below(n)| == n && forall i: nat :: i in Below(n) <==> i < n
  {
    if 0 < n {
      BelowCounts(n - 1);
      assert n - 1 !in Below(n - 1);
    }
  }

  lemma InvKept(s: State, e: Event)
    requires Inv(s) && Enabled(s, e)
    ensures Inv(Apply(s, e))
  {
    match e
    case MakeContext(_, _) =>
      AllUnsignalled(s);
      assert Unsignalled(Apply(s, e)) == Unsignalled(s);
    case Construct => KeepConstruct(s);
    case Start(_) => KeepTaskStep(s, e);
    case Write(_) => KeepTaskStep(s, e);
    case Signal(i) => KeepSignal(s, i);
    case _ => assert Unsignalled(Apply(s, e)) == Unsignalled(s);
  }

  lemma {:induction false} EveryStateKeepsInv(run: seq<State>, k: nat)
    requires IsRun(run) && k < |run|
    ensures Inv(run[k])
  {
    if 0 < k {
      EveryStateKeepsInv(run, k - 1);
      assert Steps(run[k - 1], run[k]);
      var e :| Enabled(run[k - 1], e) && run[k] == Apply(run[k - 1], e);
      InvKept(run[k - 1], e);
    }
  }

  // ---------------------------------------------------------------- theorems

  /** In every schedule the count is the number of tasks that have not signalled, and no signal finds it at zero. */
  lemma CountIsExact(run: seq<State>, k: nat)
    requires IsRun(run) && k < |run|
    ensures run[k].inited ==> run[k].flying == |Unsignalled(run[k])|
    ensures !run[k].complained
  {
    EveryStateKeepsInv(run, k);
  }

  /** The wait succeeds only when every task has been made and has signalled. */
  lemma WaitMeansDone(run: seq<State>, k: nat, i: nat)
    requires IsRun(run) && k < |run| && Enabled(run[k], WaitSucceeds) && i < run[k].total
    ensures i in run[k].tasks && run[k].tasks[i].Signalled?
  {
    EveryStateKeepsInv(run, k);
    assert Unsignalled(run[k]) == {};
    assert i !in Unsignalled(run[k]);
  }

  /** Whatever happens, including failures before any task is made, no task ever touches a freed context. */
  lemma NoUseAfterFree(run: seq<State>, k: nat, e: Event)
    requires IsRun(run) && k < |run| && Enabled(run[k], e) && (e.Start? || e.Write? || e.Signal?)
    ensures run[k].alive && !run[k].reader.Leaving?
  {
    EveryStateKeepsInv(run, k);
    assert e.i in Unsignalled(run[k]);
  }

  // ---------------------------------------------------------------- everyone gets there

  /** A task that has been pushed starts, writes and signals at any time, whatever the reader and the others are at. */
  lemma TasksAreFree(s: State, i: nat)
    requires i in s.tasks
    ensures s.tasks[i].Queued? && i + 1 != s.total && s.reader != OwnTask(i) ==>
              Steps(s, s.(tasks := s.tasks[i := Running]))
    ensures s.tasks[i].Running? ==> Steps(s, s.(tasks := s.tasks[i := Written]))
    ensures s.tasks[i].Written? ==> exists s' :: Steps(s, s') && s'.tasks == s.tasks[i := Signalled]
  {
    assert s.tasks[i].Queued? && i + 1 != s.total && s.reader != OwnTask(i) ==> Enabled(s, Start(i));
    assert s.tasks[i].Running? ==> Enabled(s, Write(i));
    if s.tasks[i].Written? {
      assert Enabled(s, Signal(i));
      assert Steps(s, Apply(s, Signal(i)));
    }
  }

  // Once all tasks are made, the reader is with its own task exactly until that has signalled.
  ghost predicate OwnIsDone(s: State) {
    s.inited && !s.reader.Constructing? ==>
      0 < s.total && s.total - 1 in s.tasks && (s.tasks[s.total - 1].Signalled? <==> !s.reader.OwnTask?)
  }

  lemma {:induction false} OwnTaskFirst(run: seq<State>, k: nat)
    requires IsRun(run) && k < |run|
    ensures Inv(run[k]) && OwnIsDone(run[k])
  {
    EveryStateKeepsInv(run, k);
    if 0 < k {
      OwnTaskFirst(run, k - 1);
      assert Steps(run[k - 1], run[k]);
      var e :| Enabled(run[k - 1], e) && run[k] == Apply(run[k - 1], e);
    }
  }

  lemma Extend(run: seq<State>, e: Event)
    requires IsRun(run) && Enabled(run[|run| - 1], e)
    ensures IsRun(run + [Apply(run[|run| - 1], e)])
  {
    var run' := run + [Apply(run[|run| - 1], e)];
    forall i | 0 <= i < |run'| - 1 ensures Steps(run'[i], run'[i + 1]) {
      if i < |run| - 1 { assert Steps(run[i], run[i + 1]); }
    }
  }

  // One task, from wherever it stands.
  lemma {:induction false} TaskEnds(run: seq<State>, i: nat) returns (run': seq<State>)
    requires IsRun(run) && i in run[|run| - 1].tasks && i < run[|run| - 1].total
    requires run[|run| - 1].inited && !run[|run| - 1].reader.Constructing?
    ensures IsRun(run') && run <= run'
    ensures var s, t := run[|run| - 1], run'[|run'| - 1];
            && t.total == s.total && t.inited && !t.reader.Constructing? && Unsignalled(t) == Unsignalled(s) - {i}
    decreases match run[|run| - 1].tasks[i] case Queued => 3 case Running => 2 case Written => 1 case Signalled => 0
  {
    var s := run[|run| - 1];
    OwnTaskFirst(run, |run| - 1);
    if s.tasks[i].Signalled? {
      run' := run;
    } else {
      var e := if s.tasks[i].Queued? then Start(i) else if s.tasks[i].Running? then Write(i) else Signal(i);
      Extend(run, e);
      var s' := Apply(s, e);
      assert Unsignalled(s') - {i} == Unsignalled(s) - {i};
      run' := TaskEnds(run + [s'], i);
    }
  }

  lemma {:induction false} TasksEnd(run: seq<State>) returns (run': seq<State>)
    requires IsRun(run) && run[|run| - 1].inited && !run[|run| - 1].reader.Constructing?
    ensures IsRun(run') && run <= run'
    ensures var t := run'[|run'| - 1]; t.inited && !t.reader.Constructing? && Unsignalled(t) == {}
    decreases |Unsignalled(run[|run| - 1])|
  {
    var s := run[|run| - 1];
    EveryStateKeepsInv(run, |run| - 1);
    if Unsignalled(s) == {} {
      run' := run;
    } else {
      var i :| i in Unsignalled(s);
      var more := TaskEnds(run, i);
      run' := TasksEnd(more);
    }
  }

  lemma {:induction false} TasksAreMade(run: seq<State>) returns (run': seq<State>)
    requires IsRun(run) && run[|run| - 1].reader.Constructing?
    ensures IsRun(run') && run <= run' && run'[|run'| - 1].inited && !run'[|run'| - 1].reader.Constructing?
    decreases run[|run| - 1].total - |run[|run| - 1].tasks|
  {
    var s := run[|run| - 1];
    EveryStateKeepsInv(run, |run| - 1);
    Extend(run, Construct);
    run' := run + [Apply(s, Construct)];
    assert |s.tasks[|s.tasks| := Queued]| == |s.tasks| + 1;
    if Apply(s, Construct).reader.Constructing? { run' := TasksAreMade(run'); }
  }

  /** From every state of every schedule the reader can get its tasks done, free the context and go. */
  lemma ReaderCanLeave(run: seq<State>) returns (run': seq<State>)
    requires IsRun(run)
    ensures IsRun(run') && run <= run' && run'[|run'| - 1].reader.Gone? && !run'[|run'| - 1].complained
    ensures run'[|run'| - 1].inited ==> Unsignalled(run'[|run'| - 1]) == {}
  {
    hide Steps, Unsignalled;
    run' := run;
    if run[|run| - 1].reader.Fresh? {
      Extend(run, MakeContext(true, true));
      run' := run + [Apply(run[|run| - 1], MakeContext(true, true))];
    }
    EveryStateKeepsInv(run', |run'| - 1);
    if run'[|run'| - 1].reader.Constructing? { run' := TasksAreMade(run'); }
    if run'[|run'| - 1].inited { run' := TasksEnd(run'); }
    EveryStateKeepsInv(run', |run'| - 1);
    AllSignalled(run');
    run' := LastSteps(run');
  }

  lemma AllSignalled(run: seq<State>)
    requires IsRun(run) && (run[|run| - 1].inited ==> Unsignalled(run[|run| - 1]) == {})
    requires !run[|run| - 1].reader.Fresh? && !run[|run| - 1].reader.Constructing?
    ensures !run[|run| - 1].reader.OwnTask?
  {
    OwnTaskFirst(run, |run| - 1);
    var s := run[|run| - 1];
    assert s.inited ==> s.total - 1 !in Unsignalled(s);
  }

  lemma LastSteps(run: seq<State>) returns (run': seq<State>)
    requires IsRun(run) && (run[|run| - 1].inited ==> Unsignalled(run[|run| - 1]) == {})
    requires run[|run| - 1].reader.Waiting? || run[|run| - 1].reader.Leaving? || run[|run| - 1].reader.Gone?
    ensures IsRun(run') && run <= run' && run'[|run'| - 1].reader.Gone? && !run'[|run'| - 1].complained
    ensures run'[|run'| - 1].inited ==> Unsignalled(run'[|run'| - 1]) == {}
  {
    run' := run;
    EveryStateKeepsInv(run, |run| - 1);
    if run'[|run'| - 1].reader.Waiting? {
      Extend(run', WaitSucceeds);
      run' := run' + [Apply(run'[|run'| - 1], WaitSucceeds)];
    }
    if run'[|run'| - 1].reader.Leaving? {
      Extend(run', Free);
      run' := run' + [Apply(run'[|run'| - 1], Free)];
    }
    EveryStateKeepsInv(run', |run'| - 1);
  }

  // ---------------------------------------------------------------- the context

  // How many signals the first k wake-ups come with.
  function Signals(wakeups: seq<Wakeup>, k: nat): nat
    requires k <= |wakeups|
  {
    if k == 0 then 0 else Signals(wakeups, k - 1) + wakeups[k - 1].signals
  }

  lemma {:induction false} SignalsGrow(wakeups: seq<Wakeup>, j: nat, k: nat)
    requires j <= k <= |wakeups|
    ensures Signals(wakeups, j) <= Signals(wakeups, k)
  {
    if j < k { SignalsGrow(wakeups, j, k - 1); }
  }

  // The signals of the first k wake-ups are enough, and none of these is a time-out.
  ghost predicate Enough(wakeups: seq<Wakeup>, k: nat, flying: int)
    requires k <= |wakeups|
  {
    flying <= Signals(wakeups, k) && forall i | 0 <= i < k :: !wakeups[i].timedOut
  }

  datatype Ret = Success | InitTwice | InvalidArgument | Failed | Timeout

  // A wait on the condition releases the lock: others signal meanwhile, and it may time out.
  datatype Wakeup = Wakeup(signals: nat, timedOut: bool)

  class IoTaskCtx {
    var inited: bool
    var flying: int
    // tasks, made or still to be made, that have not signalled
    ghost var left: set<nat>

    ghost predicate Valid()
      reads this
    {
      inited ==> flying == |left|
    }

    constructor ()
      ensures Valid() && !inited && flying == -1
    {
      inited, flying, left := false, -1, {};
    }

    method Init(total: int, conditionOk: bool, memoryOk: bool) returns (ret: Ret)
      requires Valid()
      modifies this
      ensures Valid()
      ensures ret.Success? <==> !old(inited) && 0 < total && conditionOk && memoryOk
      ensures ret.Success? ==> inited && flying == total && forall i: nat :: i in left <==> i < total
      ensures ret.InitTwice? <==> old(inited)
      ensures old(inited) ==> unchanged(this)
      ensures !ret.Success? && !old(inited) ==> !inited && flying == -1
    {
      if inited {
        ret := InitTwice;
      } else if total <= 0 {
        ret, flying := InvalidArgument, -1;
      } else if !conditionOk || !memoryOk {
        ret, flying := Failed, -1;
      } else {
        BelowCounts(total);
        flying, inited, ret := total, true, Success;
        left := Below(total);
      }
    }

    // The error of a count that is not positive never happens.
    method Signal(ghost i: nat) returns (broadcast: bool)
      requires Valid() && inited && i in left
      modifies this`flying, this`left
      ensures Valid() && left == old(left) - {i} && flying == old(flying) - 1
      ensures broadcast <==> left == {}
    {
      assert left != {};
      if 0 < flying { flying := flying - 1; }
      left := left - {i};
      broadcast := flying == 0;
    }

    /**
     The wait succeeds exactly if the signals that come before the first time-out are as many as are still missing; then
     everyone has signalled.
     */
    method Wait(wakeups: seq<Wakeup>) returns (ret: Ret)
      requires Valid() && inited
      modifies this`flying, this`left
      ensures Valid() && left <= old(left)
      ensures ret.Success? ==> left == {} && flying == 0
      ensures ret.Success? <==> exists k: nat | k <= |wakeups| :: Enough(wakeups, k, old(flying))
    {
      ret := Success;
      var k := 0;
      while flying > 0 && ret.Success? && k < |wakeups|
        invariant Valid() && left <= old(left) && 0 <= k <= |wakeups|
        invariant flying == if Signals(wakeups, k) <= old(flying) then old(flying) - Signals(wakeups, k) else 0
        invariant ret.Success? ==> forall i | 0 <= i < k :: !wakeups[i].timedOut
        invariant !ret.Success? ==> 0 < k && wakeups[k - 1].timedOut && Signals(wakeups, k - 1) < old(flying)
      {
        Others(wakeups[k].signals);
        if wakeups[k].timedOut { ret := Timeout; }
        k := k + 1;
      }
      // still waiting when nothing more is heard
      ghost var timedOut := !ret.Success?;
      if flying > 0 { ret := Timeout; }
      if ret.Success? {
        assert Enough(wakeups, k, old(flying));
      } else {
        forall j: nat | j <= |wakeups| ensures !Enough(wakeups, j, old(flying)) {
          if j < k { SignalsGrow(wakeups, j, k - 1); }
          if k <= j && !timedOut { assert k == |wakeups|; }
        }
      }
    }

    // Other tasks' signals, each task's once.
    method Others(signals: nat)
      requires Valid() && inited
      modifies this`flying, this`left
      ensures Valid() && left <= old(left)
      ensures flying == if signals <= old(flying) then old(flying) - signals else 0
    {
      for j := 0 to signals
        invariant Valid() && left <= old(left)
        invariant flying == if j <= old(flying) then old(flying) - j else 0
      {
        if flying > 0 {
          ghost var i :| i in left;
          var _ := Signal(i);
        }
      }
    }
  }
}
