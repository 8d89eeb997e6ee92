/** A read of an external file, split into tasks that may finish in any order. */
module ExternalRead {
  type Byte = bv8

  const CONCURRENCY_LIMIT: nat := 128
  const SINGLE_TASK_MINIMUM_SIZE: nat := 0x20_0000

  // Read `size` bytes at `offset` of the file to `pos` of the buffer.
  datatype Task = Task(offset: nat, pos: nat, size: nat)

  // What a task comes back with: that many of its bytes, or an error.
  datatype Outcome = Read(bytes: nat) | Error

  datatype Ret = Success | InvalidArgument | FileLengthInvalid | IoError

  // ---------------------------------------------------------------- splitting

  function Min(a: int, b: int): int {
    if a < b then a else b
  }

  // get_async_task_count_
  function TaskCount(concurrency: nat, size: nat): (n: nat)
    ensures 1 <= n
    ensures n <= concurrency || n == 1
    ensures n == 1 || (n - 1) * SINGLE_TASK_MINIMUM_SIZE < size
    ensures concurrency <= n || size <= n * SINGLE_TASK_MINIMUM_SIZE
  {
    var wanted := Min(concurrency, (size + SINGLE_TASK_MINIMUM_SIZE - 1) / SINGLE_TASK_MINIMUM_SIZE);
    if wanted < 1 then 1 else wanted
  }

  function CeilDiv(a: nat, b: nat): nat
    requires 0 < b
  {
    (a + b - 1) / b
  }

  lemma CeilDivBounds(a: nat, b: nat)
    requires 0 < b
    ensures a <= b * CeilDiv(a, b) < a + b
  {
    var c := CeilDiv(a, b);
    assert a + b - 1 == b * c + (a + b - 1) % b;
  }

  /** The last task is left something: all tasks but one do not cover the range. */
  lemma LastTaskIsNotEmpty(size: nat, n: nat)
    requires 0 < size && 1 <= n <= CONCURRENCY_LIMIT && (n == 1 || (n - 1) * SINGLE_TASK_MINIMUM_SIZE < size)
    ensures 0 < CeilDiv(size, n) && (n - 1) * CeilDiv(size, n) < size
  {
    var t := CeilDiv(size, n);
    CeilDivBounds(size, n);
    assert (n - 1) * t == n * t - t;
    if 1 < n {
      assert SINGLE_TASK_MINIMUM_SIZE < size;
      MulLe(n, CONCURRENCY_LIMIT, n);
      assert n <= t by {
        if t < n { MulLe(t, n, n); }
      }
    }
  }

  // The i-th of n tasks.
  function TaskAt(offset: nat, size: nat, n: nat, i: nat): Task
    requires i < n && (n - 1) * CeilDiv(size, n) < size
  {
    var t := CeilDiv(size, n);
    MulLe(i, n - 1, t);
    Task(offset + i * t, i * t, Min(size - i * t, t))
  }

  /** Nonempty tasks, one after the other, from offset to offset + size, written to the same places of the buffer. */
  ghost predicate Covers(tasks: seq<Task>, offset: nat, size: nat) {
    && tasks != [] && tasks[0].pos == 0
    && (forall i | 0 <= i < |tasks| :: 0 < tasks[i].size && tasks[i].offset == offset + tasks[i].pos)
    && (forall i, j | 0 <= i < j < |tasks| && j == i + 1 :: tasks[i].pos + tasks[i].size == tasks[j].pos)
    && tasks[|tasks| - 1].pos + tasks[|tasks| - 1].size == size
  }

  // Where a task starts, or the whole size past the last task.
  function PosOr(tasks: seq<Task>, i: nat, size: nat): nat {
    if i < |tasks| then tasks[i].pos else size
  }

  ghost predicate IsSplit(tasks: seq<Task>, offset: nat, size: nat) {
    && tasks != [] && (|tasks| - 1) * CeilDiv(size, |tasks|) < size
    && forall i | 0 <= i < |tasks| :: tasks[i] == TaskAt(offset, size, |tasks|, i)
  }

  // construct_async_tasks_and_push_them_into_thread_pool_, without the pushing
  method ConstructTasks(concurrency: nat, offset: nat, size: nat) returns (tasks: seq<Task>)
    requires concurrency <= CONCURRENCY_LIMIT && 0 < size
    ensures |tasks| == TaskCount(concurrency, size) && IsSplit(tasks, offset, size)
  {
    var n := TaskCount(concurrency, size);
    var taskSize := (size + n - 1) / n;
    LastTaskIsNotEmpty(size, n);
    CeilDivBounds(size, n);
    var remainedCount, remained := n, size;
    var currOffset, currPos := offset, 0;
    tasks := [];
    while 0 < remainedCount
      invariant 0 <= remainedCount <= n && |tasks| == n - remainedCount
      invariant currPos == (if remainedCount == 0 then size else |tasks| * taskSize) && remained == size - currPos
      invariant currOffset == offset + currPos
      invariant forall i | 0 <= i < |tasks| :: tasks[i] == TaskAt(offset, size, n, i)
    {
      StepFits(|tasks|, n, taskSize, size);
      var taskReadSize := Min(remained, taskSize);
      tasks := tasks + [Task(currOffset, currPos, taskReadSize)];
      currOffset := currOffset + taskReadSize;
      currPos := currPos + taskReadSize;
      remained := remained - taskReadSize;
      remainedCount := remainedCount - 1;
    }
  }

  // The k-th of n tasks is full unless it is the last.
  lemma StepFits(k: nat, n: nat, taskSize: nat, size: nat)
    requires k < n && 0 < taskSize && (n - 1) * taskSize < size <= n * taskSize
    ensures k * taskSize < size
    ensures k + 1 < n ==> (k + 1) * taskSize < size
    ensures k + 1 == n ==> size <= (k + 1) * taskSize
    ensures (k + 1) * taskSize == k * taskSize + taskSize
  {
    MulLe(k, n - 1, taskSize);
    if k + 1 < n { MulLe(k + 1, n - 1, taskSize); }
  }

  lemma MulLe(a: nat, b: nat, c: nat)
    requires a <= b
    ensures a * c <= b * c
  {
    assert b * c - a * c == (b - a) * c;
  }

  /** The tasks are nonempty, contiguous and disjoint, and cover the range exactly. */
  lemma SplitCovers(tasks: seq<Task>, offset: nat, size: nat)
    requires IsSplit(tasks, offset, size) && 0 < size
    ensures Covers(tasks, offset, size)
  {
    var n := |tasks|;
    var t := CeilDiv(size, n);
    CeilDivBounds(size, n);
    assert 0 < t;
    forall i | 0 <= i < n
      ensures 0 < tasks[i].size && tasks[i].offset == offset + tasks[i].pos
      ensures tasks[i].pos + tasks[i].size == if i + 1 < n then (i + 1) * t else size
    {
      StepFits(i, n, t, size);
      assert tasks[i] == TaskAt(offset, size, n, i);
    }
    assert forall i | 0 <= i < n :: tasks[i].pos == i * t;
  }

  // ---------------------------------------------------------------- the least size of a task

  /** Every task is as large as the documented minimum exactly when what the last one is left is. */
  lemma MinimumHoldsIff(tasks: seq<Task>, offset: nat, size: nat)
    requires IsSplit(tasks, offset, size) && 0 < size
    ensures (forall i | 0 <= i < |tasks| :: SINGLE_TASK_MINIMUM_SIZE <= tasks[i].size) <==>
              SINGLE_TASK_MINIMUM_SIZE <= size - (|tasks| - 1) * CeilDiv(size, |tasks|)
  {
    var n := |tasks|;
    var t := CeilDiv(size, n);
    CeilDivBounds(size, n);
    var last := tasks[n - 1];
    assert last == TaskAt(offset, size, n, n - 1) && last.size == size - (n - 1) * t;
    forall i | 0 <= i < n ensures last.size <= tasks[i].size {
      assert tasks[i] == TaskAt(offset, size, n, i);
      StepFits(i, n, t, size);
    }
  }

  // If the last task has the minimum, the tasks before it do too, and nothing is left over.
  lemma FullTasksMakeMultiple(size: nat, n: nat, t: nat)
    requires 1 <= n && (n - 1) * t < size <= SINGLE_TASK_MINIMUM_SIZE * n && size <= n * t
    requires SINGLE_TASK_MINIMUM_SIZE <= size - (n - 1) * t
    ensures size == SINGLE_TASK_MINIMUM_SIZE * n
  {
    assert n * t == (n - 1) * t + t;
    MulLe(SINGLE_TASK_MINIMUM_SIZE, t, n - 1);
    assert SINGLE_TASK_MINIMUM_SIZE * n == SINGLE_TASK_MINIMUM_SIZE * (n - 1) + SINGLE_TASK_MINIMUM_SIZE;
  }

  lemma MultipleMakesFullTasks(n: nat, t: nat)
    requires 1 <= n && SINGLE_TASK_MINIMUM_SIZE * n <= n * t < SINGLE_TASK_MINIMUM_SIZE * n + n
    ensures t == SINGLE_TASK_MINIMUM_SIZE
  {
    assert t >= SINGLE_TASK_MINIMUM_SIZE by {
      if t < SINGLE_TASK_MINIMUM_SIZE { MulLe(t + 1, SINGLE_TASK_MINIMUM_SIZE, n); }
    }
    assert t <= SINGLE_TASK_MINIMUM_SIZE by {
      if SINGLE_TASK_MINIMUM_SIZE < t { MulLe(SINGLE_TASK_MINIMUM_SIZE + 1, t, n); }
    }
  }

  lemma LastIsFullIff(size: nat, n: nat, t: nat)
    requires 1 <= n && (n - 1) * t < size <= n * t < size + n && size <= SINGLE_TASK_MINIMUM_SIZE * n
    ensures SINGLE_TASK_MINIMUM_SIZE <= size - (n - 1) * t <==> size == SINGLE_TASK_MINIMUM_SIZE * n
  {
    if SINGLE_TASK_MINIMUM_SIZE <= size - (n - 1) * t {
      FullTasksMakeMultiple(size, n, t);
    }
    if size == SINGLE_TASK_MINIMUM_SIZE * n {
      MultipleMakesFullTasks(n, t);
      assert (n - 1) * t == n * t - t;
    }
  }

  /** If the concurrency does not limit the number of tasks, that is when the size is a multiple of the minimum. */
  lemma MinimumNeedsMultiple(tasks: seq<Task>, offset: nat, size: nat, concurrency: nat)
    requires IsSplit(tasks, offset, size) && 0 < size && |tasks| == TaskCount(concurrency, size)
    requires CeilDiv(size, SINGLE_TASK_MINIMUM_SIZE) <= concurrency
    ensures (forall i | 0 <= i < |tasks| :: SINGLE_TASK_MINIMUM_SIZE <= tasks[i].size) <==>
              size == SINGLE_TASK_MINIMUM_SIZE * |tasks|
  {
    var n := |tasks|;
    assert n == CeilDiv(size, SINGLE_TASK_MINIMUM_SIZE);
    CeilDivBounds(size, SINGLE_TASK_MINIMUM_SIZE);
    CeilDivBounds(size, n);
    LastIsFullIff(size, n, CeilDiv(size, n));
    MinimumHoldsIff(tasks, offset, size);
  }

  /** A read of one byte more than the minimum is split in two halves below it. */
  lemma HalfTasks(tasks: seq<Task>)
    requires IsSplit(tasks, 0, 0x20_0001) && |tasks| == TaskCount(2, 0x20_0001)
    ensures |tasks| == 2 && tasks[0].size == 0x10_0001 && tasks[1].size == 0x10_0000
  {
    assert tasks[0] == TaskAt(0, 0x20_0001, 2, 0) && tasks[1] == TaskAt(0, 0x20_0001, 2, 1);
  }

  // ---------------------------------------------------------------- sums

  function Sum(f: seq<nat>): nat {
    if f == [] then 0 else Sum(f[..|f| - 1]) + f[|f| - 1]
  }

  lemma {:induction false} SumUpdate(f: seq<nat>, i: nat, v: nat)
    requires i < |f|
    ensures Sum(f[i := v]) == Sum(f) - f[i] + v
  {
    var k := |f| - 1;
    if i == k {
      assert f[i := v][..k] == f[..k];
    } else {
      SumUpdate(f[..k], i, v);
      assert f[i := v][..k] == f[..k][i := v];
    }
  }

  lemma {:induction false} SumZero(n: nat)
    ensures Sum(seq(n, _ => 0)) == 0
  {
    if 0 < n {
      SumZero(n - 1);
      assert seq(n, _ => 0)[..n - 1] == seq(n - 1, _ => 0);
    }
  }

  lemma {:induction false} SumBelow(a: seq<nat>, b: seq<nat>)
    requires |a| == |b| && forall i | 0 <= i < |a| :: a[i] <= b[i]
    ensures Sum(a) <= Sum(b) && (Sum(a) == Sum(b) <==> a == b)
  {
    if a != [] {
      var k := |a| - 1;
      SumBelow(a[..k], b[..k]);
      assert a == a[..k] + [a[k]] && b == b[..k] + [b[k]];
    }
  }

  ghost function Sizes(tasks: seq<Task>): seq<nat> {
    seq(|tasks|, i requires 0 <= i < |tasks| => tasks[i].size)
  }

  lemma {:induction false} SizesUpTo(tasks: seq<Task>, offset: nat, size: nat, k: nat)
    requires Covers(tasks, offset, size) && k <= |tasks|
    ensures Sum(Sizes(tasks)[..k]) == PosOr(tasks, k, size)
  {
    if 0 < k {
      SizesUpTo(tasks, offset, size, k - 1);
      assert Sizes(tasks)[..k][..k - 1] == Sizes(tasks)[..k - 1];
      assert tasks[k - 1].pos + tasks[k - 1].size == PosOr(tasks, k, size);
    }
  }

  // ---------------------------------------------------------------- running the tasks

  // Tasks do not overlap.
  lemma {:induction false} Apart(tasks: seq<Task>, offset: nat, size: nat, i: nat, j: nat)
    requires Covers(tasks, offset, size) && i < j < |tasks|
    ensures tasks[i].pos + tasks[i].size <= tasks[j].pos
  {
    assert tasks[j - 1].pos + tasks[j - 1].size == PosOr(tasks, j, size);
    if i < j - 1 { Apart(tasks, offset, size, i, j - 1); }
  }

  lemma {:induction false} Inside(tasks: seq<Task>, offset: nat, size: nat, i: nat)
    requires Covers(tasks, offset, size) && i < |tasks|
    ensures tasks[i].pos + tasks[i].size <= size
    decreases |tasks| - i
  {
    assert tasks[i].pos + tasks[i].size == PosOr(tasks, i + 1, size);
    if i + 1 < |tasks| { Inside(tasks, offset, size, i + 1); }
  }

  // Every byte belongs to a task.
  lemma {:induction false} Owner(tasks: seq<Task>, offset: nat, size: nat, j: nat, k: nat) returns (i: nat)
    requires Covers(tasks, offset, size) && k <= |tasks| && j < PosOr(tasks, k, size)
    ensures i < k && tasks[i].pos <= j < tasks[i].pos + tasks[i].size
  {
    assert 0 < k;
    i := k - 1;
    assert tasks[i].pos + tasks[i].size == PosOr(tasks, k, size);
    if j < tasks[i].pos { i := Owner(tasks, offset, size, j, k - 1); }
  }

  // The bytes a task got are in their place.
  ghost predicate InPlace(content: seq<Byte>, file: seq<Byte>, t: Task, bytes: nat)
    requires t.offset + bytes <= |file| && t.pos + bytes <= |content|
  {
    forall j | t.pos <= j < t.pos + bytes :: content[j] == file[t.offset + j - t.pos]
  }

  // What a task gets, at most what it asked for.
  function Got(o: Outcome, t: Task): nat {
    match o
    case Read(bytes) => Min(bytes, t.size)
    case Error => 0
  }

  // An order in which each of n tasks finishes once.
  ghost predicate IsOrder(order: seq<nat>, n: nat) {
    && (forall k | 0 <= k < |order| :: order[k] < n)
    && (forall k, k' | 0 <= k < k' < |order| :: order[k] != order[k'])
    && (forall i | 0 <= i < n :: i in order)
  }

  // do_task_
  method DoTask(file: seq<Byte>, buf: array<Byte>, t: Task, o: Outcome) returns (bytes: nat)
    requires t.offset + t.size <= |file| && t.pos + t.size <= buf.Length
    modifies buf
    ensures bytes == Got(o, t) && InPlace(buf[..], file, t, bytes)
    ensures forall j | 0 <= j < buf.Length && !(t.pos <= j < t.pos + bytes) :: buf[j] == old(buf[j])
  {
    bytes := Got(o, t);
    forall j | t.pos <= j < t.pos + bytes {
      buf[j] := file[t.offset + j - t.pos];
    }
  }

  // What the tasks that have finished so far, those in `done`, have left behind.
  ghost predicate SoFar(tasks: seq<Task>, file: seq<Byte>, content: seq<Byte>, before: seq<Byte>, got: seq<nat>,
                        outcomes: nat -> Outcome, size: nat, done: seq<nat>)
  {
    && |got| == |tasks| && |content| == |before| && size <= |content|
    && (forall i | 0 <= i < |tasks| ::
          && tasks[i].offset + tasks[i].size <= |file| && tasks[i].pos + tasks[i].size <= size
          && got[i] == (if i in done then Got(outcomes(i), tasks[i]) else 0)
          && InPlace(content, file, tasks[i], got[i]))
    && (forall j | size <= j < |content| :: content[j] == before[j])
  }

  lemma StepSoFar(tasks: seq<Task>, offset: nat, file: seq<Byte>, content: seq<Byte>, content': seq<Byte>,
                  before: seq<Byte>, got: seq<nat>, outcomes: nat -> Outcome, size: nat, done: seq<nat>, i: nat)
    requires Covers(tasks, offset, size) && SoFar(tasks, file, content, before, got, outcomes, size, done)
    requires i < |tasks| && i !in done && |content'| == |content|
    requires var t, bytes := tasks[i], Got(outcomes(i), tasks[i]);
             && InPlace(content', file, t, bytes)
             && forall j | 0 <= j < |content| && !(t.pos <= j < t.pos + bytes) :: content'[j] == content[j]
    ensures SoFar(tasks, file, content', before, got[i := Got(outcomes(i), tasks[i])], outcomes, size, done + [i])
  {
    var got' := got[i := Got(outcomes(i), tasks[i])];
    forall k | 0 <= k < |tasks|
      ensures got'[k] == (if k in done + [i] then Got(outcomes(k), tasks[k]) else 0)
      ensures InPlace(content', file, tasks[k], got'[k])
    {
      if k < i { Apart(tasks, offset, size, k, i); }
      if i < k { Apart(tasks, offset, size, i, k); }
    }
  }

  // The k-th task to finish.
  method RunTask(file: seq<Byte>, buf: array<Byte>, tasks: seq<Task>, offset: nat, size: nat, order: seq<nat>, k: nat,
                 outcomes: nat -> Outcome, ghost before: seq<Byte>, ghost got: seq<nat>) returns (bytes: nat)
    requires Covers(tasks, offset, size) && IsOrder(order, |tasks|) && k < |order|
    requires SoFar(tasks, file, buf[..], before, got, outcomes, size, order[..k])
    modifies buf
    ensures bytes == Got(outcomes(order[k]), tasks[order[k]]) && |got| == |tasks| && got[order[k]] == 0
    ensures SoFar(tasks, file, buf[..], before, got[order[k] := bytes], outcomes, size, order[..k + 1])
  {
    var i := order[k];
    ghost var content := buf[..];
    assert i !in order[..k];
    bytes := DoTask(file, buf, tasks[i], outcomes(i));
    StepSoFar(tasks, offset, file, content, buf[..], before, got, outcomes, size, order[..k], i);
    assert order[..k + 1] == order[..k] + [i];
  }

  // The threads of the pool, in the order their tasks finish.
  method RunTasks(file: seq<Byte>, buf: array<Byte>, tasks: seq<Task>, offset: nat, size: nat,
                  order: seq<nat>, outcomes: nat -> Outcome)
    returns (total: nat, status: seq<Outcome>, ghost got: seq<nat>)
    requires Covers(tasks, offset, size) && IsOrder(order, |tasks|) && offset + size <= |file| && size <= buf.Length
    modifies buf
    ensures SoFar(tasks, file, buf[..], old(buf[..]), got, outcomes, size, order) && total == Sum(got)
    ensures |status| == |tasks| && forall i | 0 <= i < |tasks| :: status[i] == outcomes(i)
  {
    hide SoFar, Covers, Sum;
    total, got := 0, seq(|tasks|, _ => 0);
    status := seq(|tasks|, _ => Error);
    SumZero(|tasks|);
    NothingYet(tasks, offset, file, buf[..], outcomes, size);
    for k := 0 to |order|
      invariant |got| == |tasks| && total == Sum(got)
      invariant SoFar(tasks, file, buf[..], old(buf[..]), got, outcomes, size, order[..k])
      invariant |status| == |tasks| && forall j | 0 <= j < k :: status[order[j]] == outcomes(order[j])
    {
      var bytes := RunTask(file, buf, tasks, offset, size, order, k, outcomes, old(buf[..]), got);
      SumUpdate(got, order[k], bytes);
      total, got, status := total + bytes, got[order[k] := bytes], status[order[k] := outcomes(order[k])];
    }
    assert order[..|order|] == order;
    forall i | 0 <= i < |tasks| ensures status[i] == outcomes(i) {
      assert i in order;
      var j :| 0 <= j < |order| && order[j] == i;
    }
  }

  lemma NothingYet(tasks: seq<Task>, offset: nat, file: seq<Byte>, content: seq<Byte>,
                   outcomes: nat -> Outcome, size: nat)
    requires Covers(tasks, offset, size) && offset + size <= |file| && size <= |content|
    ensures SoFar(tasks, file, content, content, seq(|tasks|, _ => 0), outcomes, size, [])
  {
    forall i | 0 <= i < |tasks|
      ensures tasks[i].pos + tasks[i].size <= size && tasks[i].offset == offset + tasks[i].pos
    {
      Inside(tasks, offset, size, i);
    }
  }

  // The first task's.
  function RetCode(status: seq<Outcome>): Ret {
    if status != [] && status[0].Error? then IoError else Success
  }

  // get_ret_code
  method GetRetCode(status: seq<Outcome>) returns (ret: Ret)
    ensures ret == RetCode(status)
  {
    ret := Success;
    for i := 0 to |status|
      invariant ret == if 0 < i && status[0].Error? then IoError else Success
    {
      if i == 0 && status[i].Error? {
        ret := IoError;
        return;
      }
    }
  }

  /** All bytes are there exactly when every task got all it asked for. */
  lemma AllThereIff(tasks: seq<Task>, offset: nat, size: nat, got: seq<nat>)
    requires Covers(tasks, offset, size) && |got| == |tasks| && forall i | 0 <= i < |tasks| :: got[i] <= tasks[i].size
    ensures Sum(got) <= size
    ensures Sum(got) == size <==> forall i | 0 <= i < |tasks| :: got[i] == tasks[i].size
  {
    var sizes := Sizes(tasks);
    SizesUpTo(tasks, offset, size, |tasks|);
    assert sizes[..|tasks|] == sizes;
    SumBelow(got, sizes);
    assert got == sizes <==> forall i | 0 <= i < |tasks| :: got[i] == sizes[i];
  }

  /** And then they are the file's, in their places. */
  lemma BytesInPlace(tasks: seq<Task>, offset: nat, size: nat, file: seq<Byte>, content: seq<Byte>)
    requires Covers(tasks, offset, size) && offset + size <= |file| && size <= |content|
    requires forall i | 0 <= i < |tasks| ::
               && tasks[i].offset + tasks[i].size <= |file| && tasks[i].pos + tasks[i].size <= |content|
               && InPlace(content, file, tasks[i], tasks[i].size)
    ensures content[..size] == file[offset..offset + size]
  {
    forall j | 0 <= j < size ensures content[j] == file[offset + j] {
      var i := Owner(tasks, offset, size, j, |tasks|);
      assert InPlace(content, file, tasks[i], tasks[i].size);
    }
  }

  lemma CompleteIff(tasks: seq<Task>, offset: nat, file: seq<Byte>, content: seq<Byte>, before: seq<Byte>,
                    got: seq<nat>, outcomes: nat -> Outcome, size: nat, order: seq<nat>)
    requires Covers(tasks, offset, size) && SoFar(tasks, file, content, before, got, outcomes, size, order)
    requires IsOrder(order, |tasks|) && offset + size <= |file|
    ensures Sum(got) <= size
    ensures Sum(got) == size <==> forall i | 0 <= i < |tasks| :: Got(outcomes(i), tasks[i]) == tasks[i].size
    ensures Sum(got) == size ==> content[..size] == file[offset..offset + size]
  {
    assert forall i | 0 <= i < |tasks| :: got[i] == Got(outcomes(i), tasks[i]);
    AllThereIff(tasks, offset, size, got);
    if Sum(got) == size {
      assert forall i | 0 <= i < |tasks| :: InPlace(content, file, tasks[i], got[i]);
      BytesInPlace(tasks, offset, size, file, content);
    }
  }

  /** got[i] is what the i-th task came back with: nothing on an error, and never more than it asked for. */
  ghost predicate WhatTheyGot(tasks: seq<Task>, outcomes: nat -> Outcome, got: seq<nat>) {
    && |got| == |tasks|
    && forall i | 0 <= i < |tasks| ::
         match outcomes(i)
         case Error => got[i] == 0
         case Read(bytes) => got[i] <= bytes && got[i] <= tasks[i].size && (got[i] == bytes || got[i] == tasks[i].size)
  }

  ghost predicate AllInPlace(content: seq<Byte>, file: seq<Byte>, tasks: seq<Task>, got: seq<nat>) {
    && |got| == |tasks|
    && forall i | 0 <= i < |tasks| ::
         && tasks[i].offset + got[i] <= |file| && tasks[i].pos + got[i] <= |content|
         && InPlace(content, file, tasks[i], got[i])
  }

  // The part of pread that reads: n bytes, none of them past the end of the file.
  method ReadRange(file: seq<Byte>, offset: nat, buf: array<Byte>, n: nat, concurrency: nat,
                   order: seq<nat>, outcomes: nat -> Outcome)
    returns (ret: Ret, readSize: nat, ghost tasks: seq<Task>, ghost got: seq<nat>)
    requires concurrency <= CONCURRENCY_LIMIT && 0 < n <= buf.Length && offset + n <= |file|
    requires IsOrder(order, TaskCount(concurrency, n))
    modifies buf
    ensures ret == Success <==> !outcomes(0).Error?
    ensures readSize <= n && buf[n..] == old(buf[n..])
    ensures readSize == n ==> buf[..n] == file[offset..offset + n]
    ensures Covers(tasks, offset, n) && |tasks| == TaskCount(concurrency, n)
    ensures WhatTheyGot(tasks, outcomes, got) && readSize == Sum(got) && AllInPlace(buf[..], file, tasks, got)
    ensures readSize == n <==> forall i | 0 <= i < |tasks| :: got[i] == tasks[i].size
    ensures AllFull(outcomes, TaskCount(concurrency, n), n) ==> ret == Success && readSize == n
  {
    var toDo := ConstructTasks(concurrency, offset, n);
    tasks := toDo;
    SplitCovers(tasks, offset, n);
    ghost var before := buf[..];
    var status;
    readSize, status, got := RunTasks(file, buf, toDo, offset, n, order, outcomes);
    CompleteIff(tasks, offset, file, buf[..], before, got, outcomes, n, order);
    if AllFull(outcomes, |tasks|, n) {
      forall i | 0 <= i < |tasks| ensures Got(outcomes(i), tasks[i]) == tasks[i].size {
        Inside(tasks, offset, n, i);
      }
    }
    ret := GetRetCode(status);
    assert buf[n..] == before[n..];
  }

  // No task comes back with less than it asked for.
  ghost predicate AllFull(outcomes: nat -> Outcome, tasks: nat, size: nat) {
    forall i: nat | i < tasks :: outcomes(i).Read? && size <= outcomes(i).bytes
  }

  /**
   pread: for every offset, size, concurrency, order of completion and outcome of the tasks.  The return code speaks
   for the first task alone; the number of bytes read is what all the tasks got, and tells whether all of them are
   there.
   */
  method Pread(file: seq<Byte>, offset: int, buf: array<Byte>, concurrency: nat,
               order: seq<nat>, outcomes: nat -> Outcome)
    returns (ret: Ret, readSize: nat, ghost tasks: seq<Task>, ghost got: seq<nat>)
    requires concurrency <= CONCURRENCY_LIMIT
    requires 0 <= offset < |file| && 0 < buf.Length ==>
               IsOrder(order, TaskCount(concurrency, Min(|file| - offset, buf.Length)))
    modifies buf
    ensures offset < 0 || buf.Length == 0 ==> ret == InvalidArgument && buf[..] == old(buf[..])
    ensures 0 <= offset && 0 < buf.Length ==>
              if |file| < offset then ret == FileLengthInvalid && buf[..] == old(buf[..])
              else if |file| == offset then ret == Success && readSize == 0 && buf[..] == old(buf[..])
              else
                var n := Min(|file| - offset, buf.Length);
                && (ret == Success <==> !outcomes(0).Error?)
                && readSize <= n && buf[n..] == old(buf[n..])
                && (readSize == n ==> buf[..n] == file[offset..offset + n])
                && Covers(tasks, offset, n) && |tasks| == TaskCount(concurrency, n)
                && WhatTheyGot(tasks, outcomes, got) && readSize == Sum(got) && AllInPlace(buf[..], file, tasks, got)
                && (readSize == n <==> forall i | 0 <= i < |tasks| :: got[i] == tasks[i].size)
                && (AllFull(outcomes, TaskCount(concurrency, n), n) ==> ret == Success && readSize == n)
  {
    readSize, tasks, got := 0, [], [];
    if offset < 0 || buf.Length == 0 {
      ret := InvalidArgument;
    } else if offset > |file| {
      ret := FileLengthInvalid;
    } else if offset == |file| {
      ret := Success;
    } else {
      var n := Min(|file| - offset, buf.Length);
      ret, readSize, tasks, got := ReadRange(file, offset, buf, n, concurrency, order, outcomes);
    }
  }

  /** The return code of a read stands for all its tasks, whatever their outcomes, exactly if there is one task. */
  lemma FirstSpeaksForAllIff(concurrency: nat, n: nat)
    ensures var tasks := TaskCount(concurrency, n);
            (forall status: seq<Outcome> | |status| == tasks && RetCode(status) == Success :: AllRead(status))
            <==> tasks == 1
    ensures TaskCount(concurrency, n) == 1 <==> concurrency <= 1 || n <= SINGLE_TASK_MINIMUM_SIZE
  {
    var tasks := TaskCount(concurrency, n);
    if 1 < tasks {
      var status := [Read(0)] + seq(tasks - 1, _ => Error);
      assert |status| == tasks && RetCode(status) == Success && status[1].Error?;
      assert !AllRead(status);
    }
  }

  ghost predicate AllRead(status: seq<Outcome>) {
    forall i | 0 <= i < |status| :: status[i].Read?
  }
}
