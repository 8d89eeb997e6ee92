/**
 What tenants are charged for their log disk, and what PALF is told about it.

 The charges are kept under the resize lock.  An update of a tenant reads PALF's stable size, decides on the new
 charge and then tells PALF; PALF's block recycling thread runs in between and on its own snapshot of the options.
 */
module TenantQuota {
  // ---------------------------------------------------------------- PALF's disk options

  // Limits for stopping writes and for recycling blocks, and a number that changes with every change of options.
  datatype Opts = Opts(stop: int, recycle: int, shrinking: bool, sequence: nat)

  // update_disk_options_not_guarded_by_lock_; `other` says whether an option besides the limit differs.
  function Updated(o: Opts, limit: int, other: bool): Opts {
    if limit == o.recycle && !other then o
    else if limit < o.stop then Opts(o.stop, limit, true, o.sequence + 1)
    else Opts(limit, limit, false, o.sequence + 1)
  }

  // change_to_normal
  function Normalized(o: Opts, sequence: nat): Opts {
    if o.sequence == sequence && o.shrinking then Opts(o.recycle, o.recycle, false, o.sequence) else o
  }

  predicate OptsOk(o: Opts) {
    0 <= o.recycle <= o.stop && (o.shrinking <==> o.recycle < o.stop)
  }

  // ---------------------------------------------------------------- tenants

  // What the recycling thread has read: the options' number, and the limit it measures the usage against.
  datatype Snap = NoSnap | Snap(sequence: nat, limit: int)

  // `hidden`: the charge was dropped to zero without waiting for PALF.
  datatype Tenant = Tenant(charge: int, hidden: bool, opts: Opts, snap: Snap)

  // An update_tenant that has read PALF's stable size and holds the resize lock.
  datatype Pending = None | Update(t: nat, wanted: int, stable: int)

  datatype State = State(total: int, quota: int, tenants: map<nat, Tenant>, pending: Pending)

  datatype Event =
    | Create(t: nat, size: int) | Remove(t: nat)
    | UpdateBegin(t: nat, wanted: int) | UpdateEnd(palfOk: bool)
    | Resize(total: int)
    | OtherOption(t: nat) | GcRead(t: nat) | GcNormal(t: nat)

  // can_update_log_disk_size_with_expected_log_disk, and the charge that follows from it
  function Allowed(charge: int, wanted: int, stable: int): int {
    if wanted >= stable || wanted == 0 then wanted else charge
  }

  function NewTenant(size: int): Tenant {
    Tenant(size, false, Opts(size, size, false, 0), NoSnap)
  }

  function Recharged(n: Tenant, wanted: int, stable: int): Tenant {
    Tenant(Allowed(n.charge, wanted, stable), wanted == 0 || (n.hidden && wanted < stable),
           Updated(n.opts, wanted, false), n.snap)
  }

  ghost predicate Enabled(s: State, e: Event) {
    match e
    case Create(t, size) => s.pending.None? && t !in s.tenants && 0 <= size
    case Remove(t) => s.pending.None? && t in s.tenants
    case UpdateBegin(t, wanted) => s.pending.None? && t in s.tenants && 0 <= wanted
    case UpdateEnd(_) => s.pending.Update? && s.pending.t in s.tenants
    case Resize(total) => s.pending.None? && s.quota <= total
    case OtherOption(t) => t in s.tenants
    case GcRead(t) => t in s.tenants
    case GcNormal(t) => t in s.tenants && s.tenants[t].snap.Snap?
  }

  // Refused and failed requests leave everything as it is.
  function Apply(s: State, e: Event): State
    requires Enabled(s, e)
  {
    match e
    case Create(t, size) =>
      if s.quota + size > s.total then s
      else s.(quota := s.quota + size, tenants := s.tenants[t := NewTenant(size)])
    case Remove(t) => s.(quota := s.quota - s.tenants[t].charge, tenants := s.tenants - {t})
    case UpdateBegin(t, wanted) =>
      var n := s.tenants[t];
      if s.quota - n.charge + Allowed(n.charge, wanted, n.opts.stop) > s.total then s
      else s.(pending := Update(t, wanted, n.opts.stop))
    case UpdateEnd(palfOk) =>
      var p := s.pending;
      var n := s.tenants[p.t];
      if !palfOk then s.(pending := None)
      else State(s.total, s.quota - n.charge + Allowed(n.charge, p.wanted, p.stable),
                 s.tenants[p.t := Recharged(n, p.wanted, p.stable)], None)
    case Resize(total) => s.(total := total)
    case OtherOption(t) =>
      var n := s.tenants[t];
      s.(tenants := s.tenants[t := n.(opts := Updated(n.opts, n.opts.recycle, true))])
    case GcRead(t) =>
      var n := s.tenants[t];
      var snap := if n.opts.shrinking then Snap(n.opts.sequence, n.opts.recycle) else NoSnap;
      s.(tenants := s.tenants[t := n.(snap := snap)])
    case GcNormal(t) =>
      var n := s.tenants[t];
      s.(tenants := s.tenants[t := n.(opts := Normalized(n.opts, n.snap.sequence), snap := NoSnap)])
  }

  ghost predicate Steps(s: State, s': State) {
    exists e :: Enabled(s, e) && s' == Apply(s, e)
  }

  ghost predicate IsRun(run: seq<State>) {
    && run != [] && run[0].quota == 0 <= run[0].total && run[0].tenants == map[] && run[0].pending.None?
    && forall i | 0 <= i < |run| - 1 :: Steps(run[i], run[i + 1])
  }

  // ---------------------------------------------------------------- sums of charges

  ghost function Sum(m: map<nat, Tenant>): int {
    if m == map[] then 0
    else var t :| t in m; m[t].charge + Sum(m - {t})
  }

  // The sum does not depend on the order the charges are added in.
  lemma {:induction false} SumTakeOut(m: map<nat, Tenant>, t: nat)
    requires t in m
    ensures Sum(m) == m[t].charge + Sum(m - {t})
  {
    var u :| u in m && Sum(m) == m[u].charge + Sum(m - {u});
    if u != t {
      SumTakeOut(m - {u}, t);
      SumTakeOut(m - {t}, u);
      assert m - {u} - {t} == m - {t} - {u};
    }
  }

  lemma SumPut(m: map<nat, Tenant>, t: nat, n: Tenant)
    ensures Sum(m[t := n]) == Sum(m - {t}) + n.charge
  {
    SumTakeOut(m[t := n], t);
    assert m[t := n] - {t} == m - {t};
  }

  lemma SumReplace(m: map<nat, Tenant>, t: nat, n: Tenant)
    requires t in m
    ensures Sum(m[t := n]) == Sum(m) - m[t].charge + n.charge
  {
    SumPut(m, t, n);
    SumTakeOut(m, t);
  }

  lemma SumAdd(m: map<nat, Tenant>, t: nat, n: Tenant)
    requires t !in m
    ensures Sum(m[t := n]) == Sum(m) + n.charge
  {
    SumPut(m, t, n);
    assert m - {t} == m;
  }

  lemma {:induction false} SumNotNegative(m: map<nat, Tenant>)
    requires forall t | t in m :: 0 <= m[t].charge
    ensures 0 <= Sum(m)
  {
    if m != map[] {
      var t :| t in m;
      SumTakeOut(m, t);
      SumNotNegative(m - {t});
    }
  }

  // ---------------------------------------------------------------- the invariant

  predicate TenantOk(n: Tenant) {
    && OptsOk(n.opts) && 0 <= n.charge
    && (if n.hidden then n.charge == 0 else n.opts.stop <= n.charge)
    && (n.snap.Snap? ==> n.snap.sequence <= n.opts.sequence)
    && (n.snap.Snap? && n.snap.sequence == n.opts.sequence ==> n.snap.limit == n.opts.recycle)
  }

  predicate PendingOk(s: State) {
    s.pending.Update? ==>
      var p := s.pending;
      && p.t in s.tenants && 0 <= p.wanted && s.tenants[p.t].opts.stop <= p.stable
      && (s.tenants[p.t].hidden || p.stable <= s.tenants[p.t].charge)
      && s.quota - s.tenants[p.t].charge + Allowed(s.tenants[p.t].charge, p.wanted, p.stable) <= s.total
  }

  ghost predicate Inv(s: State) {
    && s.quota == Sum(s.tenants) && s.quota <= s.total
    && (forall t | t in s.tenants :: TenantOk(s.tenants[t]))
    && PendingOk(s)
  }

  lemma KeepUpdateEnd(s: State, palfOk: bool)
    requires Inv(s) && Enabled(s, UpdateEnd(palfOk))
    ensures Inv(Apply(s, UpdateEnd(palfOk)))
  {
    var p := s.pending;
    assert TenantOk(s.tenants[p.t]);
    if palfOk {
      SumReplace(s.tenants, p.t, Recharged(s.tenants[p.t], p.wanted, p.stable));
    }
  }

  lemma InvKept(s: State, e: Event)
    requires Inv(s) && Enabled(s, e)
    ensures Inv(Apply(s, e))
  {
    match e
    case Create(t, size) => SumAdd(s.tenants, t, NewTenant(size));
    case Remove(t) =>
      SumTakeOut(s.tenants, t);
      assert TenantOk(s.tenants[t]);
    case UpdateEnd(palfOk) => KeepUpdateEnd(s, palfOk);
    case OtherOption(t) => SumReplace(s.tenants, t, Apply(s, e).tenants[t]);
    case GcRead(t) => SumReplace(s.tenants, t, Apply(s, e).tenants[t]);
    case GcNormal(t) => SumReplace(s.tenants, t, Apply(s, e).tenants[t]);
    case _ =>
  }

  lemma {:induction false} EveryStateKeepsInv(run: seq<State>, k: nat)
    requires IsRun(run) && k < |run|
    ensures Inv(run[k])
  {
    if 0 < k {
      EveryStateKeepsInv(run, k - 1);
      assert Steps(run[k - 1], run[k]);
      var e :| Enabled(run[k - 1], e) && run[k] == Apply(run[k - 1], e);
      InvKept(run[k - 1], e);
    }
  }

  // ---------------------------------------------------------------- theorems

  /**
   No overselling: in every run the quota is the sum of the charges and lies between zero and the total.  So does
   what is left when a tenant is removed or its creation aborted: the assertion of abort_create_tenant and the
   guard of remove_tenant never fail.
   */
  lemma NoOverselling(run: seq<State>, k: nat)
    requires IsRun(run) && k < |run|
    ensures run[k].quota == Sum(run[k].tenants) && 0 <= run[k].quota <= run[k].total
    ensures forall t | t in run[k].tenants :: 0 <= run[k].quota - run[k].tenants[t].charge <= run[k].total
  {
    EveryStateKeepsInv(run, k);
    var s := run[k];
    SumNotNegative(s.tenants);
    forall t | t in s.tenants ensures 0 <= s.quota - s.tenants[t].charge <= s.total {
      SumTakeOut(s.tenants, t);
      SumNotNegative(s.tenants - {t});
      assert TenantOk(s.tenants[t]);
    }
  }

  /**
   A tenant's charge covers PALF's stable size in every run, unless its last effective request was for size zero;
   then it does so exactly when PALF has nothing left.
   */
  lemma ChargeCoversPalf(run: seq<State>, k: nat, t: nat)
    requires IsRun(run) && k < |run| && t in run[k].tenants
    ensures var n := run[k].tenants[t]; n.opts.stop <= n.charge <==> !n.hidden || n.opts.stop == 0
  {
    EveryStateKeepsInv(run, k);
    assert TenantOk(run[k].tenants[t]);
  }

  /** Such a request does leave PALF uncovered: fifty are still in use, nothing is charged. */
  lemma ZeroUncovers() returns (run: seq<State>)
    ensures IsRun(run) && |run| == 4 && 1 in run[3].tenants
    ensures run[3].tenants[1].charge == 0 && run[3].tenants[1].opts.stop == 50
  {
    var s0 := State(100, 0, map[], None);
    assert Enabled(s0, Create(1, 50));
    var s1 := Apply(s0, Create(1, 50));
    assert Enabled(s1, UpdateBegin(1, 0));
    var s2 := Apply(s1, UpdateBegin(1, 0));
    assert Enabled(s2, UpdateEnd(true));
    run := [s0, s1, s2, Apply(s2, UpdateEnd(true))];
    assert Steps(s0, s1) && Steps(s1, s2) && Steps(s2, run[3]);
  }

  /** A charge becomes uncovered only through a request for size zero. */
  lemma HiddenOnlyByZero(s: State, e: Event, t: nat)
    requires Inv(s) && Enabled(s, e) && t in s.tenants && t in Apply(s, e).tenants
    requires !s.tenants[t].hidden && Apply(s, e).tenants[t].hidden
    ensures e == UpdateEnd(true) && s.pending.t == t && s.pending.wanted == 0
  {
  }

  /** The recycling thread lowers the stable size only to the limit it measured, never to one set behind its back. */
  lemma NoStaleNormal(run: seq<State>, k: nat, t: nat)
    requires IsRun(run) && k < |run| && Enabled(run[k], GcNormal(t))
    ensures var n, n' := run[k].tenants[t], Apply(run[k], GcNormal(t)).tenants[t];
            n'.opts.stop == n.opts.stop || n'.opts.stop == n.snap.limit
  {
    EveryStateKeepsInv(run, k);
    assert TenantOk(run[k].tenants[t]);
  }

  predicate Touches(s: State, e: Event, t: nat) {
    || ((e.Create? || e.Remove?) && e.t == t)
    || (e == UpdateEnd(true) && s.pending.Update? && s.pending.t == t)
  }

  // From i on, nothing but PALF has changed tenant t.
  ghost predicate Untouched(run: seq<State>, i: nat, k: nat, t: nat) {
    forall j | i <= j < k < |run| :: UntouchedStep(run[j], run[j + 1], t)
  }

  ghost predicate UntouchedStep(s: State, s': State, t: nat) {
    exists e :: Enabled(s, e) && s' == Apply(s, e) && !Touches(s, e, t)
  }

  lemma {:induction false} RequestIsRemembered(run: seq<State>, i: nat, k: nat, t: nat)
    requires IsRun(run) && i <= k < |run| && t in run[i].tenants && Untouched(run, i, k, t)
    ensures t in run[k].tenants && run[k].tenants[t].opts.recycle == run[i].tenants[t].opts.recycle
    ensures run[k].tenants[t].charge == run[i].tenants[t].charge
  {
    if i < k {
      assert forall j | i <= j < k - 1 :: UntouchedStep(run[j], run[j + 1], t);
      RequestIsRemembered(run, i, k - 1, t);
      assert UntouchedStep(run[k - 1], run[k], t);
    }
  }

  /**
   Asking again settles the account: once a request has been accepted and PALF, left alone with it, no longer
   shrinks, the same request passes the capacity check, unless the tenant was hidden and no longer fits; and however
   PALF moves before it is told again, the tenant ends up charged exactly what was asked for.
   */
  lemma RepeatChargesExactly(run: seq<State>, i: nat, j: nat, k: nat)
    requires IsRun(run) && i < j < k < |run|
    requires run[i].pending.Update? && run[i].pending.t in run[i].tenants
    requires run[i + 1] == Apply(run[i], UpdateEnd(true))
    requires Untouched(run, i + 1, j, run[i].pending.t)
    requires run[i].pending.t in run[j].tenants && !run[j].tenants[run[i].pending.t].opts.shrinking
    requires Enabled(run[j], UpdateBegin(run[i].pending.t, run[i].pending.wanted))
    requires run[j + 1] == Apply(run[j], UpdateBegin(run[i].pending.t, run[i].pending.wanted))
    requires Untouched(run, j + 1, k, run[i].pending.t) && run[k].pending == run[j + 1].pending
    ensures run[j + 1].pending.Update? <==>
              (run[j].tenants[run[i].pending.t].hidden ==> run[j].quota + run[i].pending.wanted <= run[j].total)
    ensures run[j + 1].pending.Update? ==>
              var p := run[i].pending;
              Enabled(run[k], UpdateEnd(true)) && Apply(run[k], UpdateEnd(true)).tenants[p.t].charge == p.wanted
  {
    var t, wanted := run[i].pending.t, run[i].pending.wanted;
    RequestIsRemembered(run, i + 1, j, t);
    EveryStateKeepsInv(run, i);
    EveryStateKeepsInv(run, j);
    assert TenantOk(run[j].tenants[t]);
    RequestIsRemembered(run, j + 1, k, t);
  }

  // ---------------------------------------------------------------- what requests come to

  /**
   An update that PALF has accepted charges what was asked for if that is nothing or at least PALF's stable size when
   it was read, and otherwise leaves the charge; one that PALF has not accepted changes nothing.
   */
  lemma UpdateSettles(run: seq<State>, k: nat)
    requires IsRun(run) && k + 1 < |run| && run[k].pending.Update? && run[k + 1].pending.None?
    ensures var p, s, s' := run[k].pending, run[k], run[k + 1];
            && p.t in s.tenants && p.t in s'.tenants && s'.total == s.total
            && s'.tenants - {p.t} == s.tenants - {p.t}
            && var n, n' := s.tenants[p.t], s'.tenants[p.t];
               || (n' == n && s'.quota == s.quota)
               || (&& n'.opts.recycle == p.wanted
                   && if p.wanted == 0 || p.stable <= p.wanted
                      then n'.charge == p.wanted && s'.quota == s.quota - n.charge + p.wanted
                      else n'.charge == n.charge && s'.quota == s.quota)
  {
    EveryStateKeepsInv(run, k);
    assert Steps(run[k], run[k + 1]);
    var e :| Enabled(run[k], e) && run[k + 1] == Apply(run[k], e);
    assert e.UpdateEnd?;
  }

  // Either outcome is possible whenever an update is under way.
  lemma UpdateMayEnd(run: seq<State>, k: nat)
    requires IsRun(run) && k < |run| && run[k].pending.Update?
    ensures Steps(run[k], run[k].(pending := None))
    ensures exists s' :: Steps(run[k], s') && s'.pending.None? && run[k].pending.t in s'.tenants
                         && s'.tenants[run[k].pending.t].opts.recycle == run[k].pending.wanted
  {
    EveryStateKeepsInv(run, k);
    assert Enabled(run[k], UpdateEnd(false)) && Enabled(run[k], UpdateEnd(true));
    assert Steps(run[k], Apply(run[k], UpdateEnd(false))) && Steps(run[k], Apply(run[k], UpdateEnd(true)));
  }

  /** A request is taken up exactly if what it will charge fits, and is taken up with PALF's stable size of the time. */
  lemma UpdateMayBeginIff(s: State, t: nat, wanted: nat, stable: int)
    requires s.pending.None? && t in s.tenants
    ensures (exists s' :: Steps(s, s') && s'.pending == Update(t, wanted, stable)) <==>
              var n := s.tenants[t];
              && stable == n.opts.stop
              && (if wanted == 0 || stable <= wanted then s.quota - n.charge + wanted else s.quota) <= s.total
  {
    var n := s.tenants[t];
    var quota := if wanted == 0 || stable <= wanted then s.quota - n.charge + wanted else s.quota;
    if stable == n.opts.stop && quota <= s.total {
      assert Enabled(s, UpdateBegin(t, wanted));
      assert Steps(s, Apply(s, UpdateBegin(t, wanted)));
    }
    if s' :| Steps(s, s') && s'.pending == Update(t, wanted, stable) {
      var e :| Enabled(s, e) && s' == Apply(s, e);
      assert e == UpdateBegin(t, wanted);
    }
  }

  /** A tenant is created exactly if it fits, charged its size, with PALF's limits at it. */
  lemma CreateMayHappenIff(s: State, t: nat, size: nat)
    requires s.pending.None? && t !in s.tenants
    ensures (exists s' :: Steps(s, s') && s'.tenants.Keys == s.tenants.Keys + {t} && s'.quota == s.quota + size
                          && s'.tenants[t].charge == s'.tenants[t].opts.stop == s'.tenants[t].opts.recycle == size)
            <==> s.quota + size <= s.total
    ensures forall s' | Steps(s, s') && t in s'.tenants ::
              && s'.tenants[t].charge == s'.tenants[t].opts.stop == s'.tenants[t].opts.recycle
              && !s'.tenants[t].opts.shrinking && s'.quota == s.quota + s'.tenants[t].charge <= s.total
  {
    if s.quota + size <= s.total {
      assert Enabled(s, Create(t, size));
      assert Steps(s, Apply(s, Create(t, size)));
    }
    forall s' | Steps(s, s') && t in s'.tenants
      ensures s'.tenants[t].charge == s'.tenants[t].opts.stop == s'.tenants[t].opts.recycle
      ensures !s'.tenants[t].opts.shrinking && s'.quota == s.quota + s'.tenants[t].charge <= s.total
    {
      var e :| Enabled(s, e) && s' == Apply(s, e);
      assert e.Create? && e.t == t;
    }
  }

  /** A tenant can be removed at any time nothing else is under way, and takes its charge with it. */
  lemma RemoveMayHappen(s: State, t: nat)
    requires s.pending.None? && t in s.tenants
    ensures Steps(s, s.(quota := s.quota - s.tenants[t].charge, tenants := s.tenants - {t}))
  {
    assert Enabled(s, Remove(t));
  }

  /** The total can be set to what covers the quota, and to nothing else. */
  lemma TotalMayChangeIff(s: State, total: int)
    requires s.pending.None? && total != s.total
    ensures (exists s' :: Steps(s, s') && s'.total == total) <==> s.quota <= total
  {
    if s.quota <= total {
      assert Enabled(s, Resize(total));
      assert Steps(s, Apply(s, Resize(total)));
    }
    if s' :| Steps(s, s') && s'.total == total {
      var e :| Enabled(s, e) && s' == Apply(s, e);
    }
  }

  /** PALF's recycling thread can bring the stable size down to the limit, from any state of any run, in two steps. */
  lemma PalfCanSettle(run: seq<State>, k: nat, t: nat) returns (s1: State, s2: State)
    requires IsRun(run) && k < |run| && t in run[k].tenants && run[k].tenants[t].opts.shrinking
    ensures Steps(run[k], s1) && Steps(s1, s2) && t in s2.tenants
    ensures var o, o' := run[k].tenants[t].opts, s2.tenants[t].opts;
            o'.stop == o'.recycle == o.recycle && !o'.shrinking && o'.sequence == o.sequence
  {
    assert Enabled(run[k], GcRead(t));
    s1 := Apply(run[k], GcRead(t));
    assert Enabled(s1, GcNormal(t));
    s2 := Apply(s1, GcNormal(t));
  }

  /** A change of another option makes what the recycling thread has read stale, whatever it is at. */
  lemma OtherOptionMakesStale(run: seq<State>, k: nat, t: nat) returns (s': State)
    requires IsRun(run) && k < |run| && t in run[k].tenants
    ensures Steps(run[k], s') && t in s'.tenants
    ensures var n, n' := run[k].tenants[t], s'.tenants[t];
            && n'.opts.stop == n.opts.stop && n'.opts.recycle == n.opts.recycle
            && (n'.snap.Snap? ==> n'.snap.sequence != n'.opts.sequence)
  {
    EveryStateKeepsInv(run, k);
    assert TenantOk(run[k].tenants[t]);
    assert Enabled(run[k], OtherOption(t));
    s' := Apply(run[k], OtherOption(t));
  }

  // ---------------------------------------------------------------- the code

  datatype Ret = Success | InvalidArgument | NotEnough | Unexpected | Failed

  class PalfDiskOptionsWrapper {
    var stop: int
    var recycle: int
    var shrinking: bool
    var sequence: nat

    function View(): Opts
      reads this
    {
      Opts(stop, recycle, shrinking, sequence)
    }

    method ChangeToNormal(snapshot: nat)
      modifies this
      ensures View() == Normalized(old(View()), snapshot)
      ensures recycle == old(recycle) && sequence == old(sequence)
      ensures if old(shrinking) && snapshot == sequence then stop == recycle && !shrinking
              else stop == old(stop) && shrinking == old(shrinking)
    {
      if sequence == snapshot && shrinking {
        shrinking, stop := false, recycle;
      }
    }

    // `other`: an option besides the limit differs.
    method UpdateDiskOptions(limit: int, other: bool) returns (ret: Ret)
      modifies this
      ensures ret == if limit < 0 then InvalidArgument else Success
      ensures View() == if limit < 0 then old(View()) else Updated(old(View()), limit, other)
      ensures 0 <= limit ==> recycle == limit
      ensures 0 <= limit && (limit != old(recycle) || other) ==>
                && sequence == old(sequence) + 1 && (shrinking <==> limit < old(stop))
                && stop == if limit < old(stop) then old(stop) else limit
    {
      if limit < 0 {
        return InvalidArgument;
      }
      ret := Success;
      if recycle != limit || other {
        if stop > limit {
          shrinking, recycle := true, limit;
        } else {
          shrinking, recycle, stop := false, limit, limit;
        }
        sequence := sequence + 1;
      }
    }
  }

  // The recycling thread, with whatever snapshot it has.
  function Ticked(n: Tenant, gcRuns: bool, snapshot: nat): Tenant {
    if gcRuns then n.(opts := Normalized(n.opts, snapshot)) else n
  }

  lemma TickKeepsInv(s: State, t: nat, gcRuns: bool, snapshot: nat)
    requires Inv(s) && s.pending.None? && t in s.tenants
    ensures var n := Ticked(s.tenants[t], gcRuns, snapshot);
            && Inv(s.(tenants := s.tenants[t := n]))
            && n.charge == s.tenants[t].charge && n.hidden == s.tenants[t].hidden
            && n.opts.stop <= s.tenants[t].opts.stop
  {
    assert TenantOk(s.tenants[t]);
    SumReplace(s.tenants, t, Ticked(s.tenants[t], gcRuns, snapshot));
  }

  lemma UpdateKeepsInv(s: State, t: nat, wanted: int, stable: int)
    requires Inv(s) && s.pending.None? && t in s.tenants && 0 <= wanted && s.tenants[t].opts.stop <= stable
    requires s.tenants[t].hidden || stable <= s.tenants[t].charge
    requires s.quota - s.tenants[t].charge + Allowed(s.tenants[t].charge, wanted, stable) <= s.total
    ensures var n := Recharged(s.tenants[t], wanted, stable);
            Inv(State(s.total, s.quota - s.tenants[t].charge + n.charge, s.tenants[t := n], None))
  {
    KeepUpdateEnd(s.(pending := Update(t, wanted, stable)), true);
  }

  class LogDiskQuota {
    var total: int
    var quota: int
    // what each tenant was told it is charged, and its PALF
    ghost var tenants: map<nat, Tenant>

    ghost function View(): State
      reads this
    {
      State(total, quota, tenants, None)
    }

    ghost predicate Valid()
      reads this
    {
      Inv(View())
    }

    method CreateTenant(ghost t: nat, size: int) returns (ret: Ret)
      requires Valid() && t !in tenants && 0 <= size
      modifies this
      ensures Valid() && total == old(total)
      ensures ret == if old(quota) + size > total then NotEnough else Success
      ensures tenants == if ret.Success? then old(tenants)[t := NewTenant(size)] else old(tenants)
      ensures ret.Success? ==> quota == old(quota) + size && tenants[t].charge == tenants[t].opts.stop == size
      ensures !ret.Success? ==> quota == old(quota)
    {
      var sum := quota + size;
      if sum > total {
        ret := NotEnough;
      } else {
        InvKept(View(), Create(t, size));
        quota, ret := sum, Success;
        tenants := tenants[t := NewTenant(size)];
      }
    }

    // The code's own assertion stands after the subtraction.
    method AbortCreateTenant(ghost t: nat, size: int)
      requires Valid() && t in tenants && tenants[t].charge == size
      modifies this
      ensures Valid() && total == old(total) && tenants == old(tenants) - {t} && quota == old(quota) - size
    {
      InvKept(View(), Remove(t));
      SumNotNegative(tenants - {t});
      quota := quota - size;
      tenants := tenants - {t};
      assert 0 <= quota <= total;
    }

    method RemoveTenant(ghost t: nat, size: int) returns (ret: Ret)
      requires Valid() && t in tenants && tenants[t].charge == size
      modifies this
      ensures Valid() && ret.Success? && total == old(total) && tenants == old(tenants) - {t}
      ensures quota == old(quota) - size
    {
      InvKept(View(), Remove(t));
      SumTakeOut(tenants, t);
      SumNotNegative(tenants - {t});
      if quota - size < 0 {
        ret := Unexpected;
      } else {
        quota, ret := quota - size, Success;
      }
      tenants := tenants - {t};
    }

    // The part of update_tenant that decides.
    method DecideUpdate(oldSize: int, newSize: int, palf: PalfDiskOptionsWrapper, readOk: bool)
      returns (ret: Ret, allowed: int)
      ensures ret.Success? || ret.NotEnough? <==> 0 <= oldSize && 0 <= newSize && readOk
      ensures ret.Success? || ret.NotEnough? ==> allowed == Allowed(oldSize, newSize, palf.stop)
      ensures ret.Success? || ret.NotEnough? ==>
                allowed == if newSize == 0 || palf.stop <= newSize then newSize else oldSize
      ensures ret.Success? ==> quota - oldSize + allowed <= total
      ensures ret.NotEnough? ==> total < quota - oldSize + allowed
    {
      allowed := 0;
      if oldSize < 0 || newSize < 0 {
        ret := InvalidArgument;
      } else if !readOk {
        ret := Failed;
      } else {
        var stable := palf.stop;
        allowed := if newSize >= stable || newSize == 0 then newSize else oldSize;
        ret := if quota - oldSize + allowed > total then NotEnough else Success;
      }
    }

    // PALF is told, and the charge follows.
    method CommitUpdate(ghost t: nat, oldSize: int, newSize: int, allowed: int, palf: PalfDiskOptionsWrapper,
                        ghost stable: int)
      requires Valid() && t in tenants && tenants[t].charge == oldSize && tenants[t].opts == palf.View()
      requires 0 <= newSize && palf.stop <= stable && (tenants[t].hidden || stable <= oldSize)
      requires allowed == Allowed(oldSize, newSize, stable) && quota - oldSize + allowed <= total
      modifies this`quota, this`tenants, palf
      ensures Valid() && tenants == old(tenants)[t := Recharged(old(tenants)[t], newSize, stable)]
      ensures quota == old(quota) - oldSize + allowed && palf.recycle == newSize
      ensures tenants[t].opts == palf.View() && tenants[t].charge == allowed
    {
      UpdateKeepsInv(View(), t, newSize, stable);
      var _ := palf.UpdateDiskOptions(newSize, false);
      quota := quota - oldSize + allowed;
      tenants := tenants[t := Recharged(tenants[t], newSize, stable)];
    }

    /**
     update_tenant, with the recycling thread running between the read of the stable size and the update of PALF.
     Succeed or fail, the account stays balanced and the charge keeps covering PALF's stable size.
     */
    method UpdateTenant(ghost t: nat, oldSize: int, newSize: int, palf: PalfDiskOptionsWrapper, readOk: bool,
                        gcRuns: bool, gcSnapshot: nat, palfOk: bool) returns (ret: Ret, allowed: int)
      requires Valid() && t in tenants && tenants[t].charge == oldSize && tenants[t].opts == palf.View()
      modifies this`quota, this`tenants, palf
      ensures Valid() && t in tenants && tenants[t].opts == palf.View()
      ensures forall u | u in old(tenants) && u != t :: u in tenants && tenants[u] == old(tenants)[u]
      ensures ret.Success? <==>
                && 0 <= newSize && readOk && palfOk
                && old(quota) + (if newSize == 0 || old(palf.stop) <= newSize then newSize - oldSize else 0) <= total
      ensures ret.Success? && (newSize == 0 || old(palf.stop) <= newSize) ==>
                allowed == tenants[t].charge == newSize && quota == old(quota) - oldSize + newSize
      ensures ret.Success? && 0 < newSize < old(palf.stop) ==>
                allowed == tenants[t].charge == oldSize && quota == old(quota)
      ensures ret.Success? ==> palf.recycle == newSize
      ensures !ret.Success? ==> tenants[t].charge == oldSize && quota == old(quota)
      ensures !old(tenants)[t].hidden && newSize != 0 ==> palf.stop <= tenants[t].charge
    {
      assert TenantOk(tenants[t]);
      ghost var stable := palf.stop;
      ret, allowed := DecideUpdate(oldSize, newSize, palf, readOk);
      if ret.Success? {
        TickKeepsInv(View(), t, gcRuns, gcSnapshot);
        tenants := tenants[t := Ticked(tenants[t], gcRuns, gcSnapshot)];
        if gcRuns { palf.ChangeToNormal(gcSnapshot); }
        if palfOk {
          CommitUpdate(t, oldSize, newSize, allowed, palf, stable);
        } else {
          ret := Failed;
        }
        assert TenantOk(tenants[t]);
      }
    }
  }
}
