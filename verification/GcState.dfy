/** The garbage-collection state of one log stream replica, as the log drives it. */
module GcState {
  import opened Options

  // LSGCState; WaitOffline is no longer set by anything.
  datatype Phase = Normal | Blocked | WaitOffline | Offline | WaitGc

  function Rank(p: Phase): nat {
    match p
    case Normal => 1
    case Blocked => 2
    case WaitOffline => 3
    case Offline => 4
    case WaitGc => 5
  }

  datatype Kind = BlockLog | OfflineLog

  datatype Entry = Entry(kind: Kind, scn: int)

  // What the log stream's meta holds.
  datatype Meta = Meta(phase: Phase, offlineScn: Option<int>)

  // ObLSMeta::set_gc_state overwrites the offline scn with whatever it is given.
  function SetGcState(p: Phase, scn: Option<int>): Meta {
    Meta(p, scn)
  }

  // block_ls_transfer_in_ and offline_ls_: logs that have had their effect are ignored.
  function Updated(m: Meta, e: Entry): Meta {
    match e.kind
    case BlockLog => if Rank(Blocked) <= Rank(m.phase) then m else SetGcState(Blocked, None)
    case OfflineLog => if Rank(Offline) <= Rank(m.phase) then m else SetGcState(Offline, Some(e.scn))
  }

  // What the leader's rounds submit in a phase.
  predicate LeaderSubmits(p: Phase, k: Kind) {
    match k
    case BlockLog => Rank(p) < Rank(Offline) && p != Blocked
    case OfflineLog => Rank(Blocked) <= Rank(p) < Rank(Offline)
  }

  // ---------------------------------------------------------------- what a log means, without running it

  ghost predicate Has(log: seq<Entry>, k: Kind) {
    exists i | 0 <= i < |log| :: log[i].kind == k
  }

  /** scn is that of the first OFFLINE_LS log. */
  ghost predicate FirstOffline(log: seq<Entry>, scn: int) {
    exists i | 0 <= i < |log| :: log[i] == Entry(OfflineLog, scn) && !Has(log[..i], OfflineLog)
  }

  /** The meta that a replica must have after this prefix of the log; WAIT_GC is a local decision on top of it. */
  ghost predicate Means(log: seq<Entry>, m: Meta) {
    if Has(log, OfflineLog) then
      m == Meta(WaitGc, None) || (m.phase == Offline && m.offlineScn.Some? && FirstOffline(log, m.offlineScn.value))
    else
      m == Meta(if Has(log, BlockLog) then Blocked else Normal, None)
  }

  /** Every OFFLINE_LS log comes after a BLOCK_TABLET_TRANSFER_IN log. */
  ghost predicate BlockFirst(log: seq<Entry>) {
    forall i | 0 <= i < |log| && log[i].kind == OfflineLog :: Has(log[..i], BlockLog)
  }

  lemma FirstOfflineIsUnique(log: seq<Entry>, a: int, b: int)
    requires FirstOffline(log, a) && FirstOffline(log, b)
    ensures a == b
  {
    var i :| 0 <= i < |log| && log[i] == Entry(OfflineLog, a) && !Has(log[..i], OfflineLog);
    var j :| 0 <= j < |log| && log[j] == Entry(OfflineLog, b) && !Has(log[..j], OfflineLog);
    assert !(i < j) && !(j < i);
  }

  lemma HasGrows(log: seq<Entry>, log': seq<Entry>, k: Kind)
    requires log <= log' && Has(log, k)
    ensures Has(log', k)
  {
    var i :| 0 <= i < |log| && log[i].kind == k;
    assert log'[i].kind == k;
  }

  lemma HasAppend(log: seq<Entry>, e: Entry, k: Kind)
    ensures Has(log + [e], k) <==> Has(log, k) || e.kind == k
  {
    if Has(log, k) { HasGrows(log, log + [e], k); }
    if e.kind == k { assert (log + [e])[|log|].kind == k; }
    if Has(log + [e], k) && e.kind != k {
      var i :| 0 <= i < |log + [e]| && (log + [e])[i].kind == k;
      assert log[i].kind == k;
    }
  }

  lemma FirstOfflineStays(log: seq<Entry>, log': seq<Entry>, scn: int)
    requires log <= log' && FirstOffline(log, scn)
    ensures FirstOffline(log', scn)
  {
    var i :| 0 <= i < |log| && log[i] == Entry(OfflineLog, scn) && !Has(log[..i], OfflineLog);
    assert log'[i] == log[i] && log'[..i] == log[..i];
  }

  /** Applying the next log moves the meta to what the longer prefix means. */
  lemma UpdateMeans(log: seq<Entry>, e: Entry, m: Meta)
    requires Means(log, m)
    ensures Means(log + [e], Updated(m, e))
  {
    HasAppend(log, e, BlockLog);
    HasAppend(log, e, OfflineLog);
    var log' := log + [e];
    if Has(log, OfflineLog) {
      if m.phase == Offline { FirstOfflineStays(log, log', m.offlineScn.value); }
    } else if e.kind == OfflineLog {
      assert log'[..|log|] == log && log'[|log|] == e;
      assert FirstOffline(log', e.scn);
    }
  }

  /** Replaying a log that has been applied already changes nothing. */
  lemma ReplayIsIdempotent(log: seq<Entry>, i: nat, m: Meta)
    requires Means(log, m) && i < |log| && BlockFirst(log)
    ensures Updated(m, log[i]) == m
  {
    assert Has(log, log[i].kind);
  }

  /** Restarting anywhere in the applied prefix and replaying up to its end leaves the meta as it was. */
  lemma {:induction false} ReplayAgain(log: seq<Entry>, from: nat, m: Meta)
    requires Means(log, m) && from <= |log| && BlockFirst(log)
    ensures Replayed(m, log[from..]) == m
    decreases |log| - from
  {
    if from < |log| {
      ReplayIsIdempotent(log, from, m);
      ReplayAgain(log, from + 1, m);
      assert log[from..][1..] == log[from + 1..];
    }
  }

  function Replayed(m: Meta, log: seq<Entry>): Meta
    decreases |log|
  {
    if log == [] then m else Replayed(Updated(m, log[0]), log[1..])
  }
}
