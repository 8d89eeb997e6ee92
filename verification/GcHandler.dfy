/** The garbage-collection handler of one replica: how logs change its state, and when its entry may be deleted. */
module GcHandler {
  import opened Options
  import opened GcState

  datatype Ret = Success | Eagain | Unexpected | NotMaster

  datatype LsStatus = Dropping | TenantDropping | LsWaitOffline | NeedDeleteEntry

  datatype TenantRole = Primary | Standby | Restoring | Cloning | UnknownRole

  // What the handler asks of the rest of the server during one round.
  datatype Env = Env(
    isLeader: bool, readable: Option<int>, delayRecycle: bool,
    inArchive: Option<bool>, progress: Option<Progress>,
    dropping: Option<bool>, role: TenantRole, gcDelay: Option<int>, now: int, writeOk: bool)

  // get_ls_archive_progress
  datatype Progress = Progress(scn: int, ignored: bool)

  // An scn counts nanoseconds, a timestamp microseconds.
  function Timestamp(scn: int): int {
    scn / 1000
  }

  // ---------------------------------------------------------------- when an entry may go

  /** The archive has all of the log stream, or does not want it. */
  predicate ArchiveDone(env: Env, offlineScn: int) {
    && env.inArchive == Some(true) && env.progress.Some?
    && (env.progress.value.ignored || offlineScn <= env.progress.value.scn)
  }

  /** There is no archive, and nobody can want the log stream any more. */
  predicate DelayOver(env: Env, offlineScn: int) {
    && env.inArchive == Some(false)
    && (|| env.dropping == Some(true)
        || env.role == Restoring || env.role == Cloning
        || (env.gcDelay.Some? && env.gcDelay.value <= env.now - Timestamp(offlineScn)))
  }

  predicate MayGo(env: Env, offlineScn: int) {
    && env.readable.Some? && offlineScn <= env.readable.value && !env.delayRecycle
    && (ArchiveDone(env, offlineScn) || DelayOver(env, offlineScn))
  }

  // ---------------------------------------------------------------- when a log takes effect

  // Blocking transfers and writing the meta are needed only by a log that has not had its effect.
  predicate Applies(m: Meta, e: Entry, blockOk: bool, writeOk: bool) {
    match e.kind
    case BlockLog => Rank(Blocked) <= Rank(m.phase) || (blockOk && writeOk)
    case OfflineLog => Rank(Offline) <= Rank(m.phase) || writeOk
  }

  // A tenant that is, or may be, a standby waits with a block log until everything decided is readable.
  predicate ReadyToReplay(e: Entry, role: TenantRole, readable: Option<int>, maxDecided: Option<int>) {
    e.kind == BlockLog && (role == Standby || role == UnknownRole) ==>
      readable.Some? && maxDecided.Some? && maxDecided.value <= readable.value
  }

  // The round in which deletion was decided.
  datatype Decision = Decision(env: Env, offlineScn: int)

  class GcHandler {
    var meta: Meta
    // None stands for the maximum
    var recScn: Option<int>
    ghost var decision: Option<Decision>

    /** In WAIT_GC, and only by a round that found everything in order. */
    ghost predicate Valid()
      reads this
    {
      && (decision.Some? ==> MayGo(decision.value.env, decision.value.offlineScn))
      && (meta.phase == WaitGc ==> decision.Some?)
      && (meta.offlineScn.Some? <==> meta.phase == Offline)
    }

    constructor ()
      ensures Valid() && meta == Meta(Normal, None) && recScn.None? && decision.None?
    {
      meta, recScn, decision := Meta(Normal, None), None, None;
    }

    // ObLSMeta::set_gc_state
    method SetLsGcState(p: Phase, scn: Option<int>, writeOk: bool) returns (ret: Ret)
      modifies this`meta
      ensures ret.Success? <==> writeOk && (scn.Some? <==> p == Offline)
      ensures meta == if ret.Success? then SetGcState(p, scn) else old(meta)
    {
      if (p == Offline && scn.None?) || (p != Offline && scn.Some?) {
        ret := Unexpected;
      } else if !writeOk {
        ret := Eagain;
      } else {
        meta := Meta(p, scn);
        ret := Success;
      }
    }

    method BlockLsTransferIn(scn: int, blockOk: bool, writeOk: bool) returns (ret: Ret)
      modifies this`meta
      ensures ret.Success? <==> Rank(Blocked) <= Rank(old(meta).phase) || (blockOk && writeOk)
      ensures meta == if ret.Success? then Updated(old(meta), Entry(BlockLog, scn)) else old(meta)
    {
      if Rank(Blocked) <= Rank(meta.phase) {
        ret := Success;
      } else if !blockOk {
        ret := Eagain;
      } else {
        ret := SetLsGcState(Blocked, None, writeOk);
      }
    }

    method OfflineLs(scn: int, writeOk: bool) returns (ret: Ret)
      modifies this`meta
      ensures ret.Success? <==> Rank(Offline) <= Rank(old(meta).phase) || writeOk
      ensures meta == if ret.Success? then Updated(old(meta), Entry(OfflineLog, scn)) else old(meta)
    {
      if Rank(Offline) <= Rank(meta.phase) {
        ret := Success;
      } else {
        ret := SetLsGcState(Offline, Some(scn), writeOk);
      }
    }

    method UpdateLsGcStateAfterSubmitLog(e: Entry, blockOk: bool, writeOk: bool) returns (ret: Ret)
      requires Valid()
      modifies this`meta, this`recScn
      ensures Valid()
      ensures ret.Success? <==> Applies(old(meta), e, blockOk, writeOk)
      ensures ret.Success? ==> meta == Updated(old(meta), e) && recScn.None?
      ensures !ret.Success? ==> meta == old(meta) && recScn == old(recScn)
    {
      match e.kind {
        case BlockLog => ret := BlockLsTransferIn(e.scn, blockOk, writeOk);
        case OfflineLog => ret := OfflineLs(e.scn, writeOk);
      }
      if ret.Success? { recScn := None; }
    }

    /** A standby tenant replays a block log only when everything decided so far is readable. */
    method Replay(e: Entry, role: TenantRole, readable: Option<int>, maxDecided: Option<int>,
                  blockOk: bool, writeOk: bool) returns (ret: Ret)
      requires Valid()
      modifies this`meta, this`recScn
      ensures Valid()
      ensures ret.Success? <==>
                ReadyToReplay(e, role, readable, maxDecided) && Applies(old(meta), e, blockOk, writeOk)
      ensures meta == if ret.Success? then Updated(old(meta), e) else old(meta)
      ensures recScn == if ret.Success? then None else old(recScn)
    {
      if e.kind == BlockLog && (role == Standby || role == UnknownRole)
         && !(readable.Some? && maxDecided.Some? && maxDecided.value <= readable.value)
      {
        return Eagain;
      }
      ret := UpdateLsGcStateAfterSubmitLog(e, blockOk, writeOk);
    }

    /**
     submit_log_: append, let the callback pin rec_scn_, then try to save the new state until it is saved.
     `appended` is the scn append returns; `failures` is how often saving fails first.
     */
    method SubmitLog(kind: Kind, appended: Option<int>, confirmed: bool, failures: nat) returns (ret: Ret, done: bool)
      requires Valid() && recScn.None?
      modifies this`meta, this`recScn
      ensures Valid() && recScn.None?
      ensures done <==> appended.Some? && confirmed
      ensures ret.Success? <==> appended.Some?
      ensures meta == if done then Updated(old(meta), Entry(kind, appended.value)) else old(meta)
    {
      done := false;
      if appended.None? {
        return NotMaster, false;
      }
      ret := Success;
      if confirmed {
        recScn := appended;
        var left := failures;
        while !done
          invariant Valid() && 0 <= left <= failures
          invariant done ==> ret.Success?
          invariant !done ==> meta == old(meta) && recScn == appended
          invariant done ==> meta == Updated(old(meta), Entry(kind, appended.value)) && recScn.None?
          decreases !done, left
        {
          ret := UpdateLsGcStateAfterSubmitLog(Entry(kind, appended.value), left == 0, left == 0);
          done := ret.Success?;
          if 0 < left { left := left - 1; }
        }
      }
    }

    // ---------------------------------------------------------------- deciding that the entry may be deleted

    // The write of WAIT_GC is not checked.
    method DecideDelete(env: Env)
      requires Valid() && meta.phase == Offline && MayGo(env, meta.offlineScn.value)
      modifies this`meta, this`decision
      ensures Valid() && decision == Some(Decision(env, old(meta).offlineScn.value))
      ensures meta == if env.writeOk then Meta(WaitGc, None) else old(meta)
    {
      decision := Some(Decision(env, meta.offlineScn.value));
      var _ := SetLsGcState(WaitGc, None, env.writeOk);
    }

    method ArchiveOffSaysGo(env: Env, offlineScn: int) returns (go: bool)
      requires env.inArchive == Some(false)
      ensures go <==> DelayOver(env, offlineScn)
      ensures go <==>
                || env.dropping == Some(true) || env.role == Restoring || env.role == Cloning
                || (env.gcDelay.Some? && offlineScn < 1000 * (env.now - env.gcDelay.value + 1))
    {
      if env.dropping == Some(true) {
        go := true;
      } else if env.role == Restoring || env.role == Cloning {
        go := true;
      } else if env.gcDelay.None? {
        go := false;
      } else {
        go := env.now - Timestamp(offlineScn) >= env.gcDelay.value;
      }
    }

    method TryCheckAndSetWaitGc(env: Env, status: LsStatus) returns (status': LsStatus)
      requires Valid() && meta.phase == Offline && status != NeedDeleteEntry
      modifies this`meta, this`decision
      ensures Valid() && Rank(Offline) <= Rank(meta.phase)
      ensures if MayGo(env, old(meta).offlineScn.value)
              then status' == NeedDeleteEntry && decision == Some(Decision(env, old(meta).offlineScn.value))
                   && meta == (if env.writeOk then Meta(WaitGc, None) else old(meta))
              else status' == status && meta == old(meta) && decision == old(decision)
    {
      status' := status;
      var offlineScn := meta.offlineScn.value;
      if env.readable.None? || env.readable.value < offlineScn || env.delayRecycle || env.inArchive.None? {
        return;
      }
      var go;
      if !env.inArchive.value {
        go := ArchiveOffSaysGo(env, offlineScn);
      } else if env.progress.None? {
        go := false;
      } else {
        go := env.progress.value.ignored || env.progress.value.scn >= offlineScn;
      }
      if go {
        DecideDelete(env);
        status' := NeedDeleteEntry;
      }
    }

    /**
     handle_gc_ls_offline_: the status becomes LS_NEED_DELETE_ENTRY only on the leader, in LS_OFFLINE or WAIT_GC, and
     only if this round or, for WAIT_GC, the round that set it found MayGo for the offline scn of that time.  The
     offline scn is still there exactly when the write of WAIT_GC failed.
     */
    method HandleGcLsOffline(env: Env, status: LsStatus, appended: Option<int>, confirmed: bool, failures: nat)
      returns (status': LsStatus, submits: bool)
      requires Valid() && recScn.None? && status != NeedDeleteEntry
      modifies this
      ensures Valid() && recScn.None? && Rank(old(meta).phase) <= Rank(meta.phase)
      ensures submits <==> env.isLeader && (old(meta).phase == Blocked || old(meta).phase == WaitOffline)
      ensures var reached := (if submits && appended.Some? && confirmed
                              then Updated(old(meta), Entry(OfflineLog, appended.value)) else old(meta));
              && (status' == NeedDeleteEntry <==>
                    && env.isLeader
                    && (reached.phase == WaitGc || (reached.phase == Offline && MayGo(env, reached.offlineScn.value))))
              && (status' == NeedDeleteEntry && reached.phase == Offline ==>
                    decision == Some(Decision(env, reached.offlineScn.value)))
              && (status' != NeedDeleteEntry ==> status' == status && meta == reached)
      ensures env.isLeader && old(meta).phase == Blocked && appended.Some? && confirmed ==>
                if MayGo(env, appended.value)
                then status' == NeedDeleteEntry
                     && meta == (if env.writeOk then Meta(WaitGc, None) else Meta(Offline, appended))
                else status' == status && meta == Meta(Offline, appended)
      ensures old(meta).phase == Normal || !env.isLeader ==> status' == status && meta == old(meta)
      ensures status' == NeedDeleteEntry ==>
                && Rank(Offline) <= Rank(meta.phase) && decision.Some?
                && MayGo(decision.value.env, decision.value.offlineScn)
                && (meta.offlineScn.Some? <==> meta.phase == Offline)
                && (meta.phase == Offline ==> !env.writeOk)
    {
      status', submits := status, false;
      if !env.isLeader {
        return;
      }
      if Rank(meta.phase) < Rank(Blocked) {
        return;
      }
      if meta.phase == WaitGc {
        return NeedDeleteEntry, false;
      }
      if meta.phase == Offline {
        status' := TryCheckAndSetWaitGc(env, status);
      } else {
        submits := true;
        var ret, done := SubmitLog(OfflineLog, appended, confirmed, failures);
        if ret.Success? && done {
          status' := TryCheckAndSetWaitGc(env, status);
        }
      }
    }

    // handle_gc_ls_dropping_: the test for blocked transfers is an equality, so that WAIT_OFFLINE blocks them again.
    method HandleGcLsDropping(env: Env, appended: Option<int>, confirmed: bool, failures: nat)
      returns (submits: bool)
      requires Valid() && recScn.None?
      modifies this`meta, this`recScn
      ensures Valid() && recScn.None?
      ensures meta == if env.isLeader && LeaderSubmits(old(meta).phase, BlockLog) && appended.Some? && confirmed
                      then Updated(old(meta), Entry(BlockLog, appended.value)) else old(meta)
      ensures submits <==> env.isLeader && (old(meta).phase == Normal || old(meta).phase == WaitOffline)
      ensures meta == if env.isLeader && old(meta).phase == Normal && appended.Some? && confirmed
                      then Meta(Blocked, None) else old(meta)
    {
      submits := env.isLeader && Rank(meta.phase) < Rank(Offline) && meta.phase != Blocked;
      if submits {
        var _, _ := SubmitLog(BlockLog, appended, confirmed, failures);
      }
    }

    /**
     One candidate of execute_gc_.  Its entry is deleted only by a leader that is offline for good: past LS_OFFLINE,
     with a decision made for the offline scn it then had, when that was readable and archived, or not to be archived.
     */
    method ExecuteGc(env: Env, status: LsStatus, appended: Option<int>, confirmed: bool, failures: nat)
      returns (deleteEntry: bool)
      requires Valid() && recScn.None? && status != NeedDeleteEntry
      modifies this
      ensures Valid() && recScn.None? && Rank(old(meta).phase) <= Rank(meta.phase)
      ensures deleteEntry ==>
                && status == LsWaitOffline && env.isLeader && Rank(Offline) <= Rank(meta.phase)
                && decision.Some? && MayGo(decision.value.env, decision.value.offlineScn)
                && (meta.offlineScn.Some? <==> meta.phase == Offline)
      ensures deleteEntry && old(meta).phase != WaitGc ==> decision.value.env == env
    {
      var status' := status;
      if status == LsWaitOffline {
        var after, _ := HandleGcLsOffline(env, status, appended, confirmed, failures);
        status' := after;
      } else {
        var _ := HandleGcLsDropping(env, appended, confirmed, failures);
      }
      deleteEntry := status' == NeedDeleteEntry;
    }
  }
}
