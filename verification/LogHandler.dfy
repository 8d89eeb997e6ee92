/**
 Fencing of appends: the log handler's role, proposal id and state, and the append loop that other threads'
 changes of them interleave with.

 A thread that appends changes none of these fields, so what any number of other threads do to it are changes by
 the role change service, offline, online and stop between the moments it holds the lock, and PALF's term, which
 no lock of the handler protects.
 */
module LogHandler {
  datatype Role = Leader | Follower

  datatype Ret = Success | Eagain | NotRunning | NotMaster | Failed

  const INVALID_PROPOSAL_ID := -1

  // What other threads may do.
  datatype Action = SwitchRole(role: Role, proposalId: int) | GoOffline | GoOnline | Stop | NewTerm(term: int)

  // What PALF or the apply service answers: OB_SUCCESS, OB_EAGAIN or another error.
  datatype Answer = Ok | Again | Error

  // How a push of the callback turns out: whether it is in the queue, and what is returned.
  datatype Push = Push(queued: bool, answer: Answer)

  function AsRet(a: Answer): Ret {
    match a
    case Ok => Success
    case Again => Eagain
    case Error => Failed
  }

  // What one round of the loop meets.
  datatype Round = Round(between: seq<Action>, during: int, palf: Answer, push: Push)

  // The handler and PALF's term at the moment PALF takes the log.
  datatype Instant = Instant(role: Role, proposalId: int, offline: bool, stopped: bool, term: int, checked: int)

  predicate Fenced(i: Instant) {
    i.role == Leader && !i.offline && !i.stopped && i.proposalId == i.term == i.checked
  }

  // Success is never reported without the callback in the queue.
  predicate PushOk(p: Push) {
    p.answer == Ok ==> p.queued
  }

  // What a handler and PALF's term amount to.
  datatype Handler = Handler(role: Role, proposalId: int, offline: bool, stopped: bool, term: int, last: int)

  // Proposal ids come from PALF's terms, in order; anything else does not happen.
  function Act(v: Handler, a: Action): Handler {
    match a
    case SwitchRole(r, p) => if 0 <= p <= v.term && v.last <= p then v.(role := r, proposalId := p, last := p) else v
    case GoOffline => v.(proposalId := INVALID_PROPOSAL_ID, offline := true)
    case GoOnline => v.(proposalId := INVALID_PROPOSAL_ID, offline := false, role := Follower)
    case Stop => v.(stopped := true)
    case NewTerm(t) => if v.term < t then v.(term := t) else v
  }

  // The first n of them, in order.
  function ActAll(v: Handler, actions: seq<Action>, n: nat): Handler
    requires n <= |actions|
  {
    if n == 0 then v else Act(ActAll(v, actions, n - 1), actions[n - 1])
  }

  function Between(v: Handler, round: Round): Handler {
    ActAll(v, round.between, |round.between|)
  }

  function Later(term: int, during: int): int {
    if term < during then during else term
  }

  /** What a round returns: it has read the proposal id before the others act, and looks at all else after that. */
  function RoundRet(v: Handler, round: Round): Ret {
    var v' := Between(v, round);
    if v'.stopped || v'.offline then NotRunning
    else if v'.role != Leader || v.proposalId != Later(v'.term, round.during) then NotMaster
    else if round.palf == Again || (round.palf == Ok && round.push.answer == Again) then Eagain
    else if round.palf == Ok && round.push.answer == Ok then Success
    else Failed
  }

  // And what it leaves behind.
  function RoundEnd(v: Handler, round: Round): Handler {
    var v' := Between(v, round);
    if v'.stopped || v'.offline || v'.role != Leader then v' else v'.(term := Later(v'.term, round.during))
  }

  /** What a blocking append returns: the first result that is not OB_EAGAIN. */
  function Retried(v: Handler, rounds: seq<Round>): Ret
    decreases |rounds|
  {
    if rounds == [] then Eagain
    else if RoundRet(v, rounds[0]) != Eagain then RoundRet(v, rounds[0])
    else Retried(RoundEnd(v, rounds[0]), rounds[1..])
  }

  lemma RetriedFrom(v: Handler, rounds: seq<Round>, i: nat)
    requires i <= |rounds|
    ensures Retried(v, rounds[i..]) ==
              if i == |rounds| then Eagain
              else if RoundRet(v, rounds[i]) != Eagain then RoundRet(v, rounds[i])
              else Retried(RoundEnd(v, rounds[i]), rounds[i + 1..])
  {
    if i < |rounds| { assert rounds[i..][0] == rounds[i] && rounds[i..][1..] == rounds[i + 1..]; }
  }

  /** If nobody interferes, it is refused only by a handler that is down or is not the leader of PALF's term. */
  lemma UndisturbedRet(v: Handler, round: Round)
    requires round.between == []
    ensures RoundRet(v, round) == NotRunning <==> v.stopped || v.offline
    ensures !v.stopped && !v.offline ==>
              (RoundRet(v, round) == NotMaster <==> v.role == Follower || v.proposalId != Later(v.term, round.during))
  {
  }

  function Bit(b: bool): nat {
    if b then 1 else 0
  }

  class ObLogHandler {
    var role: Role
    var proposalId: int
    var offline: bool
    var stopped: bool
    // PALF's current term; it never goes back
    var term: int
    // the greatest proposal id the role change service has set
    var last: int

    ghost predicate Valid()
      reads this
    {
      && INVALID_PROPOSAL_ID <= last <= term && 0 <= term
      && (proposalId == INVALID_PROPOSAL_ID || proposalId == last)
      && (proposalId == INVALID_PROPOSAL_ID && role == Leader ==> offline)
    }

    function View(): Handler
      reads this
    {
      Handler(role, proposalId, offline, stopped, term, last)
    }

    constructor (term: nat)
      ensures Valid() && role == Follower && !offline && !stopped && this.term == term
    {
      role, proposalId, offline, stopped := Follower, INVALID_PROPOSAL_ID, false, false;
      this.term, last := term, INVALID_PROPOSAL_ID;
    }

    method SwitchRoleTo(r: Role, p: int)
      requires Valid() && 0 <= p <= term && last <= p
      modifies this
      ensures Valid() && role == r && proposalId == p == last && offline == old(offline) && stopped == old(stopped)
      ensures term == old(term)
    {
      role, proposalId := r, p;
      last := p;
    }

    method Offline()
      requires Valid()
      modifies this`proposalId, this`offline
      ensures Valid() && offline && proposalId == INVALID_PROPOSAL_ID
    {
      proposalId := INVALID_PROPOSAL_ID;
      offline := true;
    }

    // The part of online that holds the lock.
    method OnlineLocked()
      requires Valid()
      modifies this`proposalId, this`offline, this`role
      ensures Valid() && !offline && role == Follower && proposalId == INVALID_PROPOSAL_ID
    {
      proposalId := INVALID_PROPOSAL_ID;
      offline := false;
      role := Follower;
    }

    /** Refused once stopped.  `enabled`: replay and sync have been enabled; `notified`: the role change was. */
    method Online(enabled: bool, notified: bool) returns (ret: Ret)
      requires Valid()
      modifies this`proposalId, this`offline, this`role
      ensures Valid()
      ensures ret == if stopped then NotRunning else if enabled && notified then Success else Failed
      ensures stopped || !enabled ==> unchanged(this)
      ensures !stopped && enabled ==> !offline && role == Follower && proposalId == INVALID_PROPOSAL_ID
    {
      if stopped {
        ret := NotRunning;
      } else if !enabled {
        ret := Failed;
      } else {
        OnlineLocked();
        ret := if notified then Success else Failed;
      }
    }

    // Proposal ids come from PALF's terms, in order; anything else does not happen.  Online does not hold the lock
    // when it looks whether the handler is stopped.
    method Interfere(actions: seq<Action>)
      requires Valid()
      modifies this
      ensures Valid() && old(term) <= term && old(last) <= last
      ensures View() == ActAll(old(View()), actions, |actions|)
    {
      for i := 0 to |actions|
        invariant Valid() && old(term) <= term && old(last) <= last
        invariant View() == ActAll(old(View()), actions, i)
      {
        match actions[i]
        case SwitchRole(r, p) => if 0 <= p <= term && last <= p { SwitchRoleTo(r, p); }
        case GoOffline => Offline();
        case GoOnline => OnlineLocked();
        case Stop => stopped := true;
        case NewTerm(t) => if term < t { term := t; }
      }
    }

    // One round of append_.  After `between` the lock is held for reading; PALF's term may still move.
    method AppendOnce(round: Round) returns (ret: Ret, ghost took: bool, ghost at: Instant)
      requires Valid()
      modifies this
      ensures Valid() && old(term) <= term
      ensures took ==> Fenced(at) && ret == AsRet(round.push.answer)
      ensures took ==> (ret == Success <==> round.push.answer == Ok) && (ret == Eagain <==> round.push.answer == Again)
      ensures !took ==> ret != Success
      ensures ret == NotRunning || ret == NotMaster ==> !took
      ensures ret == RoundRet(old(View()), round) && View() == RoundEnd(old(View()), round)
    {
      var checked := proposalId;
      Interfere(round.between);
      took, at := false, Instant(role, proposalId, offline, stopped, term, checked);
      if stopped || offline {
        ret := NotRunning;
      } else if role != Leader {
        ret := NotMaster;
      } else {
        if term < round.during { term := round.during; }
        if checked != term {
          ret := NotMaster;
        } else if round.palf != Ok {
          ret := AsRet(round.palf);
        } else {
          took, at := true, Instant(role, proposalId, offline, stopped, term, checked);
          ret := AsRet(round.push.answer);
        }
      }
    }

    /**
     append_: in every interleaving PALF takes a log only while the handler is leader, online and running and its
     proposal id is PALF's term.  A successful append took one log more than there were pushes of the callback that
     said to try again, and queued the callback once more than those did: exactly one log if and only if no push did.
     */
    method Append(rounds: seq<Round>, nonblock: bool)
      returns (ret: Ret, ghost taken: seq<Instant>, ghost queued: nat, ghost again: seq<Push>, ghost rets: seq<Ret>)
      requires Valid() && forall r | r in rounds :: PushOk(r.push)
      modifies this
      ensures Valid() && old(term) <= term
      ensures forall i | i in taken :: Fenced(i)
      ensures forall p | p in again :: p.answer == Again
      ensures ret == Success ==> |taken| == 1 + |again| && queued == 1 + Queued(again)
      ensures ret == Success ==> (|taken| == 1 <==> again == [])
      ensures ret == NotRunning || ret == NotMaster ==> |taken| == |again| && queued == Queued(again)
      ensures nonblock ==> |taken| <= 1
      ensures |rets| <= |rounds| && ret == if rets == [] then Eagain else rets[|rets| - 1]
      ensures forall i | 0 <= i < |rets| - 1 :: rets[i] == Eagain
      ensures nonblock ==> |rets| == if rounds == [] then 0 else 1
      ensures !nonblock && ret == Eagain ==> |rets| == |rounds|
      ensures !nonblock ==> ret == Retried(old(View()), rounds)
      ensures nonblock && rounds != [] ==> ret == RoundRet(old(View()), rounds[0])
    {
      hide RoundRet, RoundEnd, Retried, Queued, Fenced;
      assert rounds[0..] == rounds && Queued([]) == 0 by { QueuedNone(); }
      ret, taken, queued, again, rets := Eagain, [], 0, [], [];
      var i, done := 0, false;
      while i < |rounds| && !done
        invariant Valid() && old(term) <= term && 0 <= i <= |rounds|
        invariant i == 0 ==> unchanged(this) && !done
        invariant forall x | x in taken :: Fenced(x)
        invariant forall p | p in again :: p.answer == Again
        invariant !done ==> ret == Eagain && |taken| == |again| && queued == Queued(again)
        invariant !done && nonblock ==> i == 0 && taken == []
        invariant ret == Success ==> |taken| == 1 + |again| && queued == 1 + Queued(again)
        invariant ret == NotRunning || ret == NotMaster ==> |taken| == |again| && queued == Queued(again)
        invariant nonblock ==> |taken| <= 1
        invariant nonblock ==> i <= 1
        invariant |rets| == i && (0 < i ==> ret == rets[i - 1]) && (done ==> 0 < i && (nonblock || ret != Eagain))
        invariant forall j | 0 <= j < i - 1 :: rets[j] == Eagain
        invariant !nonblock ==> Retried(old(View()), rounds) == if done then ret else Retried(View(), rounds[i..])
        invariant nonblock && 0 < i ==> ret == RoundRet(old(View()), rounds[0])
        decreases |rounds| - i
      {
        ghost var took, at;
        RetriedFrom(View(), rounds, i);
        ret, took, at := AppendOnce(rounds[i]);
        rets := rets + [ret];
        if took {
          var push := rounds[i].push;
          taken := taken + [at];
          queued := queued + Bit(push.queued);
          if push.answer == Again {
            QueuedAppend(again, push);
            again := again + [push];
          }
        }
        done := nonblock || ret != Eagain;
        i := i + 1;
      }
      RetriedFrom(View(), rounds, i);
    }
  }

  // How many of these pushes queued the callback.
  function Queued(pushes: seq<Push>): nat {
    if pushes == [] then 0 else Queued(pushes[..|pushes| - 1]) + Bit(pushes[|pushes| - 1].queued)
  }

  lemma QueuedNone()
    ensures Queued([]) == 0
  {
  }

  lemma QueuedAppend(pushes: seq<Push>, p: Push)
    ensures Queued(pushes + [p]) == Queued(pushes) + Bit(p.queued)
  {
    assert (pushes + [p])[..|pushes|] == pushes;
  }
}
