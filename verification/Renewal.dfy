/** The renewal loop of one lease against an arbitrary clock and arbitrary relay replies. */
module Renewal {
  import opened Options
  import opened RelayErrors
  import opened LeaseCell
  import opened RetryTiming

  datatype Reply =
    | Failed(err: Err)
    | Refused(text: string)                                              // a success response that does not validate
    | Granted(token: string, capability: string, expiresAt: int)

  /** One round of the loop: by how much the clock has moved at each reading, what the waits and the request do. */
  datatype Round = Round(
    toCheck: nat,          // before the expiry test
    toSchedule: nat,       // before time.Until(renewAt)
    wakeLate: nat,         // how late the first timer fires
    cancelled: bool,       // the first wait is cancelled
    callTime: nat,
    reply: Reply,
    toRemaining: nat,      // before the next reading after the reply
    retryLate: nat,        // how late the retry timer fires
    retryCancelled: bool)

  const EMPTY_TOKEN: string := "renew response has an empty access_token"
  const EXPIRED: string := "renew response lease is expired"

  datatype Outcome = Returned(err: Err) | Pending

  datatype Sleep = Sleep(at: int, until: int)

  /** What the relay has granted. */
  datatype Grant = Grant(token: string, capability: string, expiresAt: int)

  /** One round as it went: from when to when, with which grant at first and at last, its two waits, and when its request
      went out. */
  datatype Log = Log(
    began: int,
    held: Grant,
    first: Option<Sleep>,
    sentAt: Option<int>,
    renewed: bool,
    retry: Option<Sleep>,
    kept: Grant,
    ended: int)

  // ----- how a round goes

  predicate HasExpired(r: Round, l: Log) { l.held.expiresAt <= l.began + r.toCheck }

  /** When the reply arrives. */
  function AnsweredAt(r: Round, l: Log): int
    requires l.sentAt.Some?
  {
    l.sentAt.value + r.callTime
  }

  /** The reply grants a lease that is fresh. */
  predicate Grants(r: Round, at: int) {
    r.reply.Granted? && r.reply.token != "" && at + r.toRemaining < r.reply.expiresAt
  }

  /** A failure that says neither that the lease is lost nor that trying again is pointless. */
  predicate IsRetryable(r: Round) { r.reply.Failed? && ClassAfter(r.reply.err, true) == Retryable }

  /** The request goes out renewBefore ahead of the expiry, or at once when that moment has passed. */
  ghost predicate RequestWent(r: Round, renewBefore: int, l: Log) {
    if HasExpired(r, l) then l.first == None && l.sentAt == None
    else
      var now, renewAt := l.began + r.toCheck + r.toSchedule, l.held.expiresAt - renewBefore;
      if now < renewAt then
        l.first == Some(Sleep(now, renewAt)) && l.sentAt == if r.cancelled then None else Some(renewAt + r.wakeLate)
      else l.first == None && l.sentAt == Some(now)
  }

  /** A fresh grant replaces the old one and nothing else does. */
  ghost predicate ReplyWent(r: Round, l: Log) {
    && (l.renewed <==> l.sentAt.Some? && Grants(r, AnsweredAt(r, l)))
    && l.kept == if l.renewed then Grant(r.reply.token, r.reply.capability, r.reply.expiresAt) else l.held
  }

  /** A failure on a lease that has not expired is followed by the relay's delay, cut short at the expiry. */
  ghost predicate RetryWent(r: Round, retryWait: int, l: Log) {
    if l.sentAt.Some? && IsRetryable(r) && AnsweredAt(r, l) + r.toRemaining < l.held.expiresAt then
      var at := AnsweredAt(r, l) + r.toRemaining;
      l.retry == Some(Sleep(at, Min(at + RetryDelay(retryWait, Classify(r.reply.err, true)), l.held.expiresAt)))
    else l.retry == None
  }

  ghost predicate Went(r: Round, retryWait: int, renewBefore: int, l: Log) {
    && RequestWent(r, renewBefore, l) && ReplyWent(r, l) && RetryWent(r, retryWait, l)
    && (l.renewed ==> l.ended == AnsweredAt(r, l) + r.toRemaining)
    && (l.retry.Some? && !r.retryCancelled ==> l.ended == l.retry.value.until + r.retryLate)
  }

  /** How a round may end the loop; None is another round. */
  ghost predicate EndsWith(r: Round, l: Log, ended: Option<Err>) {
    match ended
    case None => l.renewed || (l.retry.Some? && !r.retryCancelled)
    case Some(err) =>
      || (err == Canceled && WasCancelled(r, l))
      || (Has(err, IsRefresh) && !Has(err, IsTerminal) && LostLease(r, l))
      || (Has(err, IsTerminal) && WasRejected(r, l) && err == Rejection(r))
  }

  /** The context ended during a wait, or by the time there was nothing left to wait for. */
  ghost predicate WasCancelled(r: Round, l: Log) {
    || (l.first.Some? && r.cancelled)
    || (l.sentAt.Some? && IsRetryable(r) && AnsweredAt(r, l) < l.held.expiresAt && r.retryCancelled)
  }

  /** The lease has run out, or the reply says that it is lost. */
  ghost predicate LostLease(r: Round, l: Log) {
    || HasExpired(r, l)
    || (l.sentAt.Some? && r.reply.Failed? && ClassAfter(r.reply.err, true) == Refresh)
    || (l.sentAt.Some? && IsRetryable(r) && l.held.expiresAt <= AnsweredAt(r, l))
    || (l.sentAt.Some? && IsRetryable(r) && l.held.expiresAt <= AnsweredAt(r, l) + r.toRemaining && !r.retryCancelled)
  }

  /** The reply is final, or no lease at all. */
  ghost predicate WasRejected(r: Round, l: Log) {
    && l.sentAt.Some?
    && match r.reply
       case Failed(err) => ClassAfter(err, true) == Terminal
       case Refused(_) => true
       case Granted(_, _, _) => !Grants(r, AnsweredAt(r, l))
  }

  function Rejection(r: Round): Err {
    match r.reply
    case Failed(err) => Classify(err, true)
    case Refused(text) => TerminalError(Plain(text))
    case Granted(token, _, _) => TerminalError(Plain(if token == "" then EMPTY_TOKEN else EXPIRED))
  }

  lemma PlainIsTerminal(text: string)
    ensures TerminalRelay(Plain(text)) == TerminalError(Plain(text)) && Has(TerminalError(Plain(text)), IsTerminal)
  {
  }

  lemma Kinds()
    ensures Has(LeaseRefresh, IsRefresh) && !Has(LeaseRefresh, IsTerminal)
    ensures !Has(Canceled, IsRefresh) && !Has(Canceled, IsTerminal)
  {
  }

  /** The ways for a round to end exclude each other. */
  lemma EndIsExact(r: Round, retryWait: int, renewBefore: int, l: Log, ended: Option<Err>)
    requires Went(r, retryWait, renewBefore, l) && EndsWith(r, l, ended)
    ensures ended.None? <==> l.renewed || (l.retry.Some? && !r.retryCancelled)
    ensures ended == Some(Canceled) <==> WasCancelled(r, l)
    ensures ended.Some? && ended.value != Canceled && !Has(ended.value, IsTerminal) <==> LostLease(r, l)
    ensures ended.Some? && Has(ended.value, IsTerminal) <==> WasRejected(r, l)
    ensures ended.Some? && Has(ended.value, IsTerminal) ==> ended.value == Rejection(r)
    ensures ended.Some? && ended.value != Canceled ==> Has(ended.value, IsRefresh) || Has(ended.value, IsTerminal)
  {
    Kinds();
    hide Has, ClassAfter, Classify, RetryDelay, Rejection;
  }

  /** After a failed renewal: judge the error, and wait. */
  method AfterFailure(expiresAt: int, answeredAt: int, retryWait: int, failure: Err, r: Round)
    returns (ended: Option<Err>, retry: Option<Sleep>, now: int)
    requires retryWait > 0 && r.reply == Failed(failure)
    ensures var at := answeredAt + r.toRemaining;
            if IsRetryable(r) && at < expiresAt then
              && retry == Some(Sleep(at, Min(at + RetryDelay(retryWait, Classify(failure, true)), expiresAt)))
              && (!r.retryCancelled ==> now == retry.value.until + r.retryLate)
              && ended == if r.retryCancelled then Some(Canceled) else None
            else
              && retry == None
              && ended == Some(if !IsRetryable(r) then Classify(failure, true)
                               else if answeredAt < expiresAt && r.retryCancelled then Canceled else LeaseRefresh)
  {
    hide First, Classify, RetryDelay;
    now := answeredAt;
    var err := Classify(failure, true);
    if Has(err, IsRefresh) || Has(err, IsTerminal) {
      return Some(err), None, now;
    }
    if now >= expiresAt {
      return Some(LeaseRefresh), None, now;
    }
    RetryDelayContract(retryWait, err);
    var delay := RetryDelay(retryWait, err);
    now := now + r.toRemaining;
    if expiresAt - now < delay {
      delay := expiresAt - now;
    }
    if delay <= 0 {
      return Some(if r.retryCancelled then Canceled else LeaseRefresh), None, now;
    }
    retry := Some(Sleep(now, now + delay));
    if r.retryCancelled {
      return Some(Canceled), retry, now;
    }
    return None, retry, now + delay + r.retryLate;
  }

  /** One round of the loop. The loop is the only writer of a live lease. */
  method RenewOnce(lease: SharedLease, now0: int, expiresAt: int, retryWait: int, renewBefore: int, r: Round)
    returns (l: Log, ended: Option<Err>)
    requires retryWait > 0 && renewBefore > 0
    requires lease.token != "" && !lease.renewing
    modifies lease
    ensures l.began == now0 && l.held == Grant(old(lease.token), old(lease.capability), expiresAt)
    ensures Went(r, retryWait, renewBefore, l) && EndsWith(r, l, ended)
    ensures lease.token == l.kept.token && lease.capability == l.kept.capability
    ensures lease.nextLeaseGeneration == old(lease.nextLeaseGeneration) + if l.renewed then 1 else 0
    ensures lease.generation == if l.renewed then lease.nextLeaseGeneration else old(lease.generation)
    ensures ended.None? ==> lease.token != "" && !lease.renewing
  {
    Kinds();
    hide First, Classify, TerminalRelay, RetryDelay;
    var token, generation := lease.token, lease.generation;
    var held := Grant(token, lease.capability, expiresAt);
    var now := now0 + r.toCheck;
    if token == "" || expiresAt <= now {
      return Log(now0, held, None, None, false, None, held, now), Some(LeaseRefresh);
    }
    var renewAt := expiresAt - renewBefore;
    var first: Option<Sleep> := None;
    now := now + r.toSchedule;
    if renewAt - now > 0 {
      first := Some(Sleep(now, renewAt));
      if r.cancelled {
        return Log(now0, held, first, None, false, None, held, now), Some(Canceled);
      }
      now := renewAt + r.wakeLate;
    }
    var begun := lease.BeginRenewal(token, generation);
    assert begun;                      // the refusing branch is dead: nothing else writes a live lease
    var sentAt := now;
    now := now + r.callTime;
    match r.reply
    case Failed(failure) =>
      lease.EndRenewal(generation);
      var retry;
      ended, retry, now := AfterFailure(expiresAt, now, retryWait, failure, r);
      l := Log(now0, held, first, Some(sentAt), false, retry, held, now);
    case Refused(text) =>
      PlainIsTerminal(text);
      return Log(now0, held, first, Some(sentAt), false, None, held, now), Some(TerminalRelay(Plain(text)));
    case Granted(newToken, newCapability, newExpiry) =>
      now := now + r.toRemaining;
      if newToken == "" || newExpiry <= now {
        var invalid := if newToken == "" then EMPTY_TOKEN else EXPIRED;
        PlainIsTerminal(invalid);
        return Log(now0, held, first, Some(sentAt), false, None, held, now), Some(TerminalRelay(Plain(invalid)));
      }
      var installed := lease.InstallRenewal(token, generation, newToken, newCapability);
      assert installed;                // so is this one
      l := Log(now0, held, first, Some(sentAt), true, None, Grant(newToken, newCapability, newExpiry), now);
      ended := None;
  }

  // ----- the loop

  /** Each round went as it should, on from where the one before left off. */
  ghost predicate AllWent(rounds: seq<Round>, log: seq<Log>, retryWait: int, renewBefore: int) {
    && |log| <= |rounds|
    && (forall i | 0 <= i < |log| :: Went(rounds[i], retryWait, renewBefore, log[i]))
    && (forall i | 0 < i < |log| :: log[i].began == log[i - 1].ended && log[i].held == log[i - 1].kept)
  }

  /** The loop went on after this round. */
  ghost predicate GoesOn(r: Round, l: Log) { l.renewed || (l.retry.Some? && !r.retryCancelled) }

  function Renewals(log: seq<Log>): nat {
    if log == [] then 0 else Renewals(log[..|log| - 1]) + if log[|log| - 1].renewed then 1 else 0
  }

  lemma OneMoreWent(rounds: seq<Round>, log: seq<Log>, l: Log, retryWait: int, renewBefore: int)
    requires AllWent(rounds, log, retryWait, renewBefore) && |log| < |rounds| && Went(rounds[|log|], retryWait, renewBefore, l)
    requires log != [] ==> l.began == log[|log| - 1].ended && l.held == log[|log| - 1].kept
    ensures AllWent(rounds, log + [l], retryWait, renewBefore)
  {
    hide Went;
  }

  lemma NothingWent(rounds: seq<Round>, retryWait: int, renewBefore: int)
    ensures AllWent(rounds, [], retryWait, renewBefore) && Renewals([]) == 0
  {
  }

  lemma LastWent(rounds: seq<Round>, log: seq<Log>, retryWait: int, renewBefore: int)
    requires AllWent(rounds, log, retryWait, renewBefore) && log != []
    ensures Went(rounds[|log| - 1], retryWait, renewBefore, log[|log| - 1])
  {
    hide Went;
  }

  lemma OneMoreRenewal(log: seq<Log>, l: Log)
    ensures Renewals(log + [l]) == Renewals(log) + if l.renewed then 1 else 0
  {
    assert (log + [l])[..|log|] == log;
  }

  /** now0 and expiry0 are the time and the expiry with which the loop starts; rounds is what its surroundings do. log
      holds one entry for each round that it went through. */
  method RunRenewLoop(lease: SharedLease, retryWait: int, renewBefore: int, now0: int, expiry0: int, rounds: seq<Round>)
    returns (outcome: Outcome, log: seq<Log>)
    requires retryWait > 0 && renewBefore > 0
    requires lease.token != "" && !lease.renewing
    modifies lease
    // when it wakes, asks and waits, and what it holds meanwhile
    ensures AllWent(rounds, log, retryWait, renewBefore)
    ensures log != [] ==> log[0].began == now0 && log[0].held == Grant(old(lease.token), old(lease.capability), expiry0)
    // the lease holds the latest grant; each renewal took one generation and nothing else did
    ensures log != [] ==> lease.token == log[|log| - 1].kept.token && lease.capability == log[|log| - 1].kept.capability
    ensures lease.nextLeaseGeneration == old(lease.nextLeaseGeneration) + Renewals(log)
    ensures lease.generation == if Renewals(log) > 0 then lease.nextLeaseGeneration else old(lease.generation)
    // every round but the last was followed by another, and the last one says how it ended
    ensures forall i | 0 <= i < |log| - 1 :: GoesOn(rounds[i], log[i])
    ensures outcome.Pending? <==> |log| == |rounds| && forall i | 0 <= i < |log| :: GoesOn(rounds[i], log[i])
    ensures outcome == Returned(Canceled) <==> log != [] && WasCancelled(rounds[|log| - 1], log[|log| - 1])
    ensures outcome.Returned? && Has(outcome.err, IsTerminal) <==> log != [] && WasRejected(rounds[|log| - 1], log[|log| - 1])
    ensures outcome.Returned? && outcome.err != Canceled && !Has(outcome.err, IsTerminal) <==>
              log != [] && LostLease(rounds[|log| - 1], log[|log| - 1])
    ensures outcome.Returned? && Has(outcome.err, IsTerminal) ==> outcome.err == Rejection(rounds[|log| - 1])
    ensures outcome.Returned? && outcome.err != Canceled ==> Has(outcome.err, IsRefresh) || Has(outcome.err, IsTerminal)
  {
    hide Went, AllWent, Renewals, Has, WasCancelled, WasRejected, LostLease, Rejection;
    NothingWent(rounds, retryWait, renewBefore);
    log := [];
    var now, expiresAt := now0, expiry0;
    for i := 0 to |rounds|
      invariant lease.token != "" && !lease.renewing
      invariant |log| == i && AllWent(rounds, log, retryWait, renewBefore)
      invariant if i == 0 then now == now0 && Grant(lease.token, lease.capability, expiresAt) == old(Grant(lease.token, lease.capability, expiry0))
                else now == log[i - 1].ended && Grant(lease.token, lease.capability, expiresAt) == log[i - 1].kept
      invariant i > 0 ==> log[0].began == now0 && log[0].held == Grant(old(lease.token), old(lease.capability), expiry0)
      invariant lease.nextLeaseGeneration == old(lease.nextLeaseGeneration) + Renewals(log)
      invariant lease.generation == if Renewals(log) > 0 then lease.nextLeaseGeneration else old(lease.generation)
      invariant forall j | 0 <= j < i :: GoesOn(rounds[j], log[j])
    {
      var l, ended := RenewOnce(lease, now, expiresAt, retryWait, renewBefore, rounds[i]);
      EndIsExact(rounds[i], retryWait, renewBefore, l, ended);
      OneMoreWent(rounds, log, l, retryWait, renewBefore);
      OneMoreRenewal(log, l);
      log := log + [l];
      now, expiresAt := l.ended, l.kept.expiresAt;
      if ended.Some? {
        return Returned(ended.value), log;
      }
    }
    if log != [] {
      LastWent(rounds, log, retryWait, renewBefore);
      EndIsExact(rounds[|log| - 1], retryWait, renewBefore, log[|log| - 1], None);
    }
    return Pending, log;
  }

  // ----- what the log says

  /** No wait is scheduled past the expiry of the lease it waits on, and none is scheduled for the past. */
  lemma WaitsEndInTime(r: Round, retryWait: int, renewBefore: int, l: Log)
    requires retryWait > 0 && renewBefore > 0 && Went(r, retryWait, renewBefore, l)
    ensures l.first.Some? ==> l.first.value.at < l.first.value.until < l.held.expiresAt
    ensures l.retry.Some? ==> l.retry.value.at < l.retry.value.until <= l.held.expiresAt
  {
    if l.retry.Some? {
      RetryDelayContract(retryWait, Classify(r.reply.err, true));
    }
    hide First, Classify, RetryDelay, ClassAfter;
  }

  /** These rounds all failed to renew the same lease. */
  ghost predicate FailInARow(log: seq<Log>, i: nat, j: nat) {
    i <= j < |log| && forall k | i <= k <= j :: log[k].sentAt.Some? && !log[k].renewed
  }

  lemma Distributes(n: int, m: int)
    ensures (n + 1) * m == n * m + m
  {
  }

  /** A round that waits to retry takes at least m, or the rest of the lease. */
  lemma RetryTakesTime(r: Round, retryWait: int, renewBefore: int, l: Log)
    requires retryWait > 0 && renewBefore > 0 && Went(r, retryWait, renewBefore, l) && GoesOn(r, l) && !l.renewed
    ensures l.ended >= l.began + Min(retryWait, MAX_RETRY_DELAY) || l.ended >= l.held.expiresAt
    ensures l.kept == l.held
  {
    RetryDelayContract(retryWait, Classify(r.reply.err, true));
    hide First, Classify, RetryDelay, ClassAfter;
  }

  lemma {:induction false} FailuresTakeTime(rounds: seq<Round>, log: seq<Log>, retryWait: int, renewBefore: int, i: nat, j: nat)
    requires retryWait > 0 && renewBefore > 0 && AllWent(rounds, log, retryWait, renewBefore) && FailInARow(log, i, j)
    requires forall k | i <= k < j :: GoesOn(rounds[k], log[k])
    ensures log[j].held == log[i].held
    ensures log[j].began >= log[i].began + (j - i) * Min(retryWait, MAX_RETRY_DELAY) || log[j].began >= log[i].held.expiresAt
    decreases j
  {
    var m := Min(retryWait, MAX_RETRY_DELAY);
    if i < j {
      FailuresTakeTime(rounds, log, retryWait, renewBefore, i, j - 1);
      RetryTakesTime(rounds[j - 1], retryWait, renewBefore, log[j - 1]);
      Distributes(j - 1 - i, m);
      assert log[j].began >= log[j - 1].began by {
        assert log[j - 1].ended >= log[j - 1].began;
      }
    }
    hide Went, GoesOn;
  }
  lemma SmallerFactor(a: int, b: int, m: int)
    requires m > 0
    ensures a >= b ==> a * m >= b * m
  {
  }

  lemma Quotient(n: nat, m: int, span: int)
    requires m > 0 && n * m < span
    ensures n <= span / m
  {
    assert span < (span / m + 1) * m;
    SmallerFactor(n, span / m + 1, m);
  }

  lemma SentInTime(r: Round, retryWait: int, renewBefore: int, l: Log)
    requires Went(r, retryWait, renewBefore, l) && l.sentAt.Some?
    ensures l.began < l.held.expiresAt
  {
    hide ReplyWent, RetryWent;
  }

  /** Failed renewals in a row on one lease number at most its time over min(retryWait, five minutes), plus one. */
  lemma FailuresAreBounded(rounds: seq<Round>, log: seq<Log>, retryWait: int, renewBefore: int, i: nat, j: nat)
    requires retryWait > 0 && renewBefore > 0 && AllWent(rounds, log, retryWait, renewBefore) && FailInARow(log, i, j)
    requires forall k | i <= k < j :: GoesOn(rounds[k], log[k])
    ensures log[i].began < log[i].held.expiresAt
    ensures j - i + 1 <= (log[i].held.expiresAt - log[i].began) / Min(retryWait, 300_000_000_000) + 1
  {
    hide Went, GoesOn;
    var m, span := Min(retryWait, MAX_RETRY_DELAY), log[i].held.expiresAt - log[i].began;
    FailuresTakeTime(rounds, log, retryWait, renewBefore, i, j);
    SentInTime(rounds[i], retryWait, renewBefore, log[i]);
    SentInTime(rounds[j], retryWait, renewBefore, log[j]);
    Quotient(j - i, m, span);
  }
}
