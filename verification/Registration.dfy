/** The registration loop against an arbitrary clock and arbitrary relay replies: how signed challenges are reused. */
module Registration {
  import opened Options
  import opened RelayErrors
  import opened RetryTiming

  datatype ChallengeReply =
    | Refused(err: Err)                 // the request failed
    | Unusable(err: Err)                // a reply without an id, without a message, or that cannot be signed
    | Challenge(expiresAt: int)

  datatype SubmitReply = Accepted | Rejected(err: Err)

  /** One round of the loop. */
  datatype Round = Round(
    cancelled: bool,                    // ctx.Err() at the top
    toCheck: nat,                       // by how much the clock moves before the validity test
    challengeTime: nat,
    challenge: ChallengeReply,          // used only if a challenge is requested
    toWaitFirst: nat,
    submitTime: nat,
    submit: SubmitReply,
    waitLate: nat,
    waitCancelled: bool)

  /** What the relay sees, with the times at which the loop looked at its clock. */
  datatype Event =
    | Requested(at: int)
    | Issued(at: int, expiresAt: int)                        // a challenge that the loop accepts and signs
    | Submitted(checkedAt: int, at: int, expiresAt: int)     // with the challenge it used
    | Backoff(at: int)                                       // the last request failed and is retried

  datatype Attempt = NoAttempt | Held(expiresAt: int)

  predicate Valid(a: Attempt, now: int) { a.Held? && now < a.expiresAt }

  datatype Outcome = Registered | GaveUp(err: Err) | Pending

  /** The challenge issued last. */
  function Latest(trace: seq<Event>): Attempt {
    if trace == [] then NoAttempt
    else if trace[|trace| - 1].Issued? then Held(trace[|trace| - 1].expiresAt)
    else Latest(trace[..|trace| - 1])
  }

  /** One round as it went: from when to when, with which challenge in hand at first and at last, what the relay saw of
      it, and whether that was a submission. */
  datatype Log = Log(began: int, held: Attempt, events: seq<Event>, sent: bool, kept: Attempt, ended: int)

  /** What the relay saw of all rounds. */
  function Flatten(log: seq<Log>): seq<Event> {
    if log == [] then [] else Flatten(log[..|log| - 1]) + log[|log| - 1].events
  }

  /** The error on which a round fails: that of its submission, or of its challenge when it came to no submission. A
      challenge that cannot be used is final. */
  function Failure(r: Round, sent: bool): Option<Err> {
    if r.cancelled then None
    else if sent then (if r.submit.Accepted? then None else Some(r.submit.err))
    else
      match r.challenge
      case Refused(err) => Some(err)
      case Unusable(err) => Some(TerminalRelay(err))
      case Challenge(_) => Some(TerminalError(Plain("register challenge is expired")))
  }

  /** A failure that is tried again. */
  predicate Retries(r: Round, sent: bool) {
    Failure(r, sent).Some? && ClassAfter(Failure(r, sent).value, false) != Terminal
  }

  function Classified(failure: Option<Err>): Option<Err> {
    if failure.Some? then Some(Classify(failure.value, false)) else None
  }

  /** The relay issues a challenge that is fresh when it arrives. */
  predicate Usable(r: Round, at: int) { r.challenge.Challenge? && at < r.challenge.expiresAt }

  /** How a round goes. It asks for a challenge only if the one in hand has expired, and submits if it then has a fresh
      one; a failure that is not final is followed by the relay's delay. */
  ghost predicate Went(r: Round, retryWait: int, l: Log) {
    if r.cancelled then l == Log(l.began, l.held, [], false, l.held, l.began)
    else
      var checkedAt := l.began + r.toCheck;
      var asks := !Valid(l.held, checkedAt);
      var readyAt := if asks then checkedAt + r.challengeTime else checkedAt;
      var doneAt := if l.sent then readyAt + r.submitTime else readyAt;
      && (l.sent <==> !asks || Usable(r, readyAt))
      && l.kept == (if asks && l.sent then Held(r.challenge.expiresAt) else l.held)
      && l.events == (if asks then [Requested(checkedAt)] else [])
                     + (if asks && l.sent then [Issued(readyAt, r.challenge.expiresAt)] else [])
                     + (if l.sent then [Submitted(readyAt, doneAt, l.kept.expiresAt)] else [])
                     + (if Retries(r, l.sent) then [Backoff(doneAt)] else [])
      && l.ended == (if Retries(r, l.sent) && !r.waitCancelled
                     then doneAt + RetryDelay(retryWait, Classify(Failure(r, l.sent).value, false)) + r.waitLate else doneAt)
  }

  /** Each round went as it should, on from where the one before left off. */
  ghost predicate AllWent(rounds: seq<Round>, log: seq<Log>, retryWait: int, now0: int) {
    && |log| <= |rounds|
    && (forall i | 0 <= i < |log| :: Went(rounds[i], retryWait, log[i]))
    && (forall i | 0 < i < |log| :: log[i].began == log[i - 1].ended && log[i].held == log[i - 1].kept)
    && (log != [] ==> log[0].began == now0 && log[0].held == NoAttempt)
  }

  /** A challenge is requested only once every challenge issued so far has expired. */
  ghost predicate OnlyWhenNeeded(trace: seq<Event>) {
    forall i, j | 0 <= i < j < |trace| && trace[i].Issued? && trace[j].Requested? :: trace[i].expiresAt <= trace[j].at
  }

  /** A submission carries the challenge issued last, found unexpired when it was issued or at the loop check. */
  ghost predicate FreshSubmissions(trace: seq<Event>) {
    forall j | 0 <= j < |trace| && trace[j].Submitted? ::
      && Latest(trace[..j]) == Held(trace[j].expiresAt)
      && trace[j].checkedAt < trace[j].expiresAt
      && trace[j].checkedAt <= trace[j].at
  }

  /** After a failure the next request is at least m later. */
  ghost predicate Spaced(trace: seq<Event>, m: int) {
    forall j | 0 < j < |trace| && trace[j - 1].Backoff? :: trace[j - 1].at + m <= trace[j].at
  }

  ghost predicate InOrder(trace: seq<Event>, now: int) {
    && (forall i, j | 0 <= i < j < |trace| :: trace[i].at <= trace[j].at)
    && (forall i | 0 <= i < |trace| :: trace[i].at <= now)
  }

  /** Issued challenges were fresh, and requests are answered before anything else happens. */
  ghost predicate IssuesAnswer(trace: seq<Event>) {
    forall j | 0 <= j < |trace| && trace[j].Issued? ::
      0 < j && trace[j - 1].Requested? && trace[j].at < trace[j].expiresAt
  }

  ghost predicate Good(trace: seq<Event>, now: int, m: int) {
    OnlyWhenNeeded(trace) && FreshSubmissions(trace) && Spaced(trace, m) && InOrder(trace, now) && IssuesAnswer(trace)
  }

  /** Every challenge issued by now has expired, except the one that is held. */
  ghost predicate Spent(trace: seq<Event>, attempt: Attempt, now: int) {
    forall i | 0 <= i < |trace| && trace[i].Issued? :: trace[i].expiresAt <= now || Held(trace[i].expiresAt) == attempt
  }

  /** The next event may happen at any time from now on, or from m after a back-off. */
  predicate MayFollow(trace: seq<Event>, at: int, m: int) {
    trace != [] && trace[|trace| - 1].Backoff? ==> trace[|trace| - 1].at + m <= at
  }

  predicate MayAppend(trace: seq<Event>, e: Event) {
    match e
    case Requested(at) => true
    case Issued(at, expiresAt) => trace != [] && trace[|trace| - 1].Requested? && at < expiresAt
    case Submitted(checkedAt, at, expiresAt) => Latest(trace) == Held(expiresAt) && checkedAt < expiresAt && checkedAt <= at
    case Backoff(at) => true
  }

  lemma AppendFresh(trace: seq<Event>, e: Event)
    requires FreshSubmissions(trace) && MayAppend(trace, e)
    ensures FreshSubmissions(trace + [e])
    ensures Latest(trace + [e]) == if e.Issued? then Held(e.expiresAt) else Latest(trace)
  {
    var t := trace + [e];
    assert t[..|trace|] == trace;
    forall j | 0 <= j < |t| && t[j].Submitted?
      ensures Latest(t[..j]) == Held(t[j].expiresAt) && t[j].checkedAt < t[j].expiresAt && t[j].checkedAt <= t[j].at
    {
      if j < |trace| {
        assert t[..j] == trace[..j] && t[j] == trace[j];
      }
    }
  }

  lemma AppendInOrder(trace: seq<Event>, now: int, e: Event)
    requires InOrder(trace, now) && now <= e.at
    ensures InOrder(trace + [e], e.at)
  {
  }

  lemma Append(trace: seq<Event>, now: int, m: int, e: Event)
    requires Good(trace, now, m) && now <= e.at && MayFollow(trace, e.at, m) && MayAppend(trace, e)
    requires e.Requested? ==> Spent(trace, NoAttempt, e.at)
    ensures Good(trace + [e], e.at, m)
    ensures Latest(trace + [e]) == if e.Issued? then Held(e.expiresAt) else Latest(trace)
  {
    AppendFresh(trace, e);
    AppendInOrder(trace, now, e);
    hide FreshSubmissions, InOrder, Latest;
    assert OnlyWhenNeeded(trace + [e]);
    assert IssuesAnswer(trace + [e]);
  }

  /** The clock moves on. */
  lemma Later(trace: seq<Event>, now: int, m: int, later: int)
    requires Good(trace, now, m) && now <= later
    ensures Good(trace, later, m)
  {
  }

  lemma SpentLater(trace: seq<Event>, attempt: Attempt, now: int, later: int)
    requires Spent(trace, attempt, now) && now <= later
    ensures Spent(trace, attempt, later)
    ensures !Valid(attempt, later) ==> Spent(trace, NoAttempt, later)
  {
  }

  lemma SpentAppend(trace: seq<Event>, attempt: Attempt, now: int, e: Event)
    requires Spent(trace, attempt, now)
    ensures !e.Issued? ==> Spent(trace + [e], attempt, now)
    ensures e.Issued? && attempt == NoAttempt ==> Spent(trace + [e], Held(e.expiresAt), now)
  {
  }

  lemma Start(now: int, m: int)
    ensures Good([], now, m) && Spent([], NoAttempt, now) && Latest([]) == NoAttempt
  {
  }

  lemma SpentWeaken(trace: seq<Event>, attempt: Attempt, now: int)
    requires Spent(trace, NoAttempt, now)
    ensures Spent(trace, attempt, now)
  {
  }

  /** waitForRelayRetry after a failed request; a cancelled wait ends early. */
  method WaitForRelayRetry(trace: seq<Event>, attempt: Attempt, now: int, m: int, retryWait: int, err: Err, r: Round)
    returns (after: seq<Event>, later: int)
    requires retryWait > 0 && m == Min(retryWait, MAX_RETRY_DELAY)
    requires Good(trace, now, m) && Spent(trace, attempt, now) && MayFollow(trace, now, m) && Latest(trace) == attempt
    ensures after == trace + [Backoff(now)]
    ensures later == if r.waitCancelled then now else now + RetryDelay(retryWait, err) + r.waitLate
    ensures Good(after, later, m) && Spent(after, attempt, later) && Latest(after) == attempt
    ensures !r.waitCancelled ==> MayFollow(after, later, m)
  {
    RetryDelayContract(retryWait, err);
    hide First, RetryDelay, Good, Spent, Latest;
    Append(trace, now, m, Backoff(now));
    SpentAppend(trace, attempt, now, Backoff(now));
    after := trace + [Backoff(now)];
    later := if r.waitCancelled then now else now + RetryDelay(retryWait, err) + r.waitLate;
    Later(after, now, m, later);
    SpentLater(after, attempt, now, later);
  }

  /** requestRegisterChallenge: a fresh challenge, or why there is none. */
  method RequestRegisterChallenge(trace: seq<Event>, held: Attempt, now: int, m: int, r: Round)
    returns (after: seq<Event>, later: int, attempt: Attempt, failure: Option<Err>)
    requires Good(trace, now, m) && Spent(trace, held, now) && MayFollow(trace, now, m) && Latest(trace) == held
    requires !Valid(held, now)
    ensures later == now + r.challengeTime
    ensures failure.None? <==> Usable(r, later)
    ensures failure.None? ==> attempt == Held(r.challenge.expiresAt)
                              && after == trace + [Requested(now), Issued(later, r.challenge.expiresAt)]
    ensures failure.Some? ==>
              && attempt == held && after == trace + [Requested(now)]
              && failure.value == match r.challenge
                                  case Refused(err) => Classify(err, false)
                                  case Unusable(err) => TerminalRelay(err)
                                  case Challenge(_) => TerminalError(Plain("register challenge is expired"))
    ensures Good(after, later, m) && Spent(after, attempt, later) && MayFollow(after, later, m) && Latest(after) == attempt
  {
    hide First, Classify, Good, Spent, Latest;
    SpentLater(trace, held, now, now);
    SpentAppend(trace, NoAttempt, now, Requested(now));
    Append(trace, now, m, Requested(now));
    after := trace + [Requested(now)];
    attempt := held;
    later := now + r.challengeTime;
    SpentLater(after, NoAttempt, now, later);
    SpentWeaken(after, held, later);
    Later(after, now, m, later);
    match r.challenge {
      case Refused(err) => failure := Some(Classify(err, false));
      case Unusable(err) => failure := Some(TerminalRelay(err));
      case Challenge(expiresAt) =>
        if expiresAt <= later {
          PlainIsNotJudged("register challenge is expired");
          failure := Some(TerminalRelay(Plain("register challenge is expired")));
        } else {
          Append(after, later, m, Issued(later, expiresAt));
          SpentAppend(after, NoAttempt, later, Issued(later, expiresAt));
          assert trace + [Requested(now)] + [Issued(later, expiresAt)] == trace + [Requested(now), Issued(later, expiresAt)];
          after := after + [Issued(later, expiresAt)];
          attempt := Held(expiresAt);
          failure := None;
        }
    }
  }

  lemma PlainIsNotJudged(text: string)
    ensures TerminalRelay(Plain(text)) == TerminalError(Plain(text))
  {
  }

  lemma MadeTerminalIsFinal(e: Err)
    ensures Classify(TerminalRelay(e), false) == TerminalRelay(e) && ClassAfter(TerminalRelay(e), false) == Terminal
    ensures Has(TerminalRelay(e), IsTerminal)
  {
  }

  /** How a round may end the loop; None is another round. */
  ghost predicate EndsWith(r: Round, sent: bool, ended: Option<Outcome>) {
    match ended
    case None => Retries(r, sent) && !r.waitCancelled
    case Some(Registered) => !r.cancelled && sent && r.submit.Accepted?
    case Some(GaveUp(err)) =>
      || (err == Canceled && (r.cancelled || (Retries(r, sent) && r.waitCancelled)))
      || (Failure(r, sent).Some? && err == Classify(Failure(r, sent).value, false) && Has(err, IsTerminal))
    case Some(Pending) => false
  }

  /** A failed request: the loop returns it or waits. */
  method AfterFailure(trace: seq<Event>, held: Attempt, now: int, m: int, retryWait: int, err: Err, r: Round)
    returns (after: seq<Event>, later: int, ended: Option<Outcome>)
    requires retryWait > 0 && m == Min(retryWait, MAX_RETRY_DELAY)
    requires Good(trace, now, m) && Spent(trace, held, now) && MayFollow(trace, now, m) && Latest(trace) == held
    ensures Has(err, IsTerminal) ==> after == trace && later == now && ended == Some(GaveUp(err))
    ensures !Has(err, IsTerminal) ==>
              && after == trace + [Backoff(now)]
              && later == (if r.waitCancelled then now else now + RetryDelay(retryWait, err) + r.waitLate)
              && ended == if r.waitCancelled then Some(GaveUp(Canceled)) else None
    ensures Good(after, later, m) && Spent(after, held, later) && Latest(after) == held
    ensures ended.None? ==> MayFollow(after, later, m)
  {
    hide First, RetryDelay, Good, Spent, Latest;
    if Has(err, IsTerminal) {
      return trace, now, Some(GaveUp(err));
    }
    after, later := WaitForRelayRetry(trace, held, now, m, retryWait, err, r);
    return after, later, if r.waitCancelled then Some(GaveUp(Canceled)) else None;
  }

  /** The rest of a round once there is a valid challenge. */
  method SubmitRegistration(trace: seq<Event>, held: Attempt, now: int, m: int, retryWait: int, r: Round)
    returns (after: seq<Event>, later: int, ended: Option<Outcome>)
    requires retryWait > 0 && m == Min(retryWait, MAX_RETRY_DELAY) && !r.cancelled
    requires Good(trace, now, m) && Spent(trace, held, now) && MayFollow(trace, now, m) && Latest(trace) == held
    requires Valid(held, now)
    ensures var doneAt := now + r.submitTime;
            && after == trace + [Submitted(now, doneAt, held.expiresAt)] + (if Retries(r, true) then [Backoff(doneAt)] else [])
            && later == if Retries(r, true) && !r.waitCancelled
                        then doneAt + RetryDelay(retryWait, Classify(Failure(r, true).value, false)) + r.waitLate else doneAt
    ensures Good(after, later, m) && Spent(after, held, later) && Latest(after) == held
    ensures ended.None? ==> MayFollow(after, later, m)
    ensures EndsWith(r, true, ended)
  {
    hide First, Classify, TerminalRelay, RetryDelay, Good, Spent, Latest;
    var submitted := Submitted(now, now + r.submitTime, held.expiresAt);
    SpentLater(trace, held, now, now + r.submitTime);
    SpentAppend(trace, held, now + r.submitTime, submitted);
    Append(trace, now, m, submitted);
    after, later := trace + [submitted], now + r.submitTime;
    if r.submit.Accepted? {
      ended := Some(Registered);
    } else {
      after, later, ended := AfterFailure(after, held, later, m, retryWait, Classify(r.submit.err, false), r);
    }
  }

  /** One round of the loop. */
  method PlayRound(trace: seq<Event>, held: Attempt, now0: int, m: int, retryWait: int, r: Round)
    returns (l: Log, ended: Option<Outcome>)
    requires retryWait > 0 && m == Min(retryWait, MAX_RETRY_DELAY)
    requires Good(trace, now0, m) && Spent(trace, held, now0) && MayFollow(trace, now0, m) && Latest(trace) == held
    ensures l.began == now0 && l.held == held && Went(r, retryWait, l)
    ensures Good(trace + l.events, l.ended, m) && Spent(trace + l.events, l.kept, l.ended) && Latest(trace + l.events) == l.kept
    ensures ended.None? ==> MayFollow(trace + l.events, l.ended, m)
    ensures EndsWith(r, l.sent, ended)
  {
    hide First, Classify, TerminalRelay, RetryDelay, Good, Spent, Latest;
    if r.cancelled {
      assert trace + [] == trace;
      return Log(now0, held, [], false, held, now0), Some(GaveUp(Canceled));
    }
    var now := now0 + r.toCheck;
    Later(trace, now0, m, now);
    SpentLater(trace, held, now0, now);
    var seen, later, attempt := trace, now, held;
    if !Valid(held, now) {
      var failure;
      seen, later, attempt, failure := RequestRegisterChallenge(trace, held, now, m, r);
      if failure.Some? {
        FailureIsClassified(r);
        seen, later, ended := AfterFailure(seen, attempt, later, m, retryWait, failure.value, r);
        l := Log(now0, held, seen[|trace|..], false, held, later);
        assert trace + l.events == seen;
        return;
      }
    }
    seen, later, ended := SubmitRegistration(seen, attempt, later, m, retryWait, r);
    l := Log(now0, held, seen[|trace|..], true, attempt, later);
    assert trace + l.events == seen;
  }

  lemma FailureIsClassified(r: Round)
    ensures !r.cancelled ==>
              Classify(Failure(r, false).value, false) == match r.challenge
                                                          case Refused(err) => Classify(err, false)
                                                          case Unusable(err) => TerminalRelay(err)
                                                          case Challenge(_) => TerminalError(Plain("register challenge is expired"))
  {
    match r.challenge
    case Refused(_) =>
    case Unusable(err) => MadeTerminalIsFinal(err);
    case Challenge(_) =>
      PlainIsNotJudged("register challenge is expired");
      MadeTerminalIsFinal(Plain("register challenge is expired"));
  }

  lemma {:induction false} FlattenOneMore(log: seq<Log>, l: Log)
    ensures Flatten(log + [l]) == Flatten(log) + l.events
  {
    assert (log + [l])[..|log|] == log;
  }

  /** The ways for a round to end exclude each other. */
  lemma EndIsExact(r: Round, retryWait: int, l: Log, ended: Option<Outcome>)
    requires Went(r, retryWait, l) && EndsWith(r, l.sent, ended)
    ensures ended.None? <==> Retries(r, l.sent) && !r.waitCancelled
    ensures ended == Some(Registered) <==> l.sent && r.submit.Accepted?
    ensures ended == Some(GaveUp(Canceled)) <==> r.cancelled || (Retries(r, l.sent) && r.waitCancelled)
    ensures ended.Some? && ended.value.GaveUp? && ended.value.err != Canceled <==>
              Failure(r, l.sent).Some? && ClassAfter(Failure(r, l.sent).value, false) == Terminal
  {
    assert !Has(Canceled, IsTerminal);
    hide First, Classify, TerminalRelay, RetryDelay;
  }

  lemma NothingWent(rounds: seq<Round>, retryWait: int, now0: int)
    ensures AllWent(rounds, [], retryWait, now0) && Flatten([]) == []
  {
  }

  lemma OneMoreWent(rounds: seq<Round>, log: seq<Log>, l: Log, retryWait: int, now0: int)
    requires AllWent(rounds, log, retryWait, now0) && |log| < |rounds| && Went(rounds[|log|], retryWait, l)
    requires if log == [] then l.began == now0 && l.held == NoAttempt
             else l.began == log[|log| - 1].ended && l.held == log[|log| - 1].kept
    ensures AllWent(rounds, log + [l], retryWait, now0)
  {
    hide Went;
  }

  /** log holds one entry for each round that the loop went through. */
  method RegisterLeaseWithRetry(retryWait: int, now0: int, rounds: seq<Round>)
    returns (outcome: Outcome, log: seq<Log>, endedAt: int)
    requires retryWait > 0
    // when challenges are asked for, what submissions carry, and how far apart failed requests are
    ensures Good(Flatten(log), endedAt, Min(retryWait, MAX_RETRY_DELAY))
    ensures AllWent(rounds, log, retryWait, now0)
    // every round but the last failed in a way that is tried again, and so did the last if the loop is still at work
    ensures forall i | 0 <= i < |log| - 1 :: Retries(rounds[i], log[i].sent) && !rounds[i].waitCancelled
    ensures outcome.Pending? <==> |log| == |rounds| && forall i | 0 <= i < |log| :: Retries(rounds[i], log[i].sent) && !rounds[i].waitCancelled
    // it has registered exactly if the last round submitted and was accepted
    ensures outcome.Registered? <==> log != [] && log[|log| - 1].sent && rounds[|log| - 1].submit.Accepted?
    // it reports a cancellation exactly if the last round was cancelled, at its beginning or while it waited to retry
    ensures outcome == GaveUp(Canceled) <==>
              log != [] && var (r, l) := (rounds[|log| - 1], log[|log| - 1]); r.cancelled || (Retries(r, l.sent) && r.waitCancelled)
    // and any other error exactly if that is what the last round failed with, and it is final
    ensures outcome.GaveUp? && outcome.err != Canceled <==>
              log != [] && var (r, l) := (rounds[|log| - 1], log[|log| - 1]);
                Failure(r, l.sent).Some? && ClassAfter(Failure(r, l.sent).value, false) == Terminal
    ensures outcome.GaveUp? && outcome.err != Canceled ==>
              Has(outcome.err, IsTerminal) && Some(outcome.err) == Classified(Failure(rounds[|log| - 1], log[|log| - 1].sent))
  {
    var m := Min(retryWait, MAX_RETRY_DELAY);
    var now := now0;
    var attempt := NoAttempt;
    log := [];
    hide First, Classify, TerminalRelay, RetryDelay, Good, Spent, Latest, Went, Failure, Flatten;
    NothingWent(rounds, retryWait, now0);
    Start(now, m);
    for i := 0 to |rounds|
      invariant |log| == i && AllWent(rounds, log, retryWait, now0)
      invariant if i == 0 then now == now0 && attempt == NoAttempt else now == log[i - 1].ended && attempt == log[i - 1].kept
      invariant Good(Flatten(log), now, m) && Spent(Flatten(log), attempt, now) && MayFollow(Flatten(log), now, m)
      invariant Latest(Flatten(log)) == attempt
      invariant forall j | 0 <= j < i :: Retries(rounds[j], log[j].sent) && !rounds[j].waitCancelled
    {
      var l, ended;
      l, ended := PlayRound(Flatten(log), attempt, now, m, retryWait, rounds[i]);
      FlattenOneMore(log, l);
      OneMoreWent(rounds, log, l, retryWait, now0);
      EndIsExact(rounds[i], retryWait, l, ended);
      log := log + [l];
      now, attempt := l.ended, l.kept;
      if ended.Some? {
        return ended.value, log, now;
      }
    }
    if log != [] {
      EndIsExact(rounds[|log| - 1], retryWait, log[|log| - 1], None);
    }
    return Pending, log, now;
  }
  // ----- what the trace says

  /** One validity window costs one challenge: from the moment a challenge is issued until it expires, none is
      requested and none is issued, however many submissions are refused meanwhile. */
  lemma OneChallengePerWindow(trace: seq<Event>, now: int, m: int, i: nat, j: nat)
    requires Good(trace, now, m) && i < j < |trace| && trace[i].Issued? && trace[j].at < trace[i].expiresAt
    ensures forall k | i < k <= j :: !trace[k].Requested? && !trace[k].Issued?
    ensures forall k | i < k <= j && trace[k].Submitted? :: trace[k].expiresAt == trace[i].expiresAt
  {
    forall k | i < k <= j ensures !trace[k].Requested? {
      assert trace[k].at <= trace[j].at;
    }
    forall k | i < k <= j ensures !trace[k].Issued? {
      if trace[k].Issued? {
        RequestComesFirst(trace, k);
        assert false;
      }
    }
    forall k | i < k <= j && trace[k].Submitted? ensures trace[k].expiresAt == trace[i].expiresAt {
      LatestIs(trace, i, k);
    }
  }

  lemma RequestComesFirst(trace: seq<Event>, k: nat)
    requires IssuesAnswer(trace) && k < |trace| && trace[k].Issued?
    ensures k > 0 && trace[k - 1].Requested?
  {
  }

  lemma {:induction false} LatestIs(trace: seq<Event>, i: nat, k: nat)
    requires i < k <= |trace| && trace[i].Issued? && forall n | i < n < k :: !trace[n].Issued?
    ensures Latest(trace[..k]) == Held(trace[i].expiresAt)
    decreases k
  {
    assert trace[..k][..|trace[..k]| - 1] == trace[..k - 1];
    if i < k - 1 {
      LatestIs(trace, i, k - 1);
    }
  }
}
