/** How the workers' results end a lease and a supervisor, over every run. */
module SupervisorOutcome {
  import opened Options
  import opened RelayErrors
  import opened LeaseCell
  import opened LeaseVerdict
  import opened Supervisor

  /** No error that a worker handles is both a refresh and terminal, so the order in which runLease and run test for
      the two never matters. */
  predicate Pure(e: Err) { !(Has(e, IsRefresh) && Has(e, IsTerminal)) }

  predicate WorkerPure(p: WorkerPc) {
    match p
    case SlotFailed(e) => Pure(e)
    case SlotTest(e) => Pure(e)
    case SignerFailed(_, _, e) => Pure(e)
    case SignerTest(_, _, e) => Pure(e)
    case SessionFailed(e) => Pure(e)
    case RenewFailed(_, e) => Pure(e)
    case RenewJudge(e) => Pure(e)
    case Finished(e) => Pure(e)
    case _ => true
  }

  predicate ResultOk(ctxDone: bool, result: RunResult) {
    !result.ByOther? && (result.ByCancellation? ==> ctxDone)
  }

  predicate MainReason(ctxDone: bool, m: MainPc) {
    match m
    case RegisterFailed(err) => ctxDone || Has(err, IsTerminal)
    case EndToken(result) => ResultOk(ctxDone, result)
    case EndClear(result) => ResultOk(ctxDone, result)
    case EndClose(result, _) => ResultOk(ctxDone, result)
    case EndReset(result) => ResultOk(ctxDone, result)
    case Ended(result) => ResultOk(ctxDone, result)
    case _ => true
  }

  predicate PureResult(r: WorkerResult) { r.Some? && Pure(r.value) }

  predicate FirstStops(ctxDone: bool, results: seq<WorkerResult>) {
    !ctxDone && results != [] ==> results[0].Some? && IsStop(results[0].value)
  }

  predicate ErrsPure(o: Owned) { forall b | b in o.errs :: Pure(o.errs[b].err) }

  ghost predicate OutcomeInv(s: State) {
    && MainReason(s.ctxDone, s.main)
    && (s.main.Running? ==> !s.leaseDone)
    && (s.main.Joining? && s.results == [] ==> s.ctxDone)
    && (s.workers != map[] ==> s.main.Running? || s.main.Joining?)
    && ErrsPure(s.own)
    && FirstStops(s.ctxDone, s.results)
    && (forall r | r in s.results :: PureResult(r))
    && forall id | id in s.workers :: WorkerPure(s.workers[id])
  }

  lemma ClassifyPure(e: Err, allowRefresh: bool)
    requires Pure(e)
    ensures Pure(Classify(e, allowRefresh))
  {
    assert !Has(e, IsRefresh) ==> !Has(TerminalError(e), IsRefresh);
  }

  lemma SignerPure(g: nat, e: Err)
    requires Pure(e)
    ensures Pure(TenantSigner(g, e))
  {
  }

  lemma OpenFailurePure(e: Err, capability: string, g: nat)
    requires OpenFailure(e, capability, g)
    ensures Pure(e)
  {
    if e.ReverseUpgrade? {
      assert First(e, IsRefresh) == First(e.cause, IsRefresh) == None;
    }
  }

  lemma StopFacts()
    ensures Pure(LeaseRefresh) && Pure(Canceled) && IsStop(LeaseRefresh)
    ensures forall e: Err {:trigger Has(e, IsTerminal)} :: e.TerminalError? ==> Has(e, IsTerminal)
    ensures forall e: Err {:trigger Has(e, IsRefresh)} :: !e.LeaseRefresh? && e.TerminalError? && !Has(e, IsRefresh) ==> Pure(e)
  {
  }

  /** The errors that a step without a verdict of its own picks up are pure. */
  lemma QuietPure(ctxErr: bool, c: Cell, p: WorkerPc, p': WorkerPc)
    requires WorkerPure(p) && QuietStep(ctxErr, c, p, p')
    requires !p.SlotOpening? && !p.SlotFailed? && !p.SlotTest? && !p.SignerTest? && !p.SessionFailed?
    ensures WorkerPure(p')
    ensures p'.Finished? && !ctxErr ==> IsStop(p'.result)
  {
    StopFacts();
    hide Has, Classify, IsLostLease, OpenFailure;
  }

  /** The steps that judge an error. */
  lemma JudgePure(ctxErr: bool, c: Cell, p: WorkerPc, p': WorkerPc)
    requires WorkerPure(p) && QuietStep(ctxErr, c, p, p')
    requires p.SlotOpening? || p.SlotFailed? || p.SlotTest? || p.SignerTest? || p.SessionFailed?
    ensures WorkerPure(p')
    ensures p'.Finished? && !ctxErr ==> IsStop(p'.result)
  {
    match p {
      case SlotOpening(capability, g) => if p'.SlotFailed? { OpenFailurePure(p'.err, capability, g); }
      case SlotFailed(e) => ClassifyPure(e, true);
      case SlotTest(e) => ClassifyPure(e, true);
      case SignerTest(g, _, e) => SignerPure(g, e); ClassifyPure(TenantSigner(g, e), true);
      case SessionFailed(e) => ClassifyPure(e, true);
    }
    StopFacts();
    hide Has, Classify, IsLostLease, OpenFailure;
  }

  lemma SignPure(ctxErr: bool, o: Owned, p: WorkerPc, o': Owned, p': WorkerPc)
    requires ErrsPure(o) && SignStep(ctxErr, o, p, o', p')
    ensures WorkerPure(p') && ErrsPure(o')
    ensures p'.Finished? && !ctxErr ==> IsStop(p'.result)
  {
    StopFacts();
    hide Has;
  }

  /** A worker keeps its errors pure, and before the lease is cancelled it finishes only to stop the lease. */
  lemma WorkerPureStep(ctxErr: bool, o: Owned, p: WorkerPc, o': Owned, p': WorkerPc)
    requires WorkerPure(p) && ErrsPure(o) && WorkerStep(ctxErr, o, p, o', p')
    ensures WorkerPure(p') && ErrsPure(o')
    ensures p'.Finished? && !ctxErr ==> IsStop(p'.result)
  {
    if p.RenewBegin? || p.RenewFailed? || p.RenewInstall? {
      if p.RenewFailed? {
        ClassifyPure(p.err, true);
      }
      StopFacts();
      hide Has, Classify, Latest, Renewed, RenewalEnded, RenewalBegun;
    } else if p.SlotHandshake? || p.HandshakeFailed? {
      SignPure(ctxErr, o, p, o', p');
    } else {
      if p.SlotOpening? || p.SlotFailed? || p.SlotTest? || p.SignerTest? || p.SessionFailed? {
        JudgePure(ctxErr, o.cell, p, p');
      } else {
        QuietPure(ctxErr, o.cell, p, p');
      }
      hide QuietStep, WorkerPure;
    }
  }

  lemma WorkerKeepsOutcome(udp: bool, s: State, id: nat, s': State)
    requires OutcomeInv(s) && Next(udp, s, WorkerMove(id), s')
    ensures OutcomeInv(s')
  {
    assert WorkerPure(s.workers[id]);
    WorkerPureStep(s.ctxDone || s.leaseDone, s.own, s.workers[id], s'.own, s'.workers[id]);
    hide WorkerStep, IsStop, Pure, MainReason, ErrsPure;
    assert forall r | r in s'.results :: PureResult(r);
  }

  lemma MadeTerminal(e: Err)
    ensures Has(TerminalRelay(e), IsTerminal)
  {
  }

  lemma RegisterReason(ctxDone: bool, o: Owned, m: MainPc, o': Owned, m': MainPc)
    requires MainReason(ctxDone, m) && RegisterStep(ctxDone, o, m, o', m')
    ensures MainReason(ctxDone, m') && !m'.Running? && !m'.Joining?
    ensures o'.errs == o.errs || o'.errs == map[]
  {
    if m.Reject? || m.Unusable? {
      MadeTerminal(m.err);
    }
    hide Has, TerminalRelay, Unregister, LastIndex, UnwrapTerminal, Registered, TakeGeneration;
  }

  lemma ControlReason(ctxDone: bool, o: Owned, m: MainPc, o': Owned, m': MainPc)
    requires MainReason(ctxDone, m)
    requires ControlStep(ctxDone, o, m, o', m') || EndStep(o, m, o', m')
    ensures MainReason(ctxDone, m') && !m'.Running? && !m'.Joining?
    ensures o'.errs == o.errs
  {
    hide Has, Unregister, Classify, SetFate, CloseTenant, LastIndex, UnwrapTerminal, Cleared;
  }

  lemma ReasonStep(ctxDone: bool, o: Owned, m: MainPc, o': Owned, m': MainPc)
    requires MainReason(ctxDone, m) && MainStep(ctxDone, o, m, o', m')
    ensures MainReason(ctxDone, m') && !m'.Running? && !m'.Joining?
    ensures o'.errs == o.errs || o'.errs == map[]
  {
    if RegisterStep(ctxDone, o, m, o', m') {
      RegisterReason(ctxDone, o, m, o', m');
    } else {
      ControlReason(ctxDone, o, m, o', m');
    }
    hide RegisterStep, ControlStep, EndStep, MainReason;
  }

  /** run follows a verdict that is terminal or a refresh. */
  lemma VerdictIsFollowed(results: seq<WorkerResult>, err: Err)
    requires Joins(results, err) && forall r | r in results :: PureResult(r)
    ensures VerdictOf(results).TerminalVerdict? ==>
              Has(err, IsTerminal) && AfterLease(false, err) == EndToken(ByTerminal(UnwrapTerminal(err)))
    ensures VerdictOf(results).RefreshVerdict? ==> AfterLease(false, err) == Discard
  {
    if VerdictOf(results).TerminalVerdict? {
      var i :| 0 <= i < |results| && results[i] == Some(err);
      assert results[i] in results && PureResult(results[i]);
    }
  }

  /** The heart of the matter: with the parent alive, the first result stops the lease, and so the verdict over all
      results is terminal or a refresh. */
  lemma FirstResultDecides(results: seq<WorkerResult>)
    requires results != [] && FirstStops(false, results)
    ensures VerdictOf(results).TerminalVerdict? || VerdictOf(results).RefreshVerdict?
  {
    assert results[0] in results;
    assert IsTerminalResult(results[0]) || IsRefreshResult(results[0]);
  }

  lemma JoinedReason(ctxDone: bool, results: seq<WorkerResult>, err: Err)
    requires Joins(results, err) && FirstStops(ctxDone, results) && (results == [] ==> ctxDone)
    requires forall r | r in results :: PureResult(r)
    ensures MainReason(ctxDone, AfterLease(ctxDone, err))
    ensures AfterLease(ctxDone, err).EndToken? || AfterLease(ctxDone, err).Discard?
  {
    if !ctxDone {
      FirstResultDecides(results);
      VerdictIsFollowed(results, err);
    }
    hide Joins, VerdictOf, Has, IsStop, Pure, UnwrapTerminal;
  }

  lemma JoinKeepsOutcome(udp: bool, s: State, s': State)
    requires OutcomeInv(s) && JoinStep(udp, s, s')
    ensures OutcomeInv(s')
  {
    hide Joins, Has, IsStop, Pure, AllFinished, MainReason, AfterLease;
    if s.main.Joining? {
      var err :| Joins(s.results, err) && s'.main == AfterLease(s.ctxDone, err);
      JoinedReason(s.ctxDone, s.results, err);
    } else {
      assert MainReason(s.ctxDone, Running) && MainReason(s.ctxDone, Joining) by { NoReasonNeeded(s.ctxDone); }
    }
  }

  lemma NoReasonNeeded(ctxDone: bool)
    ensures MainReason(ctxDone, Running) && MainReason(ctxDone, Joining)
  {
  }

  lemma NextOutcome(udp: bool, s: State, a: Action, s': State)
    requires OutcomeInv(s) && Next(udp, s, a, s')
    ensures OutcomeInv(s')
  {
    match a
    case CancelParent =>
    case WorkerMove(id) => WorkerKeepsOutcome(udp, s, id, s');
    case MainMove =>
      if s.main.StartWorkers? || s.main.Running? || s.main.Joining? {
        JoinKeepsOutcome(udp, s, s');
        hide JoinStep;
      } else {
        ReasonStep(s.ctxDone, s.own, s.main, s'.own, s'.main);
        hide MainStep, MainReason, WorkerPure, PureResult;
      }
  }

  lemma {:induction false} RunOutcomeInv(udp: bool, ss: seq<State>, actions: seq<Action>, i: nat)
    requires IsRun(udp, ss, actions) && i < |ss|
    ensures OutcomeInv(ss[i])
  {
    if i > 0 {
      RunOutcomeInv(udp, ss, actions, i - 1);
      NextOutcome(udp, ss[i - 1], actions[i - 1], ss[i]);
      hide OutcomeInv, Next;
    }
  }

  // ----- main results

  function ResultOf(m: MainPc): Option<RunResult> {
    match m
    case EndToken(result) => Some(result)
    case EndClear(result) => Some(result)
    case EndClose(result, _) => Some(result)
    case EndReset(result) => Some(result)
    case Ended(result) => Some(result)
    case _ => None
  }

  /** run ends only because its parent was cancelled or with a terminal cause. */
  lemma EndsOnlyByCancellationOrTerminal(udp: bool, ss: seq<State>, actions: seq<Action>, i: nat)
    requires IsRun(udp, ss, actions) && i < |ss| && ResultOf(ss[i].main).Some?
    ensures var result := ResultOf(ss[i].main).value;
            && (result.ByTerminal? || (result.ByCancellation? && ss[i].ctxDone))
            && (!ss[i].ctxDone ==> result.ByTerminal?)
  {
    RunOutcomeInv(udp, ss, actions, i);
  }

  /** With the parent alive, the first worker to deliver a result delivers a refresh or a terminal error. */
  lemma FirstResultStopsTheLease(udp: bool, ss: seq<State>, actions: seq<Action>, i: nat)
    requires IsRun(udp, ss, actions) && i < |ss| && !ss[i].ctxDone && ss[i].results != []
    ensures ss[i].results[0].Some? && IsStop(ss[i].results[0].value)
  {
    RunOutcomeInv(udp, ss, actions, i);
  }

  /** With the parent alive, a lease ends in exactly one of two ways, and which one depends on the results that the
      workers delivered but not on their order: any arrival order of the same results leads run the same way. */
  lemma LeaseOutcomeIgnoresArrivalOrder(udp: bool, ss: seq<State>, actions: seq<Action>, i: nat,
                                        other: seq<WorkerResult>, err: Err)
    requires IsRun(udp, ss, actions) && i + 1 < |ss| && actions[i] == MainMove
    requires ss[i].main.Joining? && !ss[i].ctxDone
    requires multiset(other) == multiset(ss[i].results) && Joins(other, err)
    ensures if exists r | r in ss[i].results :: IsTerminalResult(r)
            then ss[i + 1].main.EndToken? && ss[i + 1].main.result.ByTerminal?
                 && AfterLease(false, err).EndToken? && AfterLease(false, err).result.ByTerminal?
            else ss[i + 1].main == Discard == AfterLease(false, err)
  {
    RunOutcomeInv(udp, ss, actions, i);
    var s, s' := ss[i], ss[i + 1];
    assert Next(udp, s, MainMove, s');
    var joined :| Joins(s.results, joined) && s'.main == AfterLease(s.ctxDone, joined);
    FirstResultDecides(s.results);
    VerdictIsFollowed(s.results, joined);
    forall r | r in other ensures PureResult(r) {
      assert r in multiset(other);
    }
    VerdictIsFollowed(other, err);
    OrderDoesNotMatter(other, s.results);
  }
}
