/** One relay's supervisor inside its exposure: the two state machines share a context, and what run returns is what
    runSupervisor judges. The supervisors of the other relays stay arbitrary. */
module ExposureSupervision {
  import opened Options
  import opened ExposureCore
  import opened ExposureThreads
  import opened ExposureShape
  import opened ExposureSignal
  import Shutdown = ExposureShutdown
  import Relay = Supervisor
  import Outcomes = SupervisorOutcome
  import opened RelayErrors

  datatype Pair = Pair(exposure: World, relay: Relay.State)

  datatype Turn = ExposureTurn(a: Action) | RelayTurn(r: Relay.Action)

  /** The error that run returns; text is how errors print. */
  function RunError(text: Err -> string, result: Relay.RunResult): string {
    match result
    case ByCancellation => text(Canceled)
    case ByTerminal(cause) => text(cause)
    case ByOther(cause) => text(cause)
  }

  ghost predicate Start(p: Pair) { Init(p.exposure) && Relay.Init(p.relay) }

  ghost predicate Running(e: World, url: string) { url in e.sups && e.sups[url].main.SupRun? }

  ghost predicate Step(cfg: Config, udp: bool, url: string, text: Err -> string, p: Pair, t: Turn, p': Pair) {
    match t
    case ExposureTurn(a) =>
      && Next(cfg, p.exposure, a, p'.exposure)
      && p'.relay == p.relay.(ctxDone := p'.exposure.shared.ctxDone)
      && (Running(p.exposure, url) && url in p'.exposure.sups && p'.exposure.sups[url].main.SupReturned? ==>
            p.relay.main.Ended? && p'.exposure.sups[url].main.runErr == Some(RunError(text, p.relay.main.result)))
    case RelayTurn(r) =>
      && Running(p.exposure, url) && !r.CancelParent?
      && p'.exposure == p.exposure
      && Relay.Next(udp, p.relay, r, p'.relay)
  }

  ghost predicate IsJointRun(cfg: Config, udp: bool, url: string, text: Err -> string, ps: seq<Pair>, turns: seq<Turn>) {
    && |ps| == |turns| + 1
    && Start(ps[0])
    && forall i | 0 <= i < |turns| :: Step(cfg, udp, url, text, ps[i], turns[i], ps[i + 1])
  }

  // ----- the invariant

  predicate Terminal(text: Err -> string, relay: Relay.State, err: string) {
    relay.main.Ended? && relay.main.result.ByTerminal? && err == text(relay.main.result.cause)
  }

  predicate Judged(m: SupPc) { m.SupPublish? || m.SupKick? || m.SupExhaust? || m.SupDone? }

  /** Where runSupervisor stands, run has returned what it judges. */
  predicate MainOk(text: Err -> string, relay: Relay.State, m: SupPc) {
    match m
    case SupReturned(runErr, _) => relay.main.Ended? && runErr == Some(RunError(text, relay.main.result))
    case SupJudge(runErr) => relay.main.Ended? && runErr == Some(RunError(text, relay.main.result))
    case SupFail(err) => Terminal(text, relay, err)
    case _ => true
  }

  predicate Failing(c: Core, url: string) { url in c.statuses && c.statuses[url].state.Failed? }

  ghost predicate StatusOk(text: Err -> string, relay: Relay.State, g: Shared, url: string, m: SupPc) {
    && (Failing(g.core, url) ==> Judged(m) && Terminal(text, relay, g.core.statuses[url].err))
    && (Judged(m) && Live(g) ==> Failing(g.core, url))
  }

  ghost predicate SupervisionInv(cfg: Config, url: string, text: Err -> string, p: Pair) {
    && Shape(cfg, p.exposure)
    && p.relay.ctxDone == p.exposure.shared.ctxDone
    && Outcomes.OutcomeInv(p.relay)
    && (url in p.exposure.sups ==>
          && MainOk(text, p.relay, p.exposure.sups[url].main)
          && StatusOk(text, p.relay, p.exposure.shared, url, p.exposure.sups[url].main))
  }

  // ----- the steps of the exposure

  /** No step but this supervisor's own marks the relay, and a failed status never changes again. */
  ghost predicate StatusKept(g: Shared, g': Shared, url: string) {
    && (Failing(g'.core, url) <==> Failing(g.core, url))
    && (Failing(g.core, url) ==> g'.core.statuses[url].err == g.core.statuses[url].err)
    && (Live(g') ==> Live(g))
  }

  lemma CallbackKeepsStatus(cfg: Config, other: string, g: Shared, s: Sup, g': Shared, s': Sup, url: string)
    requires ReadyStep(cfg, other, g, s, g', s') || DatagramStep(cfg, other, g, s, g', s')
    ensures StatusKept(g, g', url) && s'.main == s.main
  {
    hide PublishStep;
  }

  lemma MainKeepsStatus(cfg: Config, other: string, g: Shared, s: Sup, g': Shared, s': Sup, url: string)
    requires MainStep(cfg, other, g, s, g', s')
    ensures (s.main.SupFail? && other == url) || StatusKept(g, g', url)
  {
    if s.main.SupFail? {
      hide PublishStep;
    } else {
      MainTouches(cfg, other, g, s, g', s');
      MainKeepsFlags(cfg, other, g, s, g', s');
      hide MainStep;
    }
  }

  lemma MainKeepsFlags(cfg: Config, other: string, g: Shared, s: Sup, g': Shared, s': Sup)
    requires MainStep(cfg, other, g, s, g', s')
    ensures g'.core.closing == g.core.closing && g'.ctxDone == g.ctxDone
  {
    hide PublishStep, DrainStep;
  }

  /** runSupervisor's own steps, from the return of run to the mark. */
  lemma OwnMain(cfg: Config, url: string, text: Err -> string, relay: Relay.State, g: Shared, s: Sup, g': Shared, s': Sup)
    requires MainStep(cfg, url, g, s, g', s')
    requires relay.ctxDone == g.ctxDone && Outcomes.OutcomeInv(relay)
    requires MainOk(text, relay, s.main) && StatusOk(text, relay, g, url, s.main) && url in g.core.statuses
    requires s.main.SupRun? && s'.main.SupReturned? ==>
               relay.main.Ended? && s'.main.runErr == Some(RunError(text, relay.main.result))
    ensures MainOk(text, relay, s'.main) && StatusOk(text, relay, g', url, s'.main)
  {
    assert relay.main.Ended? ==> Outcomes.ResultOk(relay.ctxDone, relay.main.result);
    MainTouches(cfg, url, g, s, g', s');
    MainKeepsFlags(cfg, url, g, s, g', s');
    hide Outcomes.OutcomeInv, PublishStep, ExhaustStep;
  }

  lemma SupTurn(cfg: Config, udp: bool, url: string, text: Err -> string, p: Pair, other: string, p': Pair)
    requires SupervisionInv(cfg, url, text, p) && Step(cfg, udp, url, text, p, ExposureTurn(SupMove(other)), p')
    ensures url in p'.exposure.sups ==>
              && MainOk(text, p.relay, p'.exposure.sups[url].main)
              && StatusOk(text, p.relay, p'.exposure.shared, url, p'.exposure.sups[url].main)
  {
    var g, s, g', s' := p.exposure.shared, p.exposure.sups[other], p'.exposure.shared, p'.exposure.sups[other];
    if MainStep(cfg, other, g, s, g', s') {
      if other == url {
        OwnMain(cfg, url, text, p.relay, g, s, g', s');
      } else {
        MainKeepsStatus(cfg, other, g, s, g', s', url);
      }
    } else {
      CallbackKeepsStatus(cfg, other, g, s, g', s', url);
    }
    hide Shape, Outcomes.OutcomeInv, MainStep, ReadyStep, DatagramStep, MainOk;
  }

  lemma AddingKeepsStatus(cfg: Config, w: World, added: string, explicit: bool, w': World, url: string)
    requires Adds(cfg, w, added, explicit, w')
    ensures StatusKept(w.shared, w'.shared, url)
  {
  }

  lemma DiscKeepsStatus(cfg: Config, w: World, w': World, url: string)
    requires Shape(cfg, w) && Next(cfg, w, DiscMove, w')
    ensures StatusKept(w.shared, w'.shared, url)
  {
    if w.disc.DiscAdopt? || w.disc.DiscLaunch? {
      if w.disc.DiscAdopt? && w.disc.rest != [] && Adds(cfg, w, w.disc.rest[0], false, w') {
        AddingKeepsStatus(cfg, w, w.disc.rest[0], false, w', url);
      }
      hide Shape, DiscLocalStep, Adds, MayAdd;
    } else {
      if w.disc.DiscExhaust? {
        ExhaustKeeps(cfg, w.shared.core, w.shared.conns, w.disc.e);
      }
      DiscKeepsFlags(cfg, w.shared, w.disc, w'.shared, w'.disc);
      hide Shape, PublishStep, ExhaustStep, AllFailed;
    }
  }

  lemma DiscKeepsFlags(cfg: Config, g: Shared, d: DiscPc, g': Shared, d': DiscPc)
    requires DiscLocalStep(cfg, g, d, g', d')
    ensures g'.core.closing == g.core.closing && g'.ctxDone == g.ctxDone
  {
    hide PublishStep, DrainStep;
  }

  /** The other goroutines mark nothing. */
  lemma OthersKeepStatus(cfg: Config, w: World, a: Action, w': World, url: string)
    requires Shape(cfg, w) && Next(cfg, w, a, w') && !a.SupMove?
    ensures StatusKept(w.shared, w'.shared, url)
  {
    match a
    case CallerMove(id) =>
      CallerCore(w, id, w'.shared, w'.callers[id]);
      hide Shape, AcceptStep, WaitStep, CloseStep;
    case DiscMove => DiscKeepsStatus(cfg, w, w', url);
    case BuilderMove =>
      if w.builder.Build? && w.builder.next < |cfg.relays| && Adds(cfg, w, cfg.relays[w.builder.next], true, w') {
        AddingKeepsStatus(cfg, w, cfg.relays[w.builder.next], true, w', url);
      }
      hide Shape, PublishStep, Adds, MayAdd;
    case _ => hide Shape;
  }

  lemma ContextOnlyEnds(cfg: Config, w: World, a: Action, w': World)
    requires Shape(cfg, w) && Next(cfg, w, a, w')
    ensures w.shared.ctxDone ==> w'.shared.ctxDone
  {
    match a
    case SupMove(url) => SupShape(cfg, w, url, w'); hide Shape;
    case CallerMove(id) => CallerShape(cfg, w, id, w'); hide Shape;
    case DiscMove =>
      if !w.disc.DiscAdopt? && !w.disc.DiscLaunch? {
        DiscLocalKeeps(cfg, w.shared, w.disc, w'.shared, w'.disc);
      }
      hide Shape, DiscLocalStep;
    case BuilderMove => hide Shape, PublishStep;
    case _ => hide Shape;
  }

  lemma CancelKeepsOutcome(relay: Relay.State)
    requires Outcomes.OutcomeInv(relay)
    ensures Outcomes.OutcomeInv(relay.(ctxDone := true))
  {
    Outcomes.NextOutcome(false, relay, Relay.CancelParent, relay.(ctxDone := true));
  }

  lemma OtherTurn(cfg: Config, udp: bool, url: string, text: Err -> string, p: Pair, a: Action, p': Pair)
    requires SupervisionInv(cfg, url, text, p) && Step(cfg, udp, url, text, p, ExposureTurn(a), p') && !a.SupMove?
    ensures url in p'.exposure.sups ==>
              && MainOk(text, p.relay, p'.exposure.sups[url].main)
              && StatusOk(text, p.relay, p'.exposure.shared, url, p'.exposure.sups[url].main)
  {
    OthersKeepStatus(cfg, p.exposure, a, p'.exposure, url);
    Shutdown.OthersTouchSups(cfg, p.exposure, a, p'.exposure);
    MembersHaveSups(cfg, p.exposure, url);
    hide Shape, Next, Outcomes.OutcomeInv;
  }

  lemma ExposureTurnKeeps(cfg: Config, udp: bool, url: string, text: Err -> string, p: Pair, a: Action, p': Pair)
    requires SupervisionInv(cfg, url, text, p) && Step(cfg, udp, url, text, p, ExposureTurn(a), p')
    ensures SupervisionInv(cfg, url, text, p')
  {
    NextShape(cfg, p.exposure, a, p'.exposure);
    ContextOnlyEnds(cfg, p.exposure, a, p'.exposure);
    CancelKeepsOutcome(p.relay);
    assert p'.relay == p.relay || p'.relay == p.relay.(ctxDone := true);
    if a.SupMove? {
      SupTurn(cfg, udp, url, text, p, a.url, p');
    } else {
      OtherTurn(cfg, udp, url, text, p, a, p');
    }
    hide Shape, Next, Outcomes.OutcomeInv, Judged;
  }

  lemma RelayTurnKeeps(cfg: Config, udp: bool, url: string, text: Err -> string, p: Pair, r: Relay.Action, p': Pair)
    requires SupervisionInv(cfg, url, text, p) && Step(cfg, udp, url, text, p, RelayTurn(r), p')
    ensures SupervisionInv(cfg, url, text, p')
  {
    Outcomes.NextOutcome(udp, p.relay, r, p'.relay);
    assert p'.relay.ctxDone == p.relay.ctxDone by {
      hide Relay.JoinStep, Relay.MainStep, Relay.WorkerStep, Shape, Outcomes.OutcomeInv;
    }
    hide Shape, Outcomes.OutcomeInv, Relay.Next;
  }

  lemma StepKeeps(cfg: Config, udp: bool, url: string, text: Err -> string, p: Pair, t: Turn, p': Pair)
    requires SupervisionInv(cfg, url, text, p) && Step(cfg, udp, url, text, p, t, p')
    ensures SupervisionInv(cfg, url, text, p')
  {
    match t
    case RelayTurn(r) => RelayTurnKeeps(cfg, udp, url, text, p, r, p');
    case ExposureTurn(a) => ExposureTurnKeeps(cfg, udp, url, text, p, a, p');
  }

  lemma MembersHaveSups(cfg: Config, w: World, url: string)
    requires Shape(cfg, w)
    ensures url in w.shared.core.statuses <==> url in w.sups
  {
  }

  lemma {:induction false} RunSupervision(cfg: Config, udp: bool, url: string, text: Err -> string,
                                          ps: seq<Pair>, turns: seq<Turn>, i: nat)
    requires ValidConfig(cfg) && IsJointRun(cfg, udp, url, text, ps, turns) && i < |ps|
    ensures SupervisionInv(cfg, url, text, ps[i])
  {
    if i > 0 {
      RunSupervision(cfg, udp, url, text, ps, turns, i - 1);
      StepKeeps(cfg, udp, url, text, ps[i - 1], turns[i - 1], ps[i]);
      hide SupervisionInv, Step;
    } else {
      assert FailedUrls(map[]) == {};
    }
  }

  // ----- main result

  /** A live exposure has marked a relay failed exactly when its supervisor has passed judgment on the end of run. */
  lemma LiveExposureMarksEveryEnd(cfg: Config, udp: bool, url: string, text: Err -> string,
                                  ps: seq<Pair>, turns: seq<Turn>, i: nat)
    requires ValidConfig(cfg) && IsJointRun(cfg, udp, url, text, ps, turns) && i < |ps|
    requires Live(ps[i].exposure.shared) && url in ps[i].exposure.sups
    ensures Failing(ps[i].exposure.shared.core, url) <==> Judged(ps[i].exposure.sups[url].main)
  {
    RunSupervision(cfg, udp, url, text, ps, turns, i);
    hide Shape;
  }

  /** A relay that the exposure has marked failed has a supervisor whose run ended with a terminal cause, and the status
      carries that cause: neither cancellation nor a lost lease ever marks a relay failed. */
  lemma FailedOnlyForATerminalCause(cfg: Config, udp: bool, url: string, text: Err -> string,
                                    ps: seq<Pair>, turns: seq<Turn>, i: nat)
    requires ValidConfig(cfg) && IsJointRun(cfg, udp, url, text, ps, turns) && i < |ps|
    requires Failing(ps[i].exposure.shared.core, url)
    ensures ps[i].relay.main.Ended? && ps[i].relay.main.result.ByTerminal?
    ensures ps[i].exposure.shared.core.statuses[url].err == text(ps[i].relay.main.result.cause)
  {
    RunSupervision(cfg, udp, url, text, ps, turns, i);
    MembersHaveSups(cfg, ps[i].exposure, url);
    hide Shape;
  }
}
