/** The exhaustion signal: it is never closed early in discovery mode, and a total failure is never forgotten. */
module ExposureSignal {
  import opened Options
  import opened ExposureCore
  import opened ExposureThreads
  import opened ExposureShape

  /** A supervisor whose markFailed saw the last member fail and that has yet to act on it. */
  predicate SupPending(p: SupPc) {
    (p.SupPublish? && p.last) || p.SupKick? || p == SupExhaust(CloseSignal)
  }

  ghost predicate SomeSupPending(sups: map<string, Sup>) {
    exists url :: url in sups && SupPending(sups[url].main)
  }

  /** A refresh that has yet to make its final check, or discovery that has yet to start its first. */
  predicate YetToCheck(d: DiscPc) {
    d.DiscOff? || d.DiscRefresh? || d.DiscFetch? || d.DiscAdopt? || d.DiscPublish? || d.DiscLaunch? || d.DiscFinal?
  }

  /** Somebody will look at the total failure. */
  ghost predicate Pending(cfg: Config, kick: bool, d: DiscPc, sups: map<string, Sup>) {
    || SomeSupPending(sups)
    || (cfg.discovery && (kick || YetToCheck(d) || d == DiscExhaust(CloseSignal)))
  }

  ghost predicate Live(g: Shared) { !g.core.closing && !g.ctxDone }

  ghost predicate SignalInv(cfg: Config, w: World) {
    var g := w.shared;
    && (cfg.discovery && g.core.signalClosed ==> AllFailed(g.core))
    && (w.disc == DiscExhaust(CloseSignal) ==> AllFailed(g.core))
    && (AllFailed(g.core) && !g.core.signalClosed && (Live(g) || !cfg.discovery) ==> Pending(cfg, g.kick, w.disc, w.sups))
  }

  /** What a step of one supervisor means for the signal. */
  ghost predicate SupSignal(cfg: Config, g: Shared, s: Sup, g': Shared, s': Sup) {
    && (AllFailed(g.core) ==> AllFailed(g'.core))
    && (AllFailed(g'.core) && !AllFailed(g.core) ==> SupPending(s'.main))
    && (SupPending(s.main) && !SupPending(s'.main) ==> g'.core.signalClosed || (cfg.discovery && g'.kick))
    && (g.kick ==> g'.kick)
    && (g.core.signalClosed ==> g'.core.signalClosed)
    && (cfg.discovery ==> g'.core.signalClosed == g.core.signalClosed)
    && g'.core.closing == g.core.closing && g'.ctxDone == g.ctxDone
  }

  lemma MainSignal(cfg: Config, url: string, g: Shared, s: Sup, g': Shared, s': Sup)
    requires SupOk(cfg, s, false) && g.core.failedOnce == g.core.signalClosed
    requires MainStep(cfg, url, g, s, g', s')
    ensures SupSignal(cfg, g, s, g', s')
  {
    hide PublishStep, DrainStep;
  }

  lemma CallbackSignal(cfg: Config, url: string, g: Shared, s: Sup, g': Shared, s': Sup)
    requires ReadyStep(cfg, url, g, s, g', s') || DatagramStep(cfg, url, g, s, g', s')
    ensures SupSignal(cfg, g, s, g', s')
  {
    hide PublishStep;
  }

  lemma SupKeepsSignal(cfg: Config, w: World, url: string, w': World)
    requires Shape(cfg, w) && SignalInv(cfg, w) && Next(cfg, w, SupMove(url), w')
    ensures SignalInv(cfg, w')
  {
    var g, s, g', s' := w.shared, w.sups[url], w'.shared, w'.sups[url];
    assert SupOk(cfg, s, false) && g.core.failedOnce == g.core.signalClosed;
    if MainStep(cfg, url, g, s, g', s') {
      MainSignal(cfg, url, g, s, g', s');
    } else {
      CallbackSignal(cfg, url, g, s, g', s');
    }
    if SomeSupPending(w.sups) {
      var u :| u in w.sups && SupPending(w.sups[u].main);
      assert u != url ==> u in w'.sups && SupPending(w'.sups[u].main);
    }
    assert url in w'.sups;
    hide Shape, MainStep, ReadyStep, DatagramStep, AllFailed, SupPending, YetToCheck;
  }

  lemma DiscLocalSignal(cfg: Config, g: Shared, d: DiscPc, g': Shared, d': DiscPc)
    requires cfg.discovery && DiscLocalStep(cfg, g, d, g', d')
    requires d == DiscExhaust(CloseSignal) ==> AllFailed(g.core)
    requires g.core.failedOnce == g.core.signalClosed
    ensures AllFailed(g'.core) == AllFailed(g.core)
    ensures d' == DiscExhaust(CloseSignal) ==> AllFailed(g'.core)
    ensures g'.core.signalClosed && !g.core.signalClosed ==> AllFailed(g.core)
    ensures Live(g') == Live(g)
    ensures AllFailed(g.core) && Live(g) && !g'.core.signalClosed && (g.kick || YetToCheck(d) || d == DiscExhaust(CloseSignal)) ==>
              g'.kick || YetToCheck(d') || d' == DiscExhaust(CloseSignal)
  {
    hide PublishStep, DrainStep;
  }

  lemma DiscKeepsSignal(cfg: Config, w: World, w': World)
    requires Shape(cfg, w) && SignalInv(cfg, w) && Next(cfg, w, DiscMove, w')
    ensures SignalInv(cfg, w')
  {
    if w.disc.DiscAdopt? || w.disc.DiscLaunch? {
      hide Accounted, DiscLocalStep, SupOk;
    } else {
      DiscLocalSignal(cfg, w.shared, w.disc, w'.shared, w'.disc);
      hide Shape, DiscLocalStep, AllFailed, YetToCheck;
    }
  }

  lemma BuilderKeepsSignal(cfg: Config, w: World, w': World)
    requires Shape(cfg, w) && SignalInv(cfg, w) && Next(cfg, w, BuilderMove, w')
    ensures SignalInv(cfg, w')
  {
    if w.builder.BuildLaunch? {
      LaunchKeepsPending(cfg, w, cfg.relays[w.builder.next], w');
      hide Shape, Launches, AllFailed;
    } else if w.builder.Build? {
      FailedAtMostAll(w.shared.core, cfg.maxDiscovered);
      AddedNotPending(w.sups, cfg.relays);
      hide Accounted, PublishStep, SupOk, SupPending, SomeSupPending;
    } else {
      hide Shape, PublishStep, AllFailed, SupPending, Pending;
    }
  }

  lemma LaunchKeepsPending(cfg: Config, w: World, url: string, w': World)
    requires Shape(cfg, w) && Starting(cfg, w.builder, w.disc) == Some(url) && Launches(w, url, w')
    ensures SomeSupPending(w.sups) ==> SomeSupPending(w'.sups)
  {
    if u :| u in w.sups && SupPending(w.sups[u].main) {
      assert u != url by { assert SupOk(cfg, w.sups[url], true); }
      assert u in w'.sups && SupPending(w'.sups[u].main);
    }
  }

  lemma AddedNotPending(sups: map<string, Sup>, urls: seq<string>)
    ensures forall url | url in urls && url !in sups && SomeSupPending(sups) ::
              SomeSupPending(sups[url := Sup(SupNew, None, None)])
  {
    forall url | url in urls && url !in sups && SomeSupPending(sups)
      ensures SomeSupPending(sups[url := Sup(SupNew, None, None)])
    {
      var u :| u in sups && SupPending(sups[u].main);
      assert u in sups[url := Sup(SupNew, None, None)];
    }
  }

  lemma CallerKeepsSignal(cfg: Config, w: World, id: nat, w': World)
    requires SignalInv(cfg, w) && Next(cfg, w, CallerMove(id), w')
    ensures SignalInv(cfg, w')
  {
    CallerCore(w, id, w'.shared, w'.callers[id]);
    CallerKick(w, id, w'.shared, w'.callers[id]);
    hide AcceptStep, WaitStep, CloseStep, Pending;
  }

  lemma CallerKick(w: World, id: nat, g': Shared, p': CallerPc)
    requires id in w.callers
    requires AcceptStep(w.shared, w.callers[id], g', p') || WaitStep(w.shared, w.callers[id], g', p')
          || CloseStep(w, id, g', p')
    ensures g'.kick == w.shared.kick
  {
    hide AllFailed, SignalIsClosed, SomeReady, DrainStep;
  }

  lemma NextSignal(cfg: Config, w: World, a: Action, w': World)
    requires Shape(cfg, w) && SignalInv(cfg, w) && Next(cfg, w, a, w')
    ensures SignalInv(cfg, w')
  {
    match a
    case BuilderMove => BuilderKeepsSignal(cfg, w, w');
    case DiscMove => DiscKeepsSignal(cfg, w, w');
    case SupMove(url) => SupKeepsSignal(cfg, w, url, w');
    case CallerMove(id) => CallerKeepsSignal(cfg, w, id, w');
    case _ => hide Pending;
  }

  lemma {:induction false} RunSignal(cfg: Config, ws: seq<World>, actions: seq<Action>, i: nat)
    requires ValidConfig(cfg) && IsRun(cfg, ws, actions) && i < |ws|
    ensures SignalInv(cfg, ws[i])
  {
    if i > 0 {
      RunShape(cfg, ws, actions, i - 1);
      RunSignal(cfg, ws, actions, i - 1);
      NextSignal(cfg, ws[i - 1], actions[i - 1], ws[i]);
    }
  }

  // ----- main results

  /** In discovery mode a closed allFailed channel always means that there are members and every one failed. */
  lemma ClosedSignalIsTruthful(cfg: Config, ws: seq<World>, actions: seq<Action>, i: nat)
    requires ValidConfig(cfg) && IsRun(cfg, ws, actions) && i < |ws|
    requires cfg.discovery && ws[i].shared.core.signalClosed
    ensures ws[i].shared.core.statuses != map[]
    ensures forall url | url in ws[i].shared.core.statuses :: ws[i].shared.core.statuses[url].state.Failed?
  {
    RunShape(cfg, ws, actions, i);
    RunSignal(cfg, ws, actions, i);
    AllFailedMeaning(ws[i].shared.core, cfg.maxDiscovered);
  }

  /** A total failure is never forgotten: while the signal is still open and the exposure is live, a kick is
      queued, or a refresh has yet to make or to act on its final check, or a markFailed has yet to kick. With
      fixed membership, a markFailed has yet to close the signal, live or not. */
  lemma ExhaustionIsNeverLost(cfg: Config, ws: seq<World>, actions: seq<Action>, i: nat)
    requires ValidConfig(cfg) && IsRun(cfg, ws, actions) && i < |ws|
    requires ws[i].shared.core.statuses != map[]
    requires forall url | url in ws[i].shared.core.statuses :: ws[i].shared.core.statuses[url].state.Failed?
    requires !ws[i].shared.core.signalClosed
    requires cfg.discovery ==> Live(ws[i].shared)
    ensures Pending(cfg, ws[i].shared.kick, ws[i].disc, ws[i].sups)
  {
    RunShape(cfg, ws, actions, i);
    RunSignal(cfg, ws, actions, i);
    AllFailedMeaning(ws[i].shared.core, cfg.maxDiscovered);
  }

  /** Whoever adds a member leaves the signal open, with the sync.Once armed again. */
  lemma AddingReopensTheSignal(cfg: Config, ws: seq<World>, actions: seq<Action>, i: nat)
    requires ValidConfig(cfg) && IsRun(cfg, ws, actions) && i + 1 < |ws|
    requires !(ws[i + 1].shared.core.statuses.Keys <= ws[i].shared.core.statuses.Keys)
    ensures !ws[i + 1].shared.core.signalClosed && !ws[i + 1].shared.core.failedOnce
  {
    RunShape(cfg, ws, actions, i);
    var w, w' := ws[i], ws[i + 1];
    assert Next(cfg, w, actions[i], w');
    match actions[i]
    case SupMove(url) => SupShape(cfg, w, url, w');
    case CallerMove(id) => CallerShape(cfg, w, id, w');
    case DiscMove =>
      if !w.disc.DiscAdopt? && !w.disc.DiscLaunch? {
        DiscLocalKeeps(cfg, w.shared, w.disc, w'.shared, w'.disc);
      }
      hide DiscLocalStep;
    case BuilderMove => hide PublishStep;
    case _ =>
  }
}
