/** No lost wake-up: a parked Accept or WaitReady never sleeps through what it waits for. */
module ExposureWakeup {
  import opened Options
  import opened ExposureCore
  import opened ExposureThreads
  import opened ExposureShape

  /** Some goroutine stands between closing allFailed and notifying. */
  ghost predicate NotifyPending(d: DiscPc, sups: map<string, Sup>) {
    d == DiscExhaust(NotifyAll) || exists url :: url in sups && sups[url].main == SupExhaust(NotifyAll)
  }

  /** What a caller still knows about the state, given the stateChanged channel it has captured. Accept reads
      its condition in three pieces, so each point in between has its own claim. */
  ghost predicate CallerWakes(c: Core, pending: bool, p: CallerPc) {
    match p
    case AcceptSnap2(seen) => seen <= c.epoch
    case AcceptCheck2(seen, signal, all) =>
      seen <= c.epoch && (seen == c.epoch ==> signal == c.signal && all == AllFailed(c))
    case AcceptSelect(seen, exhausted) =>
      seen <= c.epoch && (seen == c.epoch && Exhausted(c) && !exhausted ==> pending)
    case WaitSelect(udp, seen) =>
      seen <= c.epoch && (seen == c.epoch ==> !SomeReady(c, udp) && (Exhausted(c) ==> pending))
    case _ => true
  }

  ghost predicate WakeInv(w: World) {
    forall id | id in w.callers :: CallerWakes(w.shared.core, NotifyPending(w.disc, w.sups), w.callers[id])
  }

  /** Every step either replaces the stateChanged channel or changes nothing a sleeper could wait for, except that
      it may close allFailed and then stands before the notification. */
  ghost predicate Announced(c: Core, pending: bool, c': Core, pending': bool) {
    && c.epoch <= c'.epoch
    && (c.epoch == c'.epoch ==>
          && c'.statuses == c.statuses && c'.signal == c.signal
          && c'.failedCount == c.failedCount && c'.relayCount == c.relayCount
          && (c'.signalClosed && !c.signalClosed ==> pending')
          && (pending ==> pending'))
  }

  lemma AnnouncedKeeps(c: Core, pending: bool, p: CallerPc, c': Core, pending': bool)
    requires CallerWakes(c, pending, p) && Announced(c, pending, c', pending')
    ensures CallerWakes(c', pending', p)
  {
    hide IsReadyStatus;
  }

  // ----- every step announces what it changes

  lemma MainAnnounces(cfg: Config, url: string, g: Shared, s: Sup, g': Shared, s': Sup)
    requires g.core.failedOnce == g.core.signalClosed
    requires MainStep(cfg, url, g, s, g', s')
    ensures Announced(g.core, false, g'.core, s'.main == SupExhaust(NotifyAll))
    ensures s.main == SupExhaust(NotifyAll) ==> g'.core.epoch > g.core.epoch
  {
    hide PublishStep, DrainStep;
  }

  lemma CallbackAnnounces(cfg: Config, url: string, g: Shared, s: Sup, g': Shared, s': Sup)
    requires ReadyStep(cfg, url, g, s, g', s') || DatagramStep(cfg, url, g, s, g', s')
    ensures Announced(g.core, false, g'.core, false) && s'.main == s.main
  {
    hide PublishStep;
  }

  lemma SupAnnounces(cfg: Config, w: World, url: string, w': World)
    requires Shape(cfg, w) && Next(cfg, w, SupMove(url), w')
    ensures Announced(w.shared.core, NotifyPending(w.disc, w.sups), w'.shared.core, NotifyPending(w'.disc, w'.sups))
  {
    var g, s, g', s' := w.shared, w.sups[url], w'.shared, w'.sups[url];
    assert g.core.failedOnce == g.core.signalClosed;
    if MainStep(cfg, url, g, s, g', s') {
      MainAnnounces(cfg, url, g, s, g', s');
    } else {
      CallbackAnnounces(cfg, url, g, s, g', s');
    }
    if NotifyPending(w.disc, w.sups) && w.disc != DiscExhaust(NotifyAll) {
      var u :| u in w.sups && w.sups[u].main == SupExhaust(NotifyAll);
      assert u != url ==> u in w'.sups && w'.sups[u].main == SupExhaust(NotifyAll);
    }
    assert url in w'.sups;
    hide Shape, MainStep, ReadyStep, DatagramStep;
  }

  lemma AddsAnnounces(cfg: Config, w: World, url: string, explicit: bool, w': World)
    requires Adds(cfg, w, url, explicit, w')
    ensures w'.shared.core.epoch > w.shared.core.epoch
  {
  }

  /** Starting a supervisor leaves every other goroutine where it was. */
  lemma LaunchAnnounces(cfg: Config, w: World, url: string, w': World)
    requires Shape(cfg, w) && Starting(cfg, w.builder, w.disc) == Some(url) && Launches(w, url, w')
    requires w.disc != DiscExhaust(NotifyAll)
    ensures NotifyPending(w.disc, w.sups) ==> NotifyPending(w'.disc, w'.sups)
  {
    if u :| u in w.sups && w.sups[u].main == SupExhaust(NotifyAll) {
      assert SupOk(cfg, w.sups[url], true);
      assert u in w'.sups && w'.sups[u].main == SupExhaust(NotifyAll);
    }
  }

  lemma BuilderAnnounces(cfg: Config, w: World, w': World)
    requires Shape(cfg, w) && Next(cfg, w, BuilderMove, w')
    ensures Announced(w.shared.core, NotifyPending(w.disc, w.sups), w'.shared.core, NotifyPending(w'.disc, w'.sups))
  {
    if w.builder.Build? && w.builder.next < |cfg.relays| && Adds(cfg, w, cfg.relays[w.builder.next], true, w') {
      AddsAnnounces(cfg, w, cfg.relays[w.builder.next], true, w');
    } else if w.builder.BuildLaunch? {
      LaunchAnnounces(cfg, w, cfg.relays[w.builder.next], w');
    }
    assert w.disc.DiscOff? || w.disc == w'.disc || w.builder.Build?;
    hide Accounted, SupsOk, PublishStep, Adds;
  }

  lemma DiscLocalAnnounces(cfg: Config, g: Shared, d: DiscPc, g': Shared, d': DiscPc)
    requires DiscLocalStep(cfg, g, d, g', d') && g.core.failedOnce == g.core.signalClosed
    ensures Announced(g.core, false, g'.core, d' == DiscExhaust(NotifyAll))
    ensures d == DiscExhaust(NotifyAll) ==> g'.core.epoch > g.core.epoch
  {
    hide PublishStep, DrainStep;
  }

  lemma DiscAnnounces(cfg: Config, w: World, w': World)
    requires Shape(cfg, w) && Next(cfg, w, DiscMove, w')
    ensures Announced(w.shared.core, NotifyPending(w.disc, w.sups), w'.shared.core, NotifyPending(w'.disc, w'.sups))
  {
    assert w.shared.core.failedOnce == w.shared.core.signalClosed;
    if w.disc.DiscLaunch? {
      LaunchAnnounces(cfg, w, w.disc.url, w');
      hide Shape;
    } else if w.disc.DiscAdopt? {
      if w.disc.rest != [] && Adds(cfg, w, w.disc.rest[0], false, w') {
        AddsAnnounces(cfg, w, w.disc.rest[0], false, w');
      }
      hide Shape, Adds, MayAdd;
    } else {
      DiscLocalAnnounces(cfg, w.shared, w.disc, w'.shared, w'.disc);
      hide Shape, DiscLocalStep;
    }
  }

  lemma CallerAnnounces(cfg: Config, w: World, id: nat, w': World)
    requires Next(cfg, w, CallerMove(id), w')
    ensures Announced(w.shared.core, NotifyPending(w.disc, w.sups), w'.shared.core, NotifyPending(w'.disc, w'.sups))
  {
    CallerCore(w, id, w'.shared, w'.callers[id]);
    hide AcceptStep, WaitStep, CloseStep, NotifyPending;
  }

  /** Every change of membership, readiness or failure comes with a replaced stateChanged channel. */
  lemma NextAnnounces(cfg: Config, w: World, a: Action, w': World)
    requires Shape(cfg, w) && Next(cfg, w, a, w')
    ensures Announced(w.shared.core, NotifyPending(w.disc, w.sups), w'.shared.core, NotifyPending(w'.disc, w'.sups))
  {
    match a
    case BuilderMove => BuilderAnnounces(cfg, w, w');
    case DiscMove => DiscAnnounces(cfg, w, w');
    case SupMove(url) => SupAnnounces(cfg, w, url, w');
    case CallerMove(id) => CallerAnnounces(cfg, w, id, w');
    case _ => hide NotifyPending;
  }

  // ----- the steps of the caller itself

  lemma AcceptWakes(g: Shared, p: CallerPc, g': Shared, p': CallerPc, pending: bool)
    requires CallerWakes(g.core, pending, p) && AcceptStep(g, p, g', p')
    ensures g'.core == g.core && CallerWakes(g.core, pending, p')
  {
    hide AllFailed, SomeReady;
  }

  lemma OtherCallerWakes(w: World, id: nat, g': Shared, p': CallerPc, pending: bool)
    requires id in w.callers
    requires WaitStep(w.shared, w.callers[id], g', p') || CloseStep(w, id, g', p')
    ensures CallerWakes(g'.core, pending, p')
  {
    hide AllFailed, SomeReady, DrainStep;
  }

  lemma CallerKeepsWake(cfg: Config, w: World, id: nat, w': World)
    requires WakeInv(w) && Next(cfg, w, CallerMove(id), w')
    ensures CallerWakes(w'.shared.core, NotifyPending(w'.disc, w'.sups), w'.callers[id])
  {
    var pending := NotifyPending(w.disc, w.sups);
    if AcceptStep(w.shared, w.callers[id], w'.shared, w'.callers[id]) {
      AcceptWakes(w.shared, w.callers[id], w'.shared, w'.callers[id], pending);
    } else {
      OtherCallerWakes(w, id, w'.shared, w'.callers[id], pending);
    }
    hide AcceptStep, WaitStep, CloseStep, NotifyPending, CallerWakes;
  }

  lemma NextWakes(cfg: Config, w: World, a: Action, w': World)
    requires Shape(cfg, w) && WakeInv(w) && Next(cfg, w, a, w')
    ensures WakeInv(w')
  {
    NextAnnounces(cfg, w, a, w');
    if a.CallerMove? {
      CallerKeepsWake(cfg, w, a.id, w');
    }
    var c, pending, c', pending' := w.shared.core, NotifyPending(w.disc, w.sups), w'.shared.core, NotifyPending(w'.disc, w'.sups);
    forall id | id in w'.callers ensures CallerWakes(c', pending', w'.callers[id]) {
      if id in w.callers && w'.callers[id] == w.callers[id] {
        AnnouncedKeeps(c, pending, w.callers[id], c', pending');
      } else if a.Spawn? {
        assert CallerWakes(c', pending', a.start);
      }
    }
    hide Shape, Announced, CallerWakes, BuilderStep, DiscStep, MainStep, ReadyStep, DatagramStep, AcceptStep, WaitStep, CloseStep;
  }

  lemma {:induction false} RunWakes(cfg: Config, ws: seq<World>, actions: seq<Action>, i: nat)
    requires ValidConfig(cfg) && IsRun(cfg, ws, actions) && i < |ws|
    ensures WakeInv(ws[i])
  {
    if i > 0 {
      RunShape(cfg, ws, actions, i - 1);
      RunWakes(cfg, ws, actions, i - 1);
      NextWakes(cfg, ws[i - 1], actions[i - 1], ws[i]);
    }
  }

  // ----- main results

  /** An Accept parked in its select with no exhausted channel to watch: if the exposure is exhausted now, the
      stateChanged channel it captured is already closed, or a goroutine is about to close it. */
  lemma AcceptNeverSleepsThroughExhaustion(cfg: Config, ws: seq<World>, actions: seq<Action>, i: nat, id: nat)
    requires ValidConfig(cfg) && IsRun(cfg, ws, actions) && i < |ws|
    requires id in ws[i].callers && ws[i].callers[id].AcceptSelect? && !ws[i].callers[id].exhausted
    requires Exhausted(ws[i].shared.core)
    ensures ws[i].callers[id].seen < ws[i].shared.core.epoch || NotifyPending(ws[i].disc, ws[i].sups)
  {
    RunWakes(cfg, ws, actions, i);
  }

  /** A parked WaitReady or WaitDatagramReady: a ready relay means that its channel is closed, exhaustion that it
      is closed or about to be. */
  lemma WaitReadyNeverSleepsThroughReadiness(cfg: Config, ws: seq<World>, actions: seq<Action>, i: nat, id: nat)
    requires ValidConfig(cfg) && IsRun(cfg, ws, actions) && i < |ws|
    requires id in ws[i].callers && ws[i].callers[id].WaitSelect?
    ensures SomeReady(ws[i].shared.core, ws[i].callers[id].udp) ==> ws[i].callers[id].seen < ws[i].shared.core.epoch
    ensures Exhausted(ws[i].shared.core) ==>
              ws[i].callers[id].seen < ws[i].shared.core.epoch || NotifyPending(ws[i].disc, ws[i].sups)
  {
    RunWakes(cfg, ws, actions, i);
  }

  /** Between any two states of a run: if the statuses differ, the stateChanged channel of the earlier one is closed. */
  lemma {:induction false} ChangesCloseTheChannel(cfg: Config, ws: seq<World>, actions: seq<Action>, i: nat, j: nat)
    requires ValidConfig(cfg) && IsRun(cfg, ws, actions) && i <= j < |ws|
    ensures ws[i].shared.core.epoch <= ws[j].shared.core.epoch
    ensures ws[i].shared.core.statuses != ws[j].shared.core.statuses ==> ws[i].shared.core.epoch < ws[j].shared.core.epoch
  {
    hide Shape, Next, NotifyPending, Init;
    if i < j {
      ChangesCloseTheChannel(cfg, ws, actions, i, j - 1);
      RunShape(cfg, ws, actions, j - 1);
      NextAnnounces(cfg, ws[j - 1], actions[j - 1], ws[j]);
    }
  }
}
