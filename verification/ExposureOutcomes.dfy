/** What the results of Accept, WaitReady and WaitDatagramReady say about the exposure, over every interleaving. */
module ExposureOutcomes {
  import opened ExposureCore
  import opened ExposureThreads
  import opened ExposureShape
  import opened ExposureSignal

  predicate Over(g: Shared) { g.core.closing || g.ctxDone }

  predicate AtWork(callers: map<nat, CallerPc>, id: nat) { id in callers && !callers[id].Returned? }

  /** The exposure stood exhausted at some moment at which the call was at work. */
  ghost predicate SawExhausted(ws: seq<World>, i: nat, id: nat) {
    exists j: nat :: j <= i && j < |ws| && AtWork(ws[j].callers, id) && Exhausted(ws[j].shared.core)
  }

  /** A relay was ready for what the caller waited for, at some moment of the call. */
  ghost predicate SawReady(ws: seq<World>, i: nat, id: nat) {
    exists j: nat, udp :: j <= i && j < |ws| && id in ws[j].callers && ws[j].callers[id] == WaitTop(udp)
                          && SomeReady(ws[j].shared.core, udp)
  }

  // ----- how the signal moves

  /** The signal is replaced only once closed, and with fixed membership a total failure is final. */
  ghost predicate SignalMoves(cfg: Config, c: Core, c': Core) {
    && c.signal <= c'.signal
    && (!c.signalClosed ==> c'.signal == c.signal)
    && (!cfg.discovery && AllFailed(c) ==> AllFailed(c'))
  }

  lemma MainMovesSignal(cfg: Config, url: string, g: Shared, s: Sup, g': Shared, s': Sup)
    requires MainStep(cfg, url, g, s, g', s')
    ensures SignalMoves(cfg, g.core, g'.core) && (Over(g) ==> Over(g'))
  {
    hide PublishStep, DrainStep;
  }

  lemma CallbackMovesSignal(cfg: Config, url: string, g: Shared, s: Sup, g': Shared, s': Sup)
    requires ReadyStep(cfg, url, g, s, g', s') || DatagramStep(cfg, url, g, s, g', s')
    ensures SignalMoves(cfg, g.core, g'.core) && (Over(g) ==> Over(g'))
  {
    hide PublishStep;
  }

  lemma DiscMovesSignal(cfg: Config, w: World, w': World)
    requires cfg.discovery && Next(cfg, w, DiscMove, w')
    ensures SignalMoves(cfg, w.shared.core, w'.shared.core) && (Over(w.shared) ==> Over(w'.shared))
  {
    hide PublishStep, DrainStep, AllFailed;
  }

  lemma NextMovesSignal(cfg: Config, w: World, a: Action, w': World)
    requires Shape(cfg, w) && w.callers != map[] && Next(cfg, w, a, w')
    ensures SignalMoves(cfg, w.shared.core, w'.shared.core) && (Over(w.shared) ==> Over(w'.shared))
  {
    match a
    case SupMove(url) =>
      var g, s, g', s' := w.shared, w.sups[url], w'.shared, w'.sups[url];
      if MainStep(cfg, url, g, s, g', s') {
        MainMovesSignal(cfg, url, g, s, g', s');
      } else {
        CallbackMovesSignal(cfg, url, g, s, g', s');
      }
      hide Shape, MainStep, ReadyStep, DatagramStep, SignalMoves;
    case CallerMove(id) =>
      CallerCore(w, id, w'.shared, w'.callers[id]);
      hide Shape, AcceptStep, WaitStep, CloseStep;
    case DiscMove =>
      assert w.builder.Built? && (cfg.discovery || w.disc.DiscOff?);
      if cfg.discovery {
        DiscMovesSignal(cfg, w, w');
      } else {
        hide Shape, PublishStep, DrainStep;
      }
    case BuilderMove => hide Accounted, SupsOk;
    case _ => hide Shape;
  }

  // ----- what a caller's place in the code is worth

  /** The captured signal is not closed yet, and the failure counted with it is final unless discovery adds. */
  predicate OpenStill(cfg: Config, c: Core, signal: nat) {
    c.signal == signal && !c.signalClosed && (!cfg.discovery ==> AllFailed(c))
  }

  ghost predicate Grounded(cfg: Config, g: Shared, sawExhausted: bool, sawReady: bool, p: CallerPc) {
    match p
    case AcceptSnap(closed) => closed ==> Over(g)
    case AcceptCheck(closed, signal, all) =>
      (closed ==> Over(g)) && (all ==> sawExhausted || OpenStill(cfg, g.core, signal))
    case AcceptCheck2(_, signal, all) => all ==> sawExhausted || OpenStill(cfg, g.core, signal)
    case AcceptSelect(_, exhausted) => exhausted ==> sawExhausted
    case AcceptExhausted => sawExhausted
    case HeldSnap(_, closed) => closed ==> Over(g)
    case HeldCheck(_, closed, signal, all) =>
      (closed ==> Over(g)) && (all ==> sawExhausted || OpenStill(cfg, g.core, signal))
    case HeldDrop(_, closed) => if closed then Over(g) else sawExhausted
    case Returned(outcome) =>
      (match outcome
       case ErrClosed => Over(g)
       case ErrNoRelays => sawExhausted
       case GotReady => sawReady
       case GotConn(conn) => true)
    case _ => true
  }

  lemma AcceptGrounds(cfg: Config, g: Shared, p: CallerPc, g': Shared, p': CallerPc, sawExhausted: bool, sawReady: bool)
    requires AcceptStep(g, p, g', p') && Grounded(cfg, g, sawExhausted, sawReady, p)
    requires Exhausted(g.core) ==> sawExhausted
    ensures Grounded(cfg, g', sawExhausted, sawReady, p')
  {
    hide AllFailed;
  }

  lemma OthersGround(cfg: Config, w: World, id: nat, g': Shared, p': CallerPc, sawExhausted: bool, sawReady: bool)
    requires id in w.callers && (WaitStep(w.shared, w.callers[id], g', p') || CloseStep(w, id, g', p'))
    requires Exhausted(w.shared.core) ==> sawExhausted
    requires w.callers[id].WaitTop? && SomeReady(w.shared.core, w.callers[id].udp) ==> sawReady
    ensures Grounded(cfg, g', sawExhausted, sawReady, p')
  {
    hide AllFailed, SomeReady, DrainStep, AllSupervisorsDone;
  }

  /** Somebody else moves: an open signal stays open, or its closing shows the caller an exhausted exposure. */
  lemma GroundedKeeps(cfg: Config, g: Shared, g': Shared, p: CallerPc, saw: bool, saw': bool, ready: bool, ready': bool)
    requires Grounded(cfg, g, saw, ready, p) && SignalMoves(cfg, g.core, g'.core) && (Over(g) ==> Over(g'))
    requires (saw ==> saw') && (ready ==> ready')
    requires !p.Returned? && Exhausted(g'.core) ==> saw'
    requires cfg.discovery && g'.core.signalClosed ==> AllFailed(g'.core)
    ensures Grounded(cfg, g', saw', ready', p)
  {
    hide AllFailed;
  }

  // ----- over a run

  ghost predicate AllGrounded(cfg: Config, ws: seq<World>, i: nat)
    requires i < |ws|
  {
    forall id | id in ws[i].callers ::
      Grounded(cfg, ws[i].shared, SawExhausted(ws, i, id), SawReady(ws, i, id), ws[i].callers[id])
  }

  lemma SeesNow(ws: seq<World>, i: nat, id: nat)
    requires i < |ws|
    ensures AtWork(ws[i].callers, id) && Exhausted(ws[i].shared.core) ==> SawExhausted(ws, i, id)
    ensures id in ws[i].callers && ws[i].callers[id].WaitTop? && SomeReady(ws[i].shared.core, ws[i].callers[id].udp) ==>
              SawReady(ws, i, id)
    ensures i > 0 && SawExhausted(ws, i - 1, id) ==> SawExhausted(ws, i, id)
    ensures i > 0 && SawReady(ws, i - 1, id) ==> SawReady(ws, i, id)
  {
    hide SomeReady, Exhausted;
    if id in ws[i].callers && ws[i].callers[id].WaitTop? {
      assert ws[i].callers[id] == WaitTop(ws[i].callers[id].udp);
    }
  }

  lemma OwnGrounded(cfg: Config, ws: seq<World>, i: nat, id: nat)
    requires i + 1 < |ws| && AllGrounded(cfg, ws, i) && Next(cfg, ws[i], CallerMove(id), ws[i + 1])
    ensures Grounded(cfg, ws[i + 1].shared, SawExhausted(ws, i + 1, id), SawReady(ws, i + 1, id), ws[i + 1].callers[id])
  {
    var w, w' := ws[i], ws[i + 1];
    var saw, ready := SawExhausted(ws, i, id), SawReady(ws, i, id);
    SeesNow(ws, i, id);
    SeesNow(ws, i + 1, id);
    assert !w.callers[id].Returned?;
    if AcceptStep(w.shared, w.callers[id], w'.shared, w'.callers[id]) {
      AcceptGrounds(cfg, w.shared, w.callers[id], w'.shared, w'.callers[id], saw, ready);
    } else {
      OthersGround(cfg, w, id, w'.shared, w'.callers[id], saw, ready);
    }
    hide AcceptStep, WaitStep, CloseStep, SawExhausted, SawReady, SomeReady, Exhausted, AllFailed, Over;
  }

  lemma OtherGrounded(cfg: Config, ws: seq<World>, a: Action, i: nat, id: nat)
    requires i + 1 < |ws| && Shape(cfg, ws[i]) && SignalInv(cfg, ws[i + 1]) && AllGrounded(cfg, ws, i)
    requires Next(cfg, ws[i], a, ws[i + 1])
    requires id in ws[i].callers && id in ws[i + 1].callers && ws[i + 1].callers[id] == ws[i].callers[id]
    ensures Grounded(cfg, ws[i + 1].shared, SawExhausted(ws, i + 1, id), SawReady(ws, i + 1, id), ws[i + 1].callers[id])
  {
    var w, w' := ws[i], ws[i + 1];
    NextMovesSignal(cfg, w, a, w');
    SeesNow(ws, i + 1, id);
    hide Shape, Next, SignalMoves, SawExhausted, SawReady, Exhausted, Over, SomeReady;
    GroundedKeeps(cfg, w.shared, w'.shared, w.callers[id], SawExhausted(ws, i, id), SawExhausted(ws, i + 1, id),
                  SawReady(ws, i, id), SawReady(ws, i + 1, id));
  }

  /** Callers are only added, and a step moves at most the one it names. */
  lemma OneCallerMoves(cfg: Config, w: World, a: Action, w': World, id: nat)
    requires Next(cfg, w, a, w') && id in w'.callers && a != CallerMove(id)
    ensures (id in w.callers && w'.callers[id] == w.callers[id]) || w'.callers[id].AcceptTop? || w'.callers[id].WaitTop?
         || w'.callers[id].CloseCall?
  {
    hide BuilderStep, DiscStep, MainStep, ReadyStep, DatagramStep, AcceptStep, WaitStep, CloseStep;
  }

  lemma NextGrounded(cfg: Config, ws: seq<World>, a: Action, i: nat)
    requires i + 1 < |ws| && Shape(cfg, ws[i]) && SignalInv(cfg, ws[i + 1]) && AllGrounded(cfg, ws, i)
    requires Next(cfg, ws[i], a, ws[i + 1])
    ensures AllGrounded(cfg, ws, i + 1)
  {
    var w, w' := ws[i], ws[i + 1];
    forall id | id in w'.callers
      ensures Grounded(cfg, w'.shared, SawExhausted(ws, i + 1, id), SawReady(ws, i + 1, id), w'.callers[id])
    {
      if a == CallerMove(id) {
        OwnGrounded(cfg, ws, i, id);
      } else {
        OneCallerMoves(cfg, w, a, w', id);
        if id in w.callers && w'.callers[id] == w.callers[id] {
          OtherGrounded(cfg, ws, a, i, id);
        }
      }
    }
    hide Shape, Next, SignalInv, SawExhausted, SawReady, Over, OpenStill;
  }

  lemma {:induction false} RunGrounded(cfg: Config, ws: seq<World>, actions: seq<Action>, i: nat)
    requires ValidConfig(cfg) && IsRun(cfg, ws, actions) && i < |ws|
    ensures AllGrounded(cfg, ws, i)
  {
    hide Shape, Next, SignalInv, AllGrounded, Init;
    if i > 0 {
      RunGrounded(cfg, ws, actions, i - 1);
      RunShape(cfg, ws, actions, i - 1);
      RunSignal(cfg, ws, actions, i);
      NextGrounded(cfg, ws, actions[i - 1], i - 1);
    } else {
      StartGrounded(cfg, ws);
    }
  }

  lemma StartGrounded(cfg: Config, ws: seq<World>)
    requires ws != [] && Init(ws[0])
    ensures AllGrounded(cfg, ws, 0)
  {
    hide Grounded, SawExhausted, SawReady;
  }

  // ----- main results

  /** Every result is truthful, although Accept puts its verdict together from separate lock sections: ErrNoRelays means
      that the exposure stood exhausted while the call was at work, a ready result that a relay was ready, and ErrClosed
      that the exposure is closing or cancelled. */
  lemma ResultsAreTruthful(cfg: Config, ws: seq<World>, actions: seq<Action>, i: nat, id: nat)
    requires ValidConfig(cfg) && IsRun(cfg, ws, actions) && i < |ws|
    requires id in ws[i].callers && ws[i].callers[id].Returned?
    ensures ws[i].callers[id].outcome.ErrNoRelays? ==> SawExhausted(ws, i, id)
    ensures ws[i].callers[id].outcome.GotReady? ==> SawReady(ws, i, id)
    ensures ws[i].callers[id].outcome.ErrClosed? ==> Over(ws[i].shared)
  {
    RunGrounded(cfg, ws, actions, i);
    hide SawExhausted, SawReady, Over;
  }

  // ----- a standing exhaustion is reported

  /** Where a call can be that began in, and has only met, an exhausted exposure. */
  predicate Reporting(c: Core, p: CallerPc) {
    || p.AcceptTop? || p == AcceptSnap(false) || p.WaitTop?
    || (p.AcceptCheck? && !p.closed && p.all && p.id <= c.signal)
    || p == Returned(ErrNoRelays)
  }

  lemma NobodyReady(c: Core, maxDiscovered: nat, udp: bool)
    requires Accounted(c, maxDiscovered) && AllFailed(c)
    ensures !SomeReady(c, udp)
  {
    AllFailedMeaning(c, maxDiscovered);
  }

  lemma CallReports(w: World, id: nat, maxDiscovered: nat, g': Shared, p': CallerPc)
    requires Accounted(w.shared.core, maxDiscovered) && Exhausted(w.shared.core) && !Over(w.shared)
    requires id in w.callers && Reporting(w.shared.core, w.callers[id])
    requires AcceptStep(w.shared, w.callers[id], g', p') || WaitStep(w.shared, w.callers[id], g', p')
          || CloseStep(w, id, g', p')
    ensures g'.core == w.shared.core && Reporting(g'.core, p')
  {
    NobodyReady(w.shared.core, maxDiscovered, false);
    NobodyReady(w.shared.core, maxDiscovered, true);
    hide Accounted, SomeReady;
  }

  ghost predicate StandsExhausted(ws: seq<World>, s: nat, i: nat) {
    forall k: nat | s <= k <= i && k < |ws| :: Exhausted(ws[k].shared.core) && !Over(ws[k].shared)
  }

  lemma {:induction false} RunReports(cfg: Config, ws: seq<World>, actions: seq<Action>, s: nat, i: nat, id: nat)
    requires ValidConfig(cfg) && IsRun(cfg, ws, actions) && s <= i < |ws|
    requires id in ws[s].callers && Reporting(ws[s].shared.core, ws[s].callers[id]) && StandsExhausted(ws, s, i)
    ensures id in ws[i].callers && Reporting(ws[i].shared.core, ws[i].callers[id])
  {
    hide Shape, Next, SignalInv, StandsExhausted, Reporting, Init;
    if s < i {
      StandsBefore(ws, s, i);
      RunReports(cfg, ws, actions, s, i - 1, id);
      RunShape(cfg, ws, actions, i - 1);
      NextReports(cfg, ws[i - 1], actions[i - 1], ws[i], id);
    }
  }

  lemma StandsBefore(ws: seq<World>, s: nat, i: nat)
    requires s < i < |ws| && StandsExhausted(ws, s, i)
    ensures StandsExhausted(ws, s, i - 1) && Exhausted(ws[i - 1].shared.core) && !Over(ws[i - 1].shared)
  {
    hide Exhausted, Over;
  }

  lemma NextReports(cfg: Config, w: World, a: Action, w': World, id: nat)
    requires Shape(cfg, w) && Next(cfg, w, a, w') && Exhausted(w.shared.core) && !Over(w.shared)
    requires id in w.callers && Reporting(w.shared.core, w.callers[id])
    ensures id in w'.callers && Reporting(w'.shared.core, w'.callers[id])
  {
    CallersStay(cfg, w, a, w');
    NextMovesSignal(cfg, w, a, w');
    if a == CallerMove(id) {
      CallReports(w, id, cfg.maxDiscovered, w'.shared, w'.callers[id]);
    } else {
      OneCallerMoves(cfg, w, a, w', id);
    }
    hide Shape, BuilderStep, DiscStep, MainStep, ReadyStep, DatagramStep, AcceptStep, WaitStep, CloseStep, AllFailed, Over;
  }

  lemma CallersStay(cfg: Config, w: World, a: Action, w': World)
    requires Next(cfg, w, a, w')
    ensures w.callers.Keys <= w'.callers.Keys
  {
    hide BuilderStep, DiscStep, MainStep, ReadyStep, DatagramStep, AcceptStep, WaitStep, CloseStep;
  }

  lemma {:induction false} CallersAccumulate(cfg: Config, ws: seq<World>, actions: seq<Action>, i: nat, j: nat)
    requires IsRun(cfg, ws, actions) && i <= j < |ws|
    ensures ws[i].callers.Keys <= ws[j].callers.Keys
  {
    hide Next, Init;
    if i < j {
      CallersAccumulate(cfg, ws, actions, i, j - 1);
      CallersStay(cfg, ws[j - 1], actions[j - 1], ws[j]);
    }
  }

  lemma {:induction false} OverStays(cfg: Config, ws: seq<World>, actions: seq<Action>, i: nat, j: nat, id: nat)
    requires ValidConfig(cfg) && IsRun(cfg, ws, actions) && i <= j < |ws| && id in ws[i].callers && Over(ws[i].shared)
    ensures Over(ws[j].shared)
  {
    hide Shape, Next, Over, SignalMoves, Init;
    if i < j {
      OverStays(cfg, ws, actions, i, j - 1, id);
      CallersAccumulate(cfg, ws, actions, i, j - 1);
      RunShape(cfg, ws, actions, j - 1);
      assert id in ws[j - 1].callers;
      NextMovesSignal(cfg, ws[j - 1], actions[j - 1], ws[j]);
    }
  }

  /** When exactly a call reports ErrNoRelays. For any call of Accept, WaitReady or WaitDatagramReady that returns while
      the exposure is live and over whose duration the exposure is exhausted throughout or never: the result is
      ErrNoRelays if and only if the exposure was exhausted when the call began, with discovery and without. */
  lemma NoRelaysExactly(cfg: Config, ws: seq<World>, actions: seq<Action>, s: nat, i: nat, id: nat)
    requires ValidConfig(cfg) && IsRun(cfg, ws, actions) && s < i < |ws|
    requires actions[s].Spawn? && actions[s].id == id && !actions[s].start.CloseCall?
    requires id in ws[i].callers && ws[i].callers[id].Returned? && !Over(ws[i].shared)
    requires forall k | s < k <= i :: Exhausted(ws[k].shared.core) == Exhausted(ws[s + 1].shared.core)
    ensures ws[i].callers[id].outcome.ErrNoRelays? <==> Exhausted(ws[s + 1].shared.core)
  {
    assert Next(cfg, ws[s], actions[s], ws[s + 1]);
    assert id !in ws[s].callers && ws[s + 1].callers[id] == actions[s].start;
    hide Next, Exhausted;
    if Exhausted(ws[s + 1].shared.core) {
      forall k: nat | s < k <= i ensures !Over(ws[k].shared) {
        if Over(ws[k].shared) {
          CallersAccumulate(cfg, ws, actions, s + 1, k);
          OverStays(cfg, ws, actions, k, i, id);
        }
      }
      assert StandsExhausted(ws, s + 1, i);
      RunReports(cfg, ws, actions, s + 1, i, id);
    } else if ws[i].callers[id].outcome.ErrNoRelays? {
      ResultsAreTruthful(cfg, ws, actions, i, id);
      var j: nat :| j <= i && j < |ws| && AtWork(ws[j].callers, id) && Exhausted(ws[j].shared.core);
      assert j <= s;
      CallersAccumulate(cfg, ws, actions, j, s);
    }
  }

  // ----- with discovery: where an exhaustion comes from

  /** A refresh has made its final check, found that every member had failed, and acts on it. */
  ghost predicate FinalCheckFails(ws: seq<World>, actions: seq<Action>, f: nat) {
    && f + 1 < |ws| && f < |actions| && actions[f].DiscMove?
    && ws[f].disc.DiscFinal? && ws[f + 1].disc == DiscExhaust(CloseSignal)
    && AllFailed(ws[f].shared.core)
  }

  /** Such a check, with nobody added since. */
  ghost predicate Refreshed(ws: seq<World>, actions: seq<Action>, i: nat) {
    exists f: nat :: f < i && i < |ws| && FinalCheckFails(ws, actions, f)
                     && ws[f].shared.core.statuses.Keys == ws[i].shared.core.statuses.Keys
  }

  /** What a step with discovery does to the members and to the signal. */
  ghost predicate SignalCause(w: World, a: Action, w': World) {
    var c, c' := w.shared.core, w'.shared.core;
    && (c'.signalClosed ==> c'.statuses.Keys == c.statuses.Keys && (c.signalClosed || w.disc == DiscExhaust(CloseSignal)))
    && (w'.disc == DiscExhaust(CloseSignal) ==>
          && c'.statuses.Keys == c.statuses.Keys
          && (w.disc == w'.disc || (a.DiscMove? && w.disc.DiscFinal? && AllFailed(c))))
  }

  lemma SupCauses(cfg: Config, w: World, url: string, w': World)
    requires cfg.discovery && Shape(cfg, w) && Next(cfg, w, SupMove(url), w')
    ensures SignalCause(w, SupMove(url), w')
  {
    var g, s, g', s' := w.shared, w.sups[url], w'.shared, w'.sups[url];
    SupShape(cfg, w, url, w');
    assert SupOk(cfg, s, false) && g.core.failedOnce == g.core.signalClosed;
    if MainStep(cfg, url, g, s, g', s') {
      MainSignal(cfg, url, g, s, g', s');
    } else {
      CallbackSignal(cfg, url, g, s, g', s');
    }
    hide Shape, MainStep, ReadyStep, DatagramStep, AllFailed;
  }

  lemma DiscCauses(cfg: Config, w: World, w': World)
    requires cfg.discovery && Shape(cfg, w) && Next(cfg, w, DiscMove, w')
    ensures SignalCause(w, DiscMove, w')
  {
    if !w.disc.DiscAdopt? && !w.disc.DiscLaunch? {
      DiscLocalKeeps(cfg, w.shared, w.disc, w'.shared, w'.disc);
    }
    hide Shape, PublishStep, DrainStep, AllFailed;
  }

  lemma NextCauses(cfg: Config, w: World, a: Action, w': World)
    requires cfg.discovery && Shape(cfg, w) && Next(cfg, w, a, w')
    ensures SignalCause(w, a, w')
  {
    match a
    case SupMove(url) => SupCauses(cfg, w, url, w');
    case DiscMove => DiscCauses(cfg, w, w');
    case CallerMove(id) =>
      CallerCore(w, id, w'.shared, w'.callers[id]);
      hide Shape, AcceptStep, WaitStep, CloseStep, AllFailed;
    case BuilderMove => hide Accounted, SupsOk, PublishStep, AllFailed;
    case _ => hide Shape, AllFailed;
  }

  lemma {:induction false} RunRefreshed(cfg: Config, ws: seq<World>, actions: seq<Action>, i: nat)
    requires ValidConfig(cfg) && cfg.discovery && IsRun(cfg, ws, actions) && i < |ws|
    ensures ws[i].shared.core.signalClosed || ws[i].disc == DiscExhaust(CloseSignal) ==> Refreshed(ws, actions, i)
  {
    hide Shape, Next, AllFailed;
    if i > 0 {
      var w, a, w' := ws[i - 1], actions[i - 1], ws[i];
      RunRefreshed(cfg, ws, actions, i - 1);
      RunShape(cfg, ws, actions, i - 1);
      NextCauses(cfg, w, a, w');
      if w'.shared.core.signalClosed || w'.disc == DiscExhaust(CloseSignal) {
        if w.shared.core.signalClosed || w.disc == DiscExhaust(CloseSignal) {
          var f: nat :| f < i - 1 && FinalCheckFails(ws, actions, f)
                        && ws[f].shared.core.statuses.Keys == w.shared.core.statuses.Keys;
        } else {
          assert FinalCheckFails(ws, actions, i - 1);
        }
      }
    }
  }

  /** With discovery an ErrNoRelays always goes back to a refresh: its final check found that every member had failed,
      and nobody has been added between that check and the moment of the call at which the exposure stood exhausted. */
  lemma NoRelaysComesFromARefresh(cfg: Config, ws: seq<World>, actions: seq<Action>, i: nat, id: nat)
    requires ValidConfig(cfg) && cfg.discovery && IsRun(cfg, ws, actions) && i < |ws|
    requires id in ws[i].callers && ws[i].callers[id] == Returned(ErrNoRelays)
    ensures exists j: nat :: j <= i && AtWork(ws[j].callers, id) && Refreshed(ws, actions, j)
                             && forall url | url in ws[j].shared.core.statuses :: ws[j].shared.core.statuses[url].state.Failed?
  {
    ResultsAreTruthful(cfg, ws, actions, i, id);
    var j: nat :| j <= i && j < |ws| && AtWork(ws[j].callers, id) && Exhausted(ws[j].shared.core);
    RunRefreshed(cfg, ws, actions, j);
    RunShape(cfg, ws, actions, j);
    AllFailedMeaning(ws[j].shared.core, cfg.maxDiscovered);
    hide Shape, Next, Refreshed, IsRun;
  }
}
