/** Close against everything else: the order of the joins, the updates channel, and who gets which result. */
module ExposureShutdown {
  import opened Options
  import opened ExposureCore
  import opened ExposureThreads
  import opened ExposureShape

  /** How far through the body of closeOnce a program point is; 0 is outside. */
  function Depth(p: CallerPc): nat {
    match p
    case CloseMark => 1
    case CloseCancel => 2
    case CloseSupervisors => 3
    case CloseDiscovery => 4
    case CloseDrain(_) => 5
    case CloseCollect => 6
    case CloseUpdates => 7
    case CloseSignalDone => 8
    case _ => 0
  }

  /** How far Close has come: the depth of the admitted caller, or 9 once it has left the body. */
  function Phase(closer: Option<nat>, callers: map<nat, CallerPc>): nat {
    if closer.None? || closer.value !in callers then 0
    else if Depth(callers[closer.value]) > 0 then Depth(callers[closer.value])
    else 9
  }

  /** Only the caller that closeOnce admitted is inside its body. */
  ghost predicate OneCloser(closer: Option<nat>, callers: map<nat, CallerPc>) {
    && (closer.Some? ==> closer.value in callers)
    && forall id | id in callers && Depth(callers[id]) > 0 :: closer == Some(id)
  }

  ghost predicate Joined(phase: nat, g: Shared, d: DiscPc, sups: map<string, Sup>) {
    && (phase >= 4 ==> AllSupervisorsDone(sups))
    && (phase >= 5 ==> d.DiscOff? || d.DiscDone?)
    && (phase >= 6 ==> g.conns.queue == [])
  }

  ghost predicate Flags(phase: nat, g: Shared) {
    && (g.core.closing <==> phase >= 2)
    && (phase >= 3 ==> g.ctxDone)
    && g.ledger.closeErr == (if phase >= 7 then Some(g.ledger.cleanups) else None)
    && (g.updates.closed <==> phase >= 8)
    && (g.ledger.closeDone <==> phase >= 9)
    && !g.updates.sentOnClosed
  }

  ghost predicate Returns(closeErr: Option<seq<(string, string)>>, callers: map<nat, CallerPc>) {
    forall id | id in callers && callers[id].CloseReturned? :: closeErr == Some(callers[id].errs)
  }

  function PhaseOf(w: World): nat { Phase(w.shared.ledger.closer, w.callers) }

  ghost predicate ShutdownInv(w: World) {
    && OneCloser(w.shared.ledger.closer, w.callers)
    && Joined(PhaseOf(w), w.shared, w.disc, w.sups)
    && Flags(PhaseOf(w), w.shared)
    && Returns(w.shared.ledger.closeErr, w.callers)
  }

  // ----- supervisors: none moves once supervisors.Wait has returned

  /** A step that leaves alone everything Close decides on. */
  ghost predicate LeavesClose(g: Shared, g': Shared) {
    && g'.core.closing == g.core.closing && (g.ctxDone ==> g'.ctxDone)
    && g'.ledger.closer == g.ledger.closer && g'.ledger.closeErr == g.ledger.closeErr
    && g'.ledger.closeDone == g.ledger.closeDone
    && g'.updates.closed == g.updates.closed
    && (!g.updates.closed ==> g'.updates.sentOnClosed == g.updates.sentOnClosed)
  }

  lemma MainLeavesClose(cfg: Config, url: string, g: Shared, s: Sup, g': Shared, s': Sup)
    requires MainStep(cfg, url, g, s, g', s')
    ensures LeavesClose(g, g') && !s.main.SupDone?
  {
    hide CanMark, DrainStep;
  }

  lemma CallbackLeavesClose(cfg: Config, url: string, g: Shared, s: Sup, g': Shared, s': Sup)
    requires ReadyStep(cfg, url, g, s, g', s') || DatagramStep(cfg, url, g, s, g', s')
    requires SupOk(cfg, s, false)
    ensures LeavesClose(g, g') && !s.main.SupDone?
  {
    hide CanMark;
  }

  lemma SupKeepsShutdown(cfg: Config, w: World, url: string, w': World)
    requires Shape(cfg, w) && ShutdownInv(w) && Next(cfg, w, SupMove(url), w')
    ensures ShutdownInv(w')
  {
    var g, s, g', s' := w.shared, w.sups[url], w'.shared, w'.sups[url];
    assert SupOk(cfg, s, false);
    if MainStep(cfg, url, g, s, g', s') {
      MainLeavesClose(cfg, url, g, s, g', s');
    } else {
      CallbackLeavesClose(cfg, url, g, s, g', s');
    }
    assert PhaseOf(w) < 4;
    hide Shape, MainStep, ReadyStep, DatagramStep, Phase;
  }

  // ----- discovery: it may move until discoveryDone.Wait, but adds nothing once closing is set

  lemma DiscLocalLeavesClose(cfg: Config, g: Shared, d: DiscPc, g': Shared, d': DiscPc)
    requires DiscLocalStep(cfg, g, d, g', d')
    ensures LeavesClose(g, g') && !d.DiscOff? && !d.DiscDone?
  {
    hide DrainStep;
  }

  lemma DiscKeepsShutdown(cfg: Config, w: World, w': World)
    requires Shape(cfg, w) && ShutdownInv(w) && Next(cfg, w, DiscMove, w')
    ensures ShutdownInv(w')
  {
    assert PhaseOf(w) < 5;
    if w.disc.DiscLaunch? {
      assert SupOk(cfg, w.sups[w.disc.url], true);
      assert PhaseOf(w) < 4;
      hide Shape, Phase;
    } else if w.disc.DiscAdopt? {
      hide Shape, Phase;
    } else {
      DiscLocalLeavesClose(cfg, w.shared, w.disc, w'.shared, w'.disc);
      hide Shape, DiscLocalStep, Phase;
    }
  }

  lemma BuilderKeepsShutdown(cfg: Config, w: World, w': World)
    requires Shape(cfg, w) && ShutdownInv(w) && Next(cfg, w, BuilderMove, w')
    ensures ShutdownInv(w')
  {
    assert w.callers == map[] && PhaseOf(w) == 0;
    hide Accounted, SupsOk, BuilderOk;
  }

  // ----- callers

  /** Accept and the waits touch nothing but the connections. */
  lemma AcceptTouches(g: Shared, p: CallerPc, g': Shared, p': CallerPc)
    requires AcceptStep(g, p, g', p') || WaitStep(g, p, g', p')
    ensures g' == g.(conns := g'.conns)
    ensures g.conns.queue == [] ==> g'.conns.queue == []
  {
    hide AllFailed, SignalIsClosed, SomeReady;
  }

  lemma AcceptStaysOutside(g: Shared, p: CallerPc, g': Shared, p': CallerPc)
    requires AcceptStep(g, p, g', p') || WaitStep(g, p, g', p')
    ensures Depth(p) == Depth(p') == 0 && !p'.CloseReturned?
  {
    hide AllFailed, SignalIsClosed, SomeReady;
  }

  lemma AcceptKeepsShutdown(cfg: Config, w: World, id: nat, w': World)
    requires ShutdownInv(w) && Next(cfg, w, CallerMove(id), w')
    requires !CloseStep(w, id, w'.shared, w'.callers[id])
    ensures ShutdownInv(w')
  {
    AcceptTouches(w.shared, w.callers[id], w'.shared, w'.callers[id]);
    AcceptStaysOutside(w.shared, w.callers[id], w'.shared, w'.callers[id]);
    hide AcceptStep, WaitStep, CloseStep, Depth;
    assert PhaseOf(w') == PhaseOf(w);
    hide Phase;
  }

  /** What Close does in one step, in terms of its phase. */
  lemma CloseMoves(w: World, id: nat, g': Shared, p': CallerPc)
    requires id in w.callers && CloseStep(w, id, g', p')
    requires ShutdownInv(w)
    ensures var p, phase' := w.callers[id], Phase(g'.ledger.closer, w.callers[id := p']);
            && (Depth(p') > 0 || Depth(p) > 0 ==> g'.ledger.closer == Some(id))
            && (w.shared.ledger.closer.Some? ==> g'.ledger.closer == w.shared.ledger.closer)
            && Flags(phase', g')
            && Joined(phase', g', w.disc, w.sups)
            && (p'.CloseReturned? ==> g'.ledger.closeErr == Some(p'.errs))
            && (w.shared.ledger.closeErr.Some? ==> g'.ledger.closeErr == w.shared.ledger.closeErr)
  {
  }

  lemma CloseKeepsShutdown(cfg: Config, w: World, id: nat, w': World)
    requires ShutdownInv(w) && Next(cfg, w, CallerMove(id), w') && CloseStep(w, id, w'.shared, w'.callers[id])
    ensures ShutdownInv(w')
  {
    CloseMoves(w, id, w'.shared, w'.callers[id]);
    hide AcceptStep, WaitStep, CloseStep, Phase, Flags, Joined;
  }

  lemma NextShutdown(cfg: Config, w: World, a: Action, w': World)
    requires Shape(cfg, w) && ShutdownInv(w) && Next(cfg, w, a, w')
    ensures ShutdownInv(w')
  {
    match a
    case BuilderMove => BuilderKeepsShutdown(cfg, w, w');
    case DiscMove => DiscKeepsShutdown(cfg, w, w');
    case SupMove(url) => SupKeepsShutdown(cfg, w, url, w');
    case CallerMove(id) =>
      if CloseStep(w, id, w'.shared, w'.callers[id]) {
        CloseKeepsShutdown(cfg, w, id, w');
      } else {
        AcceptKeepsShutdown(cfg, w, id, w');
      }
    case Spawn(id, start) => hide Shape;
    case _ => hide Shape, Phase;
  }

  lemma {:induction false} RunShutdown(cfg: Config, ws: seq<World>, actions: seq<Action>, i: nat)
    requires ValidConfig(cfg) && IsRun(cfg, ws, actions) && i < |ws|
    ensures ShutdownInv(ws[i])
  {
    if i > 0 {
      RunShape(cfg, ws, actions, i - 1);
      RunShutdown(cfg, ws, actions, i - 1);
      NextShutdown(cfg, ws[i - 1], actions[i - 1], ws[i]);
    }
  }

  // ----- cleanup errors

  /** run has returned on this supervisor. */
  predicate HasReturned(p: SupPc) {
    !p.SupNew? && !p.SupRun?
  }

  ghost predicate SupLedger(url: string, p: SupPc, results: map<string, Option<string>>, cleanups: seq<(string, string)>) {
    && (url in results <==> HasReturned(p))
    && (p.SupReturned? ==> results[url] == p.cleanupErr)
    && (HasReturned(p) && !p.SupReturned? && results[url].Some? ==> (url, results[url].value) in cleanups)
  }

  /** cleanupErrs holds one entry for every supervisor that has appended its error, and no other entry. */
  ghost predicate LedgerInv(sups: map<string, Sup>, results: map<string, Option<string>>, cleanups: seq<(string, string)>) {
    && results.Keys <= sups.Keys
    && (forall url | url in sups :: SupLedger(url, sups[url].main, results, cleanups))
    && (forall i | 0 <= i < |cleanups| ::
          && cleanups[i].0 in results && results[cleanups[i].0] == Some(cleanups[i].1)
          && !sups[cleanups[i].0].main.SupReturned?)
    && (forall i, j | 0 <= i < j < |cleanups| :: cleanups[i].0 != cleanups[j].0)
  }

  ghost predicate LedgerOk(w: World) {
    LedgerInv(w.sups, w.shared.ledger.results, w.shared.ledger.cleanups)
  }

  lemma MainLedger(cfg: Config, url: string, g: Shared, s: Sup, g': Shared, s': Sup)
    requires MainStep(cfg, url, g, s, g', s')
    ensures (g'.ledger == g.ledger && HasReturned(s'.main) == HasReturned(s.main) && !s.main.SupReturned? && !s'.main.SupReturned?)
         || (s.main.SupRun? && s'.main.SupReturned? && g'.ledger.cleanups == g.ledger.cleanups
             && g'.ledger.results == g.ledger.results[url := s'.main.cleanupErr])
         || (s.main.SupReturned? && HasReturned(s'.main) && !s'.main.SupReturned? && g'.ledger.results == g.ledger.results
             && g'.ledger.cleanups == g.ledger.cleanups + (if s.main.cleanupErr.Some? then [(url, s.main.cleanupErr.value)] else []))
  {
    hide PublishStep, DrainStep, CanMark;
  }

  lemma CallbackLedger(cfg: Config, url: string, g: Shared, s: Sup, g': Shared, s': Sup)
    requires ReadyStep(cfg, url, g, s, g', s') || DatagramStep(cfg, url, g, s, g', s')
    ensures g'.ledger == g.ledger && s'.main == s.main
  {
    hide PublishStep, CanMark;
  }

  lemma SupKeepsLedger(cfg: Config, w: World, url: string, w': World)
    requires LedgerOk(w) && Next(cfg, w, SupMove(url), w')
    ensures LedgerOk(w')
  {
    var g, s, g', s' := w.shared, w.sups[url], w'.shared, w'.sups[url];
    if MainStep(cfg, url, g, s, g', s') {
      MainLedger(cfg, url, g, s, g', s');
    } else {
      CallbackLedger(cfg, url, g, s, g', s');
    }
    hide MainStep, ReadyStep, DatagramStep;
    assert SupLedger(url, s.main, g.ledger.results, g.ledger.cleanups);
    forall u | u in w'.sups ensures SupLedger(u, w'.sups[u].main, g'.ledger.results, g'.ledger.cleanups) {
      assert u in w.sups && SupLedger(u, w.sups[u].main, g.ledger.results, g.ledger.cleanups);
    }
  }

  lemma OthersLeaveLedger(cfg: Config, w: World, a: Action, w': World)
    requires Shape(cfg, w) && Next(cfg, w, a, w') && !a.SupMove?
    ensures w'.shared.ledger.results == w.shared.ledger.results && w'.shared.ledger.cleanups == w.shared.ledger.cleanups
  {
    match a
    case DiscMove =>
      if !w.disc.DiscAdopt? && !w.disc.DiscLaunch? {
        DiscLocalLeavesLedger(cfg, w.shared, w.disc, w'.shared, w'.disc);
      }
      hide Shape, DiscLocalStep;
    case BuilderMove => hide Shape, PublishStep;
    case CallerMove(id) =>
      if !CloseStep(w, id, w'.shared, w'.callers[id]) {
        AcceptTouches(w.shared, w.callers[id], w'.shared, w'.callers[id]);
      }
      hide Shape, AcceptStep, WaitStep, DrainStep;
    case _ => hide Shape;
  }

  lemma DiscLocalLeavesLedger(cfg: Config, g: Shared, d: DiscPc, g': Shared, d': DiscPc)
    requires DiscLocalStep(cfg, g, d, g', d')
    ensures g'.ledger == g.ledger
  {
    hide DrainStep, PublishStep;
  }

  /** Who else touches the supervisors: an addRelay adds a new one, a launch starts it. */
  lemma OthersTouchSups(cfg: Config, w: World, a: Action, w': World)
    requires Shape(cfg, w) && Next(cfg, w, a, w') && !a.SupMove?
    ensures || w'.sups == w.sups
            || (exists url :: url !in w.sups && w'.sups == w.sups[url := Sup(SupNew, None, None)])
            || (exists url :: url in w.sups && w.sups[url].main.SupNew? && w'.sups == w.sups[url := w.sups[url].(main := SupRun)])
  {
    match a
    case DiscMove =>
      if w.disc.DiscLaunch? {
        assert SupOk(cfg, w.sups[w.disc.url], true);
      }
      hide Accounted, SupOk, DiscLocalStep;
    case BuilderMove =>
      if w.builder.BuildLaunch? {
        assert SupOk(cfg, w.sups[cfg.relays[w.builder.next]], true);
      }
      hide Accounted, SupOk, PublishStep;
    case _ => hide Shape;
  }

  lemma OthersKeepLedger(cfg: Config, w: World, a: Action, w': World)
    requires Shape(cfg, w) && LedgerOk(w) && Next(cfg, w, a, w') && !a.SupMove?
    ensures LedgerOk(w')
  {
    hide Next, Shape;
    OthersLeaveLedger(cfg, w, a, w');
    OthersTouchSups(cfg, w, a, w');
    forall u | u in w'.sups
      ensures SupLedger(u, w'.sups[u].main, w'.shared.ledger.results, w'.shared.ledger.cleanups)
    {
      assert u in w.sups ==> SupLedger(u, w.sups[u].main, w.shared.ledger.results, w.shared.ledger.cleanups);
    }
  }

  lemma NextLedger(cfg: Config, w: World, a: Action, w': World)
    requires Shape(cfg, w) && LedgerOk(w) && Next(cfg, w, a, w')
    ensures LedgerOk(w')
  {
    hide Next, Shape, LedgerOk;
    if a.SupMove? {
      SupKeepsLedger(cfg, w, a.url, w');
    } else {
      OthersKeepLedger(cfg, w, a, w');
    }
  }

  lemma {:induction false} RunLedger(cfg: Config, ws: seq<World>, actions: seq<Action>, i: nat)
    requires ValidConfig(cfg) && IsRun(cfg, ws, actions) && i < |ws|
    ensures LedgerOk(ws[i])
  {
    if i > 0 {
      RunShape(cfg, ws, actions, i - 1);
      RunLedger(cfg, ws, actions, i - 1);
      NextLedger(cfg, ws[i - 1], actions[i - 1], ws[i]);
    }
  }

  // ----- main results

  /** Nothing is ever sent on updates after Close has closed it. */
  lemma NeverSendsOnClosedUpdates(cfg: Config, ws: seq<World>, actions: seq<Action>, i: nat)
    requires ValidConfig(cfg) && IsRun(cfg, ws, actions) && i < |ws|
    ensures !ws[i].shared.updates.sentOnClosed
  {
    RunShutdown(cfg, ws, actions, i);
  }

  /** Once some Close has reached supervisors.Wait, no supervisor is added ever again. */
  lemma {:induction false} NoAddAfterWait(cfg: Config, ws: seq<World>, actions: seq<Action>, i: nat, j: nat)
    requires ValidConfig(cfg) && IsRun(cfg, ws, actions) && i <= j < |ws|
    requires PhaseOf(ws[i]) >= 3
    ensures ws[j].sups.Keys == ws[i].sups.Keys
    ensures ws[j].shared.core.closing
  {
    RunShutdown(cfg, ws, actions, i);
    if i < j {
      NoAddAfterWait(cfg, ws, actions, i, j - 1);
      ClosingFreezesMembers(cfg, ws, actions, j - 1);
    }
  }

  lemma ClosingFreezesMembers(cfg: Config, ws: seq<World>, actions: seq<Action>, i: nat)
    requires ValidConfig(cfg) && IsRun(cfg, ws, actions) && i + 1 < |ws|
    requires ws[i].shared.core.closing
    ensures ws[i + 1].sups.Keys == ws[i].sups.Keys && ws[i + 1].shared.core.closing
  {
    var w, w' := ws[i], ws[i + 1];
    RunShape(cfg, ws, actions, i);
    RunShutdown(cfg, ws, actions, i);
    RunShutdown(cfg, ws, actions, i + 1);
    assert Next(cfg, w, actions[i], w');
    match actions[i]
    case SupMove(url) =>
      SupShape(cfg, w, url, w');
      NextShutdown(cfg, w, actions[i], w');
      ClosingStays(cfg, w, url, w');
      hide Shape, ShutdownInv, MainStep, ReadyStep, DatagramStep;
    case DiscMove =>
      if w.disc.DiscAdopt? || w.disc.DiscLaunch? {
        hide Shape, ShutdownInv, DiscLocalStep;
      } else {
        DiscLocalLeavesClose(cfg, w.shared, w.disc, w'.shared, w'.disc);
        hide Shape, ShutdownInv, DiscLocalStep;
      }
    case BuilderMove => hide Accounted, SupsOk, Flags, PublishStep;
    case CallerMove(id) =>
      CallerCore(w, id, w'.shared, w'.callers[id]);
      hide Shape, ShutdownInv, AcceptStep, WaitStep, CloseStep;
    case _ => hide Shape, ShutdownInv;
  }

  lemma ClosingStays(cfg: Config, w: World, url: string, w': World)
    requires Shape(cfg, w) && Next(cfg, w, SupMove(url), w')
    ensures w'.shared.core.closing == w.shared.core.closing
  {
    var g, s, g', s' := w.shared, w.sups[url], w'.shared, w'.sups[url];
    assert !s.main.SupNew? ==> SupOk(cfg, s, false);
    if MainStep(cfg, url, g, s, g', s') {
      MainLeavesClose(cfg, url, g, s, g', s');
    } else {
      hide Shape, PublishStep;
    }
  }

  /** What a returned Close hands back: the same errors to every caller, one for each supervisor whose cleanup
      failed and nothing else, with every goroutine joined and the queue empty. */
  lemma CloseIsComplete(cfg: Config, ws: seq<World>, actions: seq<Action>, i: nat, id: nat)
    requires ValidConfig(cfg) && IsRun(cfg, ws, actions) && i < |ws|
    requires id in ws[i].callers && ws[i].callers[id].CloseReturned?
    ensures var w, errs := ws[i], ws[i].callers[id].errs;
            && (forall other | other in w.callers && w.callers[other].CloseReturned? :: w.callers[other].errs == errs)
            && AllSupervisorsDone(w.sups) && (w.disc.DiscOff? || w.disc.DiscDone?) && w.shared.conns.queue == []
            && w.shared.ledger.results.Keys == w.shared.core.statuses.Keys
            && (forall url, err :: (url, err) in errs <==>
                  url in w.shared.ledger.results && w.shared.ledger.results[url] == Some(err))
            && (forall k, l | 0 <= k < l < |errs| :: errs[k].0 != errs[l].0)
  {
    RunShape(cfg, ws, actions, i);
    RunShutdown(cfg, ws, actions, i);
    RunLedger(cfg, ws, actions, i);
    var w := ws[i];
    var results, cleanups := w.shared.ledger.results, w.shared.ledger.cleanups;
    assert w.callers[id].errs == cleanups && PhaseOf(w) >= 7;
    assert w.sups.Keys == w.shared.core.statuses.Keys;
    hide Shape, Next, Phase;
    forall url | url in w.sups
      ensures url in results && (results[url].Some? ==> (url, results[url].value) in cleanups)
    {
      assert SupLedger(url, w.sups[url].main, results, cleanups);
    }
  }
}
