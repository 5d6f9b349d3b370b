/** With fixed membership allFailed can be closed late: failedOnce.Do runs outside the lock, so the constructor may add
    a relay between the decision to close and the close. This module says exactly when that can mislead. */
module ExposureLateClose {
  import opened Options
  import opened ExposureCore
  import opened ExposureThreads
  import opened ExposureShape
  import opened ExposureSignal

  /** A closed signal means that there are members and that every one has failed. */
  ghost predicate Truthful(w: World) { w.shared.core.signalClosed ==> AllFailed(w.shared.core) }

  // ----- one fixed relay: nothing can be added after a failure

  /** A goroutine that has decided to close the signal. */
  predicate Decided(p: SupPc) { (p.SupPublish? && p.last) || p == SupExhaust(CloseSignal) }

  ghost predicate SingleInv(cfg: Config, w: World) {
    && (forall url | url in w.shared.core.statuses :: url in cfg.relays)
    && Truthful(w)
    && forall url | url in w.sups :: Decided(w.sups[url].main) ==> AllFailed(w.shared.core)
  }

  lemma MainDecides(cfg: Config, url: string, g: Shared, s: Sup, g': Shared, s': Sup)
    requires SupOk(cfg, s, false) && Accounted(g.core, cfg.maxDiscovered) && MainStep(cfg, url, g, s, g', s')
    requires Decided(s.main) || g.core.signalClosed ==> AllFailed(g.core)
    ensures AllFailed(g.core) ==> AllFailed(g'.core)
    ensures g'.core.statuses.Keys == g.core.statuses.Keys
    ensures Decided(s'.main) || g'.core.signalClosed ==> AllFailed(g'.core)
  {
    if s.main.SupFail? && url in g.core.statuses {
      SomeMember(g.core, cfg.maxDiscovered, url);
    }
    hide PublishStep, DrainStep, Accounted;
  }

  lemma CallbackDecides(cfg: Config, url: string, g: Shared, s: Sup, g': Shared, s': Sup)
    requires ReadyStep(cfg, url, g, s, g', s') || DatagramStep(cfg, url, g, s, g', s')
    ensures AllFailed(g.core) <==> AllFailed(g'.core)
    ensures g'.core.statuses.Keys == g.core.statuses.Keys && g'.core.signalClosed == g.core.signalClosed
    ensures s'.main == s.main
  {
    hide PublishStep;
  }

  lemma SupKeepsSingle(cfg: Config, w: World, url: string, w': World)
    requires Shape(cfg, w) && SingleInv(cfg, w) && Next(cfg, w, SupMove(url), w')
    requires cfg.discovery == false
    ensures SingleInv(cfg, w')
  {
    var s, s' := w.sups[url], w'.sups[url];
    if MainStep(cfg, url, w.shared, s, w'.shared, s') {
      assert SupOk(cfg, s, Starting(cfg, w.builder, w.disc) == Some(url));
      MainDecides(cfg, url, w.shared, s, w'.shared, s');
    } else {
      CallbackDecides(cfg, url, w.shared, s, w'.shared, s');
    }
    hide MainStep, ReadyStep, DatagramStep, AllFailed, Shape;
  }

  lemma OnlyMember(cfg: Config, core: Core)
    requires |cfg.relays| == 1 && Accounted(core, cfg.maxDiscovered) && forall url | url in core.statuses :: url in cfg.relays
    ensures AllFailed(core) ==> cfg.relays[0] in core.statuses
  {
    AllFailedMeaning(core, cfg.maxDiscovered);
    hide Accounted, AllFailed;
    if core.statuses != map[] {
      var member :| member in core.statuses;
    }
  }

  /** With one relay, adding it is possible only while there is no member at all. */
  lemma AddIsFirst(cfg: Config, w: World, url: string, w': World)
    requires |cfg.relays| == 1 && Accounted(w.shared.core, cfg.maxDiscovered)
    requires SingleInv(cfg, w) && url in cfg.relays && Adds(cfg, w, url, true, w')
    ensures SingleInv(cfg, w')
  {
    OnlyMember(cfg, w.shared.core);
    assert !AllFailed(w.shared.core);
    hide Accounted, AllFailed;
  }

  /** The constructor's other steps: no member is added, and no supervisor decides anything. */
  lemma BuilderQuiet(cfg: Config, w: World, w': World)
    requires Shape(cfg, w) && SingleInv(cfg, w) && Next(cfg, w, BuilderMove, w')
    requires w.builder.Build? && w.builder.next < |cfg.relays| ==> !Adds(cfg, w, cfg.relays[w.builder.next], true, w')
    ensures SingleInv(cfg, w')
  {
    hide Shape, AllFailed, Adds, CanAdd, PublishStep;
    assert w'.shared.core == w.shared.core;
    assert forall url | url in w'.sups :: url in w.sups && (w'.sups[url] == w.sups[url] || w'.sups[url].main.SupRun?);
  }

  lemma BuilderKeepsSingle(cfg: Config, w: World, w': World)
    requires |cfg.relays| == 1 && Shape(cfg, w) && SingleInv(cfg, w) && Next(cfg, w, BuilderMove, w')
    ensures SingleInv(cfg, w')
  {
    if w.builder.Build? && w.builder.next < |cfg.relays| && Adds(cfg, w, cfg.relays[w.builder.next], true, w') {
      AddIsFirst(cfg, w, cfg.relays[w.builder.next], w');
    } else {
      BuilderQuiet(cfg, w, w');
    }
    hide SingleInv, Next, Accounted, BuilderOk, SupsOk, Adds;
  }

  lemma NextSingle(cfg: Config, w: World, a: Action, w': World)
    requires ValidConfig(cfg) && |cfg.relays| == 1 && !cfg.discovery
    requires Shape(cfg, w) && SingleInv(cfg, w) && Next(cfg, w, a, w')
    ensures SingleInv(cfg, w')
  {
    match a
    case SupMove(url) => SupKeepsSingle(cfg, w, url, w');
    case BuilderMove => BuilderKeepsSingle(cfg, w, w');
    case CallerMove(id) =>
      CallerCore(w, id, w'.shared, w'.callers[id]);
      hide AcceptStep, WaitStep, CloseStep, Shape;
    case _ =>
  }

  lemma {:induction false} RunSingle(cfg: Config, ws: seq<World>, actions: seq<Action>, i: nat)
    requires ValidConfig(cfg) && |cfg.relays| == 1 && !cfg.discovery
    requires IsRun(cfg, ws, actions) && i < |ws|
    ensures SingleInv(cfg, ws[i])
  {
    if i > 0 {
      RunShape(cfg, ws, actions, i - 1);
      RunSingle(cfg, ws, actions, i - 1);
      NextSingle(cfg, ws[i - 1], actions[i - 1], ws[i]);
      hide Shape, SingleInv, Next;
    }
  }

  // ----- two fixed relays: a late close

  const CAUSE: string := "terminal"

  function SupAt(main: SupPc): Sup { Sup(main, None, None) }

  /** The first relay is added and its supervisor started. */
  function Started(cfg: Config): World
    requires |cfg.relays| >= 2
  {
    var url := cfg.relays[0];
    World(Shared(AddRelay(EmptyCore(), false, cfg.maxDiscovered, url, true), false, false, Conns([], {}, {}, {}),
                 Updates([NewStatus(url)], false, false), Ledger(map[], [], None, None, false)),
          Build(1), DiscOff, map[url := SupAt(SupRun)], map[])
  }

  /** It has failed, as the last member so far, and is about to say so. */
  function FailedStatus(cfg: Config): RelayStatus
    requires |cfg.relays| >= 2
  {
    NewStatus(cfg.relays[0]).(state := Failed, err := CAUSE)
  }

  function FirstFailed(cfg: Config): World
    requires |cfg.relays| >= 2
  {
    var w, url := Started(cfg), cfg.relays[0];
    w.(shared := w.shared.(core := MarkFailed(w.shared.core, false, url, CAUSE),
                           ledger := w.shared.ledger.(results := map[url := None])),
       sups := map[url := SupAt(SupPublish(StartPublish(FailedStatus(cfg)), true))])
  }

  function AboutToClose(cfg: Config): World
    requires |cfg.relays| >= 2
  {
    var w, url := FirstFailed(cfg), cfg.relays[0];
    w.(shared := w.shared.(updates := Updates([NewStatus(url), FailedStatus(cfg)], false, false)),
       sups := map[url := SupAt(SupExhaust(CloseSignal))])
  }

  function SecondAdded(cfg: Config): World
    requires |cfg.relays| >= 2
  {
    var w, url := AboutToClose(cfg), cfg.relays[1];
    w.(shared := w.shared.(core := AddRelay(w.shared.core, false, cfg.maxDiscovered, url, true)),
       builder := BuildPublish(1, StartPublish(NewStatus(url))),
       sups := w.sups[url := SupAt(SupNew)])
  }

  function ClosedLate(cfg: Config): World
    requires |cfg.relays| >= 2
  {
    var w, url := SecondAdded(cfg), cfg.relays[0];
    w.(shared := w.shared.(core := CloseAllFailed(w.shared.core)), sups := w.sups[url := SupAt(SupExhaust(NotifyAll))])
  }

  function Moment(cfg: Config, n: nat): World
    requires |cfg.relays| >= 2
  {
    var url := cfg.relays[0];
    var start := Started(cfg);
    var empty := start.(shared := start.shared.(core := EmptyCore(), updates := Updates([], false, false)), builder := Build(0), sups := map[]);
    var added := start.(shared := start.shared.(updates := Updates([], false, false)),
                        builder := BuildPublish(0, StartPublish(NewStatus(url))), sups := map[url := SupAt(SupNew)]);
    var returned := start.(shared := start.shared.(ledger := start.shared.ledger.(results := map[url := None])));
    match n
    case 0 => empty
    case 1 => added
    case 2 => start.(builder := BuildLaunch(0), sups := map[url := SupAt(SupNew)])
    case 3 => start
    case 4 => returned.(sups := map[url := SupAt(SupReturned(Some(CAUSE), None))])
    case 5 => returned.(sups := map[url := SupAt(SupJudge(Some(CAUSE)))])
    case 6 => returned.(sups := map[url := SupAt(SupFail(CAUSE))])
    case 7 => FirstFailed(cfg)
    case 8 => AboutToClose(cfg)
    case 9 => SecondAdded(cfg)
    case _ => ClosedLate(cfg)
  }

  function Mover(cfg: Config, n: nat): Action
    requires |cfg.relays| >= 2
  {
    if n < 3 || n == 8 then BuilderMove else SupMove(cfg.relays[0])
  }

  ghost predicate Steps(cfg: Config, n: nat)
    requires |cfg.relays| >= 2
  {
    Next(cfg, Moment(cfg, n), Mover(cfg, n), Moment(cfg, n + 1))
  }

  lemma FirstIsAdded(cfg: Config)
    requires ValidConfig(cfg) && !cfg.discovery && |cfg.relays| >= 2
    ensures Steps(cfg, 0) && Steps(cfg, 1) && Steps(cfg, 2)
  {
  }

  lemma FirstReturns(cfg: Config)
    requires ValidConfig(cfg) && !cfg.discovery && |cfg.relays| >= 2
    ensures Steps(cfg, 3) && Steps(cfg, 4) && Steps(cfg, 5)
  {
  }

  lemma FirstFails(cfg: Config)
    requires ValidConfig(cfg) && !cfg.discovery && |cfg.relays| >= 2
    ensures Steps(cfg, 6) && Steps(cfg, 7)
  {
  }

  lemma SecondIsAdded(cfg: Config)
    requires ValidConfig(cfg) && !cfg.discovery && |cfg.relays| >= 2
    ensures Steps(cfg, 8) && Steps(cfg, 9)
  {
  }

  lemma LateEnds(cfg: Config)
    requires ValidConfig(cfg) && !cfg.discovery && |cfg.relays| >= 2
    ensures Init(Moment(cfg, 0)) && !Truthful(Moment(cfg, 10))
  {
  }

  function LateRun(cfg: Config): seq<World>
    requires |cfg.relays| >= 2
  {
    seq(11, n requires n >= 0 => Moment(cfg, n))
  }

  function LateActions(cfg: Config): seq<Action>
    requires |cfg.relays| >= 2
  {
    seq(10, n requires n >= 0 => Mover(cfg, n))
  }

  lemma LateCloseMisleads(cfg: Config)
    requires ValidConfig(cfg) && !cfg.discovery && |cfg.relays| >= 2
    ensures IsRun(cfg, LateRun(cfg), LateActions(cfg)) && !Truthful(LateRun(cfg)[10])
  {
    FirstIsAdded(cfg);
    FirstReturns(cfg);
    FirstFails(cfg);
    SecondIsAdded(cfg);
    LateEnds(cfg);
    hide Moment, Mover, Next, Init, Truthful;
    forall n: nat | n < 10 ensures Next(cfg, LateRun(cfg)[n], LateActions(cfg)[n], LateRun(cfg)[n + 1]) {
      assert Steps(cfg, n);
    }
  }

  // ----- main result

  /** A closed signal is truthful on every run exactly when discovery does all later adds, or there is only one
      relay to begin with. This is why exhaustedSignal tests the counters together with the channel. */
  lemma TruthfulExactly(cfg: Config)
    requires ValidConfig(cfg)
    ensures (forall ws, actions, i: nat | IsRun(cfg, ws, actions) && i < |ws| :: Truthful(ws[i]))
            <==> cfg.discovery || |cfg.relays| == 1
  {
    if cfg.discovery || |cfg.relays| == 1 {
      forall ws, actions, i: nat | IsRun(cfg, ws, actions) && i < |ws| ensures Truthful(ws[i]) {
        if cfg.discovery {
          RunSignal(cfg, ws, actions, i);
        } else {
          RunSingle(cfg, ws, actions, i);
        }
      }
    } else {
      LateCloseMisleads(cfg);
    }
    hide IsRun, Truthful;
  }
}
