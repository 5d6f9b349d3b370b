/** Membership over every run, and which goroutines can be where together. */
module ExposureShape {
  import opened Options
  import opened ExposureCore
  import opened ExposureThreads

  /** How many explicit relays the constructor has been through. */
  function Progress(cfg: Config, b: BuilderPc): nat {
    match b
    case Build(next) => next
    case BuildPublish(next, _) => next + 1
    case BuildLaunch(next) => next + 1
    case _ => |cfg.relays|
  }

  /** The supervisor that has been added and counted but not yet started. */
  function Starting(cfg: Config, b: BuilderPc, d: DiscPc): Option<string> {
    match (b, d)
    case (BuildPublish(next, _), _) => if next < |cfg.relays| then Some(cfg.relays[next]) else None
    case (BuildLaunch(next), _) => if next < |cfg.relays| then Some(cfg.relays[next]) else None
    case (_, DiscPublish(url, _, _)) => Some(url)
    case (_, DiscLaunch(url, _)) => Some(url)
    case _ => None
  }

  ghost predicate BuilderOk(cfg: Config, core: Core, ctxDone: bool, b: BuilderPc, d: DiscPc) {
    && Progress(cfg, b) <= |cfg.relays|
    && core.relayCount <= core.discoveredCount + Progress(cfg, b)
    && (d.DiscOff? <==> !b.Built? || !cfg.discovery)
    && (b.Aborted? ==> ctxDone)
  }

  ghost predicate SupOk(cfg: Config, s: Sup, starting: bool) {
    && (s.main.SupNew? <==> starting)
    && (s.main.SupRun? || (s.ready.None? && s.datagram.None?))
    && (s.main.SupKick? ==> cfg.discovery)
    && (s.main.SupExhaust? ==> !cfg.discovery)
  }

  ghost predicate SupsOk(cfg: Config, members: set<string>, starting: Option<string>, sups: map<string, Sup>) {
    && sups.Keys == members
    && (starting.Some? ==> starting.value in sups)
    && forall url | url in sups :: SupOk(cfg, sups[url], starting == Some(url))
  }

  ghost predicate Shape(cfg: Config, w: World) {
    && Accounted(w.shared.core, cfg.maxDiscovered)
    && BuilderOk(cfg, w.shared.core, w.shared.ctxDone, w.builder, w.disc)
    && SupsOk(cfg, w.shared.core.statuses.Keys, Starting(cfg, w.builder, w.disc), w.sups)
    && (!w.builder.Built? ==> w.callers == map[])
  }

  /** What a step does to the membership when it neither adds nor removes a member. */
  ghost predicate SameMembers(cfg: Config, g: Shared, g': Shared) {
    && Accounted(g'.core, cfg.maxDiscovered)
    && g'.core.statuses.Keys == g.core.statuses.Keys
    && g'.core.relayCount == g.core.relayCount
    && g'.core.discoveredCount == g.core.discoveredCount
    && (g.ctxDone ==> g'.ctxDone)
  }

  lemma ExhaustKeeps(cfg: Config, core: Core, conns: Conns, e: Exhausting)
    requires Accounted(core, cfg.maxDiscovered)
    ensures var core' := ExhaustStep(core, conns, e).0;
            && Accounted(core', cfg.maxDiscovered)
            && core'.statuses == core.statuses
            && core'.relayCount == core.relayCount && core'.discoveredCount == core.discoveredCount
  {
    SignalAccounted(core, cfg.maxDiscovered);
  }

  lemma MainKeepsMembers(cfg: Config, url: string, g: Shared, s: Sup, g': Shared, s': Sup)
    requires Accounted(g.core, cfg.maxDiscovered) && MainStep(cfg, url, g, s, g', s')
    ensures SameMembers(cfg, g, g')
  {
    if s.main.SupFail? {
      MarkFailedAccounted(g.core, g.ctxDone, cfg.maxDiscovered, url, s.main.err);
    } else if s.main.SupExhaust? {
      ExhaustKeeps(cfg, g.core, g.conns, s.main.e);
    }
    hide Accounted, ExhaustStep, PublishStep;
  }

  lemma MainKeepsSup(cfg: Config, url: string, g: Shared, s: Sup, g': Shared, s': Sup)
    requires SupOk(cfg, s, false) && MainStep(cfg, url, g, s, g', s')
    ensures SupOk(cfg, s', false)
  {
    hide PublishStep, CanMark, MarkFailed;
  }

  lemma ReadyKeeps(cfg: Config, url: string, g: Shared, s: Sup, g': Shared, s': Sup)
    requires Accounted(g.core, cfg.maxDiscovered) && SupOk(cfg, s, false) && ReadyStep(cfg, url, g, s, g', s')
    ensures SameMembers(cfg, g, g') && SupOk(cfg, s', false)
  {
    if s.ready.None? {
      MarkReadyAccounted(g.core, g.ctxDone, cfg.maxDiscovered, url, g'.core.statuses[url].publicUrl);
    }
    hide Accounted, PublishStep;
  }

  lemma DatagramKeeps(cfg: Config, url: string, g: Shared, s: Sup, g': Shared, s': Sup)
    requires Accounted(g.core, cfg.maxDiscovered) && SupOk(cfg, s, false) && DatagramStep(cfg, url, g, s, g', s')
    ensures SameMembers(cfg, g, g') && SupOk(cfg, s', false)
  {
    if s.datagram.None? {
      MarkDatagramReadyAccounted(g.core, g.ctxDone, cfg.maxDiscovered, url, g'.core.statuses[url].udpAddr);
    }
    hide Accounted, PublishStep;
  }

  lemma SupShape(cfg: Config, w: World, url: string, w': World)
    requires Shape(cfg, w) && Next(cfg, w, SupMove(url), w')
    ensures Shape(cfg, w') && SameMembers(cfg, w.shared, w'.shared)
  {
    var g, s, g', s' := w.shared, w.sups[url], w'.shared, w'.sups[url];
    assert !s.main.SupNew?;
    if MainStep(cfg, url, g, s, g', s') {
      MainKeepsMembers(cfg, url, g, s, g', s');
      MainKeepsSup(cfg, url, g, s, g', s');
    } else if ReadyStep(cfg, url, g, s, g', s') {
      ReadyKeeps(cfg, url, g, s, g', s');
    } else {
      DatagramKeeps(cfg, url, g, s, g', s');
    }
    hide Accounted, MainStep, ReadyStep, DatagramStep;
  }

  lemma AddedSups(cfg: Config, members: set<string>, url: string, sups: map<string, Sup>)
    requires SupsOk(cfg, members, None, sups) && url !in members
    ensures SupsOk(cfg, members + {url}, Some(url), sups[url := Sup(SupNew, None, None)])
  {
  }

  lemma LaunchedSups(cfg: Config, members: set<string>, url: string, sups: map<string, Sup>)
    requires SupsOk(cfg, members, Some(url), sups)
    ensures SupsOk(cfg, members, None, sups[url := sups[url].(main := SupRun)])
  {
  }

  lemma AddsShape(cfg: Config, w: World, url: string, explicit: bool, w': World)
    requires Accounted(w.shared.core, cfg.maxDiscovered)
    requires SupsOk(cfg, w.shared.core.statuses.Keys, None, w.sups)
    requires Adds(cfg, w, url, explicit, w')
    ensures Accounted(w'.shared.core, cfg.maxDiscovered)
    ensures SupsOk(cfg, w'.shared.core.statuses.Keys, Some(url), w'.sups)
    ensures w'.shared.core.relayCount == w.shared.core.relayCount + 1
    ensures w'.shared.core.discoveredCount == w.shared.core.discoveredCount + (if explicit then 0 else 1)
    ensures w'.shared.ctxDone == w.shared.ctxDone
  {
    AddRelayAccounted(w.shared.core, w.shared.ctxDone, cfg.maxDiscovered, url, explicit);
    AddedSups(cfg, w.shared.core.statuses.Keys, url, w.sups);
    assert w'.shared.core.statuses.Keys == w.shared.core.statuses.Keys + {url};
    hide Accounted, SupsOk;
  }

  /** A goroutine that adds, given where it stands before and after. */
  lemma GoAddsShape(cfg: Config, w: World, url: string, explicit: bool, w': World)
    requires Shape(cfg, w) && Adds(cfg, w, url, explicit, w')
    requires Starting(cfg, w.builder, w.disc).None? && Starting(cfg, w'.builder, w'.disc) == Some(url)
    requires Progress(cfg, w'.builder) == Progress(cfg, w.builder) + (if explicit then 1 else 0) <= |cfg.relays|
    requires w'.disc.DiscOff? == w.disc.DiscOff? && w'.builder.Built? == w.builder.Built? && w'.callers == w.callers
    requires !w'.builder.Aborted?
    ensures Shape(cfg, w')
  {
    AddsShape(cfg, w, url, explicit, w');
    hide Accounted, SupsOk, Adds, Progress, Starting;
  }

  lemma GoLaunchesShape(cfg: Config, w: World, url: string, w': World)
    requires Shape(cfg, w) && Launches(w, url, w')
    requires Starting(cfg, w.builder, w.disc) == Some(url) && Starting(cfg, w'.builder, w'.disc).None?
    requires Progress(cfg, w'.builder) == Progress(cfg, w.builder)
    requires w'.disc.DiscOff? == w.disc.DiscOff? && w'.builder.Built? == w.builder.Built? && w'.callers == w.callers
    requires !w'.builder.Aborted?
    ensures Shape(cfg, w')
  {
    LaunchedSups(cfg, w.shared.core.statuses.Keys, url, w.sups);
    hide Accounted, SupsOk, Progress, Starting;
  }

  lemma AddingMovesBuilder(cfg: Config, w: World, w': World)
    requires SupsOk(cfg, w.shared.core.statuses.Keys, Starting(cfg, w.builder, w.disc), w.sups)
    requires Next(cfg, w, BuilderMove, w') && w.builder.Build? && w.builder.next < |cfg.relays|
    requires Adds(cfg, w, cfg.relays[w.builder.next], true, w')
    ensures w'.builder == BuildPublish(w.builder.next, StartPublish(NewStatus(cfg.relays[w.builder.next])))
  {
    var url := cfg.relays[w.builder.next];
    assert url !in w.sups && url in w'.sups;
  }

  lemma BuilderShape(cfg: Config, w: World, w': World)
    requires Shape(cfg, w) && Next(cfg, w, BuilderMove, w')
    ensures Shape(cfg, w')
  {
    hide Accounted, SupsOk, Adds, MayAdd, PublishStep, Launches;
    if w.builder.Build? && w.builder.next < |cfg.relays| && Adds(cfg, w, cfg.relays[w.builder.next], true, w') {
      AddingMovesBuilder(cfg, w, w');
      GoAddsShape(cfg, w, cfg.relays[w.builder.next], true, w');
    } else if w.builder.BuildLaunch? {
      GoLaunchesShape(cfg, w, cfg.relays[w.builder.next], w');
    }
  }

  lemma DiscLocalKeeps(cfg: Config, g: Shared, d: DiscPc, g': Shared, d': DiscPc)
    requires Accounted(g.core, cfg.maxDiscovered) && DiscLocalStep(cfg, g, d, g', d')
    ensures SameMembers(cfg, g, g')
    ensures Starting(cfg, Built, d) == Starting(cfg, Built, d')
    ensures !d.DiscOff? && !d'.DiscOff?
  {
    if d.DiscExhaust? {
      ExhaustKeeps(cfg, g.core, g.conns, d.e);
    }
    hide Accounted, ExhaustStep, PublishStep;
  }

  lemma DiscShape(cfg: Config, w: World, w': World)
    requires Shape(cfg, w) && Next(cfg, w, DiscMove, w')
    ensures Shape(cfg, w')
  {
    if w.disc.DiscAdopt? || w.disc.DiscLaunch? {
      DiscAdoptShape(cfg, w, w');
    } else {
      DiscLocalKeeps(cfg, w.shared, w.disc, w'.shared, w'.disc);
      hide Accounted, DiscLocalStep;
    }
  }

  lemma DiscAdoptShape(cfg: Config, w: World, w': World)
    requires Shape(cfg, w) && Next(cfg, w, DiscMove, w') && (w.disc.DiscAdopt? || w.disc.DiscLaunch?)
    ensures Shape(cfg, w')
  {
    if w.disc.DiscLaunch? {
      GoLaunchesShape(cfg, w, w.disc.url, w');
    } else if w.disc.rest != [] && Adds(cfg, w, w.disc.rest[0], false, w') {
      GoAddsShape(cfg, w, w.disc.rest[0], false, w');
    }
    hide Accounted, SupsOk, Adds, MayAdd, DiscLocalStep, Launches;
  }

  lemma CallerShape(cfg: Config, w: World, id: nat, w': World)
    requires Shape(cfg, w) && Next(cfg, w, CallerMove(id), w')
    ensures Shape(cfg, w') && SameMembers(cfg, w.shared, w'.shared)
  {
    SignalAccounted(w.shared.core, cfg.maxDiscovered);
    CallerCore(w, id, w'.shared, w'.callers[id]);
    hide Accounted, AcceptStep, WaitStep, CloseStep;
  }

  /** A caller changes nothing in the core but, in Close, the closing flag. */
  lemma CallerCore(w: World, id: nat, g': Shared, p': CallerPc)
    requires id in w.callers
    requires AcceptStep(w.shared, w.callers[id], g', p') || WaitStep(w.shared, w.callers[id], g', p')
          || CloseStep(w, id, g', p')
    ensures g'.core == w.shared.core || g'.core == w.shared.core.(closing := true)
    ensures w.shared.ctxDone ==> g'.ctxDone
  {
    hide AllFailed, SignalIsClosed, SomeReady, DrainStep;
  }

  lemma NextShape(cfg: Config, w: World, a: Action, w': World)
    requires Shape(cfg, w) && Next(cfg, w, a, w')
    ensures Shape(cfg, w')
  {
    match a
    case BuilderMove => BuilderShape(cfg, w, w');
    case DiscMove => DiscShape(cfg, w, w');
    case SupMove(url) => SupShape(cfg, w, url, w');
    case CallerMove(id) => CallerShape(cfg, w, id, w');
    case _ =>
  }

  lemma {:induction false} RunShape(cfg: Config, ws: seq<World>, actions: seq<Action>, i: nat)
    requires ValidConfig(cfg) && IsRun(cfg, ws, actions) && i < |ws|
    ensures Shape(cfg, ws[i])
  {
    if i == 0 {
      assert FailedUrls(map[]) == {};
    } else {
      RunShape(cfg, ws, actions, i - 1);
      NextShape(cfg, ws[i - 1], actions[i - 1], ws[i]);
    }
  }

  // ----- members only join, and their states only advance

  function Rank(state: RelayState): nat {
    match state
    case Connecting => 0
    case Ready => 1
    case Failed => 2
    case UdpReady => 3
  }

  ghost predicate Advances(c: Core, c': Core) {
    && c.statuses.Keys <= c'.statuses.Keys
    && c.discoveredCount <= c'.discoveredCount
    && forall url | url in c.statuses :: Rank(c.statuses[url].state) <= Rank(c'.statuses[url].state)
  }

  lemma MarksAdvance(c: Core, ctxDone: bool, url: string, text: string, maxDiscovered: nat)
    requires Accounted(c, maxDiscovered)
    ensures Advances(c, MarkReady(c, ctxDone, url, text))
    ensures Advances(c, MarkFailed(c, ctxDone, url, text))
    ensures Advances(c, MarkDatagramReady(c, ctxDone, url, text))
  {
  }

  lemma AdvancesTwice(c: Core, d: Core, e: Core)
    requires Advances(c, d) && Advances(d, e)
    ensures Advances(c, e)
  {
  }

  lemma CallbackAdvances(cfg: Config, url: string, g: Shared, s: Sup, g': Shared, s': Sup)
    requires Accounted(g.core, cfg.maxDiscovered)
    requires ReadyStep(cfg, url, g, s, g', s') || DatagramStep(cfg, url, g, s, g', s')
    ensures Advances(g.core, g'.core)
  {
    if url in g'.core.statuses {
      MarksAdvance(g.core, g.ctxDone, url, g'.core.statuses[url].publicUrl, cfg.maxDiscovered);
      MarksAdvance(g.core, g.ctxDone, url, g'.core.statuses[url].udpAddr, cfg.maxDiscovered);
    }
    assert Advances(g.core, g.core);
    hide Accounted, Advances, PublishStep, MarkReady, MarkDatagramReady, CanMark;
  }

  lemma SupAdvances(cfg: Config, w: World, url: string, w': World)
    requires Shape(cfg, w) && Next(cfg, w, SupMove(url), w')
    ensures Advances(w.shared.core, w'.shared.core)
  {
    var g, s, g', s' := w.shared, w.sups[url], w'.shared, w'.sups[url];
    if MainStep(cfg, url, g, s, g', s') {
      if s.main.SupFail? {
        MarksAdvance(g.core, g.ctxDone, url, s.main.err, cfg.maxDiscovered);
      }
      MainTouches(cfg, url, g, s, g', s');
      hide Shape, MainStep, MarkFailed;
    } else {
      CallbackAdvances(cfg, url, g, s, g', s');
      hide Shape, MainStep, ReadyStep, DatagramStep, Advances;
    }
  }

  lemma MainTouches(cfg: Config, url: string, g: Shared, s: Sup, g': Shared, s': Sup)
    requires MainStep(cfg, url, g, s, g', s')
    ensures if s.main.SupFail? then g'.core == MarkFailed(g.core, g.ctxDone, url, s.main.err)
            else g'.core.statuses == g.core.statuses && g'.core.discoveredCount == g.core.discoveredCount
  {
    hide PublishStep, DrainStep, CanMark, MarkFailed;
  }

  lemma OthersAdvance(cfg: Config, w: World, a: Action, w': World)
    requires Shape(cfg, w) && Next(cfg, w, a, w') && !a.SupMove?
    ensures Advances(w.shared.core, w'.shared.core)
  {
    match a
    case DiscMove =>
      if !w.disc.DiscAdopt? && !w.disc.DiscLaunch? {
        if w.disc.DiscExhaust? {
          ExhaustKeeps(cfg, w.shared.core, w.shared.conns, w.disc.e);
        }
        hide Shape, ExhaustStep, PublishStep;
      } else {
        hide Shape, DiscLocalStep;
      }
    case BuilderMove => hide Shape, PublishStep;
    case CallerMove(id) =>
      CallerCore(w, id, w'.shared, w'.callers[id]);
      hide Shape, AcceptStep, WaitStep, CloseStep;
    case _ => hide Shape;
  }

  // ----- main results

  /** The counters are what they count, the cap on discovered relays holds over the whole life of the exposure, and
      the membership never outgrows the capacity that the buffers were sized for. */
  lemma MembershipIsAccounted(cfg: Config, ws: seq<World>, actions: seq<Action>, i: nat)
    requires ValidConfig(cfg) && IsRun(cfg, ws, actions) && i < |ws|
    ensures var c := ws[i].shared.core;
            && c.relayCount == |c.statuses| && c.supervisors == c.statuses.Keys == ws[i].sups.Keys
            && c.rejected == FailedUrls(c.statuses) && c.failedCount == |c.rejected|
            && c.discoveredCount <= cfg.maxDiscovered
            && |c.statuses| <= Capacity(cfg)
            && forall url | url in c.statuses :: !c.statuses[url].state.UdpReady?
  {
    RunShape(cfg, ws, actions, i);
  }

  /** No member is removed or re-added, and a state moves only from connecting over ready to failed. */
  lemma {:induction false} MembershipOnlyAdvances(cfg: Config, ws: seq<World>, actions: seq<Action>, i: nat, j: nat)
    requires ValidConfig(cfg) && IsRun(cfg, ws, actions) && i <= j < |ws|
    ensures Advances(ws[i].shared.core, ws[j].shared.core)
  {
    assert Advances(ws[i].shared.core, ws[i].shared.core);
    if i < j {
      MembershipOnlyAdvances(cfg, ws, actions, i, j - 1);
      RunShape(cfg, ws, actions, j - 1);
      assert Next(cfg, ws[j - 1], actions[j - 1], ws[j]);
      if actions[j - 1].SupMove? {
        SupAdvances(cfg, ws[j - 1], actions[j - 1].url, ws[j]);
      } else {
        OthersAdvance(cfg, ws[j - 1], actions[j - 1], ws[j]);
      }
      AdvancesTwice(ws[i].shared.core, ws[j - 1].shared.core, ws[j].shared.core);
    }
    hide Next, Shape, Init, Advances;
  }
}
