/** With discovery, too, Accept reports ErrNoRelays: for every configuration a run on which it does. */
module ExposureNoRelays {
  import opened Options
  import opened ExposureCore
  import opened ExposureThreads
  import opened ExposureShape

  const CAUSE: string := "terminal"

  ghost function FirstRelays(cfg: Config, k: nat): set<string>
    requires k <= |cfg.relays|
  {
    set n | 0 <= n < k :: cfg.relays[n]
  }

  /** The constructor has added the first k relays, and each has failed; nobody has called anything yet. */
  ghost predicate Down(cfg: Config, w: World, k: nat) {
    var g := w.shared;
    && k <= |cfg.relays| && w.builder == Build(k) && w.disc.DiscOff? && w.callers == map[]
    && !g.ctxDone && !g.core.closing
    && g.core.statuses.Keys == FirstRelays(cfg, k) && g.core.relayCount == g.core.failedCount == k
    && !g.updates.closed && |g.updates.items| == 2 * k
  }

  function Publishes(g: Shared, status: RelayStatus): Shared {
    g.(updates := g.updates.(items := g.updates.items + [status]))
  }

  function At(w: World, g: Shared, url: string, main: SupPc): World {
    w.(shared := g, sups := w.sups[url := Sup(main, None, None)])
  }

  // ----- the next relay is added, started, and fails

  function Grown(cfg: Config, g: Shared, url: string): Shared {
    g.(core := AddRelay(g.core, false, cfg.maxDiscovered, url, true))
  }

  lemma NextRelayMayBeAdded(cfg: Config, w: World, k: nat)
    requires ValidConfig(cfg) && Accounted(w.shared.core, cfg.maxDiscovered) && Down(cfg, w, k) && k < |cfg.relays|
    ensures MayAdd(cfg, w, cfg.relays[k], true)
    ensures |w.shared.updates.items| + 2 <= UpdatesCapacity(cfg)
    ensures FirstRelays(cfg, k + 1) == FirstRelays(cfg, k) + {cfg.relays[k]}
  {
    assert w.shared.core.rejected <= w.shared.core.statuses.Keys;
  }

  lemma BuilderAdds(cfg: Config, w: World, k: nat)
    requires Reaches(cfg, w) && w.builder == Build(k) && k < |cfg.relays| && MayAdd(cfg, w, cfg.relays[k], true)
    ensures var url := cfg.relays[k];
            Reaches(cfg, At(w.(builder := BuildPublish(k, StartPublish(NewStatus(url)))), Grown(cfg, w.shared, url), url, SupNew))
  {
    var url := cfg.relays[k];
    var w' := At(w.(builder := BuildPublish(k, StartPublish(NewStatus(url)))), Grown(cfg, w.shared, url), url, SupNew);
    hide Reaches, AddRelay;
    assert Adds(cfg, w, url, true, w');
    ReachesNext(cfg, w, BuilderMove, w');
  }

  lemma BuilderPublishes(cfg: Config, w: World, k: nat, g: Shared, url: string, status: RelayStatus)
    requires Reaches(cfg, At(w.(builder := BuildPublish(k, StartPublish(status))), g, url, SupNew))
    requires !g.updates.closed && |g.updates.items| < UpdatesCapacity(cfg)
    ensures Reaches(cfg, At(w.(builder := BuildLaunch(k)), Publishes(g, status), url, SupNew))
  {
    hide Reaches;
    ReachesNext(cfg, At(w.(builder := BuildPublish(k, StartPublish(status))), g, url, SupNew), BuilderMove,
                At(w.(builder := BuildLaunch(k)), Publishes(g, status), url, SupNew));
  }

  lemma BuilderLaunches(cfg: Config, w: World, k: nat, g: Shared)
    requires k < |cfg.relays| && Reaches(cfg, At(w.(builder := BuildLaunch(k)), g, cfg.relays[k], SupNew))
    ensures Reaches(cfg, At(w.(builder := Build(k + 1)), g, cfg.relays[k], SupRun))
  {
    hide Reaches;
    var url := cfg.relays[k];
    var v, v' := At(w.(builder := BuildLaunch(k)), g, url, SupNew), At(w.(builder := Build(k + 1)), g, url, SupRun);
    assert v'.sups == v.sups[url := v.sups[url].(main := SupRun)];
    ReachesNext(cfg, v, BuilderMove, v');
  }

  lemma RelayIsStarted(cfg: Config, w: World, k: nat)
    requires Reaches(cfg, w) && w.builder == Build(k) && k < |cfg.relays| && MayAdd(cfg, w, cfg.relays[k], true)
    requires !w.shared.updates.closed && |w.shared.updates.items| < UpdatesCapacity(cfg)
    ensures var url := cfg.relays[k];
            Reaches(cfg, At(w.(builder := Build(k + 1)), Publishes(Grown(cfg, w.shared, url), NewStatus(url)), url, SupRun))
  {
    hide Reaches, AddRelay, At, MayAdd;
    var url := cfg.relays[k];
    var g := Grown(cfg, w.shared, url);
    BuilderAdds(cfg, w, k);
    BuilderPublishes(cfg, w, k, g, url, NewStatus(url));
    BuilderLaunches(cfg, w, k, Publishes(g, NewStatus(url)));
  }

  function Failing(g: Shared, url: string): Shared {
    g.(core := MarkFailed(g.core, false, url, CAUSE))
  }

  /** One step of a supervisor with no callback at work. */
  lemma SupGoes(cfg: Config, w: World, url: string, g: Shared, m: SupPc, g': Shared, m': SupPc)
    requires Reaches(cfg, At(w, g, url, m)) && MainStep(cfg, url, g, Sup(m, None, None), g', Sup(m', None, None))
    ensures Reaches(cfg, At(w, g', url, m'))
  {
    hide Reaches, MainStep;
    var v, v' := At(w, g, url, m), At(w, g', url, m');
    assert v'.sups == v.sups[url := Sup(m', None, None)];
    ReachesNext(cfg, v, SupMove(url), v');
  }

  function Reported(g: Shared, url: string): Shared {
    g.(ledger := g.ledger.(results := g.ledger.results[url := None]))
  }

  lemma RunReturns(cfg: Config, w: World, url: string, g: Shared)
    requires Reaches(cfg, At(w, g, url, SupRun)) && !g.ctxDone
    ensures Reaches(cfg, At(w, Reported(g, url), url, SupFail(CAUSE)))
  {
    hide Reaches, PublishStep, ExhaustStep;
    var g' := Reported(g, url);
    SupGoes(cfg, w, url, g, SupRun, g', SupReturned(Some(CAUSE), None));
    SupGoes(cfg, w, url, g', SupReturned(Some(CAUSE), None), g', SupJudge(Some(CAUSE)));
    SupGoes(cfg, w, url, g', SupJudge(Some(CAUSE)), g', SupFail(CAUSE));
  }

  function Kicked(g: Shared): Shared { g.(kick := true) }

  /** It fails as the last live member so far, publishes that and kicks discovery. */
  lemma RelayFails(cfg: Config, w: World, url: string, g: Shared)
    requires cfg.discovery && Reaches(cfg, At(w, g, url, SupFail(CAUSE)))
    requires CanMark(g.core, false, url) && !g.ctxDone && g.core.failedCount + 1 >= g.core.relayCount
    requires !g.updates.closed && |g.updates.items| < UpdatesCapacity(cfg)
    ensures var g' := Failing(g, url);
            Reaches(cfg, At(w, Kicked(Publishes(g', g'.core.statuses[url])), url, SupDone))
  {
    hide Reaches, ExhaustStep;
    var g1 := Failing(g, url);
    var p := StartPublish(g1.core.statuses[url]);
    var g2 := Publishes(g1, g1.core.statuses[url]);
    SupGoes(cfg, w, url, g, SupFail(CAUSE), g1, SupPublish(p, true));
    SupGoes(cfg, w, url, g1, SupPublish(p, true), g2, SupKick);
    SupGoes(cfg, w, url, g2, SupKick, Kicked(g2), SupDone);
  }

  /** What adding a relay and failing it does to the core. */
  lemma AddedThenFailed(c: Core, maxDiscovered: nat, url: string)
    requires CanAdd(c, false, maxDiscovered, url, true)
    ensures var grown := AddRelay(c, false, maxDiscovered, url, true);
            var failed := MarkFailed(grown, false, url, CAUSE);
            && CanMark(grown, false, url) && grown.failedCount == c.failedCount && grown.relayCount == c.relayCount + 1
            && failed.statuses.Keys == c.statuses.Keys + {url} && !failed.closing
            && failed.relayCount == c.relayCount + 1 && failed.failedCount == c.failedCount + 1
  {
  }

  lemma OneMoreDown(cfg: Config, w: World, k: nat) returns (w': World)
    requires ValidConfig(cfg) && cfg.discovery && Reaches(cfg, w) && Down(cfg, w, k) && k < |cfg.relays|
    ensures Reaches(cfg, w') && Down(cfg, w', k + 1)
  {
    var url := cfg.relays[k];
    ReachedShape(cfg, w);
    hide SupsOk, BuilderOk, Accounted;
    NextRelayMayBeAdded(cfg, w, k);
    AddedThenFailed(w.shared.core, cfg.maxDiscovered, url);
    RelayIsStarted(cfg, w, k);
    hide Reaches, AddRelay, MarkFailed, CanAdd, CanMark;
    var v, g := w.(builder := Build(k + 1)), Publishes(Grown(cfg, w.shared, url), NewStatus(url));
    RunReturns(cfg, v, url, g);
    var r := Reported(g, url);
    RelayFails(cfg, v, url, r);
    var failed := Failing(r, url);
    w' := At(v, Kicked(Publishes(failed, failed.core.statuses[url])), url, SupDone);
  }

  lemma ReachedShape(cfg: Config, w: World)
    requires ValidConfig(cfg) && Reaches(cfg, w)
    ensures Shape(cfg, w)
  {
    var ws, actions :| IsRun(cfg, ws, actions) && ws[|ws| - 1] == w;
    RunShape(cfg, ws, actions, |ws| - 1);
  }

  lemma {:induction false} AllGoDown(cfg: Config, k: nat) returns (w: World)
    requires ValidConfig(cfg) && cfg.discovery && k <= |cfg.relays|
    ensures Reaches(cfg, w) && Down(cfg, w, k)
  {
    hide Reaches;
    if k == 0 {
      w := World(Shared(EmptyCore(), false, false, Conns([], {}, {}, {}), Updates([], false, false),
                        Ledger(map[], [], None, None, false)),
                 Build(0), DiscOff, map[], map[]);
      ReachesStart(cfg, w);
    } else {
      var before := AllGoDown(cfg, k - 1);
      w := OneMoreDown(cfg, before, k - 1);
    }
  }

  // ----- a refresh finds no candidate

  lemma DiscGoes(cfg: Config, w: World, g': Shared, d': DiscPc)
    requires Reaches(cfg, w) && !w.disc.DiscAdopt? && !w.disc.DiscLaunch? && DiscLocalStep(cfg, w.shared, w.disc, g', d')
    ensures Reaches(cfg, w.(shared := g', disc := d'))
  {
    hide Reaches, DiscLocalStep;
    ReachesNext(cfg, w, DiscMove, w.(shared := g', disc := d'));
  }

  /** The first refresh selects nobody, and its final check finds every relay failed. */
  lemma CheckFails(cfg: Config, w: World)
    requires Reaches(cfg, w) && w.disc.DiscRefresh? && AllFailed(w.shared.core) && !w.shared.core.closing && !w.shared.ctxDone
    ensures Reaches(cfg, w.(disc := DiscExhaust(CloseSignal)))
  {
    hide Reaches, AllFailed, PublishStep, ExhaustStep;
    DiscGoes(cfg, w, w.shared, DiscFetch);
    DiscGoes(cfg, w.(disc := DiscFetch), w.shared, DiscAdopt([]));
    ReachesNext(cfg, w.(disc := DiscAdopt([])), DiscMove, w.(disc := DiscFinal));
    DiscGoes(cfg, w.(disc := DiscFinal), w.shared, DiscExhaust(CloseSignal));
  }

  lemma RefreshFindsNothing(cfg: Config) returns (w: World)
    requires ValidConfig(cfg) && cfg.discovery
    ensures Reaches(cfg, w) && w.builder.Built? && w.callers == map[]
    ensures Exhausted(w.shared.core) && !w.shared.core.closing && !w.shared.ctxDone
  {
    var down := AllGoDown(cfg, |cfg.relays|);
    assert down.shared.core.failedOnce == down.shared.core.signalClosed by {
      ReachedShape(cfg, down);
    }
    hide Reaches, PublishStep;
    var built := down.(builder := Built, disc := DiscRefresh);
    ReachesNext(cfg, down, BuilderMove, built);
    CheckFails(cfg, built);
    var g := built.shared.(core := CloseAllFailed(built.shared.core));
    DiscGoes(cfg, built.(disc := DiscExhaust(CloseSignal)), g, DiscExhaust(NotifyAll));
    w := built.(shared := g, disc := DiscExhaust(NotifyAll));
  }

  // ----- and Accept says so

  /** A run that leads here and on which the caller has called Accept. */
  ghost predicate Called(cfg: Config, w: World, id: nat) {
    exists ws, actions, s: nat ::
      IsRun(cfg, ws, actions) && ws[|ws| - 1] == w && s < |actions| && actions[s] == Spawn(id, AcceptTop)
  }

  lemma Calls(cfg: Config, w: World, id: nat, w': World)
    requires Reaches(cfg, w) && Next(cfg, w, Spawn(id, AcceptTop), w')
    ensures Called(cfg, w', id)
  {
    var ws, actions :| IsRun(cfg, ws, actions) && ws[|ws| - 1] == w;
    hide Next, Init;
    assert IsRun(cfg, ws + [w'], actions + [Spawn(id, AcceptTop)]);
    assert (ws + [w'])[|ws + [w']| - 1] == w';
    assert (actions + [Spawn(id, AcceptTop)])[|actions|] == Spawn(id, AcceptTop);
  }

  lemma CallGoes(cfg: Config, w: World, id: nat, p: CallerPc)
    requires Called(cfg, w, id) && id in w.callers && AcceptStep(w.shared, w.callers[id], w.shared, p)
    ensures Called(cfg, w.(callers := w.callers[id := p]), id)
  {
    var w' := w.(callers := w.callers[id := p]);
    var ws, actions, s: nat :|
      IsRun(cfg, ws, actions) && ws[|ws| - 1] == w && s < |actions| && actions[s] == Spawn(id, AcceptTop);
    assert Next(cfg, w, CallerMove(id), w') by {
      hide AcceptStep, WaitStep, CloseStep, IsRun;
    }
    hide Next, Init;
    assert IsRun(cfg, ws + [w'], actions + [CallerMove(id)]);
    assert (ws + [w'])[|ws + [w']| - 1] == w';
    assert (actions + [CallerMove(id)])[s] == Spawn(id, AcceptTop);
  }

  /** For every configuration with discovery there is a run on which Accept returns ErrNoRelays: all configured relays
      fail and the first refresh finds nobody else. */
  lemma AcceptReportsNoRelays(cfg: Config)
    requires ValidConfig(cfg) && cfg.discovery
    ensures exists w, id :: Called(cfg, w, id) && id in w.callers && w.callers[id] == Returned(ErrNoRelays)
  {
    var w := RefreshFindsNothing(cfg);
    var signal := w.shared.core.signal;
    var called := w.(callers := map[0 := AcceptTop]);
    hide Reaches, Called;
    Calls(cfg, w, 0, called);
    CallGoes(cfg, called, 0, AcceptSnap(false));
    var snapped := w.(callers := map[0 := AcceptSnap(false)]);
    assert snapped == called.(callers := called.callers[0 := AcceptSnap(false)]);
    CallGoes(cfg, snapped, 0, AcceptCheck(false, signal, true));
    var checked := w.(callers := map[0 := AcceptCheck(false, signal, true)]);
    assert checked == snapped.(callers := snapped.callers[0 := AcceptCheck(false, signal, true)]);
    CallGoes(cfg, checked, 0, Returned(ErrNoRelays));
    var reported := checked.(callers := checked.callers[0 := Returned(ErrNoRelays)]);
    assert 0 in reported.callers && reported.callers[0] == Returned(ErrNoRelays);
  }
}
