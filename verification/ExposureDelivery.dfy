/** What the exposure is for happens: for every configuration and every connection, a run on which a relay offers it and
    Accept hands it out, and one on which Close comes first, closes it and returns. */
module ExposureDelivery {
  import opened Options
  import opened ExposureCore
  import opened ExposureThreads
  import opened ExposureShape
  import opened ExposureNoRelays

  /** The constructor has added and started the first k relays, and nothing else has happened. */
  ghost predicate Up(cfg: Config, w: World, k: nat) {
    var g := w.shared;
    && k <= |cfg.relays| && w.builder == Build(k) && w.disc.DiscOff? && w.callers == map[]
    && !g.ctxDone && !g.core.closing && g.conns == Conns([], {}, {}, {})
    && g.core.statuses.Keys == FirstRelays(cfg, k) && g.core.rejected == {}
    && !g.updates.closed && |g.updates.items| == k
    && w.sups.Keys == FirstRelays(cfg, k) && g.ledger == Ledger(map[], [], None, None, false)
    && (forall n | 0 <= n < k :: cfg.relays[n] in w.sups && w.sups[cfg.relays[n]] == Sup(SupRun, None, None))
  }

  lemma NextMayBeAdded(cfg: Config, w: World, k: nat)
    requires ValidConfig(cfg) && Up(cfg, w, k) && k < |cfg.relays|
    ensures MayAdd(cfg, w, cfg.relays[k], true) && |w.shared.updates.items| < UpdatesCapacity(cfg)
    ensures FirstRelays(cfg, k + 1) == FirstRelays(cfg, k) + {cfg.relays[k]}
  {
  }

  lemma AddingKeepsUp(c: Core, maxDiscovered: nat, url: string)
    requires CanAdd(c, false, maxDiscovered, url, true)
    ensures var grown := AddRelay(c, false, maxDiscovered, url, true);
            grown.statuses.Keys == c.statuses.Keys + {url} && grown.rejected == c.rejected && !grown.closing
  {
  }

  /** The world after the next relay has been added and started. */
  function WithNext(cfg: Config, w: World, k: nat): World
    requires k < |cfg.relays|
  {
    var url := cfg.relays[k];
    At(w.(builder := Build(k + 1)), Publishes(Grown(cfg, w.shared, url), NewStatus(url)), url, SupRun)
  }

  lemma SupsStayUp(cfg: Config, w: World, k: nat)
    requires ValidConfig(cfg) && Up(cfg, w, k) && k < |cfg.relays|
    ensures var sups := WithNext(cfg, w, k).sups;
            && sups.Keys == FirstRelays(cfg, k + 1)
            && forall n | 0 <= n < k + 1 :: cfg.relays[n] in sups && sups[cfg.relays[n]] == Sup(SupRun, None, None)
  {
    NextMayBeAdded(cfg, w, k);
    hide Grown, Publishes, MayAdd, FirstRelays;
    assert WithNext(cfg, w, k).sups == w.sups[cfg.relays[k] := Sup(SupRun, None, None)];
  }

  lemma StaysUp(cfg: Config, w: World, k: nat)
    requires ValidConfig(cfg) && Up(cfg, w, k) && k < |cfg.relays|
    ensures Up(cfg, WithNext(cfg, w, k), k + 1)
  {
    NextMayBeAdded(cfg, w, k);
    AddingKeepsUp(w.shared.core, cfg.maxDiscovered, cfg.relays[k]);
    SupsStayUp(cfg, w, k);
    hide AddRelay, CanAdd, FirstRelays, ValidConfig;
  }

  lemma OneMoreUp(cfg: Config, w: World, k: nat) returns (w': World)
    requires ValidConfig(cfg) && Reaches(cfg, w) && Up(cfg, w, k) && k < |cfg.relays|
    ensures Reaches(cfg, w') && Up(cfg, w', k + 1)
  {
    NextMayBeAdded(cfg, w, k);
    StaysUp(cfg, w, k);
    RelayIsStarted(cfg, w, k);
    hide Reaches, AddRelay, CanAdd, At;
    w' := WithNext(cfg, w, k);
  }

  lemma {:induction false} AllGoUp(cfg: Config, k: nat) returns (w: World)
    requires ValidConfig(cfg) && k <= |cfg.relays|
    ensures Reaches(cfg, w) && Up(cfg, w, k)
  {
    hide Reaches;
    if k == 0 {
      w := World(Shared(EmptyCore(), false, false, Conns([], {}, {}, {}), Updates([], false, false),
                        Ledger(map[], [], None, None, false)),
                 Build(0), DiscOff, map[], map[]);
      ReachesStart(cfg, w);
    } else {
      var before := AllGoUp(cfg, k - 1);
      w := OneMoreUp(cfg, before, k - 1);
    }
  }

  /** All relays are up, the constructor has returned, and a relay has offered the connection. */
  lemma RelayOffers(cfg: Config, conn: nat) returns (w: World)
    requires ValidConfig(cfg)
    ensures Reaches(cfg, w) && w.builder.Built? && w.callers == map[]
    ensures w.shared.conns == Conns([conn], {conn}, {}, {}) && !w.shared.ctxDone && !w.shared.core.closing
    ensures !AllFailed(w.shared.core)
    ensures forall n | 0 <= n < |cfg.relays| :: cfg.relays[n] in w.sups && w.sups[cfg.relays[n]] == Sup(SupRun, None, None)
    ensures w.sups.Keys == FirstRelays(cfg, |cfg.relays|) && w.shared.ledger == Ledger(map[], [], None, None, false)
    ensures w.disc == if cfg.discovery then DiscRefresh else DiscOff
  {
    var up := AllGoUp(cfg, |cfg.relays|);
    SomebodyLives(cfg, up);
    hide Reaches, PublishStep, ExhaustStep, AllFailed;
    var url := cfg.relays[0];
    var built := up.(builder := Built, disc := if cfg.discovery then DiscRefresh else DiscOff);
    ReachesNext(cfg, up, BuilderMove, built);
    w := built.(shared := built.shared.(conns := Conns([conn], {conn}, {}, {})));
    assert OfferStep(cfg, built.shared, w.shared);
    assert MainStep(cfg, url, built.shared, built.sups[url], w.shared, built.sups[url]);
    assert w.sups == built.sups[url := w.sups[url]];
    ReachesNext(cfg, built, SupMove(url), w);
  }

  lemma SomebodyLives(cfg: Config, w: World)
    requires ValidConfig(cfg) && Reaches(cfg, w) && Up(cfg, w, |cfg.relays|)
    ensures !AllFailed(w.shared.core) && AcceptCapacity(cfg) > 0
  {
    ReachedShape(cfg, w);
    assert cfg.relays[0] in w.shared.core.statuses.Keys;
    hide SupsOk, BuilderOk;
  }

  /** One step of the only caller. */
  lemma CallerGoes(cfg: Config, w: World, g: Shared, p: CallerPc, g': Shared, p': CallerPc)
    requires Reaches(cfg, w.(shared := g, callers := map[0 := p])) && AcceptStep(g, p, g', p')
    ensures Reaches(cfg, w.(shared := g', callers := map[0 := p']))
  {
    hide Reaches, AcceptStep, WaitStep, CloseStep;
    var v, v' := w.(shared := g, callers := map[0 := p]), w.(shared := g', callers := map[0 := p']);
    assert v'.callers == v.callers[0 := p'];
    ReachesNext(cfg, v, CallerMove(0), v');
  }

  /** With a connection in the queue and nothing wrong, the caller reads the state twice and takes the connection. */
  lemma AcceptTakes(cfg: Config, w: World, g: Shared, conn: nat)
    requires Reaches(cfg, w.(shared := g, callers := map[0 := AcceptTop]))
    requires g.conns.queue == [conn] && !g.ctxDone && !g.core.closing && !AllFailed(g.core)
    ensures Reaches(cfg, w.(shared := g.(conns := g.conns.(queue := [])), callers := map[0 := HeldTop(conn)]))
  {
    hide Reaches, AllFailed;
    var signal, epoch := g.core.signal, g.core.epoch;
    CallerGoes(cfg, w, g, AcceptTop, g, AcceptSnap(false));
    CallerGoes(cfg, w, g, AcceptSnap(false), g, AcceptCheck(false, signal, false));
    CallerGoes(cfg, w, g, AcceptCheck(false, signal, false), g, AcceptCapture);
    CallerGoes(cfg, w, g, AcceptCapture, g, AcceptSnap2(epoch));
    CallerGoes(cfg, w, g, AcceptSnap2(epoch), g, AcceptCheck2(epoch, signal, false));
    CallerGoes(cfg, w, g, AcceptCheck2(epoch, signal, false), g, AcceptSelect(epoch, false));
    CallerGoes(cfg, w, g, AcceptSelect(epoch, false), g.(conns := g.conns.(queue := [])), HeldTop(conn));
  }

  /** Then it reads the state again and returns it. */
  lemma AcceptReturns(cfg: Config, w: World, g: Shared, conn: nat)
    requires Reaches(cfg, w.(shared := g, callers := map[0 := HeldTop(conn)]))
    requires !g.ctxDone && !g.core.closing && !AllFailed(g.core)
    ensures Reaches(cfg, w.(shared := g.(conns := g.conns.(handed := g.conns.handed + {conn})),
                            callers := map[0 := Returned(GotConn(conn))]))
  {
    hide Reaches, AllFailed;
    CallerGoes(cfg, w, g, HeldTop(conn), g, HeldSnap(conn, false));
    CallerGoes(cfg, w, g, HeldSnap(conn, false), g, HeldCheck(conn, false, g.core.signal, false));
    CallerGoes(cfg, w, g, HeldCheck(conn, false, g.core.signal, false),
               g.(conns := g.conns.(handed := g.conns.handed + {conn})), Returned(GotConn(conn)));
  }

  lemma AcceptDelivers(cfg: Config, conn: nat)
    requires ValidConfig(cfg)
    ensures exists w :: Reaches(cfg, w) && 0 in w.callers && w.callers[0] == Returned(GotConn(conn)) && w.shared.conns.handed == {conn}
  {
    var w := RelayOffers(cfg, conn);
    var g := w.shared;
    hide Reaches, AllFailed;
    assert w == w.(shared := g, callers := map[]);
    ReachesNext(cfg, w, Spawn(0, AcceptTop), w.(shared := g, callers := map[0 := AcceptTop]));
    AcceptTakes(cfg, w, g, conn);
    AcceptReturns(cfg, w, g.(conns := g.conns.(queue := [])), conn);
    var last := w.(shared := g.(conns := Conns([], {conn}, {conn}, {})), callers := map[0 := Returned(GotConn(conn))]);
    assert 0 in last.callers && last.callers[0] == Returned(GotConn(conn));
  }

  // ----- Close comes first

  /** One step of the closing caller. */
  lemma CloserGoes(cfg: Config, w: World, g: Shared, p: CallerPc, g': Shared, p': CallerPc)
    requires Reaches(cfg, w.(shared := g, callers := map[0 := p]))
    requires CloseStep(w.(shared := g, callers := map[0 := p]), 0, g', p')
    ensures Reaches(cfg, w.(shared := g', callers := map[0 := p']))
  {
    hide Reaches, AcceptStep, WaitStep, CloseStep;
    var v, v' := w.(shared := g, callers := map[0 := p]), w.(shared := g', callers := map[0 := p']);
    assert v'.callers == v.callers[0 := p'];
    ReachesNext(cfg, v, CallerMove(0), v');
  }

  /** The exposure is being closed, and the first k supervisors have stopped. */
  ghost predicate Stopping(cfg: Config, w: World, k: nat, conn: nat) {
    && k <= |cfg.relays| && w.callers == map[0 := CloseSupervisors]
    && w.shared.ctxDone && w.shared.core.closing && w.shared.conns == Conns([conn], {conn}, {}, {})
    && w.shared.ledger.cleanups == [] && w.shared.ledger.closer == Some(0) && !w.shared.ledger.closeDone
    && w.disc == (if cfg.discovery then DiscRefresh else DiscOff)
    && w.sups.Keys == FirstRelays(cfg, |cfg.relays|)
    && (forall n | 0 <= n < |cfg.relays| ::
          cfg.relays[n] in w.sups && w.sups[cfg.relays[n]] == Sup(if n < k then SupDone else SupRun, None, None))
  }

  lemma OneMoreStops(cfg: Config, w: World, k: nat, conn: nat) returns (w': World)
    requires ValidConfig(cfg) && Reaches(cfg, w) && Stopping(cfg, w, k, conn) && k < |cfg.relays|
    ensures Reaches(cfg, w') && Stopping(cfg, w', k + 1, conn)
  {
    hide Reaches, PublishStep, ExhaustStep, CanMark, MarkFailed;
    var url, g := cfg.relays[k], w.shared;
    var g' := g.(ledger := g.ledger.(results := g.ledger.results[url := None]));
    assert w == At(w, g, url, SupRun) by {
      assert w.sups == w.sups[url := Sup(SupRun, None, None)];
    }
    SupGoes(cfg, w, url, g, SupRun, g', SupReturned(None, None));
    SupGoes(cfg, w, url, g', SupReturned(None, None), g', SupJudge(None));
    SupGoes(cfg, w, url, g', SupJudge(None), g', SupDone);
    w' := At(w, g', url, SupDone);
  }

  lemma {:induction false} AllStop(cfg: Config, w: World, k: nat, conn: nat) returns (w': World)
    requires ValidConfig(cfg) && Reaches(cfg, w) && Stopping(cfg, w, 0, conn) && k <= |cfg.relays|
    ensures Reaches(cfg, w') && Stopping(cfg, w', k, conn)
  {
    hide Reaches, Stopping;
    if k == 0 {
      w' := w;
    } else {
      var before := AllStop(cfg, w, k - 1, conn);
      w' := OneMoreStops(cfg, before, k - 1, conn);
    }
  }

  lemma CloseBegins(cfg: Config, conn: nat) returns (w: World)
    requires ValidConfig(cfg)
    ensures Reaches(cfg, w) && Stopping(cfg, w, 0, conn)
  {
    var v := RelayOffers(cfg, conn);
    hide Reaches, AllFailed;
    var g := v.shared;
    var admitted := g.(ledger := g.ledger.(closer := Some(0)));
    var marked := admitted.(core := admitted.core.(closing := true));
    ReachesNext(cfg, v, Spawn(0, CloseCall), v.(shared := g, callers := map[0 := CloseCall]));
    CloserGoes(cfg, v, g, CloseCall, admitted, CloseMark);
    CloserGoes(cfg, v, admitted, CloseMark, marked, CloseCancel);
    CloserGoes(cfg, v, marked, CloseCancel, marked.(ctxDone := true), CloseSupervisors);
    w := v.(shared := marked.(ctxDone := true), callers := map[0 := CloseSupervisors]);
  }

  /** Everything has stopped; what is left is to drain the queue and to report. */
  lemma EverythingStops(cfg: Config, conn: nat) returns (w: World)
    requires ValidConfig(cfg)
    ensures Reaches(cfg, w) && w.callers == map[0 := CloseDiscovery] && (w.disc.DiscOff? || w.disc.DiscDone?)
    ensures w.shared.conns == Conns([conn], {conn}, {}, {}) && w.shared.ledger.cleanups == []
  {
    var v := CloseBegins(cfg, conn);
    w := AllStop(cfg, v, |cfg.relays|, conn);
    assert AllSupervisorsDone(w.sups) by {
      forall url | url in w.sups ensures w.sups[url].main.SupDone? {
        assert url in FirstRelays(cfg, |cfg.relays|);
      }
    }
    hide Reaches, PublishStep, ExhaustStep;
    assert w == w.(shared := w.shared, callers := map[0 := CloseSupervisors]);
    if cfg.discovery {
      DiscGoes(cfg, w, w.shared, DiscIdle);
      DiscGoes(cfg, w.(shared := w.shared, disc := DiscIdle), w.shared, DiscDone);
      w := w.(disc := DiscDone);
    }
    assert w == w.(shared := w.shared, callers := map[0 := CloseSupervisors]);
    CloserGoes(cfg, w, w.shared, CloseSupervisors, w.shared, CloseDiscovery);
    w := w.(callers := map[0 := CloseDiscovery]);
  }

  lemma QueueIsDrained(cfg: Config, w: World, conn: nat) returns (w': World)
    requires Reaches(cfg, w) && w.callers == map[0 := CloseDiscovery] && (w.disc.DiscOff? || w.disc.DiscDone?)
    requires w.shared.conns == Conns([conn], {conn}, {}, {})
    ensures w' == w.(shared := w.shared.(conns := Conns([], {conn}, {}, {conn})), callers := map[0 := CloseCollect])
    ensures Reaches(cfg, w')
  {
    hide Reaches, AllSupervisorsDone;
    var g := w.shared;
    var taken := g.(conns := Conns([], {conn}, {}, {}));
    var closed := g.(conns := Conns([], {conn}, {}, {conn}));
    assert w == w.(shared := g, callers := map[0 := CloseDiscovery]);
    CloserGoes(cfg, w, g, CloseDiscovery, g, CloseDrain(None));
    CloserGoes(cfg, w, g, CloseDrain(None), taken, CloseDrain(Some(conn)));
    CloserGoes(cfg, w, taken, CloseDrain(Some(conn)), closed, CloseDrain(None));
    CloserGoes(cfg, w, closed, CloseDrain(None), closed, CloseCollect);
    w' := w.(shared := closed, callers := map[0 := CloseCollect]);
  }

  function Collected(g: Shared): Shared { g.(ledger := g.ledger.(closeErr := Some(g.ledger.cleanups))) }

  function UpdatesClosed(g: Shared): Shared { g.(updates := g.updates.(closed := true)) }

  function Signalled(g: Shared): Shared { g.(ledger := g.ledger.(closeDone := true)) }

  lemma ErrorsAreCollected(cfg: Config, w: World, g: Shared)
    requires Reaches(cfg, w.(shared := g, callers := map[0 := CloseCollect]))
    ensures Reaches(cfg, w.(shared := UpdatesClosed(Collected(g)), callers := map[0 := CloseSignalDone]))
  {
    hide Reaches, DrainStep, AllSupervisorsDone;
    var g' := Collected(g);
    CloserGoes(cfg, w, g, CloseCollect, g', CloseUpdates);
    CloserGoes(cfg, w, g', CloseUpdates, UpdatesClosed(g'), CloseSignalDone);
  }

  lemma CloseIsSignalled(cfg: Config, w: World, g: Shared)
    requires Reaches(cfg, w.(shared := g, callers := map[0 := CloseSignalDone])) && g.ledger.closeErr.Some?
    ensures Reaches(cfg, w.(shared := Signalled(g), callers := map[0 := CloseReturned(g.ledger.closeErr.value)]))
  {
    hide Reaches, DrainStep, AllSupervisorsDone;
    CloserGoes(cfg, w, g, CloseSignalDone, Signalled(g), CloseWait);
    CloserGoes(cfg, w, Signalled(g), CloseWait, Signalled(g), CloseReturned(g.ledger.closeErr.value));
  }

  /** A connection that nobody has accepted is closed, and Close returns without an error. */
  lemma CloseReturns(cfg: Config, conn: nat)
    requires ValidConfig(cfg)
    ensures exists w :: Reaches(cfg, w) && 0 in w.callers && w.callers[0] == CloseReturned([])
                        && w.shared.conns == Conns([], {conn}, {}, {conn})
  {
    var stopped := EverythingStops(cfg, conn);
    var w := QueueIsDrained(cfg, stopped, conn);
    hide Reaches;
    assert w == w.(shared := w.shared, callers := map[0 := CloseCollect]);
    ErrorsAreCollected(cfg, w, w.shared);
    CloseIsSignalled(cfg, w, UpdatesClosed(Collected(w.shared)));
    var last := w.(shared := Signalled(UpdatesClosed(Collected(w.shared))), callers := map[0 := CloseReturned([])]);
    assert 0 in last.callers && last.callers[0] == CloseReturned([]);
  }
}
