/** Every goroutine around one Exposure, interleaved: one lock section or one channel operation per step.

    Replies from relays, the scheduler, the callers and the clock are arbitrary. */
module ExposureThreads {
  import opened Options
  import opened ExposureCore

  /** relays is already canonical and duplicate-free. */
  datatype Config = Config(relays: seq<string>, maxDiscovered: nat, discovery: bool)

  ghost predicate ValidConfig(cfg: Config) {
    && cfg.relays != [] && cfg.maxDiscovered > 0
    && forall i, j | 0 <= i < j < |cfg.relays| :: cfg.relays[i] != cfg.relays[j]
  }

  function Capacity(cfg: Config): nat { |cfg.relays| + cfg.maxDiscovered }

  function AcceptCapacity(cfg: Config): nat { 2 * Capacity(cfg) }

  function UpdatesCapacity(cfg: Config): nat { 4 * Capacity(cfg) }

  // ----- routines that several goroutines run

  /** Inside publishUpdate: first attempt, drop the oldest, second attempt. */
  datatype Publishing = Publishing(stage: Stage, status: RelayStatus)
  datatype Stage = FirstSend | DropOldest | SecondSend

  /** Inside markExhausted. */
  datatype Exhausting = CloseSignal | NotifyAll | Draining(held: Option<nat>)

  datatype Updates = Updates(items: seq<RelayStatus>, closed: bool, sentOnClosed: bool)

  datatype Conns = Conns(
    queue: seq<nat>,          // accepted
    offered: set<nat>,        // everything offer ever put into accepted
    handed: set<nat>,         // returned by Accept
    closed: set<nat>)

  function StartPublish(status: RelayStatus): Publishing { Publishing(FirstSend, status) }

  /** One step of publishUpdate; a send on a closed channel panics, which sentOnClosed records. */
  function PublishStep(u: Updates, capacity: nat, p: Publishing): (Updates, Option<Publishing>) {
    match p.stage
    case DropOldest =>
      (u.(items := if u.items == [] then [] else u.items[1..]), Some(p.(stage := SecondSend)))
    case _ =>
      if u.closed then (u.(sentOnClosed := true), None)
      else if |u.items| < capacity then (u.(items := u.items + [p.status]), None)
      else (u, if p.stage.FirstSend? then Some(p.(stage := DropOldest)) else None)
  }

  /** One step of drainAccepted: receive one connection, or close the one received; None when it returns. */
  function DrainStep(c: Conns, held: Option<nat>): (Conns, Option<Option<nat>>) {
    match held
    case Some(conn) => (c.(closed := c.closed + {conn}), Some(None))
    case None =>
      if c.queue == [] then (c, None)
      else (c.(queue := c.queue[1..]), Some(Some(c.queue[0])))
  }

  /** One step of markExhausted: close the signal, notify under the lock, drain; None when it returns. */
  function ExhaustStep(core: Core, conns: Conns, e: Exhausting): (Core, Conns, Option<Exhausting>) {
    match e
    case CloseSignal => (CloseAllFailed(core), conns, Some(NotifyAll))
    case NotifyAll => (NotifyStateChanged(core), conns, Some(Draining(None)))
    case Draining(held) =>
      var (conns', more) := DrainStep(conns, held);
      (core, conns', if more.Some? then Some(Draining(more.value)) else None)
  }

  // ----- goroutines

  datatype BuilderPc =          // inside Expose
    | Build(next: nat)
    | BuildPublish(next: nat, p: Publishing)
    | BuildLaunch(next: nat)
    | Built
    | Aborted

  datatype DiscPc =             // runDiscovery
    | DiscOff
    | DiscRefresh
    | DiscFetch
    | DiscAdopt(rest: seq<string>)
    | DiscPublish(url: string, rest: seq<string>, p: Publishing)
    | DiscLaunch(url: string, rest: seq<string>)
    | DiscFinal
    | DiscExhaust(e: Exhausting)
    | DiscIdle
    | DiscDone

  datatype SupPc =              // runSupervisor
    | SupNew                    // counted by supervisors.Add, goroutine not yet started
    | SupRun                    // inside relaySupervisor.run
    | SupReturned(runErr: Option<string>, cleanupErr: Option<string>)
    | SupJudge(runErr: Option<string>)
    | SupFail(err: string)
    | SupPublish(p: Publishing, last: bool)
    | SupKick
    | SupExhaust(e: Exhausting)
    | SupDone

  /** One supervisor with its two callbacks, which run on its worker goroutines. */
  datatype Sup = Sup(main: SupPc, ready: Option<Publishing>, datagram: Option<Publishing>)

  datatype Outcome = GotConn(conn: nat) | GotReady | ErrClosed | ErrNoRelays

  datatype CallerPc =
    // Accept
    | AcceptTop
    | AcceptSnap(closed: bool)
    | AcceptCheck(closed: bool, id: nat, all: bool)
    | AcceptCapture
    | AcceptSnap2(seen: nat)
    | AcceptCheck2(seen: nat, id: nat, all: bool)
    | AcceptSelect(seen: nat, exhausted: bool)
    | AcceptExhausted
    | HeldTop(conn: nat)
    | HeldSnap(conn: nat, closed: bool)
    | HeldCheck(conn: nat, closed: bool, id: nat, all: bool)
    | HeldDrop(conn: nat, closed: bool)
    // WaitReady (udp = false) and WaitDatagramReady (udp = true)
    | WaitTop(udp: bool)
    | WaitSelect(udp: bool, seen: nat)
    // Close
    | CloseCall
    | CloseMark
    | CloseCancel
    | CloseSupervisors
    | CloseDiscovery
    | CloseDrain(held: Option<nat>)
    | CloseCollect
    | CloseUpdates
    | CloseSignalDone
    | CloseWait
    // results
    | Returned(outcome: Outcome)
    | CloseReturned(errs: seq<(string, string)>)

  /** What runSupervisor and Close exchange about cleanup. */
  datatype Ledger = Ledger(
    results: map<string, Option<string>>,         // the cleanup result of every run that returned
    cleanups: seq<(string, string)>,              // cleanupErrs
    closer: Option<nat>,                          // the caller that closeOnce admitted
    closeErr: Option<seq<(string, string)>>,
    closeDone: bool)

  /** The state that goroutines share. */
  datatype Shared = Shared(
    core: Core,
    ctxDone: bool,
    kick: bool,                                   // discoveryKick, capacity 1
    conns: Conns,
    updates: Updates,
    ledger: Ledger)

  datatype World = World(
    shared: Shared,
    builder: BuilderPc,
    disc: DiscPc,
    sups: map<string, Sup>,
    callers: map<nat, CallerPc>)

  datatype Action =
    | CancelParent
    | ReceiveUpdate
    | Spawn(id: nat, start: CallerPc)             // a caller, or the watcher of the parent context
    | BuilderMove
    | DiscMove
    | SupMove(url: string)
    | CallerMove(id: nat)

  ghost predicate Init(w: World) {
    w == World(Shared(EmptyCore(), false, false, Conns([], {}, {}, {}), Updates([], false, false),
                      Ledger(map[], [], None, None, false)),
               Build(0), DiscOff, map[], map[])
  }

  ghost predicate Next(cfg: Config, w: World, a: Action, w': World) {
    match a
    case CancelParent => w' == w.(shared := w.shared.(ctxDone := true))
    case ReceiveUpdate =>
      var updates := w.shared.updates;
      updates.items != [] && w' == w.(shared := w.shared.(updates := updates.(items := updates.items[1..])))
    case Spawn(id, start) =>
      && w.builder.Built? && id !in w.callers
      && (start.AcceptTop? || start.WaitTop? || start.CloseCall?)
      && w' == w.(callers := w.callers[id := start])
    case BuilderMove =>
      && w' == w.(shared := w'.shared, builder := w'.builder, disc := w'.disc, sups := w'.sups)
      && BuilderStep(cfg, w, w')
    case DiscMove =>
      && w' == w.(shared := w'.shared, disc := w'.disc, sups := w'.sups)
      && DiscStep(cfg, w, w')
    case SupMove(url) =>
      && url in w.sups && url in w'.sups
      && w' == w.(shared := w'.shared, sups := w.sups[url := w'.sups[url]])
      && (|| MainStep(cfg, url, w.shared, w.sups[url], w'.shared, w'.sups[url])
          || ReadyStep(cfg, url, w.shared, w.sups[url], w'.shared, w'.sups[url])
          || DatagramStep(cfg, url, w.shared, w.sups[url], w'.shared, w'.sups[url]))
    case CallerMove(id) =>
      && id in w.callers && id in w'.callers
      && w' == w.(shared := w'.shared, callers := w.callers[id := w'.callers[id]])
      && (|| AcceptStep(w.shared, w.callers[id], w'.shared, w'.callers[id])
          || WaitStep(w.shared, w.callers[id], w'.shared, w'.callers[id])
          || CloseStep(w, id, w'.shared, w'.callers[id]))
  }

  /** A run: states joined by steps. */
  ghost predicate IsRun(cfg: Config, ws: seq<World>, actions: seq<Action>) {
    && |ws| == |actions| + 1
    && Init(ws[0])
    && forall i | 0 <= i < |actions| :: Next(cfg, ws[i], actions[i], ws[i + 1])
  }

  /** Some run leads here. */
  ghost predicate Reaches(cfg: Config, w: World) {
    exists ws, actions :: IsRun(cfg, ws, actions) && ws[|ws| - 1] == w
  }

  lemma ReachesStart(cfg: Config, w: World)
    requires Init(w)
    ensures Reaches(cfg, w)
  {
    assert IsRun(cfg, [w], []);
    assert [w][|[w]| - 1] == w;
  }

  lemma ReachesNext(cfg: Config, w: World, a: Action, w': World)
    requires Reaches(cfg, w) && Next(cfg, w, a, w')
    ensures Reaches(cfg, w')
  {
    var ws, actions :| IsRun(cfg, ws, actions) && ws[|ws| - 1] == w;
    hide Next, Init;
    assert IsRun(cfg, ws + [w'], actions + [a]);
    assert (ws + [w'])[|ws + [w']| - 1] == w';
  }

  // ----- Expose and runDiscovery

  predicate MayAdd(cfg: Config, w: World, url: string, explicit: bool) {
    CanAdd(w.shared.core, w.shared.ctxDone, cfg.maxDiscovered, url, explicit)
  }

  /** The lock section of addRelay when it adds: membership, wake-up and supervisors.Add in one step. */
  ghost predicate Adds(cfg: Config, w: World, url: string, explicit: bool, w': World) {
    && MayAdd(cfg, w, url, explicit)
    && w'.shared == w.shared.(core := AddRelay(w.shared.core, w.shared.ctxDone, cfg.maxDiscovered, url, explicit))
    && w'.sups == w.sups[url := Sup(SupNew, None, None)]
  }

  ghost predicate Launches(w: World, url: string, w': World) {
    && w'.shared == w.shared
    && url in w.sups && w'.sups == w.sups[url := w.sups[url].(main := SupRun)]
  }

  ghost predicate Local(w: World, w': World) {
    w'.shared == w.shared && w'.sups == w.sups
  }

  ghost predicate BuilderStep(cfg: Config, w: World, w': World) {
    match w.builder
    case Build(next) =>
      if next >= |cfg.relays| then
        Local(w, w') && w'.builder.Built? && w'.disc == (if cfg.discovery then DiscRefresh else w.disc)
      else
        var url := cfg.relays[next];
        && w'.disc == w.disc
        // newRelaySupervisor may refuse the URL, and then Expose cancels and fails
        && (|| (w'.builder.Aborted? && w'.shared == w.shared.(ctxDone := true) && w'.sups == w.sups)
            || (Adds(cfg, w, url, true, w') && w'.builder == BuildPublish(next, StartPublish(NewStatus(url))))
            || (!MayAdd(cfg, w, url, true) && Local(w, w') && w'.builder == Build(next + 1)))
    case BuildPublish(next, p) =>
      var (updates, more) := PublishStep(w.shared.updates, UpdatesCapacity(cfg), p);
      && w'.disc == w.disc && w'.sups == w.sups && w'.shared == w.shared.(updates := updates)
      && w'.builder == (if more.Some? then BuildPublish(next, more.value) else BuildLaunch(next))
    case BuildLaunch(next) =>
      && w'.disc == w.disc && next < |cfg.relays|
      && Launches(w, cfg.relays[next], w') && w'.builder == Build(next + 1)
    case _ => false
  }

  ghost predicate DiscStep(cfg: Config, w: World, w': World) {
    match w.disc
    case DiscAdopt(rest) =>
      if rest == [] || w.shared.ctxDone then Local(w, w') && w'.disc.DiscFinal?
      else
        var url := rest[0];
        // newRelaySupervisor may refuse the URL, and then adoption skips it
        || (Local(w, w') && w'.disc == DiscAdopt(rest[1..]))
        || (Adds(cfg, w, url, false, w') && w'.disc == DiscPublish(url, rest[1..], StartPublish(NewStatus(url))))
    case DiscLaunch(url, rest) => Launches(w, url, w') && w'.disc == DiscAdopt(rest)
    case _ => w'.sups == w.sups && DiscLocalStep(cfg, w.shared, w.disc, w'.shared, w'.disc)
  }

  ghost predicate DiscLocalStep(cfg: Config, g: Shared, d: DiscPc, g': Shared, d': DiscPc) {
    match d
    case DiscRefresh => g' == g && d' == if g.ctxDone then DiscIdle else DiscFetch
    // any list of candidates may have been selected from what the members answered
    case DiscFetch => g' == g && ((g.ctxDone && d'.DiscIdle?) || d'.DiscAdopt?)
    case DiscPublish(url, rest, p) =>
      var (updates, more) := PublishStep(g.updates, UpdatesCapacity(cfg), p);
      && g' == g.(updates := updates)
      && d' == if more.Some? then DiscPublish(url, rest, more.value) else DiscLaunch(url, rest)
    case DiscFinal =>
      && g' == g
      && d' == if AllFailed(g.core) && !g.core.closing && !g.ctxDone then DiscExhaust(CloseSignal) else DiscIdle
    case DiscExhaust(e) =>
      var (core, conns, more) := ExhaustStep(g.core, g.conns, e);
      g' == g.(core := core, conns := conns) && d' == if more.Some? then DiscExhaust(more.value) else DiscIdle
    case DiscIdle =>
      || (g.ctxDone && g' == g && d'.DiscDone?)
      || (g' == g && d'.DiscRefresh?)                              // the ticker
      || (g.kick && g' == g.(kick := false) && d'.DiscRefresh?)    // the kick
    case _ => false
  }

  // ----- runSupervisor

  function AfterFailure(cfg: Config, last: bool): SupPc {
    if !last then SupDone else if cfg.discovery then SupKick else SupExhaust(CloseSignal)
  }

  ghost predicate MainStep(cfg: Config, url: string, g: Shared, s: Sup, g': Shared, s': Sup) {
    && s' == s.(main := s'.main)
    && match s.main
       case SupRun =>
         || (s' == s && OfferStep(cfg, g, g'))
         || (// run returns with any pair of results, after its workers have been joined
             && s.ready.None? && s.datagram.None? && s'.main.SupReturned?
             && g' == g.(ledger := g.ledger.(results := g.ledger.results[url := s'.main.cleanupErr])))
       case SupReturned(runErr, cleanupErr) =>
         && s'.main == SupJudge(runErr)
         && g' == g.(ledger := g.ledger.(cleanups :=
                    if cleanupErr.Some? then g.ledger.cleanups + [(url, cleanupErr.value)] else g.ledger.cleanups))
       case SupJudge(runErr) => g' == g && s'.main == if runErr.Some? && !g.ctxDone then SupFail(runErr.value) else SupDone
       case SupFail(err) =>
         var core := MarkFailed(g.core, g.ctxDone, url, err);
         && g' == g.(core := core)
         && s'.main == if CanMark(g.core, g.ctxDone, url)
                       then SupPublish(StartPublish(core.statuses[url]), core.failedCount >= core.relayCount)
                       else SupDone
       case SupPublish(p, last) =>
         var (updates, more) := PublishStep(g.updates, UpdatesCapacity(cfg), p);
         && g' == g.(updates := updates)
         && s'.main == if more.Some? then SupPublish(more.value, last) else AfterFailure(cfg, last)
       case SupKick => g' == g.(kick := true) && s'.main.SupDone?
       case SupExhaust(e) =>
         var (core, conns, more) := ExhaustStep(g.core, g.conns, e);
         g' == g.(core := core, conns := conns) && s'.main == if more.Some? then SupExhaust(more.value) else SupDone
       case _ => false
  }

  /** offer, on a worker of a running supervisor: a new connection enters the queue if there is room. */
  ghost predicate OfferStep(cfg: Config, g: Shared, g': Shared) {
    && |g.conns.queue| < AcceptCapacity(cfg)
    && |g'.conns.queue| == |g.conns.queue| + 1
    && var conn := g'.conns.queue[|g.conns.queue|];
       && conn !in g.conns.offered
       && g' == g.(conns := g.conns.(queue := g.conns.queue + [conn], offered := g.conns.offered + {conn}))
  }

  /** The ready callback: markReady with any public URL, then publishUpdate. */
  ghost predicate ReadyStep(cfg: Config, url: string, g: Shared, s: Sup, g': Shared, s': Sup) {
    match s.ready
    case None =>
      && s.main.SupRun?
      && url in g'.core.statuses
      && g' == g.(core := MarkReady(g.core, g.ctxDone, url, g'.core.statuses[url].publicUrl))
      && s' == s.(ready := if PublishesReady(g.core, g.ctxDone, url) then Some(StartPublish(g'.core.statuses[url])) else None)
    case Some(p) =>
      var (updates, more) := PublishStep(g.updates, UpdatesCapacity(cfg), p);
      g' == g.(updates := updates) && s' == s.(ready := more)
  }

  /** The datagramReady callback: markDatagramReady with any address, then publishUpdate. */
  ghost predicate DatagramStep(cfg: Config, url: string, g: Shared, s: Sup, g': Shared, s': Sup) {
    match s.datagram
    case None =>
      && s.main.SupRun?
      && url in g'.core.statuses
      && var udpAddr := g'.core.statuses[url].udpAddr;
         && g' == g.(core := MarkDatagramReady(g.core, g.ctxDone, url, udpAddr))
         && s' == s.(datagram := if PublishesDatagramReady(g.core, g.ctxDone, url, udpAddr)
                                 then Some(StartPublish(g'.core.statuses[url].(state := UdpReady))) else None)
    case Some(p) =>
      var (updates, more) := PublishStep(g.updates, UpdatesCapacity(cfg), p);
      g' == g.(updates := updates) && s' == s.(datagram := more)
  }

  // ----- callers

  /** Accept. terminalState and exhaustedSignal each read in their own lock section, and testing the channel
      is a further step; the select evaluates stateChangedSignal before exhaustedSignal. */
  ghost predicate AcceptStep(g: Shared, p: CallerPc, g': Shared, p': CallerPc) {
    var closedNow := g.core.closing || g.ctxDone;
    match p
    case AcceptTop => g' == g && p' == AcceptSnap(closedNow)
    case AcceptSnap(closed) => g' == g && p' == AcceptCheck(closed, g.core.signal, AllFailed(g.core))
    case AcceptCheck(closed, signal, all) =>
      && g' == g
      && p' == if closed then Returned(ErrClosed)
               else if all && SignalIsClosed(g.core, signal) then Returned(ErrNoRelays)
               else AcceptCapture
    case AcceptCapture => g' == g && p' == AcceptSnap2(g.core.epoch)
    case AcceptSnap2(seen) => g' == g && p' == AcceptCheck2(seen, g.core.signal, AllFailed(g.core))
    case AcceptCheck2(seen, signal, all) => g' == g && p' == AcceptSelect(seen, all && SignalIsClosed(g.core, signal))
    case AcceptSelect(seen, exhausted) =>
      || (g.ctxDone && g' == g && p' == Returned(ErrClosed))
      || (seen < g.core.epoch && g' == g && p' == AcceptTop)
      || (exhausted && g' == g && p' == AcceptExhausted)
      || (g.conns.queue != [] && g' == g.(conns := g.conns.(queue := g.conns.queue[1..])) && p' == HeldTop(g.conns.queue[0]))
    case AcceptExhausted => g' == g && p' == Returned(if closedNow then ErrClosed else ErrNoRelays)
    case HeldTop(conn) => g' == g && p' == HeldSnap(conn, closedNow)
    case HeldSnap(conn, closed) => g' == g && p' == HeldCheck(conn, closed, g.core.signal, AllFailed(g.core))
    case HeldCheck(conn, closed, signal, all) =>
      if closed || (all && SignalIsClosed(g.core, signal)) then g' == g && p' == HeldDrop(conn, closed)
      else g' == g.(conns := g.conns.(handed := g.conns.handed + {conn})) && p' == Returned(GotConn(conn))
    case HeldDrop(conn, closed) =>
      && g' == g.(conns := g.conns.(closed := g.conns.closed + {conn}))
      && p' == Returned(if closed then ErrClosed else ErrNoRelays)
    case _ => false
  }

  /** WaitReady and WaitDatagramReady: one read section, then the select. The caller's own context may end the
      wait as well; that is the caller leaving. */
  ghost predicate WaitStep(g: Shared, p: CallerPc, g': Shared, p': CallerPc) {
    && g' == g
    && match p
       case WaitTop(udp) =>
         p' == if SomeReady(g.core, udp) then Returned(GotReady)
               else if g.core.closing || g.ctxDone then Returned(ErrClosed)
               else if Exhausted(g.core) then Returned(ErrNoRelays)
               else WaitSelect(udp, g.core.epoch)
       case WaitSelect(udp, seen) =>
         (g.ctxDone && p' == Returned(ErrClosed)) || (seen < g.core.epoch && p' == WaitTop(udp))
       case _ => false
  }

  ghost predicate AllSupervisorsDone(sups: map<string, Sup>) {
    forall url | url in sups :: sups[url].main.SupDone?
  }

  /** Close. Only the caller admitted by closeOnce runs the body; everyone waits for closeDone. */
  ghost predicate CloseStep(w: World, id: nat, g': Shared, p': CallerPc)
    requires id in w.callers
  {
    var g := w.shared;
    match w.callers[id]
    case CloseCall =>
      if g.ledger.closer.None? then g' == g.(ledger := g.ledger.(closer := Some(id))) && p' == CloseMark
      else g' == g && p' == CloseWait
    case CloseMark => g' == g.(core := g.core.(closing := true)) && p' == CloseCancel
    case CloseCancel => g' == g.(ctxDone := true) && p' == CloseSupervisors
    // supervisors.Wait returns once every Add has been matched by a Done
    case CloseSupervisors => AllSupervisorsDone(w.sups) && g' == g && p' == CloseDiscovery
    case CloseDiscovery => (w.disc.DiscOff? || w.disc.DiscDone?) && g' == g && p' == CloseDrain(None)
    case CloseDrain(held) =>
      var (conns, more) := DrainStep(g.conns, held);
      g' == g.(conns := conns) && p' == if more.Some? then CloseDrain(more.value) else CloseCollect
    case CloseCollect => g' == g.(ledger := g.ledger.(closeErr := Some(g.ledger.cleanups))) && p' == CloseUpdates
    case CloseUpdates => g' == g.(updates := g.updates.(closed := true)) && p' == CloseSignalDone
    case CloseSignalDone => g' == g.(ledger := g.ledger.(closeDone := true)) && p' == CloseWait
    case CloseWait => g.ledger.closeDone && g' == g && g.ledger.closeErr.Some? && p' == CloseReturned(g.ledger.closeErr.value)
    case _ => false
  }
}
