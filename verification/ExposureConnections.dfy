/** Connection conservation: nothing that offer put into the queue is lost, duplicated or closed twice. */
module ExposureConnections {
  import opened Options
  import opened ExposureCore
  import opened ExposureThreads
  import opened ExposureShape
  import opened ExposureShutdown

  /** Who can be holding a connection that it has received from the queue. */
  datatype Holder = ByCaller(id: nat) | ByDiscovery | BySupervisor(url: string)

  function CallerHolds(p: CallerPc): Option<nat> {
    match p
    case HeldTop(conn) => Some(conn)
    case HeldSnap(conn, _) => Some(conn)
    case HeldCheck(conn, _, _, _) => Some(conn)
    case HeldDrop(conn, _) => Some(conn)
    case CloseDrain(held) => held
    case _ => None
  }

  function ExhaustHolds(e: Exhausting): Option<nat> {
    if e.Draining? then e.held else None
  }

  function MainHolds(p: SupPc): Option<nat> {
    if p.SupExhaust? then ExhaustHolds(p.e) else None
  }

  function DiscHolds(d: DiscPc): Option<nat> {
    if d.DiscExhaust? then ExhaustHolds(d.e) else None
  }

  function Held(w: World, h: Holder): Option<nat> {
    match h
    case ByCaller(id) => if id in w.callers then CallerHolds(w.callers[id]) else None
    case ByDiscovery => DiscHolds(w.disc)
    case BySupervisor(url) => if url in w.sups then MainHolds(w.sups[url].main) else None
  }

  /** The queue, the caller's hands and the closed set do not overlap and hold only what was offered. */
  ghost predicate Separate(c: Conns) {
    && (forall i, j | 0 <= i < j < |c.queue| :: c.queue[i] != c.queue[j])
    && (forall conn | conn in c.queue :: conn in c.offered && conn !in c.handed && conn !in c.closed)
    && c.handed <= c.offered && c.closed <= c.offered && c.handed !! c.closed
  }

  ghost predicate HeldApart(c: Conns, conn: nat) {
    conn in c.offered && conn !in c.queue && conn !in c.handed && conn !in c.closed
  }

  ghost predicate ConnInv(w: World) {
    && Separate(w.shared.conns)
    && (forall h | Held(w, h).Some? :: HeldApart(w.shared.conns, Held(w, h).value))
    && (forall h, h' | Held(w, h).Some? && Held(w, h') == Held(w, h) :: h == h')
    && (forall conn | conn in w.shared.conns.offered ::
          || conn in w.shared.conns.queue || conn in w.shared.conns.handed || conn in w.shared.conns.closed
          || exists h :: Held(w, h) == Some(conn))
  }

  /** What one step does to the connections and to what the moving goroutine holds. */
  ghost predicate ConnMove(c: Conns, held: Option<nat>, c': Conns, held': Option<nat>) {
    || (c' == c && held' == held)
    || (// offer
        && held.None? && held'.None? && |c'.queue| == |c.queue| + 1
        && var conn := c'.queue[|c.queue|];
           conn !in c.offered && c' == c.(queue := c.queue + [conn], offered := c.offered + {conn}))
    || (// receive
        held.None? && c.queue != [] && held' == Some(c.queue[0]) && c' == c.(queue := c.queue[1..]))
    || (// close
        held.Some? && held'.None? && c' == c.(closed := c.closed + {held.value}))
    || (// return to the caller
        held.Some? && held'.None? && c' == c.(handed := c.handed + {held.value}))
  }

  lemma DrainMoves(c: Conns, held: Option<nat>)
    ensures var (c', more) := DrainStep(c, held);
            ConnMove(c, held, c', if more.Some? then more.value else None)
  {
  }

  lemma ExhaustMoves(core: Core, c: Conns, e: Exhausting)
    ensures var (core', c', more) := ExhaustStep(core, c, e);
            ConnMove(c, ExhaustHolds(e), c', if more.Some? then ExhaustHolds(more.value) else None)
  {
    if e.Draining? {
      DrainMoves(c, e.held);
    }
  }

  lemma MainMoves(cfg: Config, url: string, g: Shared, s: Sup, g': Shared, s': Sup)
    requires MainStep(cfg, url, g, s, g', s')
    ensures ConnMove(g.conns, MainHolds(s.main), g'.conns, MainHolds(s'.main))
  {
    if s.main.SupExhaust? {
      ExhaustMoves(g.core, g.conns, s.main.e);
    }
    hide PublishStep, ExhaustStep, CanMark;
  }

  lemma CallbackMoves(cfg: Config, url: string, g: Shared, s: Sup, g': Shared, s': Sup)
    requires ReadyStep(cfg, url, g, s, g', s') || DatagramStep(cfg, url, g, s, g', s')
    ensures g'.conns == g.conns && s'.main == s.main
  {
    hide PublishStep, CanMark;
  }

  lemma DiscLocalMoves(cfg: Config, g: Shared, d: DiscPc, g': Shared, d': DiscPc)
    requires DiscLocalStep(cfg, g, d, g', d')
    ensures ConnMove(g.conns, DiscHolds(d), g'.conns, DiscHolds(d'))
  {
    if d.DiscExhaust? {
      ExhaustMoves(g.core, g.conns, d.e);
    }
    hide PublishStep, ExhaustStep;
  }

  lemma AcceptMoves(g: Shared, p: CallerPc, g': Shared, p': CallerPc)
    requires AcceptStep(g, p, g', p')
    ensures ConnMove(g.conns, CallerHolds(p), g'.conns, CallerHolds(p'))
  {
    if CallerHolds(p).Some? || p.AcceptSelect? {
      hide AllFailed, SignalIsClosed;
    } else {
      AcceptTouches(g, p, g', p');
      AcceptOnlyReads(g, p, g', p');
      hide AcceptStep, CallerHolds;
    }
  }

  lemma AcceptOnlyReads(g: Shared, p: CallerPc, g': Shared, p': CallerPc)
    requires AcceptStep(g, p, g', p') && CallerHolds(p).None? && !p.AcceptSelect?
    ensures g' == g && CallerHolds(p').None?
  {
    hide AllFailed, SignalIsClosed;
  }

  lemma CloseMovesConns(w: World, id: nat, g': Shared, p': CallerPc)
    requires id in w.callers && CloseStep(w, id, g', p')
    ensures ConnMove(w.shared.conns, CallerHolds(w.callers[id]), g'.conns, CallerHolds(p'))
  {
    if w.callers[id].CloseDrain? {
      DrainMoves(w.shared.conns, w.callers[id].held);
    }
    hide DrainStep, AllSupervisorsDone;
  }

  lemma CallerMoves(w: World, id: nat, g': Shared, p': CallerPc)
    requires id in w.callers
    requires AcceptStep(w.shared, w.callers[id], g', p') || WaitStep(w.shared, w.callers[id], g', p')
          || CloseStep(w, id, g', p')
    ensures ConnMove(w.shared.conns, CallerHolds(w.callers[id]), g'.conns, CallerHolds(p'))
  {
    if AcceptStep(w.shared, w.callers[id], g', p') {
      AcceptMoves(w.shared, w.callers[id], g', p');
    } else if CloseStep(w, id, g', p') {
      CloseMovesConns(w, id, g', p');
    }
    hide AcceptStep, CloseStep, SomeReady;
  }

  /** One goroutine moves, the others keep what they hold. */
  lemma MoveKeepsConns(w: World, h: Holder, w': World)
    requires ConnInv(w)
    requires ConnMove(w.shared.conns, Held(w, h), w'.shared.conns, Held(w', h))
    requires forall other | other != h :: Held(w', other) == Held(w, other)
    ensures ConnInv(w')
  {
    var c, c' := w.shared.conns, w'.shared.conns;
    MoveKeepsSeparate(c, Held(w, h), c', Held(w', h));
    forall conn | conn in c'.offered && conn !in c'.queue && conn !in c'.handed && conn !in c'.closed
      ensures exists other :: Held(w', other) == Some(conn)
    {
      if Held(w', h) != Some(conn) {
        assert conn in c.offered && conn !in c.queue;
        var other :| Held(w, other) == Some(conn);
        assert Held(w', other) == Some(conn);
      }
    }
    forall other | Held(w', other).Some? ensures HeldApart(c', Held(w', other).value) {
      if other != h {
        assert HeldApart(c, Held(w, other).value);
      }
    }
    hide Held;
  }

  lemma MoveKeepsSeparate(c: Conns, held: Option<nat>, c': Conns, held': Option<nat>)
    requires Separate(c) && ConnMove(c, held, c', held')
    requires held.Some? ==> HeldApart(c, held.value)
    ensures Separate(c')
    ensures held'.Some? ==> HeldApart(c', held'.value)
  {
  }

  lemma NextConns(cfg: Config, w: World, a: Action, w': World)
    requires Shape(cfg, w) && ConnInv(w) && Next(cfg, w, a, w')
    ensures ConnInv(w')
  {
    match a
    case SupMove(url) =>
      var g, s, g', s' := w.shared, w.sups[url], w'.shared, w'.sups[url];
      if MainStep(cfg, url, g, s, g', s') {
        MainMoves(cfg, url, g, s, g', s');
      } else {
        CallbackMoves(cfg, url, g, s, g', s');
      }
      hide Shape, ConnInv, MainStep, ReadyStep, DatagramStep, MainHolds, CallerHolds;
      MoveKeepsConns(w, BySupervisor(url), w');
    case CallerMove(id) =>
      CallerMoves(w, id, w'.shared, w'.callers[id]);
      hide Shape, ConnInv, AcceptStep, WaitStep, CloseStep, MainHolds, CallerHolds;
      MoveKeepsConns(w, ByCaller(id), w');
    case DiscMove => DiscKeepsConns(cfg, w, w');
    case _ => OthersKeepConns(cfg, w, a, w');
  }

  lemma DiscKeepsConns(cfg: Config, w: World, w': World)
    requires Shape(cfg, w) && ConnInv(w) && Next(cfg, w, DiscMove, w')
    ensures ConnInv(w')
  {
    if w.disc.DiscAdopt? || w.disc.DiscLaunch? {
      OthersKeepConns(cfg, w, DiscMove, w');
    } else {
      DiscLocalMoves(cfg, w.shared, w.disc, w'.shared, w'.disc);
      hide Shape, ConnInv, DiscLocalStep, MainHolds, CallerHolds;
      MoveKeepsConns(w, ByDiscovery, w');
    }
  }

  /** Steps that neither move connections nor make anyone hold or release one. */
  lemma OthersKeepConns(cfg: Config, w: World, a: Action, w': World)
    requires Shape(cfg, w) && ConnInv(w) && Next(cfg, w, a, w')
    requires a.CancelParent? || a.ReceiveUpdate? || a.Spawn? || a.BuilderMove?
          || (a.DiscMove? && (w.disc.DiscAdopt? || w.disc.DiscLaunch?))
    ensures ConnInv(w')
  {
    OthersLeaveConns(cfg, w, a, w');
    OthersTouchSups(cfg, w, a, w');
    assert w'.callers == w.callers || (a.Spawn? && a.id !in w.callers && w'.callers == w.callers[a.id := a.start]
                                       && CallerHolds(a.start).None?);
    hide Shape, Next, ConnInv;
    MoveKeepsConns(w, ByDiscovery, w');
  }

  lemma OthersLeaveConns(cfg: Config, w: World, a: Action, w': World)
    requires Shape(cfg, w) && Next(cfg, w, a, w')
    requires a.CancelParent? || a.ReceiveUpdate? || a.Spawn? || a.BuilderMove?
          || (a.DiscMove? && (w.disc.DiscAdopt? || w.disc.DiscLaunch?))
    ensures w'.shared.conns == w.shared.conns
    ensures DiscHolds(w'.disc) == DiscHolds(w.disc)
  {
    hide Accounted, SupsOk, PublishStep, DiscLocalStep;
  }

  lemma {:induction false} RunConns(cfg: Config, ws: seq<World>, actions: seq<Action>, i: nat)
    requires ValidConfig(cfg) && IsRun(cfg, ws, actions) && i < |ws|
    ensures ConnInv(ws[i])
  {
    if i > 0 {
      RunShape(cfg, ws, actions, i - 1);
      RunConns(cfg, ws, actions, i - 1);
      NextConns(cfg, ws[i - 1], actions[i - 1], ws[i]);
    }
  }

  // ----- main results

  ghost predicate IsHeld(w: World, conn: nat) {
    exists h :: Held(w, h) == Some(conn)
  }

  /** Every connection ever offered is in exactly one place: queued, held by one goroutine, handed to a caller
      of Accept, or closed. */
  lemma ConnectionsAreConserved(cfg: Config, ws: seq<World>, actions: seq<Action>, i: nat, conn: nat)
    requires ValidConfig(cfg) && IsRun(cfg, ws, actions) && i < |ws|
    requires conn in ws[i].shared.conns.offered
    ensures var w := ws[i];
            && (|| (conn in w.shared.conns.queue && !IsHeld(w, conn) && conn !in w.shared.conns.handed && conn !in w.shared.conns.closed)
                || (conn !in w.shared.conns.queue && IsHeld(w, conn) && conn !in w.shared.conns.handed && conn !in w.shared.conns.closed)
                || (conn !in w.shared.conns.queue && !IsHeld(w, conn) && conn in w.shared.conns.handed && conn !in w.shared.conns.closed)
                || (conn !in w.shared.conns.queue && !IsHeld(w, conn) && conn !in w.shared.conns.handed && conn in w.shared.conns.closed))
            && (forall h, h' | Held(w, h) == Some(conn) && Held(w, h') == Some(conn) :: h == h')
            && (forall k, l | 0 <= k < l < |w.shared.conns.queue| :: w.shared.conns.queue[k] != w.shared.conns.queue[l])
  {
    RunConns(cfg, ws, actions, i);
    hide Held;
  }

  /** Once a Close has returned and no Accept is still looking at a connection, each connection ever offered was
      handed out or closed. */
  lemma NothingLeftAfterClose(cfg: Config, ws: seq<World>, actions: seq<Action>, i: nat, id: nat)
    requires ValidConfig(cfg) && IsRun(cfg, ws, actions) && i < |ws|
    requires id in ws[i].callers && ws[i].callers[id].CloseReturned?
    requires forall other | other in ws[i].callers :: CallerHolds(ws[i].callers[other]).None?
    ensures ws[i].shared.conns.queue == []
    ensures ws[i].shared.conns.offered == ws[i].shared.conns.handed + ws[i].shared.conns.closed
  {
    var w := ws[i];
    RunConns(cfg, ws, actions, i);
    CloseIsComplete(cfg, ws, actions, i, id);
    forall h ensures Held(w, h).None? {
      match h
      case ByCaller(_) =>
      case ByDiscovery =>
      case BySupervisor(url) => assert url in w.sups ==> w.sups[url].main.SupDone?;
    }
  }
}
