/** The TCP proxy as the sole consumer of its exposure: the two state machines move together, and what Accept hands out
    becomes the next pair. */
module ProxyExposure {
  import opened Options
  import Core = ExposureCore
  import Exposures = ExposureThreads
  import Shutdown = ExposureShutdown
  import Connections = ExposureConnections
  import Pairs = ProxyPairs
  import Results = ProxyResults

  /** call is the Accept that the proxy loop is waiting for, if any. */
  datatype World = World(exposure: Exposures.World, proxy: Pairs.World, call: Option<nat>)

  datatype Action =
    | ExposureMoves(move: Exposures.Action)
    | ProxyMoves(step: Pairs.Action)
    | CallsAccept(id: nat)
    | AcceptReturns

  ghost predicate Init(w: World) {
    Exposures.Init(w.exposure) && Pairs.Init(w.proxy) && w.call.None?
  }

  predicate LoopAccepts(p: Pairs.World) {
    Pairs.ByMain in p.threads && p.threads[Pairs.ByMain] == Pairs.Calm(Pairs.Accepting)
  }

  ghost predicate Next(cfg: Exposures.Config, w: World, a: Action, w': World) {
    match a
    case ExposureMoves(step) =>
      // nobody else calls Accept
      && !(step.Spawn? && step.start.AcceptTop?)
      && w' == w.(exposure := w'.exposure)
      && Exposures.Next(cfg, w.exposure, step, w'.exposure)
    case ProxyMoves(step) =>
      && !(step == Pairs.Move(Pairs.ByMain) && LoopAccepts(w.proxy))
      && w' == w.(proxy := w'.proxy)
      && Pairs.Next(w.proxy, step, w'.proxy)
    case CallsAccept(id) =>
      && LoopAccepts(w.proxy) && w.call.None?
      && w' == w.(exposure := w'.exposure, call := Some(id))
      && Exposures.Next(cfg, w.exposure, Exposures.Spawn(id, Exposures.AcceptTop), w'.exposure)
    case AcceptReturns =>
      && w.call.Some? && w.call.value in w.exposure.callers && w.exposure.callers[w.call.value].Returned?
      && w' == w.(proxy := w'.proxy, call := None)
      && Receives(w.proxy, w.exposure.callers[w.call.value].outcome, w'.proxy)
  }

  /** The loop goes on with what Accept returned: a new pair for a connection, the end of the loop for an error. */
  ghost predicate Receives(p: Pairs.World, outcome: Exposures.Outcome, p': Pairs.World) {
    && Pairs.Next(p, Pairs.Move(Pairs.ByMain), p')
    && if outcome.GotConn? then |p'.pairs| == |p.pairs| + 1 && p'.pairs[|p.pairs|].tenant == outcome.conn
       else p' == Pairs.Set(p, Pairs.ByMain, Pairs.Calm(Pairs.MainSnapshot))
  }

  ghost predicate IsRun(cfg: Exposures.Config, ws: seq<World>, actions: seq<Action>) {
    && |ws| == |actions| + 1
    && Init(ws[0])
    && forall i | 0 <= i < |actions| :: Next(cfg, ws[i], actions[i], ws[i + 1])
  }

  // ----- the exposure's half is a run of the exposure

  lemma ReachedConns(cfg: Exposures.Config, e: Exposures.World)
    requires Exposures.ValidConfig(cfg) && Exposures.Reaches(cfg, e)
    ensures Connections.ConnInv(e)
  {
    var es, actions :| Exposures.IsRun(cfg, es, actions) && es[|es| - 1] == e;
    Connections.RunConns(cfg, es, actions, |es| - 1);
  }

  // ----- how the two halves are tied

  /** Inside Accept, with or without a connection in hand. */
  predicate InAccept(p: Exposures.CallerPc) {
    || p.AcceptTop? || p.AcceptSnap? || p.AcceptCheck? || p.AcceptCapture? || p.AcceptSnap2? || p.AcceptCheck2?
    || p.AcceptSelect? || p.AcceptExhausted? || p.HeldTop? || p.HeldSnap? || p.HeldCheck? || p.HeldDrop?
  }

  ghost function Tenants(p: Pairs.World): set<nat> {
    set j | 0 <= j < |p.pairs| :: p.pairs[j].tenant
  }

  /** A connection that Accept has returned and the loop has yet to wrap. */
  function InTransit(e: Exposures.World, call: Option<nat>): set<nat> {
    if call.Some? && call.value in e.callers && e.callers[call.value].Returned? && e.callers[call.value].outcome.GotConn?
    then {e.callers[call.value].outcome.conn} else {}
  }

  ghost predicate OnlyTheLoopAccepts(e: Exposures.World, call: Option<nat>) {
    && (forall id | id in e.callers && InAccept(e.callers[id]) :: call == Some(id))
    && (call.Some? ==> call.value in e.callers
                       && (InAccept(e.callers[call.value]) || e.callers[call.value].Returned?))
  }

  /** What the exposure has handed out is what the pairs own and what is on its way to them. */
  ghost predicate Linked(w: World) {
    && w.exposure.shared.conns.handed == Tenants(w.proxy) + InTransit(w.exposure, w.call)
    && Tenants(w.proxy) !! InTransit(w.exposure, w.call)
  }

  ghost predicate JointInv(cfg: Exposures.Config, w: World) {
    && Exposures.Reaches(cfg, w.exposure)
    && Pairs.ProxyInv(w.proxy)
    && OnlyTheLoopAccepts(w.exposure, w.call)
    && (w.call.Some? ==> LoopAccepts(w.proxy))
    && Linked(w)
  }

  // ----- what a step of the exposure hands out

  lemma SupHandsNothing(cfg: Exposures.Config, w: Exposures.World, url: string, w': Exposures.World)
    requires Exposures.Next(cfg, w, Exposures.SupMove(url), w')
    ensures w'.shared.conns.handed == w.shared.conns.handed
  {
    hide Exposures.PublishStep, Exposures.AfterFailure;
  }

  lemma DiscHandsNothing(cfg: Exposures.Config, w: Exposures.World, w': Exposures.World)
    requires Exposures.Next(cfg, w, Exposures.DiscMove, w')
    ensures w'.shared.conns.handed == w.shared.conns.handed
  {
    hide Exposures.PublishStep;
  }

  /** Only Accept hands out, and only the connection it holds at its last look. */
  ghost predicate Hands(g: Exposures.Shared, p: Exposures.CallerPc, g': Exposures.Shared, p': Exposures.CallerPc) {
    && !p.Returned?
    && (if p'.Returned? && p'.outcome.GotConn?
        then p.HeldCheck? && p'.outcome.conn == p.conn && g'.conns.handed == g.conns.handed + {p.conn}
        else g'.conns.handed == g.conns.handed)
    && (InAccept(p) ==> InAccept(p') || p'.Returned?)
    && (InAccept(p') ==> InAccept(p))
  }

  lemma AcceptHands(g: Exposures.Shared, p: Exposures.CallerPc, g': Exposures.Shared, p': Exposures.CallerPc)
    requires Exposures.AcceptStep(g, p, g', p')
    ensures Hands(g, p, g', p')
  {
    hide Core.AllFailed, Core.SignalIsClosed;
    if Connections.CallerHolds(p).None? && !p.AcceptSelect? {
      Connections.AcceptOnlyReads(g, p, g', p');
    }
  }

  lemma OthersHand(w: Exposures.World, id: nat, g': Exposures.Shared, p': Exposures.CallerPc)
    requires id in w.callers
    requires Exposures.WaitStep(w.shared, w.callers[id], g', p') || Exposures.CloseStep(w, id, g', p')
    ensures Hands(w.shared, w.callers[id], g', p')
  {
    hide Core.SomeReady, Core.AllFailed, Exposures.AllSupervisorsDone;
  }

  /** A step of the exposure that nobody takes in Accept. */
  lemma OtherHands(cfg: Exposures.Config, w: Exposures.World, a: Exposures.Action, w': Exposures.World)
    requires Exposures.Next(cfg, w, a, w') && !a.CallerMove?
    ensures w'.shared.conns.handed == w.shared.conns.handed
    ensures if a.Spawn? then a.id !in w.callers && w'.callers == w.callers[a.id := a.start] else w'.callers == w.callers
  {
    match a
    case SupMove(url) => SupHandsNothing(cfg, w, url, w');
    case DiscMove => DiscHandsNothing(cfg, w, w');
    case _ => hide Exposures.PublishStep;
  }

  lemma ExposureKeepsLink(cfg: Exposures.Config, w: World, a: Exposures.Action, w': World)
    requires Exposures.ValidConfig(cfg) && JointInv(cfg, w)
    requires Exposures.Next(cfg, w.exposure, a, w'.exposure) && w' == w.(exposure := w'.exposure)
    requires !(a.Spawn? && a.start.AcceptTop?)
    ensures OnlyTheLoopAccepts(w'.exposure, w'.call) && Linked(w')
  {
    hide Exposures.Reaches, Pairs.ProxyInv;
    if a.CallerMove? {
      CallerKeepsLink(cfg, w, a.id, w');
    } else {
      OtherHands(cfg, w.exposure, a, w'.exposure);
      assert a.Spawn? ==> a.start.WaitTop? || a.start.CloseCall?;
      assert InTransit(w'.exposure, w'.call) == InTransit(w.exposure, w.call);
    }
  }

  lemma CallerKeepsLink(cfg: Exposures.Config, w: World, id: nat, w': World)
    requires Exposures.ValidConfig(cfg) && JointInv(cfg, w)
    requires Exposures.Next(cfg, w.exposure, Exposures.CallerMove(id), w'.exposure) && w' == w.(exposure := w'.exposure)
    ensures OnlyTheLoopAccepts(w'.exposure, w'.call) && Linked(w')
  {
    var e, e' := w.exposure, w'.exposure;
    if Exposures.AcceptStep(e.shared, e.callers[id], e'.shared, e'.callers[id]) {
      AcceptHands(e.shared, e.callers[id], e'.shared, e'.callers[id]);
    } else {
      OthersHand(e, id, e'.shared, e'.callers[id]);
    }
    ReachedConns(cfg, e);
    if e.callers[id].HeldCheck? {
      assert Connections.Held(e, Connections.ByCaller(id)) == Some(e.callers[id].conn);
      assert Connections.HeldApart(e.shared.conns, e.callers[id].conn);
    }
    hide Exposures.Reaches, Pairs.ProxyInv, Connections.ConnInv, Exposures.AcceptStep, Exposures.WaitStep, Exposures.CloseStep;
  }

  // ----- what a step of the proxy wraps

  ghost predicate TenantsStay(p: Pairs.World, p': Pairs.World) {
    && |p'.pairs| == |p.pairs|
    && (forall j | 0 <= j < |p.pairs| :: p'.pairs[j].tenant == p.pairs[j].tenant)
    && (LoopAccepts(p) ==> LoopAccepts(p'))
  }

  lemma CloseKeepsTenants(p: Pairs.World, who: Pairs.Who, p': Pairs.World)
    requires who in p.threads && p.threads[who].closing.At? && Pairs.CloseStep(p, who, p.threads[who], p')
    ensures TenantsStay(p, p')
  {
  }

  lemma RunnerKeepsTenants(p: Pairs.World, who: Pairs.Who, p': Pairs.World)
    requires who in p.threads && p.threads[who].closing.NotClosing?
    requires || (who == Pairs.ByMain && Pairs.MainStep(p, p.threads[who].pc, p') && !p.threads[who].pc.Accepting?)
             || (who == Pairs.ByHook && Pairs.HookStep(p, p.threads[who].pc, p'))
    ensures TenantsStay(p, p')
  {
  }

  lemma ConnKeepsTenants(p: Pairs.World, who: Pairs.Who, p': Pairs.World)
    requires who in p.threads && (who.ByConn? || who.ByCopier?) && who.pair < |p.pairs|
    requires if who.ByConn? then Pairs.ConnStep(p, who.pair, p.threads[who].pc, p')
             else Pairs.CopierStep(p, who, who.pair, p.threads[who].pc, p')
    ensures TenantsStay(p, p')
  {
  }

  lemma ProxyKeepsTenants(p: Pairs.World, a: Pairs.Action, p': Pairs.World)
    requires Pairs.ProxyInv(p) && Pairs.Next(p, a, p') && !(a == Pairs.Move(Pairs.ByMain) && LoopAccepts(p))
    ensures TenantsStay(p, p')
  {
    if a.Move? {
      var who := a.who;
      assert who.ByConn? || who.ByCopier? ==> who.pair < |p.pairs| by {
        assert Pairs.ThreadOk(p, who);
      }
      if p.threads[who].closing.At? {
        CloseKeepsTenants(p, who, p');
      } else if who == Pairs.ByMain || who == Pairs.ByHook {
        RunnerKeepsTenants(p, who, p');
      } else {
        ConnKeepsTenants(p, who, p');
      }
    }
    hide Pairs.ProxyInv, Pairs.CloseStep, Pairs.MainStep, Pairs.HookStep, Pairs.ConnStep, Pairs.CopierStep;
  }

  lemma LoopReceives(p: Pairs.World, outcome: Exposures.Outcome, p': Pairs.World)
    requires LoopAccepts(p) && Receives(p, outcome, p')
    ensures Tenants(p') == Tenants(p) + (if outcome.GotConn? then {outcome.conn} else {})
  {
    if outcome.GotConn? {
      assert p'.pairs[..|p.pairs|] == p.pairs;
      assert forall j | 0 <= j < |p.pairs| :: p'.pairs[j] == p'.pairs[..|p.pairs|][j];
    }
  }

  lemma NextJoint(cfg: Exposures.Config, w: World, a: Action, w': World)
    requires Exposures.ValidConfig(cfg) && JointInv(cfg, w) && Next(cfg, w, a, w')
    ensures JointInv(cfg, w')
  {
    hide Exposures.Reaches, Pairs.ProxyInv;
    match a
    case ExposureMoves(step) =>
      Exposures.ReachesNext(cfg, w.exposure, step, w'.exposure);
      ExposureKeepsLink(cfg, w, step, w');
    case CallsAccept(id) =>
      Exposures.ReachesNext(cfg, w.exposure, Exposures.Spawn(id, Exposures.AcceptTop), w'.exposure);
    case ProxyMoves(step) =>
      Pairs.NextProxy(w.proxy, step, w'.proxy);
      ProxyKeepsTenants(w.proxy, step, w'.proxy);
      SameTenants(w.proxy, w'.proxy);
    case AcceptReturns =>
      Pairs.NextProxy(w.proxy, Pairs.Move(Pairs.ByMain), w'.proxy);
      LoopReceives(w.proxy, w.exposure.callers[w.call.value].outcome, w'.proxy);
  }

  lemma SameTenants(p: Pairs.World, p': Pairs.World)
    requires |p'.pairs| == |p.pairs| && forall j | 0 <= j < |p.pairs| :: p'.pairs[j].tenant == p.pairs[j].tenant
    ensures Tenants(p') == Tenants(p)
  {
    forall c ensures c in Tenants(p') <==> c in Tenants(p) {
      if j :| 0 <= j < |p.pairs| && p.pairs[j].tenant == c {
        assert p'.pairs[j].tenant == c;
      }
    }
  }

  lemma {:induction false} RunJoint(cfg: Exposures.Config, ws: seq<World>, actions: seq<Action>, i: nat)
    requires Exposures.ValidConfig(cfg) && IsRun(cfg, ws, actions) && i < |ws|
    ensures JointInv(cfg, ws[i])
  {
    if i > 0 {
      RunJoint(cfg, ws, actions, i - 1);
      NextJoint(cfg, ws[i - 1], actions[i - 1], ws[i]);
      hide JointInv, Next;
    } else {
      Exposures.ReachesStart(cfg, ws[0].exposure);
    }
  }

  // ----- main result

  /** The proxy's context was cancelled while its loop was still at work. */
  ghost predicate CancelledBeforeReturn(ws: seq<World>, i: nat) {
    exists k: nat :: k <= i && k < |ws| && ws[k].proxy.ctxDone && !Results.HasReturned(ws[k].proxy)
  }

  lemma {:induction false} RunQuiet(cfg: Exposures.Config, ws: seq<World>, actions: seq<Action>, i: nat)
    requires Exposures.ValidConfig(cfg) && IsRun(cfg, ws, actions) && i < |ws| && !CancelledBeforeReturn(ws, i)
    ensures Results.HookQuiet(ws[i].proxy)
  {
    if i > 0 {
      hide Next, JointInv, Results.HookQuiet;
      assert !CancelledBeforeReturn(ws, i - 1);
      RunQuiet(cfg, ws, actions, i - 1);
      RunJoint(cfg, ws, actions, i - 1);
      NextQuiet(cfg, ws[i - 1], actions[i - 1], ws[i]);
    }
  }

  lemma NextQuiet(cfg: Exposures.Config, w: World, a: Action, w': World)
    requires JointInv(cfg, w) && Next(cfg, w, a, w') && Results.HookQuiet(w.proxy)
    requires w.proxy.ctxDone ==> Results.HasReturned(w.proxy)
    ensures Results.HookQuiet(w'.proxy)
  {
    hide Pairs.ProxyInv, Pairs.Next, Exposures.Next, Results.HookQuiet, Exposures.Reaches;
    match a
    case ProxyMoves(step) => Results.HookStaysQuiet(w.proxy, step, w'.proxy);
    case AcceptReturns => Results.HookStaysQuiet(w.proxy, Pairs.Move(Pairs.ByMain), w'.proxy);
    case _ =>
  }

  /** Once Close and the proxy loop have returned, and the context was not cancelled while the loop was at work, each
      connection that a relay ever offered has been closed: by the exposure or, once, by the one pair that owned it,
      together with the local connection dialled for it, if any. */
  lemma EveryOfferedConnectionIsClosed(
      cfg: Exposures.Config, ws: seq<World>, actions: seq<Action>, i: nat, id: nat, conn: nat)
    requires Exposures.ValidConfig(cfg) && IsRun(cfg, ws, actions) && i < |ws|
    requires id in ws[i].exposure.callers && ws[i].exposure.callers[id].CloseReturned?
    requires Results.HasReturned(ws[i].proxy) && !CancelledBeforeReturn(ws, i)
    requires conn in ws[i].exposure.shared.conns.offered
    ensures var e, p := ws[i].exposure, ws[i].proxy;
            if conn in e.shared.conns.closed then forall j | 0 <= j < |p.pairs| :: p.pairs[j].tenant != conn
            else exists j: nat | j < |p.pairs| ::
                   && p.pairs[j].tenant == conn && p.shut[Pairs.Tenant(j)] == 1
                   && (p.pairs[j].dialed ==> p.shut[Pairs.Local(j)] == 1)
                   && forall k | 0 <= k < |p.pairs| && p.pairs[k].tenant == conn :: k == j
  {
    RunJoint(cfg, ws, actions, i);
    RunQuiet(cfg, ws, actions, i);
    var e, p := ws[i].exposure, ws[i].proxy;
    Results.QuietHookLeavesNothing(p);
    NothingLeft(cfg, e, id);
    assert ws[i].call.None? && Pairs.TenantsDiffer(p.pairs);
    hide Exposures.Reaches, Pairs.ProxyInv, Results.HookQuiet, IsRun;
    if conn !in e.shared.conns.closed {
      assert conn in Tenants(p);
      var j: nat :| j < |p.pairs| && p.pairs[j].tenant == conn;
      assert Results.Opened(p, Pairs.Tenant(j)) && (p.pairs[j].dialed ==> Results.Opened(p, Pairs.Local(j)));
    } else {
      forall j | 0 <= j < |p.pairs| ensures p.pairs[j].tenant != conn {
        assert p.pairs[j].tenant in Tenants(p);
      }
    }
  }

  lemma NothingLeft(cfg: Exposures.Config, e: Exposures.World, id: nat)
    requires Exposures.ValidConfig(cfg) && Exposures.Reaches(cfg, e)
    requires id in e.callers && e.callers[id].CloseReturned?
    requires forall other | other in e.callers :: !InAccept(e.callers[other])
    ensures e.shared.conns.offered == e.shared.conns.handed + e.shared.conns.closed
    ensures e.shared.conns.handed !! e.shared.conns.closed
  {
    var es, actions :| Exposures.IsRun(cfg, es, actions) && es[|es| - 1] == e;
    ReachedConns(cfg, e);
    assert e.shared.conns.handed !! e.shared.conns.closed;
    CloseHasDrained(cfg, es, actions, |es| - 1, id);
    hide Exposures.IsRun, Connections.ConnInv;
    Connections.NothingLeftAfterClose(cfg, es, actions, |es| - 1, id);
  }

  lemma DrainIsPhaseFive(w: Exposures.World, id: nat)
    requires Shutdown.ShutdownInv(w) && id in w.callers
    ensures w.callers[id].CloseDrain? ==> Shutdown.PhaseOf(w) == 5
  {
    assert w.callers[id].CloseDrain? ==> Shutdown.Depth(w.callers[id]) == 5;
  }

  /** After a Close has returned, no caller of Close is still draining. */
  lemma CloseHasDrained(cfg: Exposures.Config, es: seq<Exposures.World>, actions: seq<Exposures.Action>, i: nat, id: nat)
    requires Exposures.ValidConfig(cfg) && Exposures.IsRun(cfg, es, actions) && i < |es|
    requires id in es[i].callers && es[i].callers[id].CloseReturned?
    ensures forall other | other in es[i].callers :: !es[i].callers[other].CloseDrain?
  {
    Shutdown.RunShutdown(cfg, es, actions, i);
    assert Shutdown.PhaseOf(es[i]) >= 7;
    forall other | other in es[i].callers ensures !es[i].callers[other].CloseDrain? {
      DrainIsPhaseFive(es[i], other);
    }
    hide Shutdown.ShutdownInv, Shutdown.Phase;
  }
}
