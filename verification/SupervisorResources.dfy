/** What a supervisor acquires it gives back: leases, tokens and tenant terminators over every run. */
module SupervisorResources {
  import opened Options
  import opened RelayErrors
  import opened LeaseCell
  import opened LeaseVerdict
  import opened Supervisor
  import opened SupervisorLease

  /** The terminator that is built and not yet closed. */
  function HeldTenant(o: Owned, m: MainPc): Option<nat> {
    match m
    case Install(_, _, _, tenantId) => Some(tenantId)
    case DiscardClose(released) => released
    case EndClose(_, released) => released
    case _ => o.cell.lease.tenant
  }

  ghost predicate TenantsOk(h: History, held: Option<nat>) {
    && (held.Some? ==> held.value < h.built)
    && forall t: nat :: h.closes[t] == if t < h.built && held != Some(t) then 1 else 0
  }

  predicate NeedsClient(m: MainPc) {
    !m.Top? && !m.Bootstrap? && !m.InitFailed? && !m.InitWait?
    && !m.EndToken? && !m.EndClear? && !m.EndClose? && !m.EndReset? && !m.Ended?
  }

  predicate ClientOk(o: Owned, m: MainPc) {
    (Live(o) || NeedsClient(m) ==> o.client) && (m.Ended? ==> !o.client)
  }

  /** The last lease is current while it is installed, until shutdown has asked to unregister it. */
  predicate LeasesOk(o: Owned, m: MainPc) {
    var leases := o.history.leases;
    && (forall i | 0 <= i < |leases| - 1 :: leases[i].fate != Current)
    && (Live(o) ==> leases != [] && leases[|leases| - 1].latest == o.cell.lease.token)
    && (leases != [] ==> (leases[|leases| - 1].fate == Current <==> Live(o) && !m.EndClear?))
    && (m.EndClear? && Live(o) ==> leases[|leases| - 1].fate == Unregistered)
  }

  /** The deferred unregister of the newest refused token is still to come. */
  predicate OwesRejected(m: MainPc) { m.Reject? && m.token != "" }

  /** The unregister requests made by now. */
  predicate Requested(h: History, m: MainPc, a: Attempt) {
    match a.reason
    case ForRejected(i) => i < |h.rejected| && a.token == h.rejected[i] && !(OwesRejected(m) && i == |h.rejected| - 1)
    case ForUnusable(i) => i < |h.unusable| && a.token == h.unusable[i] && !(m.Unusable? && i == |h.unusable| - 1)
    case ForLease(i) => i < |h.leases| && a.token == h.leases[i].latest && h.leases[i].fate == Unregistered
  }

  ghost predicate AttemptsOk(h: History, m: MainPc) {
    && (OwesRejected(m) ==> h.rejected != [] && h.rejected[|h.rejected| - 1] == m.token)
    && (m.Unusable? ==> h.unusable != [] && h.unusable[|h.unusable| - 1] == m.token)
    && forall a :: h.attempts[a] == if Requested(h, m, a) then 1 else 0
  }

  ghost predicate ResourceInv(o: Owned, m: MainPc) {
    && ClientOk(o, m)
    && TenantsOk(o.history, HeldTenant(o, m))
    && LeasesOk(o, m)
    && AttemptsOk(o.history, m)
  }

  /** Steps of the supervisor that leave the history alone. */
  predicate SameDebts(m: MainPc, m': MainPc) {
    !m.Unusable? && !m.Reject? && !m'.Unusable? && !m'.Reject?
  }

  // ----- one lemma for each part of the history and each group of steps

  lemma RegisterTenants(ctxDone: bool, o: Owned, m: MainPc, o': Owned, m': MainPc)
    requires CellOk(o) && MainOk(o, m) && RegisterStep(ctxDone, o, m, o', m')
    requires TenantsOk(o.history, HeldTenant(o, m))
    ensures TenantsOk(o'.history, HeldTenant(o', m'))
  {
    hide Unregister, Has, TerminalRelay, Leave;
    UnregisterKeeps(o.client, o.history);
  }

  lemma UnregisterKeeps(client: bool, h: History)
    ensures forall token, reason :: Unregister(client, h, token, reason) == h.(attempts := Unregister(client, h, token, reason).attempts)
  {
  }

  lemma ControlTenants(ctxDone: bool, o: Owned, m: MainPc, o': Owned, m': MainPc)
    requires CellOk(o) && MainOk(o, m) && TenantsOk(o.history, HeldTenant(o, m))
    requires ControlStep(ctxDone, o, m, o', m') || EndStep(o, m, o', m')
    ensures TenantsOk(o'.history, HeldTenant(o', m'))
  {
    hide Unregister, Has, Classify, Leave;
    UnregisterKeeps(o.client, o.history);
  }

  lemma RegisterLeases(ctxDone: bool, o: Owned, m: MainPc, o': Owned, m': MainPc)
    requires CellOk(o) && MainOk(o, m) && RegisterStep(ctxDone, o, m, o', m')
    requires LeasesOk(o, m)
    ensures LeasesOk(o', m')
  {
    hide Unregister, Has, TerminalRelay, Leave;
    UnregisterKeeps(o.client, o.history);
  }

  lemma ControlLeases(ctxDone: bool, o: Owned, m: MainPc, o': Owned, m': MainPc)
    requires CellOk(o) && MainOk(o, m) && LeasesOk(o, m)
    requires ControlStep(ctxDone, o, m, o', m') || EndStep(o, m, o', m')
    ensures LeasesOk(o', m')
  {
    hide Unregister, Has, Classify, Leave;
    UnregisterKeeps(o.client, o.history);
  }

  lemma RegisterClient(ctxDone: bool, o: Owned, m: MainPc, o': Owned, m': MainPc)
    requires ClientOk(o, m) && RegisterStep(ctxDone, o, m, o', m')
    ensures ClientOk(o', m')
  {
    hide Unregister, Has, TerminalRelay, UnwrapTerminal;
  }

  lemma ControlClient(ctxDone: bool, o: Owned, m: MainPc, o': Owned, m': MainPc)
    requires CellOk(o) && MainOk(o, m) && ClientOk(o, m)
    requires ControlStep(ctxDone, o, m, o', m') || EndStep(o, m, o', m')
    ensures ClientOk(o', m')
  {
    hide Unregister, Has, Classify, UnwrapTerminal, SetFate, CloseTenant;
  }

  /** A step that neither records a token nor makes a request. */
  predicate SameRecords(h: History, h': History) {
    h' == h.(built := h'.built, closes := h'.closes)
  }

  lemma QuietRegister(ctxDone: bool, o: Owned, m: MainPc, o': Owned, m': MainPc)
    requires RegisterStep(ctxDone, o, m, o', m')
    requires m.Challenge? || m.RegisterWait? || m.RegisterFailed? || m.TakeGen?
    ensures SameRecords(o.history, o'.history) && SameDebts(m, m')
  {
    hide Has, Leave;
  }

  lemma QuietControl(ctxDone: bool, o: Owned, m: MainPc, o': Owned, m': MainPc)
    requires ControlStep(ctxDone, o, m, o', m') || EndStep(o, m, o', m')
    requires !m.Discard? && !m.EndToken?
    ensures SameRecords(o.history, o'.history) && SameDebts(m, m')
  {
    hide Has, Classify, Leave, Unregister, SetFate;
  }

  lemma QuietAttempts(h: History, m: MainPc, h': History, m': MainPc)
    requires AttemptsOk(h, m) && SameRecords(h, h') && SameDebts(m, m')
    ensures AttemptsOk(h', m')
  {
    assert forall a :: Requested(h', m', a) == Requested(h, m, a);
  }

  /** Recording a refused token or a new lease. */
  lemma RecordAttempts(ctxDone: bool, o: Owned, m: MainPc, o': Owned, m': MainPc)
    requires MainOk(o, m) && AttemptsOk(o.history, m) && RegisterStep(ctxDone, o, m, o', m')
    requires m.Submit? || m.BuildTenant? || m.Install?
    ensures AttemptsOk(o'.history, m')
  {
    hide Has, TerminalRelay;
    assert forall a :: Requested(o'.history, m', a) == Requested(o.history, m, a);
  }

  /** Making the request owed for a refused token. */
  lemma PayAttempts(ctxDone: bool, o: Owned, m: MainPc, o': Owned, m': MainPc)
    requires MainOk(o, m) && ClientOk(o, m) && AttemptsOk(o.history, m) && RegisterStep(ctxDone, o, m, o', m')
    requires m.Reject? || m.Unusable?
    ensures AttemptsOk(o'.history, m')
  {
    hide Has, TerminalRelay;
    var h, h' := o.history, o'.history;
    forall a ensures h'.attempts[a] == if Requested(h', m', a) then 1 else 0 {
      assert h.attempts[a] == if Requested(h, m, a) then 1 else 0;
    }
  }

  /** Giving up the lease, or asking to unregister it. */
  lemma LeaseAttempts(ctxDone: bool, o: Owned, m: MainPc, o': Owned, m': MainPc)
    requires MainOk(o, m) && LeasesOk(o, m) && ClientOk(o, m) && AttemptsOk(o.history, m)
    requires ControlStep(ctxDone, o, m, o', m') || EndStep(o, m, o', m')
    requires m.Discard? || m.EndToken?
    ensures AttemptsOk(o'.history, m')
  {
    hide Has;
    var h, h' := o.history, o'.history;
    forall a ensures h'.attempts[a] == if Requested(h', m', a) then 1 else 0 {
      assert h.attempts[a] == if Requested(h, m, a) then 1 else 0;
    }
  }

  lemma MainAttempts(ctxDone: bool, o: Owned, m: MainPc, o': Owned, m': MainPc)
    requires MainOk(o, m) && LeasesOk(o, m) && ClientOk(o, m) && AttemptsOk(o.history, m)
    requires MainStep(ctxDone, o, m, o', m')
    ensures AttemptsOk(o'.history, m')
  {
    if m.Submit? || m.BuildTenant? || m.Install? {
      RecordAttempts(ctxDone, o, m, o', m');
    } else if m.Reject? || m.Unusable? {
      PayAttempts(ctxDone, o, m, o', m');
    } else if m.Discard? || m.EndToken? {
      LeaseAttempts(ctxDone, o, m, o', m');
    } else {
      if RegisterStep(ctxDone, o, m, o', m') {
        QuietRegister(ctxDone, o, m, o', m');
      } else {
        QuietControl(ctxDone, o, m, o', m');
      }
      QuietAttempts(o.history, m, o'.history, m');
    }
    hide AttemptsOk, MainOk, LeasesOk, ClientOk;
  }

  lemma MainKeepsResources(ctxDone: bool, o: Owned, m: MainPc, o': Owned, m': MainPc)
    requires CellOk(o) && MainOk(o, m) && ResourceInv(o, m) && MainStep(ctxDone, o, m, o', m')
    ensures ResourceInv(o', m')
  {
    MainAttempts(ctxDone, o, m, o', m');
    if RegisterStep(ctxDone, o, m, o', m') {
      RegisterTenants(ctxDone, o, m, o', m');
      RegisterLeases(ctxDone, o, m, o', m');
      RegisterClient(ctxDone, o, m, o', m');
    } else {
      ControlTenants(ctxDone, o, m, o', m');
      ControlLeases(ctxDone, o, m, o', m');
      ControlClient(ctxDone, o, m, o', m');
    }
    hide RegisterStep, ControlStep, EndStep, CellOk, MainOk, TenantsOk, LeasesOk, AttemptsOk, ClientOk, HeldTenant;
  }

  /** A renewal rewrites the latest token of the current lease and nothing else. */
  lemma WorkerKeepsResources(ctxErr: bool, o: Owned, p: WorkerPc, o': Owned, p': WorkerPc, m: MainPc)
    requires CellOk(o) && Live(o) && ResourceInv(o, m) && WorkerOk(o, p) && WorkerStep(ctxErr, o, p, o', p')
    requires m.Running? || m.Joining?
    ensures ResourceInv(o', m)
  {
    if p.RenewBegin? || p.RenewFailed? || p.RenewInstall? {
      hide Has, Classify;
      forall a ensures o'.history.attempts[a] == if Requested(o'.history, m, a) then 1 else 0 {
        assert o.history.attempts[a] == if Requested(o.history, m, a) then 1 else 0;
      }
    } else {
      hide QuietStep, CellOk, WorkerOk;
    }
  }

  lemma JoinKeepsResources(udp: bool, s: State, s': State)
    requires ResourceInv(s.own, s.main) && JoinStep(udp, s, s')
    ensures ResourceInv(s'.own, s'.main)
  {
    QuietAttempts(s.own.history, s.main, s'.own.history, s'.main);
    hide Joins, AllFinished, Has, TenantsOk, AttemptsOk, Requested, UnwrapTerminal;
  }

  lemma NextResources(udp: bool, s: State, a: Action, s': State)
    requires LeaseInv(s) && ResourceInv(s.own, s.main) && Next(udp, s, a, s')
    ensures ResourceInv(s'.own, s'.main)
  {
    match a
    case CancelParent =>
    case WorkerMove(id) =>
      WorkerKeepsResources(s.ctxDone || s.leaseDone, s.own, s.workers[id], s'.own, s'.workers[id], s.main);
      hide WorkerStep, ResourceInv, CellOk, WorkerOk;
    case MainMove =>
      if s.main.StartWorkers? || s.main.Running? || s.main.Joining? {
        JoinKeepsResources(udp, s, s');
        hide JoinStep, ResourceInv;
      } else {
        MainKeepsResources(s.ctxDone, s.own, s.main, s'.own, s'.main);
        hide MainStep, ResourceInv, CellOk, MainOk, WorkerOk;
      }
  }

  lemma {:induction false} RunResourceInv(udp: bool, ss: seq<State>, actions: seq<Action>, i: nat)
    requires IsRun(udp, ss, actions) && i < |ss|
    ensures LeaseInv(ss[i]) && ResourceInv(ss[i].own, ss[i].main)
  {
    RunLeaseInv(udp, ss, actions, i);
    if i > 0 {
      RunResourceInv(udp, ss, actions, i - 1);
      NextResources(udp, ss[i - 1], actions[i - 1], ss[i]);
      hide LeaseInv, ResourceInv, Next;
    }
  }

  // ----- main results

  /** Installing a lease never overwrites a live one, and a live lease always has a control client, so that its
      unregister request can be made. */
  lemma InstallNeverOverwrites(udp: bool, ss: seq<State>, actions: seq<Action>, i: nat)
    requires IsRun(udp, ss, actions) && i < |ss|
    ensures ss[i].main.Install? ==> ss[i].own.cell.lease == NO_LEASE
    ensures Live(ss[i].own) ==> ss[i].own.client
  {
    RunResourceInv(udp, ss, actions, i);
  }

  /** At every moment each terminator built is either closed, exactly once, or the one that is held. */
  lemma TenantsAreConserved(udp: bool, ss: seq<State>, actions: seq<Action>, i: nat, t: nat)
    requires IsRun(udp, ss, actions) && i < |ss| && t < ss[i].own.history.built
    ensures ss[i].own.history.closes[t] == if HeldTenant(ss[i].own, ss[i].main) == Some(t) then 0 else 1
  {
    RunResourceInv(udp, ss, actions, i);
  }

  /** The balance at the end of run: every terminator is closed exactly once; every registered lease was either
      discarded as lost, with no unregister request, or drew exactly one request carrying its latest token; every
      non-empty token of a rejected registration, or of one whose terminator could not be built, drew exactly one of
      its own; and no other request was made. */
  lemma EverythingIsGivenBack(udp: bool, ss: seq<State>, actions: seq<Action>, i: nat)
    requires IsRun(udp, ss, actions) && i < |ss| && ss[i].main.Ended?
    ensures var h := ss[i].own.history;
            && !Live(ss[i].own) && !ss[i].own.client
            && (forall t: nat :: h.closes[t] == if t < h.built then 1 else 0)
            && (forall n | 0 <= n < |h.leases| :: h.leases[n].fate != Current)
            && (forall n: nat, token ::
                  h.attempts[Attempt(token, ForLease(n))] ==
                  if n < |h.leases| && h.leases[n].fate == Unregistered && token == h.leases[n].latest then 1 else 0)
            && (forall n: nat, token ::
                  h.attempts[Attempt(token, ForRejected(n))] == if n < |h.rejected| && token == h.rejected[n] then 1 else 0)
            && (forall n: nat, token ::
                  h.attempts[Attempt(token, ForUnusable(n))] == if n < |h.unusable| && token == h.unusable[n] then 1 else 0)
  {
    RunResourceInv(udp, ss, actions, i);
    var o, m := ss[i].own, ss[i].main;
    assert forall a :: o.history.attempts[a] == if Requested(o.history, m, a) then 1 else 0;
  }
}
