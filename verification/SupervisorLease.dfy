/** The lease and what its workers have captured of it, over every run of a supervisor. */
module SupervisorLease {
  import opened RelayErrors
  import opened LeaseCell
  import opened LeaseVerdict
  import opened Supervisor

  predicate Live(o: Owned) { o.cell.lease.token != "" }

  /** Program points with a lease installed. */
  predicate LeaseHeld(m: MainPc) {
    m.StartWorkers? || m.Running? || m.Joining? || m.Discard?
  }

  predicate MayHoldLease(m: MainPc) { LeaseHeld(m) || m.EndToken? || m.EndClear? }

  ghost predicate CellOk(o: Owned) {
    && (forall g | g in o.issued :: 1 <= g <= o.cell.nextGeneration)
    && (if Live(o)
        then o.cell.lease.generation in o.issued
             && o.issued[o.cell.lease.generation] == Issue(o.cell.lease.token, o.cell.lease.capability)
             && o.cell.lease.tenant.Some?
        else o.cell.lease == NO_LEASE)
  }

  ghost predicate MainOk(o: Owned, m: MainPc) {
    && (Live(o) ==> MayHoldLease(m))
    && (LeaseHeld(m) ==> Live(o))
    && (m.BuildTenant? || m.Install? ==> m.generation == o.cell.nextGeneration && m.generation !in o.issued && m.generation >= 1)
    && (m.TakeGen? || m.BuildTenant? || m.Install? || m.Unusable? ==> m.token != "")
  }

  /** This generation was installed with this token, or with this capability. */
  ghost predicate WasToken(o: Owned, g: nat, token: string) {
    g in o.issued && o.issued[g].token == token
  }

  ghost predicate WasCapability(o: Owned, g: nat, capability: string) {
    g in o.issued && o.issued[g].capability == capability
  }

  /** The signer's token was installed at some moment since the handshake noted its generation. */
  ghost predicate SentSince(o: Owned, g: nat, token: string) {
    exists later :: g <= later <= o.cell.lease.generation && WasToken(o, later, token)
  }

  /** What a worker's captured values are worth. */
  ghost predicate WorkerOk(o: Owned, p: WorkerPc) {
    match p
    case SlotOpening(capability, g) => WasCapability(o, g, capability)
    case SlotFailed(e) =>
      e == LeaseRefresh || (if e.ReverseUpgrade? then WasCapability(o, e.generation, e.capability) else !Has(e, IsApi))
    case SlotTest(e) => e.ReverseUpgrade? && WasCapability(o, e.generation, e.capability)
    case SlotHandshake(g, _, sent) => g <= o.cell.lease.generation && (sent.Some? ==> SentSince(o, g, sent.value))
    case HandshakeFailed(g, _) => g <= o.cell.lease.generation
    case SignerFailed(g, _, _) => g <= o.cell.lease.generation
    case SignerTest(g, _, _) => g <= o.cell.lease.generation
    case RenewSleep(token, g) => WasToken(o, g, token)
    case RenewBegin(token, g) => WasToken(o, g, token)
    case RenewCall(token, g) => WasToken(o, g, token)
    case RenewInstall(token, g, newToken, _) => WasToken(o, g, token) && newToken != ""
    case DatagramDial(token, g) => WasToken(o, g, token)
    case DatagramTest(token, g) => WasToken(o, g, token)
    case _ => true
  }

  ghost predicate LeaseInv(s: State) {
    && CellOk(s.own)
    && MainOk(s.own, s.main)
    && (s.workers != map[] ==> s.main.Running? || s.main.Joining?)
    && forall id | id in s.workers :: WorkerOk(s.own, s.workers[id])
  }

  /** While workers run, the lease only moves forward: its generation grows and no issue is rewritten. */
  ghost predicate Forward(o: Owned, o': Owned) {
    && o.cell.lease.generation <= o'.cell.lease.generation
    && o.cell.nextGeneration <= o'.cell.nextGeneration
    && (forall g | g in o.issued :: g in o'.issued && o'.issued[g] == o.issued[g])
    && (forall g | g in o'.issued && g !in o.issued :: o.cell.nextGeneration < g == o'.cell.lease.generation)
    && o'.client == o.client
  }

  lemma ForwardKeeps(o: Owned, p: WorkerPc, o': Owned)
    requires WorkerOk(o, p) && Forward(o, o')
    ensures WorkerOk(o', p)
  {
    if p.SlotHandshake? && p.sent.Some? {
      SentKeeps(o, p.generation, p.sent.value, o');
    }
    hide SentSince, Has;
  }

  lemma SentKeeps(o: Owned, g: nat, token: string, o': Owned)
    requires SentSince(o, g, token) && Forward(o, o')
    ensures SentSince(o', g, token)
  {
    var later :| g <= later <= o.cell.lease.generation && WasToken(o, later, token);
    assert WasToken(o', later, token);
  }

  // ----- worker steps

  lemma RenewMoves(o: Owned, p: WorkerPc, o': Owned, p': WorkerPc)
    requires CellOk(o) && Live(o) && WorkerOk(o, p) && RenewStep(o, p, o', p')
    ensures CellOk(o') && Live(o') && Forward(o, o') && WorkerOk(o', p')
  {
    hide Classify, Latest;
  }

  lemma QuietMoves(ctxErr: bool, o: Owned, p: WorkerPc, p': WorkerPc)
    requires CellOk(o) && Live(o) && WorkerOk(o, p) && QuietStep(ctxErr, o.cell, p, p')
    ensures WorkerOk(o, p')
  {
    hide Classify, IsStop, Has, IsLostLease;
  }

  lemma SignMoves(ctxErr: bool, o: Owned, p: WorkerPc, o': Owned, p': WorkerPc)
    requires CellOk(o) && Live(o) && WorkerOk(o, p) && SignStep(ctxErr, o, p, o', p')
    ensures CellOk(o') && Live(o') && Forward(o, o') && WorkerOk(o', p') && o' == o.(errs := o'.errs)
  {
    if p.SlotHandshake? && p'.SlotHandshake? {
      assert WasToken(o, o.cell.lease.generation, o.cell.lease.token);
    }
    hide Reply;
  }

  lemma WorkerMoves(ctxErr: bool, o: Owned, p: WorkerPc, o': Owned, p': WorkerPc)
    requires CellOk(o) && Live(o) && WorkerOk(o, p) && WorkerStep(ctxErr, o, p, o', p')
    ensures CellOk(o') && Live(o') && Forward(o, o') && WorkerOk(o', p')
  {
    if p.RenewBegin? || p.RenewFailed? || p.RenewInstall? {
      RenewMoves(o, p, o', p');
    } else if p.SlotHandshake? || p.HandshakeFailed? {
      SignMoves(ctxErr, o, p, o', p');
    } else {
      QuietMoves(ctxErr, o, p, p');
    }
    hide CellOk, WorkerOk, RenewStep, SignStep, QuietStep;
  }

  lemma WorkerKeepsLease(udp: bool, s: State, id: nat, s': State)
    requires LeaseInv(s) && Next(udp, s, WorkerMove(id), s')
    ensures LeaseInv(s')
  {
    WorkerMoves(s.ctxDone || s.leaseDone, s.own, s.workers[id], s'.own, s'.workers[id]);
    assert s.main.Running? || s.main.Joining?;
    forall other | other in s'.workers ensures WorkerOk(s'.own, s'.workers[other]) {
      if other != id {
        ForwardKeeps(s.own, s.workers[other], s'.own);
      }
    }
    hide WorkerStep, WorkerOk, CellOk, Forward;
  }

  // ----- supervisor steps

  lemma RegisterMoves(ctxDone: bool, o: Owned, m: MainPc, o': Owned, m': MainPc)
    requires CellOk(o) && MainOk(o, m) && RegisterStep(ctxDone, o, m, o', m')
    ensures CellOk(o') && MainOk(o', m')
  {
    hide Unregister, TerminalRelay, Leave, Has, LastIndex;
  }

  lemma ControlMoves(ctxDone: bool, o: Owned, m: MainPc, o': Owned, m': MainPc)
    requires CellOk(o) && MainOk(o, m)
    requires ControlStep(ctxDone, o, m, o', m') || EndStep(o, m, o', m')
    ensures CellOk(o') && MainOk(o', m')
  {
    hide Unregister, Classify, Leave, Has, LastIndex, SetFate, CloseTenant;
  }

  lemma NextLease(udp: bool, s: State, a: Action, s': State)
    requires LeaseInv(s) && Next(udp, s, a, s')
    ensures LeaseInv(s')
  {
    match a
    case CancelParent =>
    case WorkerMove(id) => WorkerKeepsLease(udp, s, id, s');
    case MainMove =>
      if s.main.StartWorkers? || s.main.Running? || s.main.Joining? {
        hide Joins, AllFinished, Has, CellOk;
      } else {
        if RegisterStep(s.ctxDone, s.own, s.main, s'.own, s'.main) {
          RegisterMoves(s.ctxDone, s.own, s.main, s'.own, s'.main);
        } else {
          ControlMoves(s.ctxDone, s.own, s.main, s'.own, s'.main);
        }
        hide RegisterStep, ControlStep, EndStep, CellOk, MainOk, WorkerOk;
      }
  }

  lemma {:induction false} RunLeaseInv(udp: bool, ss: seq<State>, actions: seq<Action>, i: nat)
    requires IsRun(udp, ss, actions) && i < |ss|
    ensures LeaseInv(ss[i])
  {
    if i > 0 {
      RunLeaseInv(udp, ss, actions, i - 1);
      NextLease(udp, ss[i - 1], actions[i - 1], ss[i]);
    }
  }

  // ----- main results

  /** Which generation a step installs. */
  predicate Installs(s: State, s': State, g: nat) { g !in s.own.issued && g in s'.own.issued }

  lemma RegisterIssues(ctxDone: bool, o: Owned, m: MainPc, o': Owned, m': MainPc)
    requires CellOk(o) && MainOk(o, m) && RegisterStep(ctxDone, o, m, o', m')
    ensures o.issued.Keys <= o'.issued.Keys
    ensures forall g | g !in o.issued && g in o'.issued ::
              g == o'.cell.lease.generation && forall prior | prior in o.issued :: prior < g
  {
    hide Unregister, TerminalRelay, Leave, Has, LastIndex;
    assert forall g | g in o.issued :: g <= o.cell.nextGeneration;
  }

  lemma ControlIssues(ctxDone: bool, o: Owned, m: MainPc, o': Owned, m': MainPc)
    requires ControlStep(ctxDone, o, m, o', m') || EndStep(o, m, o', m')
    ensures o'.issued == o.issued
  {
    hide Unregister, Classify, Leave, Has, LastIndex, SetFate, CloseTenant;
  }

  lemma StepIssues(udp: bool, s: State, a: Action, s': State)
    requires LeaseInv(s) && Next(udp, s, a, s')
    ensures s.own.issued.Keys <= s'.own.issued.Keys
    ensures forall g | Installs(s, s', g) ::
              g == s'.own.cell.lease.generation && forall prior | prior in s.own.issued :: prior < g
  {
    match a
    case CancelParent =>
    case WorkerMove(id) =>
      WorkerMoves(s.ctxDone || s.leaseDone, s.own, s.workers[id], s'.own, s'.workers[id]);
      hide WorkerStep, WorkerOk;
    case MainMove =>
      if !s.main.StartWorkers? && !s.main.Running? && !s.main.Joining? {
        if RegisterStep(s.ctxDone, s.own, s.main, s'.own, s'.main) {
          RegisterIssues(s.ctxDone, s.own, s.main, s'.own, s'.main);
        } else {
          ControlIssues(s.ctxDone, s.own, s.main, s'.own, s'.main);
        }
      }
      hide LeaseInv, RegisterStep, ControlStep, EndStep, Joins, AllFinished;
  }

  lemma {:induction false} IssuedStay(udp: bool, ss: seq<State>, actions: seq<Action>, i: nat, j: nat)
    requires IsRun(udp, ss, actions) && i <= j < |ss|
    ensures ss[i].own.issued.Keys <= ss[j].own.issued.Keys
  {
    if i < j {
      IssuedStay(udp, ss, actions, i, j - 1);
      RunLeaseInv(udp, ss, actions, j - 1);
      StepIssues(udp, ss[j - 1], actions[j - 1], ss[j]);
      hide LeaseInv, Next;
    }
  }

  /** Generations strictly increase over the whole life of a supervisor, across renewals and discards alike. */
  lemma GenerationsIncrease(udp: bool, ss: seq<State>, actions: seq<Action>, i: nat, j: nat, g: nat, g': nat)
    requires IsRun(udp, ss, actions) && i < j && j + 1 < |ss|
    requires Installs(ss[i], ss[i + 1], g) && Installs(ss[j], ss[j + 1], g')
    ensures g < g' == ss[j + 1].own.cell.lease.generation
  {
    IssuedStay(udp, ss, actions, i + 1, j);
    RunLeaseInv(udp, ss, actions, j);
    StepIssues(udp, ss[j], actions[j], ss[j + 1]);
    hide LeaseInv, Next;
  }
}
