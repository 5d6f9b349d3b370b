/** One relay supervisor and the workers of its current lease, interleaved: one lock section, request or wait per
    step. Relay replies, handshakes, expiry tests and timers have arbitrary outcomes. */
module Supervisor {
  import opened Options
  import opened RelayErrors
  import opened LeaseCell
  import opened LeaseVerdict

  datatype WorkerPc =
    // runReverseSlot
    | SlotTop
    | SlotRead
    | SlotOpening(capability: string, generation: nat)
    | SlotFailed(err: Err)
    | SlotTest(err: Err)
    | SlotWait
    | SlotSession
    | SlotHandshake(generation: nat, binding: nat, sent: Option<string>)    // the token the signer sent, once it has
    | HandshakeFailed(generation: nat, binding: nat)                        // before takeError
    | SignerFailed(generation: nat, used: string, err: Err)
    | SignerTest(generation: nat, used: string, err: Err)
    | SessionFailed(err: Err)
    // runRenewLoop
    | RenewTop
    | RenewSleep(token: string, generation: nat)
    | RenewBegin(token: string, generation: nat)
    | RenewCall(token: string, generation: nat)
    | RenewFailed(generation: nat, err: Err)
    | RenewJudge(err: Err)
    | RenewWait
    | RenewInstall(token: string, generation: nat, newToken: string, newCapability: string)
    // runDatagramLoop
    | DatagramTop
    | DatagramDial(token: string, generation: nat)
    | DatagramTest(token: string, generation: nat)
    | DatagramWait
    | DatagramOpen
    // result delivered
    | Finished(result: Err)

  datatype RunResult = ByCancellation | ByTerminal(cause: Err) | ByOther(cause: Err)

  datatype MainPc =
    | Top
    | Bootstrap
    | Domain
    | InitFailed(err: Err)
    | InitWait
    | Challenge
    | Submit
    | RegisterWait
    | RegisterFailed(err: Err)
    | Reject(token: string, err: Err)          // the deferred unregister inside invalid()
    | TakeGen(token: string, capability: string)
    | BuildTenant(token: string, capability: string, generation: nat)
    | Unusable(token: string, err: Err)
    | Install(token: string, capability: string, generation: nat, tenantId: nat)
    | StartWorkers
    | Running
    | Joining
    | Discard
    | DiscardClose(released: Option<nat>)
    | ResetForRetry
    | EndToken(result: RunResult)
    | EndClear(result: RunResult)
    | EndClose(result: RunResult, released: Option<nat>)
    | EndReset(result: RunResult)
    | Ended(result: RunResult)

  /** What became of one registered lease, with its latest token. */
  datatype Fate = Current | Lost | Unregistered
  datatype LeaseRecord = LeaseRecord(latest: string, fate: Fate)

  datatype Reason = ForRejected(index: nat) | ForUnusable(index: nat) | ForLease(index: nat)
  datatype Attempt = Attempt(token: string, reason: Reason)

  /** What the outside has seen: registered leases, refused tokens, unregister requests and terminators. */
  datatype History = History(
    leases: seq<LeaseRecord>,
    rejected: seq<string>,
    unusable: seq<string>,
    attempts: multiset<Attempt>,     // unregister requests made
    built: nat,                      // terminators 0 .. built - 1 exist
    closes: multiset<nat>)

  datatype Issue = Issue(token: string, capability: string)

  /** A recorded signing failure and the token that its request carried. */
  datatype SignError = SignError(err: Err, sent: string)

  /** Everything the supervisor goroutine and its workers change together. */
  datatype Owned = Owned(
    client: bool,                    // controlClient != nil
    cell: Cell,
    issued: map<nat, Issue>,         // what each installed generation carried
    errs: map<nat, SignError>,       // leaseTranscriptSigner.errs of the installed terminator, by binding
    history: History)

  datatype State = State(
    ctxDone: bool,
    leaseDone: bool,                 // leaseCtx cancelled by runLease
    own: Owned,
    main: MainPc,
    workers: map<nat, WorkerPc>,     // 0 and 1: reverse slots, 2: renewer, 3: datagram loop
    results: seq<WorkerResult>)      // the results channel of the current lease, in arrival order

  datatype Action = CancelParent | MainMove | WorkerMove(id: nat)

  ghost predicate Init(s: State) {
    s == State(false, false,
               Owned(false, Cell(NO_LEASE, 0), map[], map[], History([], [], [], multiset{}, 0, multiset{})),
               Top, map[], [])
  }

  ghost predicate Next(udp: bool, s: State, a: Action, s': State) {
    match a
    case CancelParent => s' == s.(ctxDone := true)
    case MainMove =>
      if s.main.StartWorkers? || s.main.Running? || s.main.Joining? then JoinStep(udp, s, s')
      else s' == s.(own := s'.own, main := s'.main) && MainStep(s.ctxDone, s.own, s.main, s'.own, s'.main)
    case WorkerMove(id) =>
      && id in s.workers && id in s'.workers
      && var p, p' := s.workers[id], s'.workers[id];
         && s' == s.(workers := s.workers[id := p'], own := s'.own,
                     results := if p'.Finished? then s.results + [Some(p'.result)] else s.results)
         && WorkerStep(s.ctxDone || s.leaseDone, s.own, p, s'.own, p')
  }

  ghost predicate IsRun(udp: bool, ss: seq<State>, actions: seq<Action>) {
    && |ss| == |actions| + 1
    && Init(ss[0])
    && forall i | 0 <= i < |actions| :: Next(udp, ss[i], actions[i], ss[i + 1])
  }

  // ----- workers

  /** What openReverseSession can fail with: no usable endpoint, a refused upgrade carrying what was sent, or an
      error of the transport, which never contains an API error. */
  ghost predicate OpenFailure(e: Err, capability: string, generation: nat) {
    || e == LeaseRefresh
    || (e.ReverseUpgrade? && e.capability == capability && e.generation == generation && e.cause.Api?)
    || (!e.ReverseUpgrade? && !Has(e, IsApi) && Reply(e))
  }

  /** errLeaseRefresh is private to the package, so no reply and no library error contains it. */
  predicate Reply(e: Err) { !Has(e, IsRefresh) }

  predicate IsStop(e: Err) { Has(e, IsRefresh) || Has(e, IsTerminal) }

  function Latest(h: History, token: string): History {
    if h.leases == [] then h
    else h.(leases := h.leases[|h.leases| - 1 := h.leases[|h.leases| - 1].(latest := token)])
  }

  /** ctxErr is leaseCtx.Err() != nil. */
  ghost predicate WorkerStep(ctxErr: bool, o: Owned, p: WorkerPc, o': Owned, p': WorkerPc) {
    if p.RenewBegin? || p.RenewFailed? || p.RenewInstall? then RenewStep(o, p, o', p')
    else if p.SlotHandshake? || p.HandshakeFailed? then SignStep(ctxErr, o, p, o', p')
    else o' == o && QuietStep(ctxErr, o.cell, p, p')
  }

  /** A tenant handshake. The relay chose the binding, and both slots record signing failures in one map under it. */
  ghost predicate SignStep(ctxErr: bool, o: Owned, p: WorkerPc, o': Owned, p': WorkerPc) {
    match p
    case SlotHandshake(generation, binding, sent) =>
      || (o' == o && p'.SlotTop?)                         // the connection was offered
      || (o' == o && ctxErr && p' == Finished(Canceled))
      // the signer reads its token now; only if there were none would it send an older one
      || (o' == o && p'.SlotHandshake? && p' == SlotHandshake(generation, binding, p'.sent) && p'.sent.Some?
          && (o.cell.lease.token != "" ==> p'.sent == Some(o.cell.lease.token)))
      // the handshake fails, through the public client or through the signer; the first failure recorded stays
      || (p' == HandshakeFailed(generation, binding)
          && (o' == o || (sent.Some? && binding !in o.errs && Records(o, binding, sent.value, o'))))
    case HandshakeFailed(generation, binding) =>
      // takeError, whoever recorded the failure
      && o' == o.(errs := o.errs - {binding})
      && p' == if binding in o.errs then SignerFailed(generation, o.errs[binding].sent, o.errs[binding].err)
               else if ctxErr then Finished(Canceled) else SlotTop
    case _ => false
  }

  ghost predicate Records(o: Owned, binding: nat, sent: string, o': Owned) {
    && binding in o'.errs && o'.errs[binding].sent == sent && Reply(o'.errs[binding].err)
    && o' == o.(errs := o.errs[binding := o'.errs[binding]])
  }

  /** The renewer's three lock sections that write. */
  ghost predicate RenewStep(o: Owned, p: WorkerPc, o': Owned, p': WorkerPc) {
    match p
    case RenewBegin(token, generation) =>
      if MayBeginRenewal(o.cell, token, generation)
      then o' == o.(cell := RenewalBegun(o.cell)) && p' == RenewCall(token, generation)
      else o' == o && p' == Finished(LeaseRefresh)
    case RenewFailed(generation, err) =>
      o' == o.(cell := RenewalEnded(o.cell, generation)) && p' == RenewJudge(Classify(err, true))
    case RenewInstall(token, generation, newToken, newCapability) =>
      if MayInstallRenewal(o.cell, token, generation) then
        && o' == o.(cell := Renewed(o.cell, newToken, newCapability),
                    issued := o.issued[o.cell.nextGeneration + 1 := Issue(newToken, newCapability)],
                    history := Latest(o.history, newToken))
        && p' == RenewTop
      else
        o' == o && p' == Finished(LeaseRefresh)
    case _ => false
  }

  /** Steps that only read the lease. */
  ghost predicate QuietStep(ctxErr: bool, c: Cell, p: WorkerPc, p': WorkerPc) {
    match p
    case SlotTop => p' == if ctxErr then Finished(Canceled) else SlotRead
    case SlotRead =>
      p' == if c.lease.token != "" && c.lease.capability != "" then SlotOpening(c.lease.capability, c.lease.generation)
            else SlotFailed(LeaseRefresh)
    case SlotOpening(capability, generation) =>
      p'.SlotSession? || (p'.SlotFailed? && OpenFailure(p'.err, capability, generation))
    case SlotFailed(err) =>
      if ctxErr then p' == Finished(Canceled)
      else if err.ReverseUpgrade? && IsLostLease(err) then p' == SlotTest(err)
      else p' == (if IsStop(Classify(err, true)) then Finished(Classify(err, true)) else SlotWait)
    case SlotTest(err) =>
      && err.ReverseUpgrade?
      && p' == if ReverseStale(c.lease, err.capability, err.generation) then SlotWait
               else if IsStop(Classify(err, true)) then Finished(Classify(err, true))
               else SlotWait
    case SlotWait => p'.SlotTop? || (ctxErr && p' == Finished(Canceled))
    case SlotSession =>
      || p'.SlotTop?                                      // a tenant connection was offered, or its TLS failed
      || (ctxErr && p' == Finished(Canceled))
      || (c.lease.tenant.Some? && p'.SlotHandshake? && p' == SlotHandshake(c.lease.generation, p'.binding, None))
      || (p'.SessionFailed? && !Has(p'.err, IsApi) && Reply(p'.err))
    case SignerFailed(generation, used, err) =>
      p' == if ctxErr then Finished(Canceled) else SignerTest(generation, used, err)
    case SignerTest(generation, used, err) =>
      p' == if SignerStale(c.lease, generation) then SlotWait
            else if IsStop(Classify(TenantSigner(generation, err), true))
            then Finished(Classify(TenantSigner(generation, err), true))
            else SlotWait
    case SessionFailed(err) =>
      p' == if ctxErr then Finished(Canceled)
            else if IsStop(Classify(err, true)) then Finished(Classify(err, true))
            else SlotWait
    case RenewTop =>
      p' == Finished(LeaseRefresh) || (c.lease.token != "" && p' == RenewSleep(c.lease.token, c.lease.generation))
    case RenewSleep(token, generation) => p' == RenewBegin(token, generation) || (ctxErr && p' == Finished(Canceled))
    case RenewCall(token, generation) =>
      || (p'.RenewFailed? && p'.generation == generation && Reply(p'.err))
      || (p'.Finished? && p'.result.TerminalError? && Reply(p'.result))       // a malformed success
      || (p'.RenewInstall? && p'.token == token && p'.generation == generation && p'.newToken != "" && p'.newCapability != "")
    case RenewJudge(err) =>
      if IsStop(err) then p' == Finished(err) else p' == Finished(LeaseRefresh) || p'.RenewWait?
    case RenewWait => p'.RenewTop? || p' == Finished(LeaseRefresh) || (ctxErr && p' == Finished(Canceled))
    case DatagramTop =>
      if ctxErr then p' == Finished(Canceled)
      else p' == Finished(LeaseRefresh) || (c.lease.token != "" && p' == DatagramDial(c.lease.token, c.lease.generation))
    case DatagramDial(token, generation) =>
      || p'.DatagramOpen?
      || (if ctxErr then p' == Finished(Canceled)
          else p' == DatagramTest(token, generation) || (p'.Finished? && p'.result.TerminalError? && Reply(p'.result)) || p'.DatagramWait?)
    case DatagramTest(token, generation) =>
      p' == if DatagramStale(c.lease, token, generation) then DatagramTop else Finished(LeaseRefresh)
    case DatagramWait => p'.DatagramTop? || (ctxErr && p' == Finished(Canceled))
    case DatagramOpen => p'.DatagramWait? || (ctxErr && p' == Finished(Canceled))
    case _ => false
  }

  // ----- the supervisor goroutine

  function Workers(udp: bool): map<nat, WorkerPc> {
    if udp then map[0 := SlotTop, 1 := SlotTop, 2 := RenewTop, 3 := DatagramTop]
    else map[0 := SlotTop, 1 := SlotTop, 2 := RenewTop]
  }

  ghost predicate AllFinished(workers: map<nat, WorkerPc>) {
    forall id | id in workers :: workers[id].Finished?
  }

  /** unregisterToken makes a request only with a control client and a token. */
  function Unregister(client: bool, h: History, token: string, reason: Reason): History {
    if client && token != "" then h.(attempts := h.attempts + multiset{Attempt(token, reason)}) else h
  }

  function LastIndex<T>(s: seq<T>): nat { if s == [] then 0 else |s| - 1 }

  function SetFate(h: History, fate: Fate): History {
    if h.leases == [] then h
    else h.(leases := h.leases[|h.leases| - 1 := h.leases[|h.leases| - 1].(fate := fate)])
  }

  function CloseTenant(h: History, tenant: Option<nat>): History {
    if tenant.Some? then h.(closes := h.closes + multiset{tenant.value}) else h
  }

  /** How run leaves its loop with this error, once ctx.Err() has been tested. */
  function Leave(ctxDone: bool, err: Err): RunResult {
    if ctxDone then ByCancellation
    else if Has(err, IsTerminal) then ByTerminal(UnwrapTerminal(err))
    else ByOther(err)
  }

  ghost predicate MainStep(ctxDone: bool, o: Owned, m: MainPc, o': Owned, m': MainPc) {
    ControlStep(ctxDone, o, m, o', m') || RegisterStep(ctxDone, o, m, o', m') || EndStep(o, m, o', m')
  }

  /** The loop of run up to registration, and after a lost lease. */
  ghost predicate ControlStep(ctxDone: bool, o: Owned, m: MainPc, o': Owned, m': MainPc) {
    match m
    case Top => o' == o && m' == if ctxDone then EndToken(ByCancellation) else Bootstrap
    case Bootstrap =>
      || (m'.Domain? && o' == o.(client := true))
      || (m'.InitFailed? && m'.err == Classify(m'.err, false) && o' == o)
    case Domain => o' == o && (m'.Challenge? || (m'.InitFailed? && m'.err == Classify(m'.err, false)))
    case InitFailed(err) =>
      && o' == o.(client := false)
      && m' == if ctxDone || Has(err, IsTerminal) then EndToken(Leave(ctxDone, err)) else InitWait
    case InitWait => o' == o && (m'.Top? || (ctxDone && m' == EndToken(ByCancellation)))
    case Discard =>
      && m' == DiscardClose(o.cell.lease.tenant)
      && o' == o.(cell := Cleared(o.cell), history := SetFate(o.history, Lost))
    case DiscardClose(released) => m'.ResetForRetry? && o' == o.(history := CloseTenant(o.history, released))
    case ResetForRetry => m'.Top? && o' == o.(client := false)
    case _ => false
  }

  /** registerLeaseWithRetry and submitRegistration. */
  ghost predicate RegisterStep(ctxDone: bool, o: Owned, m: MainPc, o': Owned, m': MainPc) {
    var h := o.history;
    match m
    case Challenge =>
      // a held challenge is reused or a new one obtained, or requesting one fails
      && o' == o
      && (|| m'.Submit? || m'.RegisterWait?
          || (m'.RegisterFailed? && Has(m'.err, IsTerminal))
          || (ctxDone && m' == RegisterFailed(Canceled)))
    case RegisterWait => o' == o && (m'.Challenge? || (ctxDone && m' == RegisterFailed(Canceled)))
    case Submit =>
      || (o' == o && m'.RegisterWait?)
      || (o' == o && m'.RegisterFailed? && Has(m'.err, IsTerminal))
      || (m'.Reject? && o' == (if m'.token == "" then o else o.(history := h.(rejected := h.rejected + [m'.token]))))
      || (o' == o && m'.TakeGen? && m'.token != "" && m'.capability != "")
    case RegisterFailed(err) => o' == o && m' == EndToken(Leave(ctxDone, err))
    case Reject(token, err) =>
      && m' == RegisterFailed(TerminalRelay(err))
      && o' == if token == "" then o else o.(history := Unregister(o.client, h, token, ForRejected(LastIndex(h.rejected))))
    case TakeGen(token, capability) =>
      o' == o.(cell := TakeGeneration(o.cell)) && m' == BuildTenant(token, capability, o.cell.nextGeneration + 1)
    case BuildTenant(token, capability, generation) =>
      || (m' == Install(token, capability, generation, h.built) && o' == o.(history := h.(built := h.built + 1)))
      || (m'.Unusable? && m'.token == token && o' == o.(history := h.(unusable := h.unusable + [token])))
    case Unusable(token, err) =>
      && m' == RegisterFailed(TerminalRelay(err))
      && o' == o.(history := Unregister(o.client, h, token, ForUnusable(LastIndex(h.unusable))))
    case Install(token, capability, generation, tenantId) =>
      && m'.StartWorkers?
      && o' == o.(cell := Registered(o.cell, token, capability, tenantId, generation),
                  issued := o.issued[generation := Issue(token, capability)], errs := map[],
                  history := h.(leases := h.leases + [LeaseRecord(token, Current)]))
    case _ => false
  }

  /** The deferred shutdown. */
  ghost predicate EndStep(o: Owned, m: MainPc, o': Owned, m': MainPc) {
    var h, token := o.history, o.cell.lease.token;
    match m
    case EndToken(result) =>
      && m' == EndClear(result)
      && o' == if token == "" then o
               else o.(history := SetFate(Unregister(o.client, h, token, ForLease(LastIndex(h.leases))), Unregistered))
    case EndClear(result) => m' == EndClose(result, o.cell.lease.tenant) && o' == o.(cell := Cleared(o.cell))
    case EndClose(result, released) => m' == EndReset(result) && o' == o.(history := CloseTenant(h, released))
    case EndReset(result) => m' == Ended(result) && o' == o.(client := false)
    case _ => false
  }

  /** runLease: start the workers, wait for the first result or cancellation, cancel, join, judge. */
  ghost predicate JoinStep(udp: bool, s: State, s': State) {
    match s.main
    case StartWorkers => s' == s.(main := Running, leaseDone := false, workers := Workers(udp), results := [])
    case Running => (s.ctxDone || s.results != []) && s' == s.(main := Joining, leaseDone := true)
    case Joining =>
      && AllFinished(s.workers)
      && s' == s.(workers := map[], main := s'.main)
      && exists err :: Joins(s.results, err) && s'.main == AfterLease(s.ctxDone, err)
    case _ => false
  }

  /** What run does with the error of runLease: a refresh is tested before a terminal failure. */
  function AfterLease(ctxDone: bool, err: Err): MainPc {
    if ctxDone then EndToken(ByCancellation)
    else if Has(err, IsRefresh) then Discard
    else EndToken(Leave(false, err))
  }
}
