/** What the answer of a staleness test is worth, over every run of a supervisor. For a failed signature it depends on the
    relay: both reverse slots record signing failures in one map under the bindings that the relay chooses. */
module SupervisorStaleness {
  import opened Options
  import opened RelayErrors
  import opened LeaseCell
  import opened LeaseVerdict
  import opened Supervisor
  import opened SupervisorLease

  // ----- who recorded a signing failure

  /** The binding of the tenant handshake that a slot is in. */
  function Bound(p: WorkerPc): Option<nat> {
    match p
    case SlotHandshake(_, binding, _) => Some(binding)
    case HandshakeFailed(_, binding) => Some(binding)
    case _ => None
  }

  /** Handshakes at work at the same time carry different bindings. */
  ghost predicate DistinctBindings(workers: map<nat, WorkerPc>) {
    forall id, other | id in workers && other in workers && id != other && Bound(workers[id]).Some? ::
      Bound(workers[id]) != Bound(workers[other])
  }

  ghost predicate DistinctThrough(ss: seq<State>, i: nat) {
    forall k: nat | k <= i && k < |ss| :: DistinctBindings(ss[k].workers)
  }

  /** This slot has recorded the failure under its own binding and has yet to take it. */
  ghost predicate Recorder(o: Owned, p: WorkerPc, binding: nat) {
    && p.HandshakeFailed? && p.binding == binding
    && binding in o.errs && SentSince(o, p.generation, o.errs[binding].sent)
  }

  ghost predicate SignerOk(o: Owned, p: WorkerPc) {
    p.SignerFailed? || p.SignerTest? ==> SentSince(o, p.generation, p.used)
  }

  ghost predicate Attributed(o: Owned, workers: map<nat, WorkerPc>) {
    && (forall b | b in o.errs :: exists id :: id in workers && Recorder(o, workers[id], b))
    && (forall id | id in workers :: SignerOk(o, workers[id]))
  }

  lemma RecorderKeeps(o: Owned, p: WorkerPc, binding: nat, o': Owned)
    requires Recorder(o, p, binding) && Forward(o, o')
    requires binding in o'.errs && o'.errs[binding] == o.errs[binding]
    ensures Recorder(o', p, binding)
  {
    SentKeeps(o, p.generation, o.errs[binding].sent, o');
  }

  lemma SignerKeeps(o: Owned, p: WorkerPc, o': Owned)
    requires SignerOk(o, p) && Forward(o, o')
    ensures SignerOk(o', p)
  {
    if p.SignerFailed? || p.SignerTest? {
      SentKeeps(o, p.generation, p.used, o');
    }
    hide SentSince;
  }

  /** What the move of one worker does to the record and to its own claim. */
  ghost predicate Attributes(o: Owned, p: WorkerPc, o': Owned, p': WorkerPc) {
    && SignerOk(o', p')
    && (forall b | b in o'.errs && b !in o.errs :: Recorder(o', p', b))
    && (forall b | b in o'.errs && b in o.errs :: o'.errs[b] == o.errs[b])
    && (forall b | b in o'.errs && b in o.errs && Recorder(o, p, b) :: Recorder(o', p', b))
  }

  lemma RenewAttributes(o: Owned, p: WorkerPc, o': Owned, p': WorkerPc)
    requires RenewStep(o, p, o', p')
    ensures Attributes(o, p, o', p')
  {
    hide SentSince, Reply, Classify, Latest;
  }

  lemma QuietAttributes(ctxErr: bool, o: Owned, p: WorkerPc, p': WorkerPc)
    requires SignerOk(o, p) && QuietStep(ctxErr, o.cell, p, p') && !p.HandshakeFailed?
    ensures Attributes(o, p, o, p')
  {
    hide SentSince, Reply, Classify, IsStop, Has, IsLostLease, OpenFailure;
  }

  lemma RecordAttributes(ctxErr: bool, o: Owned, p: WorkerPc, o': Owned, p': WorkerPc)
    requires WorkerOk(o, p) && Forward(o, o') && SignStep(ctxErr, o, p, o', p') && p.SlotHandshake?
    ensures Attributes(o, p, o', p')
  {
    if p.sent.Some? {
      SentKeeps(o, p.generation, p.sent.value, o');
    }
    hide SentSince, Forward, Reply;
  }

  /** With distinct bindings, what is recorded under a slot's binding it has recorded itself. */
  lemma OwnRecord(o: Owned, workers: map<nat, WorkerPc>, id: nat)
    requires id in workers && Attributed(o, workers) && DistinctBindings(workers) && workers[id].HandshakeFailed?
    requires workers[id].binding in o.errs
    ensures Recorder(o, workers[id], workers[id].binding)
  {
    var p := workers[id];
    var other :| other in workers && Recorder(o, workers[other], p.binding);
    assert Bound(workers[other]) == Bound(p);
  }

  lemma TakeAttributes(ctxErr: bool, o: Owned, p: WorkerPc, o': Owned, p': WorkerPc)
    requires p.HandshakeFailed? && (p.binding in o.errs ==> Recorder(o, p, p.binding))
    requires Forward(o, o') && SignStep(ctxErr, o, p, o', p')
    ensures Attributes(o, p, o', p')
  {
    if p.binding in o.errs {
      SentKeeps(o, p.generation, o.errs[p.binding].sent, o');
    }
    hide SentSince, Forward;
  }

  lemma OwnAttribution(ctxErr: bool, o: Owned, workers: map<nat, WorkerPc>, id: nat, o': Owned, p': WorkerPc)
    requires id in workers && Attributed(o, workers) && DistinctBindings(workers)
    requires WorkerOk(o, workers[id]) && Forward(o, o') && WorkerStep(ctxErr, o, workers[id], o', p')
    ensures Attributes(o, workers[id], o', p')
  {
    var p := workers[id];
    if p.RenewBegin? || p.RenewFailed? || p.RenewInstall? {
      RenewAttributes(o, p, o', p');
    } else if p.SlotHandshake? || p.HandshakeFailed? {
      if p.SlotHandshake? {
        RecordAttributes(ctxErr, o, p, o', p');
      } else {
        if p.binding in o.errs {
          OwnRecord(o, workers, id);
        }
        TakeAttributes(ctxErr, o, p, o', p');
      }
    } else {
      QuietAttributes(ctxErr, o, p, p');
    }
    hide RenewStep, SignStep, QuietStep, Attributes, Attributed, Recorder, WorkerOk, Forward, DistinctBindings;
  }

  lemma WorkerKeepsAttribution(udp: bool, s: State, id: nat, s': State)
    requires LeaseInv(s) && Attributed(s.own, s.workers) && DistinctBindings(s.workers)
    requires Next(udp, s, WorkerMove(id), s')
    ensures Attributed(s'.own, s'.workers)
  {
    var o, o', p, p' := s.own, s'.own, s.workers[id], s'.workers[id];
    var ctxErr := s.ctxDone || s.leaseDone;
    assert s.main.Running? || s.main.Joining?;
    assert WorkerOk(o, p);
    WorkerMoves(ctxErr, o, p, o', p');
    OwnAttribution(ctxErr, o, s.workers, id, o', p');
    hide LeaseInv, WorkerStep, WorkerOk, CellOk, Forward, DistinctBindings, SignerOk;
    forall b | b in o'.errs ensures exists other :: other in s'.workers && Recorder(o', s'.workers[other], b) {
      if b !in o.errs {
        assert Recorder(o', s'.workers[id], b);
      } else {
        var other :| other in s.workers && Recorder(o, s.workers[other], b);
        RecorderKeeps(o, s.workers[other], b, o');
        assert other != id ==> s'.workers[other] == s.workers[other];
      }
    }
    forall other | other in s'.workers ensures SignerOk(o', s'.workers[other]) {
      if other != id {
        SignerKeeps(o, s.workers[other], o');
      }
    }
  }

  lemma RegisterKeepsErrs(ctxDone: bool, o: Owned, m: MainPc, o': Owned, m': MainPc)
    requires RegisterStep(ctxDone, o, m, o', m')
    ensures o'.errs == o.errs || o'.errs == map[]
  {
    hide Unregister, TerminalRelay, Leave, Has, LastIndex;
  }

  lemma ControlKeepsErrs(ctxDone: bool, o: Owned, m: MainPc, o': Owned, m': MainPc)
    requires ControlStep(ctxDone, o, m, o', m') || EndStep(o, m, o', m')
    ensures o'.errs == o.errs
  {
    hide Unregister, Classify, Leave, Has, LastIndex, SetFate, CloseTenant;
  }

  lemma NothingRecorded(o: Owned, workers: map<nat, WorkerPc>)
    requires Attributed(o, workers)
    requires forall id | id in workers :: workers[id].Finished?
    ensures o.errs == map[]
  {
    assert forall id, b | id in workers :: !Recorder(o, workers[id], b);
    assert forall b :: b !in o.errs;
  }

  /** The supervisor changes what it owns only while there are no workers, and then nothing is recorded. */
  lemma MainKeepsAttribution(udp: bool, s: State, s': State)
    requires LeaseInv(s) && Attributed(s.own, s.workers) && Next(udp, s, MainMove, s')
    ensures Attributed(s'.own, s'.workers)
  {
    var joining := s.main.Running? || s.main.Joining?;
    assert joining || s.workers == map[];
    hide LeaseInv;
    if !joining || (s.main.Joining? && AllFinished(s.workers)) {
      NothingRecorded(s.own, s.workers);
    }
    if joining || s.main.StartWorkers? {
      hide Joins, AfterLease, SentSince;
    } else {
      if RegisterStep(s.ctxDone, s.own, s.main, s'.own, s'.main) {
        RegisterKeepsErrs(s.ctxDone, s.own, s.main, s'.own, s'.main);
      } else {
        ControlKeepsErrs(s.ctxDone, s.own, s.main, s'.own, s'.main);
      }
      hide RegisterStep, ControlStep, EndStep;
    }
  }

  lemma {:induction false} RunAttributed(udp: bool, ss: seq<State>, actions: seq<Action>, i: nat)
    requires IsRun(udp, ss, actions) && i < |ss| && DistinctThrough(ss, i)
    ensures Attributed(ss[i].own, ss[i].workers)
  {
    if i > 0 {
      RunAttributed(udp, ss, actions, i - 1);
      RunLeaseInv(udp, ss, actions, i - 1);
      var s, s' := ss[i - 1], ss[i];
      assert DistinctBindings(s.workers) && Next(udp, s, actions[i - 1], s');
      match actions[i - 1] {
        case CancelParent =>
        case MainMove => MainKeepsAttribution(udp, s, s');
        case WorkerMove(id) => WorkerKeepsAttribution(udp, s, id, s');
      }
      hide LeaseInv, Attributed, JoinStep, MainStep, WorkerStep, DistinctBindings;
    }
  }

  // ----- main results

  /** A worker stands at a staleness test and the test answers "not stale". */
  predicate TestsFresh(l: Lease, p: WorkerPc) {
    match p
    case SlotTest(e) => e.ReverseUpgrade? && !ReverseStale(l, e.capability, e.generation)
    case DatagramTest(token, g) => !DatagramStale(l, token, g)
    case SignerTest(g, _, _) => !SignerStale(l, g)
    case _ => false
  }

  /** What the request carried is what is installed now, under the same generation and with no renewal under way. */
  ghost predicate CarriedCurrent(o: Owned, p: WorkerPc) {
    var l := o.cell.lease;
    && !l.renewing
    && match p
       case SlotTest(e) =>
         && e.ReverseUpgrade? && e.capability == l.capability && e.generation == l.generation
         && e.generation in o.issued && o.issued[e.generation] == Issue(l.token, l.capability)
       case DatagramTest(token, g) =>
         token == l.token && g == l.generation && g in o.issued && o.issued[g] == Issue(l.token, l.capability)
       case SignerTest(g, used, _) => used == l.token && g == l.generation && !l.tokenUncertain
       case _ => false
  }

  /** Staleness is sound: not stale means that the token or capability the failed request used is the one still
      installed. For the signer this holds although it reads its token later than the handshake noted the generation,
      because generations are never reused; but it needs handshakes that overlap to carry different bindings. */
  lemma NotStaleMeansCurrent(udp: bool, ss: seq<State>, actions: seq<Action>, i: nat, id: nat)
    requires IsRun(udp, ss, actions) && i < |ss| && id in ss[i].workers
    requires TestsFresh(ss[i].own.cell.lease, ss[i].workers[id])
    requires ss[i].workers[id].SignerTest? ==> DistinctThrough(ss, i)
    ensures CarriedCurrent(ss[i].own, ss[i].workers[id])
  {
    RunLeaseInv(udp, ss, actions, i);
    var s := ss[i];
    var p := s.workers[id];
    assert WorkerOk(s.own, p) && Live(s.own);
    if p.SignerTest? {
      RunAttributed(udp, ss, actions, i);
      assert SignerOk(s.own, p);
      var later :| p.generation <= later <= s.own.cell.lease.generation && WasToken(s.own, later, p.used);
    }
  }

  /** And it is complete: a request that carried what is installed, with no renewal under way, is never called stale. For a
      slot and for a datagram the test thus decides exactly whether it did. */
  lemma CurrentMeansNotStale(udp: bool, ss: seq<State>, actions: seq<Action>, i: nat, id: nat)
    requires IsRun(udp, ss, actions) && i < |ss| && id in ss[i].workers
    requires ss[i].workers[id].SlotTest? || ss[i].workers[id].SignerTest? || ss[i].workers[id].DatagramTest?
    ensures CarriedCurrent(ss[i].own, ss[i].workers[id]) ==> TestsFresh(ss[i].own.cell.lease, ss[i].workers[id])
    ensures !ss[i].workers[id].SignerTest? ==>
              (TestsFresh(ss[i].own.cell.lease, ss[i].workers[id]) <==> CarriedCurrent(ss[i].own, ss[i].workers[id]))
  {
    if !ss[i].workers[id].SignerTest? && TestsFresh(ss[i].own.cell.lease, ss[i].workers[id]) {
      NotStaleMeansCurrent(udp, ss, actions, i, id);
    }
    hide IsRun, DistinctThrough;
  }

  /** A worker whose request drew a lost-lease reply ends the lease only at a test that answers "not stale": no
      step leads straight from such a reply to a refresh. */
  lemma RefreshOnlyWhenCurrent(udp: bool, ss: seq<State>, actions: seq<Action>, i: nat, id: nat)
    requires IsRun(udp, ss, actions) && i + 1 < |ss| && actions[i] == WorkerMove(id)
    requires id in ss[i].workers && id in ss[i + 1].workers
    requires ss[i + 1].workers[id].Finished? && Has(ss[i + 1].workers[id].result, IsRefresh)
    ensures var p := ss[i].workers[id];
            && (p.SlotTest? || p.SignerTest? || p.DatagramTest? ==> TestsFresh(ss[i].own.cell.lease, p))
            && (p.SlotTest? || p.DatagramTest? || (p.SignerTest? && DistinctThrough(ss, i)) ==> CarriedCurrent(ss[i].own, p))
            && (p.SlotFailed? ==> !IsLostLease(p.err))
            && !p.SignerFailed? && !p.DatagramDial? && !p.SlotHandshake? && !p.HandshakeFailed?
  {
    var s, s' := ss[i], ss[i + 1];
    var p := s.workers[id];
    RunLeaseInv(udp, ss, actions, i);
    assert Next(udp, s, WorkerMove(id), s') && WorkerOk(s.own, p);
    if TestsFresh(s.own.cell.lease, p) && (p.SignerTest? ==> DistinctThrough(ss, i)) {
      NotStaleMeansCurrent(udp, ss, actions, i, id);
    }
    LostHasApi(p);
    assert !Has(Canceled, IsRefresh);
    hide IsRun, Classify, IsLostLease, First, CellOk, MainOk, CarriedCurrent, DistinctThrough;
  }

  /** A reply that says that the lease is lost. */
  predicate Loses(e: Err) { IsLostLease(e) && !Has(e, IsTerminal) && !Has(e, IsRefresh) }

  /** And then it does end it, with a refresh and not with a failure of the relay: a slot, a handshake or a datagram whose
      test answers "not stale", and a renewal in any case. */
  lemma LostLeaseIsGivenUp(udp: bool, s: State, id: nat, s': State)
    requires Next(udp, s, WorkerMove(id), s')
    ensures var p, p' := s.workers[id], s'.workers[id];
            && (p.SlotTest? && TestsFresh(s.own.cell.lease, p) && Loses(p.err) ==> p' == Finished(LeaseRefresh))
            && (p.SignerTest? && TestsFresh(s.own.cell.lease, p) && Loses(p.err) ==> p' == Finished(LeaseRefresh))
            && (p.DatagramTest? && TestsFresh(s.own.cell.lease, p) ==> p' == Finished(LeaseRefresh))
            && (p.RenewFailed? && Loses(p.err) ==> p' == RenewJudge(LeaseRefresh))
            && (p.RenewJudge? && p.err == LeaseRefresh ==> p' == Finished(LeaseRefresh))
  {
    hide First, Latest, Reply, RenewalEnded, RenewalBegun, Renewed, OpenFailure, IsLostLease, Classify, Loses;
    var p := s.workers[id];
    RefreshStops();
    if (p.SlotTest? || p.RenewFailed?) && Loses(p.err) {
      LossIsRefresh(p.err);
    } else if p.SignerTest? && Loses(p.err) {
      SignerWrapsLoss(p.generation, p.err);
      LossIsRefresh(TenantSigner(p.generation, p.err));
    }
  }

  lemma LossIsRefresh(e: Err)
    requires Loses(e)
    ensures Classify(e, true) == LeaseRefresh
  {
    hide First;
  }

  /** Any other failure of a slot ends the lease exactly if its class is not retryable; a lost lease is never a reason by
      itself to retry without a test. */
  lemma FailuresAreJudged(udp: bool, s: State, id: nat, s': State)
    requires Next(udp, s, WorkerMove(id), s') && !s.ctxDone && !s.leaseDone
    ensures var p, p' := s.workers[id], s'.workers[id];
            && (p.SlotFailed? && !IsLostLease(p.err) ==> (p'.Finished? <==> ClassAfter(p.err, true) != Retryable))
            && (p.SessionFailed? ==> (p'.Finished? <==> ClassAfter(p.err, true) != Retryable))
            && (p.SlotFailed? && p.err.ReverseUpgrade? && IsLostLease(p.err) ==> p' == SlotTest(p.err))
  {
    hide First, Classify, Latest, Reply, IsLostLease;
  }

  lemma RefreshStops()
    ensures IsStop(LeaseRefresh)
  {
  }

  lemma SignerWrapsLoss(generation: nat, e: Err)
    ensures Loses(e) ==> Loses(TenantSigner(generation, e))
  {
  }

  lemma LostHasApi(p: WorkerPc)
    ensures p.SlotFailed? && IsLostLease(p.err) ==> Has(p.err, IsApi) && p.err != LeaseRefresh
  {
  }

  // ----- a relay that gives two overlapping sessions one binding

  const BINDING: nat := 7
  const LOST: Err := Api(404, "lease_not_found", 0)

  function Before(nextGeneration: nat, built: nat): Owned {
    Owned(true, Cell(NO_LEASE, nextGeneration), map[], map[], History([], [], [], multiset{}, built, multiset{}))
  }

  function Leased(renewing: bool, errs: map<nat, SignError>): Owned {
    Owned(true, Cell(Lease("t1", "c1", Some(0), 1, renewing, renewing), 1), map[1 := Issue("t1", "c1")], errs,
          History([LeaseRecord("t1", Current)], [], [], multiset{}, 1, multiset{}))
  }

  function LeasedAnew(errs: map<nat, SignError>): Owned {
    Owned(true, Cell(Lease("t2", "c2", Some(0), 2, false, false), 2), map[1 := Issue("t1", "c1"), 2 := Issue("t2", "c2")],
          errs, History([LeaseRecord("t2", Current)], [], [], multiset{}, 1, multiset{}))
  }

  const RECORDED: map<nat, SignError> := map[BINDING := SignError(LOST, "t1")]

  function Setup(own: Owned, main: MainPc): State { State(false, false, own, main, map[], []) }

  /** The two slots and the renewer of a running lease; a datagram loop has not moved yet. */
  function Working(udp: bool, own: Owned, ps: seq<WorkerPc>): State
    requires |ps| == 3
  {
    State(false, false, own, Running, Workers(udp)[0 := ps[0]][1 := ps[1]][2 := ps[2]], [])
  }

  // ----- building a run step by step

  ghost predicate Reaches(udp: bool, s: State) {
    exists ss, actions :: IsRun(udp, ss, actions) && ss[|ss| - 1] == s
  }

  lemma Extends(udp: bool, s: State, a: Action, s': State)
    requires Reaches(udp, s) && Next(udp, s, a, s')
    ensures Reaches(udp, s')
  {
    var ss, actions :| IsRun(udp, ss, actions) && ss[|ss| - 1] == s;
    hide Next, Init;
    assert IsRun(udp, ss + [s'], actions + [a]);
    assert (ss + [s'])[|ss + [s']| - 1] == s';
  }

  lemma MainGoes(udp: bool, o: Owned, m: MainPc, o': Owned, m': MainPc)
    requires Reaches(udp, Setup(o, m)) && !m.StartWorkers? && !m.Running? && !m.Joining?
    requires ControlStep(false, o, m, o', m') || RegisterStep(false, o, m, o', m')
    ensures Reaches(udp, Setup(o', m'))
  {
    hide ControlStep, RegisterStep, Reaches;
    Extends(udp, Setup(o, m), MainMove, Setup(o', m'));
  }

  /** One of the three workers moves. */
  lemma WorkerGoes(udp: bool, o: Owned, ps: seq<WorkerPc>, id: nat, o': Owned, ps': seq<WorkerPc>)
    requires |ps| == 3 && id < 3 && |ps'| == 3 && ps' == ps[id := ps'[id]] && Reaches(udp, Working(udp, o, ps))
    requires !ps'[id].Finished? && WorkerStep(false, o, ps[id], o', ps'[id])
    ensures Reaches(udp, Working(udp, o', ps'))
  {
    hide WorkerStep, Reaches;
    var s, s' := Working(udp, o, ps), Working(udp, o', ps');
    assert s'.workers == s.workers[id := ps'[id]];
    Extends(udp, s, WorkerMove(id), s');
  }

  lemma LeaseIsHeld(udp: bool)
    ensures Reaches(udp, Working(udp, Leased(false, map[]), [SlotTop, SlotTop, RenewTop]))
  {
    var start := Setup(Before(0, 0).(client := false), Top);
    assert IsRun(udp, [start], []) && [start][|[start]| - 1] == start;
    Registers(udp);
    var last := Setup(Leased(false, map[]), StartWorkers);
    var s := Working(udp, Leased(false, map[]), [SlotTop, SlotTop, RenewTop]);
    assert s.workers == Workers(udp);
    hide Reaches, IsRun;
    Extends(udp, last, MainMove, s);
  }

  lemma Connects(udp: bool)
    requires Reaches(udp, Setup(Before(0, 0).(client := false), Top))
    ensures Reaches(udp, Setup(Before(0, 0), Challenge))
  {
    var blank, connected := Before(0, 0).(client := false), Before(0, 0);
    hide Reaches, RegisterStep, Classify, Leave, Has, SetFate, CloseTenant, Setup;
    MainGoes(udp, blank, Top, blank, Bootstrap);
    MainGoes(udp, blank, Bootstrap, connected, Domain);
    MainGoes(udp, connected, Domain, connected, Challenge);
  }

  lemma Submits(udp: bool)
    requires Reaches(udp, Setup(Before(0, 0), Challenge))
    ensures Reaches(udp, Setup(Before(0, 0), TakeGen("t1", "c1")))
  {
    hide Reaches, ControlStep, Leave, TerminalRelay, Has, Unregister, LastIndex, Setup, Before;
    MainGoes(udp, Before(0, 0), Challenge, Before(0, 0), Submit);
    MainGoes(udp, Before(0, 0), Submit, Before(0, 0), TakeGen("t1", "c1"));
  }

  lemma Installs(udp: bool)
    requires Reaches(udp, Setup(Before(0, 0), TakeGen("t1", "c1")))
    ensures Reaches(udp, Setup(Leased(false, map[]), StartWorkers))
  {
    hide Reaches, ControlStep, Leave, TerminalRelay, Has, Unregister, LastIndex, Setup;
    MainGoes(udp, Before(0, 0), TakeGen("t1", "c1"), Before(1, 0), BuildTenant("t1", "c1", 1));
    MainGoes(udp, Before(1, 0), BuildTenant("t1", "c1", 1), Before(1, 1), Install("t1", "c1", 1, 0));
    MainGoes(udp, Before(1, 1), Install("t1", "c1", 1, 0), Leased(false, map[]), StartWorkers);
  }

  lemma Registers(udp: bool)
    requires Reaches(udp, Setup(Before(0, 0).(client := false), Top))
    ensures Reaches(udp, Setup(Leased(false, map[]), StartWorkers))
  {
    Connects(udp);
    Submits(udp);
    Installs(udp);
  }

  lemma FirstSlotOpens(udp: bool)
    ensures Reaches(udp, Working(udp, Leased(false, map[]), [SlotSession, SlotTop, RenewTop]))
  {
    var o := Leased(false, map[]);
    LeaseIsHeld(udp);
    hide Reaches, Classify, OpenFailure, Reply, Has, IsLostLease, IsStop, Working, RenewStep;
    WorkerGoes(udp, o, [SlotTop, SlotTop, RenewTop], 0,
               o, [SlotRead, SlotTop, RenewTop]);
    WorkerGoes(udp, o, [SlotRead, SlotTop, RenewTop], 0,
               o, [SlotOpening("c1", 1), SlotTop, RenewTop]);
    WorkerGoes(udp, o, [SlotOpening("c1", 1), SlotTop, RenewTop], 0,
               o, [SlotSession, SlotTop, RenewTop]);
  }

  /** Slot 0's signature is refused under t1. */
  lemma FirstSlotFails(udp: bool)
    ensures Reaches(udp, Working(udp, Leased(false, RECORDED), [HandshakeFailed(1, BINDING), SlotTop, RenewTop]))
  {
    var o, o' := Leased(false, map[]), Leased(false, RECORDED);
    FirstSlotOpens(udp);
    assert Reply(LOST);
    assert Records(o, BINDING, "t1", o');
    hide Reaches, Classify, OpenFailure, Reply, Has, IsLostLease, IsStop, Working, RenewStep, Records;
    WorkerGoes(udp, o, [SlotSession, SlotTop, RenewTop], 0,
               o, [SlotHandshake(1, BINDING, None), SlotTop, RenewTop]);
    WorkerGoes(udp, o, [SlotHandshake(1, BINDING, None), SlotTop, RenewTop], 0,
               o, [SlotHandshake(1, BINDING, Some("t1")), SlotTop, RenewTop]);
    WorkerGoes(udp, o, [SlotHandshake(1, BINDING, Some("t1")), SlotTop, RenewTop], 0,
               o', [HandshakeFailed(1, BINDING), SlotTop, RenewTop]);
  }

  lemma RenewalBegins(udp: bool)
    ensures Reaches(udp, Working(udp, Leased(true, RECORDED), [HandshakeFailed(1, BINDING), SlotTop, RenewCall("t1", 1)]))
  {
    var o, renewing, failed := Leased(false, RECORDED), Leased(true, RECORDED), HandshakeFailed(1, BINDING);
    FirstSlotFails(udp);
    hide Reaches, Classify, Reply, Has, Working, SignStep;
    WorkerGoes(udp, o, [failed, SlotTop, RenewTop], 2,
               o, [failed, SlotTop, RenewSleep("t1", 1)]);
    WorkerGoes(udp, o, [failed, SlotTop, RenewSleep("t1", 1)], 2,
               o, [failed, SlotTop, RenewBegin("t1", 1)]);
    WorkerGoes(udp, o, [failed, SlotTop, RenewBegin("t1", 1)], 2,
               renewing, [failed, SlotTop, RenewCall("t1", 1)]);
  }

  /** The lease is renewed to t2. */
  lemma LeaseIsRenewed(udp: bool)
    ensures Reaches(udp, Working(udp, LeasedAnew(RECORDED), [HandshakeFailed(1, BINDING), SlotTop, RenewTop]))
  {
    var renewing, failed := Leased(true, RECORDED), HandshakeFailed(1, BINDING);
    RenewalBegins(udp);
    hide Reaches, Classify, Reply, Has, Working, SignStep;
    WorkerGoes(udp, renewing, [failed, SlotTop, RenewCall("t1", 1)], 2,
               renewing, [failed, SlotTop, RenewInstall("t1", 1, "t2", "c2")]);
    WorkerGoes(udp, renewing, [failed, SlotTop, RenewInstall("t1", 1, "t2", "c2")], 2,
               LeasedAnew(RECORDED), [failed, SlotTop, RenewTop]);
  }

  lemma SecondSlotOpens(udp: bool)
    ensures Reaches(udp, Working(udp, LeasedAnew(RECORDED), [HandshakeFailed(1, BINDING), SlotSession, RenewTop]))
  {
    var o, failed := LeasedAnew(RECORDED), HandshakeFailed(1, BINDING);
    LeaseIsRenewed(udp);
    hide Reaches, Classify, OpenFailure, Reply, Has, IsLostLease, IsStop, Working, RenewStep;
    WorkerGoes(udp, o, [failed, SlotTop, RenewTop], 1,
               o, [failed, SlotRead, RenewTop]);
    WorkerGoes(udp, o, [failed, SlotRead, RenewTop], 1,
               o, [failed, SlotOpening("c2", 2), RenewTop]);
    WorkerGoes(udp, o, [failed, SlotOpening("c2", 2), RenewTop], 1,
               o, [failed, SlotSession, RenewTop]);
  }

  /** Slot 1, whose handshake noted the new generation and failed for a reason of its own, takes slot 0's error. */
  lemma SecondSlotIsBlamed(udp: bool)
    ensures Reaches(udp, Working(udp, LeasedAnew(map[]), [HandshakeFailed(1, BINDING), SignerTest(2, "t1", LOST), RenewTop]))
  {
    var o, failed := LeasedAnew(RECORDED), HandshakeFailed(1, BINDING);
    SecondSlotOpens(udp);
    assert RECORDED - {BINDING} == map[];
    hide Reaches, Classify, OpenFailure, Reply, Has, IsLostLease, IsStop, Working, RenewStep;
    WorkerGoes(udp, o, [failed, SlotSession, RenewTop], 1,
               o, [failed, SlotHandshake(2, BINDING, None), RenewTop]);
    WorkerGoes(udp, o, [failed, SlotHandshake(2, BINDING, None), RenewTop], 1,
               o, [failed, HandshakeFailed(2, BINDING), RenewTop]);
    WorkerGoes(udp, o, [failed, HandshakeFailed(2, BINDING), RenewTop], 1,
               LeasedAnew(map[]), [failed, SignerFailed(2, "t1", LOST), RenewTop]);
    WorkerGoes(udp, LeasedAnew(map[]), [failed, SignerFailed(2, "t1", LOST), RenewTop], 1,
               LeasedAnew(map[]), [failed, SignerTest(2, "t1", LOST), RenewTop]);
  }

  // ----- the exact condition

  /** Every "not stale" that a worker now gets tells the truth about the request that failed. */
  ghost predicate Sound(s: State) {
    forall id | id in s.workers && TestsFresh(s.own.cell.lease, s.workers[id]) :: CarriedCurrent(s.own, s.workers[id])
  }

  /** A run on which a test answers "not stale" for a signature that was refused under the token before. */
  lemma SharedBindingMisleads(udp: bool)
    ensures exists ss, actions, i: nat :: IsRun(udp, ss, actions) && i < |ss| && !Sound(ss[i])
  {
    SecondSlotIsBlamed(udp);
    var last := Working(udp, LeasedAnew(map[]), [HandshakeFailed(1, BINDING), SignerTest(2, "t1", LOST), RenewTop]);
    var ss, actions :| IsRun(udp, ss, actions) && ss[|ss| - 1] == last;
    hide IsRun;
    assert 1 in last.workers && last.workers[1] == SignerTest(2, "t1", LOST);
    assert !Sound(ss[|ss| - 1]);
  }

  lemma SoundWhenDistinct(udp: bool, ss: seq<State>, actions: seq<Action>, i: nat)
    requires IsRun(udp, ss, actions) && i < |ss| && DistinctThrough(ss, i)
    ensures Sound(ss[i])
  {
    forall id | id in ss[i].workers && TestsFresh(ss[i].own.cell.lease, ss[i].workers[id])
      ensures CarriedCurrent(ss[i].own, ss[i].workers[id])
    {
      NotStaleMeansCurrent(udp, ss, actions, i, id);
    }
  }

  ghost predicate Granted(mayShare: bool, ss: seq<State>, i: nat) { mayShare || DistinctThrough(ss, i) }

  /** The staleness tests are sound on every run exactly if the relay may not give overlapping handshakes one binding. */
  lemma SoundExactly(udp: bool, mayShare: bool)
    ensures (forall ss, actions, i: nat |
               IsRun(udp, ss, actions) && i < |ss| && Granted(mayShare, ss, i) :: Sound(ss[i]))
            <==> !mayShare
  {
    if mayShare {
      SharedBindingMisleads(udp);
      var ss, actions, i: nat :| IsRun(udp, ss, actions) && i < |ss| && !Sound(ss[i]);
      assert Granted(mayShare, ss, i);
      hide IsRun, Sound, DistinctThrough;
    } else {
      forall ss, actions, i: nat | IsRun(udp, ss, actions) && i < |ss| && Granted(mayShare, ss, i)
        ensures Sound(ss[i])
      {
        SoundWhenDistinct(udp, ss, actions, i);
      }
    }
  }
}
