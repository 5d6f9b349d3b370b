/** The doubt that a renewal casts on the token, over every run of a supervisor: once a renewal of a lease has been sent, the
    relay may have rotated the token although no reply has said so. */
module SupervisorRenewal {
  import opened RelayErrors
  import opened LeaseCell
  import opened LeaseVerdict
  import opened Supervisor
  import opened SupervisorLease

  /** A worker begins to renew the lease of this generation. */
  predicate Begins(s: State, a: Action, s': State, g: nat) {
    && a.WorkerMove? && a.id in s.workers && a.id in s'.workers
    && s.workers[a.id].RenewBegin? && s'.workers[a.id].RenewCall?
    && s.own.cell.lease.generation == g
  }

  predicate Doubtful(o: Owned) { Live(o) && o.cell.lease.tokenUncertain }

  /** If the lease of this generation is the installed one, its token is in doubt. */
  predicate DoubtfulIf(o: Owned, g: nat) { Live(o) && o.cell.lease.generation == g ==> o.cell.lease.tokenUncertain }

  lemma RenewDoubts(o: Owned, p: WorkerPc, o': Owned, p': WorkerPc)
    requires CellOk(o) && Live(o) && RenewStep(o, p, o', p')
    ensures Doubtful(o') ==>
              o'.cell.lease.generation == o.cell.lease.generation && ((p.RenewBegin? && p'.RenewCall?) || Doubtful(o))
    ensures p.RenewBegin? && p'.RenewCall? ==> Doubtful(o') && o'.cell.lease.generation == o.cell.lease.generation
    ensures forall g | g in o.issued && DoubtfulIf(o, g) :: g in o'.issued && DoubtfulIf(o', g)
  {
    hide Classify, Latest, Reply;
  }

  lemma SignKeepsCell(ctxErr: bool, o: Owned, p: WorkerPc, o': Owned, p': WorkerPc)
    requires SignStep(ctxErr, o, p, o', p')
    ensures o'.cell == o.cell && o'.issued == o.issued
  {
    hide Reply;
  }

  lemma WorkerDoubts(ctxErr: bool, o: Owned, p: WorkerPc, o': Owned, p': WorkerPc)
    requires CellOk(o) && Live(o) && WorkerStep(ctxErr, o, p, o', p')
    ensures Doubtful(o') ==>
              o'.cell.lease.generation == o.cell.lease.generation && ((p.RenewBegin? && p'.RenewCall?) || Doubtful(o))
    ensures p.RenewBegin? && p'.RenewCall? ==> Doubtful(o') && o'.cell.lease.generation == o.cell.lease.generation
    ensures forall g | g in o.issued && DoubtfulIf(o, g) :: g in o'.issued && DoubtfulIf(o', g)
  {
    hide QuietStep, SignStep, RenewStep, CellOk;
    if p.RenewBegin? || p.RenewFailed? || p.RenewInstall? {
      RenewDoubts(o, p, o', p');
    } else if p.SlotHandshake? || p.HandshakeFailed? {
      SignKeepsCell(ctxErr, o, p, o', p');
    }
  }

  lemma RegisterDoubts(ctxDone: bool, o: Owned, m: MainPc, o': Owned, m': MainPc)
    requires CellOk(o) && MainOk(o, m) && RegisterStep(ctxDone, o, m, o', m')
    ensures Doubtful(o') ==> Doubtful(o) && o'.cell.lease.generation == o.cell.lease.generation
    ensures forall g | g in o.issued && DoubtfulIf(o, g) :: g in o'.issued && DoubtfulIf(o', g)
  {
    hide Unregister, TerminalRelay, Leave, Has, LastIndex;
  }

  lemma ControlDoubts(ctxDone: bool, o: Owned, m: MainPc, o': Owned, m': MainPc)
    requires ControlStep(ctxDone, o, m, o', m') || EndStep(o, m, o', m')
    ensures Doubtful(o') ==> Doubtful(o) && o'.cell.lease.generation == o.cell.lease.generation
    ensures forall g | g in o.issued && DoubtfulIf(o, g) :: g in o'.issued && DoubtfulIf(o', g)
  {
    hide Unregister, Classify, Leave, Has, LastIndex, SetFate, CloseTenant;
  }

  lemma StepDoubts(udp: bool, s: State, a: Action, s': State)
    requires LeaseInv(s) && Next(udp, s, a, s')
    ensures Doubtful(s'.own) ==>
              || Begins(s, a, s', s'.own.cell.lease.generation)
              || (Doubtful(s.own) && s'.own.cell.lease.generation == s.own.cell.lease.generation)
    ensures forall g | Begins(s, a, s', g) :: g in s'.own.issued && Doubtful(s'.own) && s'.own.cell.lease.generation == g
    ensures forall g | g in s.own.issued && DoubtfulIf(s.own, g) :: g in s'.own.issued && DoubtfulIf(s'.own, g)
  {
    match a
    case CancelParent =>
    case WorkerMove(id) =>
      WorkerDoubts(s.ctxDone || s.leaseDone, s.own, s.workers[id], s'.own, s'.workers[id]);
      WorkerMoves(s.ctxDone || s.leaseDone, s.own, s.workers[id], s'.own, s'.workers[id]);
      hide WorkerStep, WorkerOk, Forward;
    case MainMove =>
      if !s.main.StartWorkers? && !s.main.Running? && !s.main.Joining? {
        if RegisterStep(s.ctxDone, s.own, s.main, s'.own, s'.main) {
          RegisterDoubts(s.ctxDone, s.own, s.main, s'.own, s'.main);
        } else {
          ControlDoubts(s.ctxDone, s.own, s.main, s'.own, s'.main);
        }
      }
      hide LeaseInv, RegisterStep, ControlStep, EndStep, Joins, AllFinished;
  }

  lemma {:induction false} DoubtHasAReason(udp: bool, ss: seq<State>, actions: seq<Action>, i: nat)
    requires IsRun(udp, ss, actions) && i < |ss| && Doubtful(ss[i].own)
    ensures exists j :: 0 <= j < i && Begins(ss[j], actions[j], ss[j + 1], ss[i].own.cell.lease.generation)
  {
    if i > 0 {
      RunLeaseInv(udp, ss, actions, i - 1);
      StepDoubts(udp, ss[i - 1], actions[i - 1], ss[i]);
      hide LeaseInv, Next;
      if !Begins(ss[i - 1], actions[i - 1], ss[i], ss[i].own.cell.lease.generation) {
        DoubtHasAReason(udp, ss, actions, i - 1);
      }
    }
  }

  lemma DoubtfulNow(o: Owned, g: nat)
    requires Doubtful(o)
    ensures DoubtfulIf(o, g)
  {
  }

  lemma {:induction false} DoubtStays(udp: bool, ss: seq<State>, actions: seq<Action>, j: nat, i: nat, g: nat)
    requires IsRun(udp, ss, actions) && j < i < |ss| && Begins(ss[j], actions[j], ss[j + 1], g)
    ensures g in ss[i].own.issued && DoubtfulIf(ss[i].own, g)
  {
    hide LeaseInv, Next, Begins, Doubtful, DoubtfulIf;
    RunLeaseInv(udp, ss, actions, i - 1);
    StepDoubts(udp, ss[i - 1], actions[i - 1], ss[i]);
    if i > j + 1 {
      DoubtStays(udp, ss, actions, j, i - 1, g);
    } else {
      DoubtfulNow(ss[i].own, g);
    }
  }

  /** The token of an installed lease is in doubt if and only if a renewal of it has begun, whatever has become of that
      renewal; a lease that is installed anew, by a renewal or a registration, starts without doubt. */
  lemma DoubtfulExactly(udp: bool, ss: seq<State>, actions: seq<Action>, i: nat)
    requires IsRun(udp, ss, actions) && i < |ss| && Live(ss[i].own)
    ensures ss[i].own.cell.lease.tokenUncertain
       <==> exists j :: 0 <= j < i && Begins(ss[j], actions[j], ss[j + 1], ss[i].own.cell.lease.generation)
  {
    if Doubtful(ss[i].own) {
      DoubtHasAReason(udp, ss, actions, i);
    }
    if j :| 0 <= j < i && Begins(ss[j], actions[j], ss[j + 1], ss[i].own.cell.lease.generation) {
      DoubtStays(udp, ss, actions, j, i, ss[i].own.cell.lease.generation);
    }
    hide IsRun;
  }
}
