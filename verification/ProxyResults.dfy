/** Which sockets the TCP proxy has closed, and when. */
module ProxyResults {
  import opened ProxyPairs

  predicate Opened(w: World, s: Socket) {
    s.pair < |w.pairs| && (s.Tenant? || w.pairs[s.pair].dialed)
  }

  /** The hook has marked the pair of this socket and has yet to close the socket. */
  predicate HookOwes(w: World, s: Socket) {
    && ByHook in w.threads
    && (if s.Tenant? then TenantPending(w.threads[ByHook].closing, s.pair) else LocalPending(w.threads[ByHook].closing, s.pair))
  }

  predicate HasReturned(w: World) { ByMain in w.threads && w.threads[ByMain].pc.Returned? }

  /** No connection is ever closed twice, by whichever goroutines. */
  lemma NothingIsClosedTwice(ws: seq<World>, actions: seq<Action>, i: nat, s: Socket)
    requires IsRun(ws, actions) && i < |ws|
    ensures ws[i].shut[s] <= 1 && (ws[i].shut[s] == 1 ==> Opened(ws[i], s))
  {
    RunProxyInv(ws, actions, i);
    var w := ws[i];
    if s.pair < |w.pairs| {
      assert PairOk(w, s.pair);
    } else {
      assert s !in w.shut;
    }
  }

  lemma OnlyTheHookIsLeft(w: World, i: nat)
    requires ProxyInv(w) && HasReturned(w) && i < |w.pairs|
    ensures ByConn(i) in w.threads && w.threads[ByConn(i)] == Calm(ConnDone)
    ensures w.pairs[i].closed && PairOk(w, i)
    ensures IsShutting(CloserAt(w, w.pairs[i]), i) ==> w.pairs[i].closer == ByHook
  {
    assert PairOk(w, i) && CopiersOk(w, i);
    var closer := w.pairs[i].closer;
    assert ThreadOk(w, closer);
    hide PairCounts;
  }

  lemma ClosedUnlessOwed(w: World, s: Socket)
    requires ProxyInv(w) && HasReturned(w) && Opened(w, s)
    ensures w.shut[s] == if HookOwes(w, s) then 0 else 1
  {
    OnlyTheHookIsLeft(w, s.pair);
    assert ThreadOk(w, ByHook);
    hide ProxyInv, ThreadOk, PairStages;
  }

  /** When the proxy loop returns, every tenant connection and every dialled local connection has been closed exactly
      once, except one that the cancellation hook has claimed and has yet to close. */
  lemma ReturnClosesAllButTheHooks(ws: seq<World>, actions: seq<Action>, i: nat, s: Socket)
    requires IsRun(ws, actions) && i < |ws| && HasReturned(ws[i]) && Opened(ws[i], s)
    ensures ws[i].shut[s] == if HookOwes(ws[i], s) then 0 else 1
  {
    RunProxyInv(ws, actions, i);
    ClosedUnlessOwed(ws[i], s);
  }

  /** So a hook that has finished, or was stopped before it began, owes nothing; only one caught in the middle of a pair
      leaves something open. */
  lemma AllClosedAtReturn(ws: seq<World>, actions: seq<Action>, i: nat)
    requires IsRun(ws, actions) && i < |ws| && HasReturned(ws[i])
    ensures ByHook in ws[i].threads
    ensures (forall s | Opened(ws[i], s) :: ws[i].shut[s] == 1)
            <==> (ws[i].threads[ByHook].closing.At? ==> ws[i].threads[ByHook].closing.phase.AtLock?)
    ensures ws[i].threads[ByHook].pc.HookStopped? || ws[i].threads[ByHook].pc.HookDone? ==>
              forall s | Opened(ws[i], s) :: ws[i].shut[s] == 1
  {
    RunProxyInv(ws, actions, i);
    var w := ws[i];
    assert ThreadOk(w, ByHook);
    forall s | Opened(w, s) ensures w.shut[s] == if HookOwes(w, s) then 0 else 1 {
      ReturnClosesAllButTheHooks(ws, actions, i, s);
    }
    var c := w.threads[ByHook].closing;
    if c.At? && !c.phase.AtLock? {
      var pending := if c.phase.CloseTenant? then Tenant(c.pair) else Local(c.pair);
      assert PairStages(w.pairs[c.pair], c.pair, w.threads[ByConn(c.pair)]) by { assert PairOk(w, c.pair); }
      assert Opened(w, pending) && HookOwes(w, pending);
    }
    hide ProxyInv, PairOk, PairCounts, PairStages;
  }

  // ----- a run in which the loop returns with a tenant connection still open

  function Scene(closed: bool, active: set<nat>, main: Thread, hook: Thread, conn: Thread): World {
    World(true, [Pair(7, false, false, closed, if closed then ByHook else ByMain)], active, multiset{},
          map[ByMain := main, ByHook := hook, ByConn(0) := conn])
  }

  const MARKED: Thread := Thread(HookCloses({}), At(0, CloseTenant(false)))

  /** The context is cancelled while the one tenant connection is being dialled; the hook marks its pair and is
      preempted before it closes the connection. */
  function Moment(n: nat): World {
    var start := World(false, [], {}, multiset{}, map[ByMain := Calm(Accepting), ByHook := Calm(HookIdle)]);
    match n
    case 0 => start
    case 1 => start.(ctxDone := true)
    case 2 => Scene(false, {0}, Calm(Accepting), Calm(HookIdle), Calm(Dialing))
    case 3 => Scene(false, {0}, Calm(Accepting), Calm(HookSnapshot), Calm(Dialing))
    case 4 => Scene(false, {0}, Calm(Accepting), Calm(HookCloses({0})), Calm(Dialing))
    case 5 => Scene(false, {0}, Calm(Accepting), Calls(0, HookCloses({})), Calm(Dialing))
    case 6 => Scene(true, {0}, Calm(Accepting), MARKED, Calm(Dialing))
    case 7 => Scene(true, {0}, Calm(Accepting), MARKED, Calls(0, Removing))
    case 8 => Scene(true, {0}, Calm(Accepting), MARKED, Calm(Removing))
    case 9 => Scene(true, {}, Calm(Accepting), MARKED, Calm(ConnDone))
    case 10 => Scene(true, {}, Calm(MainSnapshot), MARKED, Calm(ConnDone))
    case 11 => Scene(true, {}, Calm(MainCloses({})), MARKED, Calm(ConnDone))
    case 12 => Scene(true, {}, Calm(Waiting), MARKED, Calm(ConnDone))
    case 13 => Scene(true, {}, Calm(Stopping), MARKED, Calm(ConnDone))
    case _ => Scene(true, {}, Calm(Returned), MARKED, Calm(ConnDone))
  }

  function Mover(n: nat): Action {
    match n
    case 0 => Cancel
    case 1 => Move(ByMain)
    case 2 => Move(ByHook)
    case 3 => Move(ByHook)
    case 4 => Move(ByHook)
    case 5 => Move(ByHook)
    case 6 => Move(ByConn(0))
    case 7 => Move(ByConn(0))
    case 8 => Move(ByConn(0))
    case _ => Move(ByMain)
  }

  ghost predicate Steps(n: nat) { Next(Moment(n), Mover(n), Moment(n + 1)) }

  lemma TenantArrives()
    ensures Steps(0) && Steps(1)
  {
    var w1, w2 := Moment(1), Moment(2);
    assert w2 == w1.(pairs := w1.pairs + [w2.pairs[0]], active := w1.active + {0}, threads := w1.threads[ByConn(0) := Calm(Dialing)]);
  }

  lemma HookStarts()
    ensures Steps(2) && Steps(3)
  {
  }

  lemma HookMarks()
    ensures Steps(4) && Steps(5)
  {
    assert {0} - {0} == {};
    assert Moment(5) == Set(Moment(4), ByHook, Calls(0, HookCloses({0} - {0})));
    assert Moment(6).pairs == Moment(5).pairs[0 := Moment(6).pairs[0]];
  }

  lemma TenantGivesUp()
    ensures Steps(6) && Steps(7) && Steps(8)
  {
    assert Moment(9) == Set(Moment(8).(active := Moment(8).active - {0}), ByConn(0), Calm(ConnDone));
  }

  lemma MainGivesUp()
    ensures Steps(9) && Steps(10) && Steps(11)
  {
  }

  lemma MainReturns()
    ensures Steps(12) && Steps(13)
  {
    var w := Moment(13);
    assert Moment(14) == w.(threads := w.threads[ByMain := Calm(Returned)][ByHook := w.threads[ByHook]]);
  }

  function LateHookRun(): seq<World> { seq(15, n requires n >= 0 => Moment(n)) }

  function LateHookActions(): seq<Action> { seq(14, n requires n >= 0 => Mover(n)) }

  /** The promise that everything is closed at the return fails on this run. */
  lemma ReturnCanLeaveATenantOpen()
    ensures IsRun(LateHookRun(), LateHookActions())
    ensures var w := LateHookRun()[14]; HasReturned(w) && Opened(w, Tenant(0)) && w.shut[Tenant(0)] == 0
  {
    hide Steps, Init, Next, Moment, Mover, HasReturned, Opened, IsRun;
    TenantArrives();
    HookStarts();
    HookMarks();
    TenantGivesUp();
    MainGivesUp();
    MainReturns();
    FirstAndLast();
    AllSteps();
  }

  lemma FirstAndLast()
    ensures Init(Moment(0))
    ensures HasReturned(Moment(14)) && Opened(Moment(14), Tenant(0)) && Moment(14).shut[Tenant(0)] == 0
  {
  }

  lemma AllSteps()
    requires Steps(0) && Steps(1) && Steps(2) && Steps(3) && Steps(4) && Steps(5) && Steps(6) && Steps(7)
    requires Steps(8) && Steps(9) && Steps(10) && Steps(11) && Steps(12) && Steps(13) && Init(Moment(0))
    ensures IsRun(LateHookRun(), LateHookActions())
  {
    hide Steps, Init, Next, Moment, Mover;
    forall i | 0 <= i < 14 ensures Next(LateHookRun()[i], LateHookActions()[i], LateHookRun()[i + 1]) {
      assert Steps(i);
      StepIs(i);
    }
  }

  lemma StepIs(n: nat)
    requires Steps(n)
    ensures Next(Moment(n), Mover(n), Moment(n + 1))
  {
    hide Next, Moment, Mover;
  }

  // ----- main result

  ghost predicate AllClosed(w: World) {
    forall s | Opened(w, s) :: w.shut[s] == 1
  }

  /** The context was cancelled while the proxy loop was still at work. */
  ghost predicate CancelledBeforeReturn(ws: seq<World>, i: nat) {
    exists k: nat :: k <= i && k < |ws| && ws[k].ctxDone && !HasReturned(ws[k])
  }

  /** The hook has not begun, and cannot begin any more once the loop has returned. */
  predicate HookQuiet(w: World) {
    && ByHook in w.threads && ByMain in w.threads
    && (w.threads[ByHook] == Calm(HookStopped) || (w.threads[ByHook] == Calm(HookIdle) && !HasReturned(w)))
  }

  lemma CloseStaysQuiet(w: World, who: Who, w': World)
    requires HookQuiet(w) && who in w.threads && w.threads[who].closing.At? && CloseStep(w, who, w.threads[who], w')
    ensures HookQuiet(w')
  {
  }

  lemma RunnerStaysQuiet(w: World, who: Who, w': World)
    requires HookQuiet(w) && (w.ctxDone ==> HasReturned(w)) && (who == ByMain || who == ByHook)
    requires PcFits(who, w.threads[who].pc)
    requires if who == ByMain then MainStep(w, w.threads[who].pc, w') else HookStep(w, w.threads[who].pc, w')
    ensures HookQuiet(w')
  {
  }

  lemma ConnStaysQuiet(w: World, who: Who, w': World)
    requires HookQuiet(w) && who in w.threads && (who.ByConn? || who.ByCopier?) && who.pair < |w.pairs|
    requires if who.ByConn? then ConnStep(w, who.pair, w.threads[who].pc, w')
             else CopierStep(w, who, who.pair, w.threads[who].pc, w')
    ensures HookQuiet(w')
  {
  }

  lemma HookStaysQuiet(w: World, a: Action, w': World)
    requires ProxyInv(w) && Next(w, a, w') && HookQuiet(w) && (w.ctxDone ==> HasReturned(w))
    ensures HookQuiet(w')
  {
    if a.Move? {
      var who := a.who;
      assert PcFits(who, w.threads[who].pc) && (who.ByConn? || who.ByCopier? ==> who.pair < |w.pairs|) by {
        assert ThreadOk(w, who);
      }
      if w.threads[who].closing.At? {
        CloseStaysQuiet(w, who, w');
      } else if who == ByMain || who == ByHook {
        RunnerStaysQuiet(w, who, w');
      } else {
        ConnStaysQuiet(w, who, w');
      }
    }
    hide ProxyInv, CloseStep, MainStep, HookStep, ConnStep, CopierStep, PcFits;
  }

  lemma {:induction false} RunHookQuiet(ws: seq<World>, actions: seq<Action>, i: nat)
    requires IsRun(ws, actions) && i < |ws| && !CancelledBeforeReturn(ws, i)
    ensures HookQuiet(ws[i])
  {
    if i > 0 {
      assert !CancelledBeforeReturn(ws, i - 1);
      RunHookQuiet(ws, actions, i - 1);
      RunProxyInv(ws, actions, i - 1);
      HookStaysQuiet(ws[i - 1], actions[i - 1], ws[i]);
      hide ProxyInv, Next, HookQuiet;
    }
  }

  lemma QuietHookLeavesNothing(w: World)
    requires ProxyInv(w) && HasReturned(w) && HookQuiet(w)
    ensures AllClosed(w)
  {
    forall s | Opened(w, s) ensures w.shut[s] == 1 {
      ClosedUnlessOwed(w, s);
    }
    hide ProxyInv, Opened;
  }

  /** Everything the loop ever opened is closed at its return, on every run, exactly if the context may not be cancelled
      before the return. Cancelling it afterwards does no harm. */
  lemma ClosedAtReturnExactly(mayCancel: bool)
    ensures (forall ws, actions, i: nat | IsRun(ws, actions) && i < |ws| && HasReturned(ws[i])
                                          && (mayCancel || !CancelledBeforeReturn(ws, i)) :: AllClosed(ws[i]))
            <==> !mayCancel
  {
    if mayCancel {
      ReturnCanLeaveATenantOpen();
      assert !AllClosed(LateHookRun()[14]);
    } else {
      forall ws, actions, i: nat | IsRun(ws, actions) && i < |ws| && HasReturned(ws[i]) && !CancelledBeforeReturn(ws, i)
        ensures AllClosed(ws[i])
      {
        RunProxyInv(ws, actions, i);
        RunHookQuiet(ws, actions, i);
        QuietHookLeavesNothing(ws[i]);
      }
    }
    hide IsRun, HasReturned, Opened, LateHookRun, LateHookActions, ProxyInv, HookQuiet;
  }
}
