/** The TCP proxy's threads: the accept loop, the cancellation hook, one goroutine per tenant connection and its two
    copiers, interleaved one lock section or socket operation at a time. */
module ProxyPairs {

  /** Pair i owns the tenant connection that the i-th Accept returned and, once dialled, one local connection. */
  datatype Socket = Tenant(pair: nat) | Local(pair: nat)

  datatype Who = ByMain | ByHook | ByConn(pair: nat) | ByCopier(pair: nat, upward: bool)

  /** tenant is the connection that Accept returned. closer notes which goroutine found the pair open in close. */
  datatype Pair = Pair(tenant: nat, dialed: bool, local: bool, closed: bool, closer: Who)

  /** Inside proxyPair.close: before the lock, then the sockets still to close. */
  datatype Phase = AtLock | CloseTenant(andLocal: bool) | CloseLocal

  datatype Closing = NotClosing | At(pair: nat, phase: Phase)

  datatype Pc =
    // runTCPProxy
    | Accepting
    | MainSnapshot
    | MainCloses(rest: set<nat>)
    | Waiting
    | Stopping
    | Returned
    // the AfterFunc hook
    | HookIdle
    | HookSnapshot
    | HookCloses(rest: set<nat>)
    | HookDone
    | HookStopped
    // proxyConnection
    | Dialing
    | SetLocal
    | DropLocal
    | Connected
    | Copying
    | Removing
    | ConnDone
    // a copier
    | Copy
    | CopyDone

  /** pc is where the goroutine continues when its call of close, if any, returns. */
  datatype Thread = Thread(pc: Pc, closing: Closing)

  datatype World = World(
    ctxDone: bool,
    pairs: seq<Pair>,
    active: set<nat>,
    shut: multiset<Socket>,
    threads: map<Who, Thread>)

  datatype Action = Cancel | Move(who: Who)

  function Calm(pc: Pc): Thread { Thread(pc, NotClosing) }

  function Calls(pair: nat, pc: Pc): Thread { Thread(pc, At(pair, AtLock)) }

  ghost predicate Init(w: World) {
    w == World(false, [], {}, multiset{}, map[ByMain := Calm(Accepting), ByHook := Calm(HookIdle)])
  }

  ghost predicate Next(w: World, a: Action, w': World) {
    match a
    case Cancel => w' == w.(ctxDone := true)
    case Move(who) =>
      && who in w.threads
      && var t := w.threads[who];
         if t.closing.At? then CloseStep(w, who, t, w')
         else match who
              case ByMain => MainStep(w, t.pc, w')
              case ByHook => HookStep(w, t.pc, w')
              case ByConn(i) => i < |w.pairs| && ConnStep(w, i, t.pc, w')
              case ByCopier(i, upward) => CopierStep(w, who, i, t.pc, w')
  }

  ghost predicate IsRun(ws: seq<World>, actions: seq<Action>) {
    && |ws| == |actions| + 1
    && Init(ws[0])
    && forall i | 0 <= i < |actions| :: Next(ws[i], actions[i], ws[i + 1])
  }

  function Set(w: World, who: Who, t: Thread): World { w.(threads := w.threads[who := t]) }

  /** One step of proxyPair.close. */
  ghost predicate CloseStep(w: World, who: Who, t: Thread, w': World)
    requires t.closing.At?
  {
    var i := t.closing.pair;
    && i < |w.pairs|
    && match t.closing.phase
       case AtLock =>
         if w.pairs[i].closed then w' == Set(w, who, Calm(t.pc))
         else w' == Set(w.(pairs := w.pairs[i := w.pairs[i].(closed := true, closer := who)]), who,
                        Thread(t.pc, At(i, CloseTenant(w.pairs[i].local))))
       case CloseTenant(andLocal) =>
         w' == Set(w.(shut := w.shut + multiset{Tenant(i)}), who,
                   if andLocal then Thread(t.pc, At(i, CloseLocal)) else Calm(t.pc))
       case CloseLocal =>
         w' == Set(w.(shut := w.shut + multiset{Local(i)}), who, Calm(t.pc))
  }

  ghost predicate MainStep(w: World, pc: Pc, w': World) {
    match pc
    case Accepting =>
      || (&& |w'.pairs| > |w.pairs|
          && var i, pair := |w.pairs|, w'.pairs[|w.pairs|];
             && pair == Pair(pair.tenant, false, false, false, ByMain)
             && (forall j | 0 <= j < i :: w.pairs[j].tenant != pair.tenant)
             && w' == w.(pairs := w.pairs + [pair], active := w.active + {i}, threads := w.threads[ByConn(i) := Calm(Dialing)]))
      || w' == Set(w, ByMain, Calm(MainSnapshot))                       // Accept fails
    case MainSnapshot => w' == Set(w, ByMain, Calm(MainCloses(w.active)))
    case MainCloses(rest) =>
      if rest == {} then w' == Set(w, ByMain, Calm(Waiting))
      else exists i | i in rest :: w' == Set(w, ByMain, Calls(i, MainCloses(rest - {i})))
    case Waiting =>
      && (forall i | 0 <= i < |w.pairs| :: ByConn(i) in w.threads && w.threads[ByConn(i)] == Calm(ConnDone))
      && w' == Set(w, ByMain, Calm(Stopping))
    case Stopping =>
      && ByHook in w.threads
      && w' == w.(threads := w.threads[ByMain := Calm(Returned)]
                                      [ByHook := if w.threads[ByHook] == Calm(HookIdle) then Calm(HookStopped) else w.threads[ByHook]])
    case _ => false
  }

  /** context.AfterFunc(ctx, active.closeAll); stopping it prevents only a hook that has not begun. */
  ghost predicate HookStep(w: World, pc: Pc, w': World) {
    match pc
    case HookIdle => w.ctxDone && w' == Set(w, ByHook, Calm(HookSnapshot))
    case HookSnapshot => w' == Set(w, ByHook, Calm(HookCloses(w.active)))
    case HookCloses(rest) =>
      if rest == {} then w' == Set(w, ByHook, Calm(HookDone))
      else exists i | i in rest :: w' == Set(w, ByHook, Calls(i, HookCloses(rest - {i})))
    case _ => false
  }

  ghost predicate ConnStep(w: World, i: nat, pc: Pc, w': World)
    requires i < |w.pairs|
  {
    var who, pair := ByConn(i), w.pairs[i];
    match pc
    case Dialing =>
      || w' == Set(w, who, Calls(i, Removing))                            // the dial fails
      || w' == Set(w.(pairs := w.pairs[i := pair.(dialed := true)]), who, Calm(SetLocal))
    case SetLocal =>
      if pair.closed then w' == Set(w, who, Calm(DropLocal))
      else w' == Set(w.(pairs := w.pairs[i := pair.(local := true)]), who, Calm(Connected))
    case DropLocal => w' == Set(w.(shut := w.shut + multiset{Local(i)}), who, Calls(i, Removing))
    case Connected =>
      w' == w.(threads := w.threads[who := Calm(Copying)][ByCopier(i, true) := Calm(Copy)][ByCopier(i, false) := Calm(Copy)])
    case Copying =>
      && ByCopier(i, true) in w.threads && w.threads[ByCopier(i, true)] == Calm(CopyDone)
      && ByCopier(i, false) in w.threads && w.threads[ByCopier(i, false)] == Calm(CopyDone)
      && w' == Set(w, who, Calls(i, Removing))
    case Removing => w' == Set(w.(active := w.active - {i}), who, Calm(ConnDone))
    case _ => false
  }

  ghost predicate CopierStep(w: World, who: Who, i: nat, pc: Pc, w': World) {
    pc.Copy? && (w' == Set(w, who, Calm(CopyDone)) || w' == Set(w, who, Calls(i, CopyDone)))
  }

  // ----- the invariant

  /** One goroutine is inside close on this pair and has marked it. */
  predicate IsShutting(c: Closing, i: nat) { c.At? && c.pair == i && !c.phase.AtLock? }

  predicate TenantPending(c: Closing, i: nat) { c.At? && c.pair == i && c.phase.CloseTenant? }

  predicate LocalPending(c: Closing, i: nat) { c == At(i, CloseTenant(true)) || c == At(i, CloseLocal) }

  /** What the goroutine that marked the pair still has to do for it. */
  function CloserAt(w: World, pair: Pair): Closing {
    if pair.closed && pair.closer in w.threads then w.threads[pair.closer].closing else NotClosing
  }

  /** How often each socket of a pair has been closed, in terms of where its closer is. */
  predicate PairCounts(pair: Pair, i: nat, closer: Closing, conn: Thread, shut: multiset<Socket>) {
    && shut[Tenant(i)] == (if !pair.closed || TenantPending(closer, i) then 0 else 1)
    && shut[Local(i)] == (if pair.local then (if !pair.closed || LocalPending(closer, i) then 0 else 1)
                          else if !pair.dialed || conn.pc.SetLocal? || conn.pc.DropLocal? then 0 else 1)
  }

  predicate PairStages(pair: Pair, i: nat, conn: Thread) {
    && (pair.local ==> pair.dialed)
    && (conn.pc.Dialing? ==> !pair.dialed && conn.closing.NotClosing?)
    && (conn.pc.SetLocal? ==> pair.dialed && !pair.local)
    && (conn.pc.DropLocal? ==> pair.dialed && !pair.local && pair.closed)
    && (conn.pc.Connected? || conn.pc.Copying? ==> pair.local)
    && (conn.pc.ConnDone? || (conn.pc.Removing? && conn.closing != At(i, AtLock)) ==> pair.closed)
  }

  ghost predicate PairOk(w: World, i: nat)
    requires i < |w.pairs|
  {
    && ByConn(i) in w.threads
    && PairStages(w.pairs[i], i, w.threads[ByConn(i)])
    && (w.pairs[i].closed ==> w.pairs[i].closer in w.threads)
    && PairCounts(w.pairs[i], i, CloserAt(w, w.pairs[i]), w.threads[ByConn(i)], w.shut)
  }

  predicate PcFits(who: Who, pc: Pc) {
    match who
    case ByMain => pc.Accepting? || pc.MainSnapshot? || pc.MainCloses? || pc.Waiting? || pc.Stopping? || pc.Returned?
    case ByHook => pc.HookIdle? || pc.HookSnapshot? || pc.HookCloses? || pc.HookDone? || pc.HookStopped?
    case ByConn(_) =>
      pc.Dialing? || pc.SetLocal? || pc.DropLocal? || pc.Connected? || pc.Copying? || pc.Removing? || pc.ConnDone?
    case ByCopier(_, _) => pc.Copy? || pc.CopyDone?
  }

  ghost predicate ThreadOk(w: World, who: Who)
    requires who in w.threads
  {
    var t := w.threads[who];
    && PcFits(who, t.pc)
    && (t.closing.At? ==>
          && t.closing.pair < |w.pairs|
          && (who.ByConn? ==> t.closing.pair == who.pair && t.pc.Removing?)
          && (who.ByCopier? ==> t.closing.pair == who.pair && t.pc.CopyDone?)
          && (who.ByMain? ==> t.pc.MainCloses?)
          && (who.ByHook? ==> t.pc.HookCloses?)
          && (!t.closing.phase.AtLock? ==>
                && w.pairs[t.closing.pair].closed && w.pairs[t.closing.pair].closer == who
                && (t.closing.phase.CloseTenant? ==> t.closing.phase.andLocal == w.pairs[t.closing.pair].local)
                && (t.closing.phase.CloseLocal? ==> w.pairs[t.closing.pair].local)))
    && (t.pc.MainCloses? || t.pc.HookCloses? ==> forall i | i in t.pc.rest :: i < |w.pairs|)
    && (who.ByConn? || who.ByCopier? ==> who.pair < |w.pairs|)
  }

  /** The copiers of a pair run only while its goroutine waits for them. */
  ghost predicate CopiersOk(w: World, i: nat)
    requires ByConn(i) in w.threads
  {
    var pc := w.threads[ByConn(i)].pc;
    forall upward :: ByCopier(i, upward) in w.threads ==>
      && (pc.Copying? || pc.Removing? || pc.ConnDone?)
      && (!pc.Copying? ==> w.threads[ByCopier(i, upward)] == Calm(CopyDone))
  }

  ghost predicate ProxyInv(w: World) {
    && ByMain in w.threads && ByHook in w.threads
    && (forall who | who in w.threads :: ThreadOk(w, who))
    && (forall i | 0 <= i < |w.pairs| :: PairOk(w, i) && CopiersOk(w, i))
    && WorldOk(w)
  }

  ghost predicate WorldOk(w: World)
    requires ByMain in w.threads
  {
    Bounded(w) && StageOk(w) && TenantsDiffer(w.pairs)
  }

  ghost predicate Bounded(w: World) {
    && (forall i | i in w.active :: i < |w.pairs|)
    && (forall s | s in w.shut :: s.pair < |w.pairs|)
  }

  ghost predicate ConnsDone(w: World) {
    forall i | 0 <= i < |w.pairs| :: ByConn(i) in w.threads && w.threads[ByConn(i)] == Calm(ConnDone)
  }

  ghost predicate StageOk(w: World)
    requires ByMain in w.threads
  {
    w.threads[ByMain].pc.Stopping? || w.threads[ByMain].pc.Returned? ==> ConnsDone(w)
  }

  ghost predicate TenantsDiffer(pairs: seq<Pair>) {
    forall i, j | 0 <= i < j < |pairs| :: pairs[i].tenant != pairs[j].tenant
  }

  // ----- what a step leaves alone

  /** Pairs are added and marked, and a marked one keeps its closer and its local connection. */
  ghost predicate PairsGrow(w: World, w': World) {
    && |w.pairs| <= |w'.pairs|
    && forall i | 0 <= i < |w.pairs| && w.pairs[i].closed ::
         w'.pairs[i].closed && w'.pairs[i].closer == w.pairs[i].closer && w'.pairs[i].local == w.pairs[i].local
  }

  lemma ThreadStays(w: World, w': World, x: Who)
    requires x in w.threads && x in w'.threads && w'.threads[x] == w.threads[x]
    requires ThreadOk(w, x) && PairsGrow(w, w')
    ensures ThreadOk(w', x)
  {
  }

  lemma PairStays(w: World, w': World, who: Who, j: nat)
    requires j < |w.pairs| && j < |w'.pairs| && PairOk(w, j) && w'.pairs[j] == w.pairs[j]
    requires who in w.threads && who in w'.threads && who != ByConn(j) && ByConn(j) in w'.threads
    requires w'.threads[ByConn(j)] == w.threads[ByConn(j)]
    requires forall x | x in w.threads && x != who :: x in w'.threads && w'.threads[x].closing == w.threads[x].closing
    requires !IsShutting(w.threads[who].closing, j) && !IsShutting(w'.threads[who].closing, j)
    requires w'.shut[Tenant(j)] == w.shut[Tenant(j)] && w'.shut[Local(j)] == w.shut[Local(j)]
    ensures PairOk(w', j)
  {
  }

  /** Only who moves, and it is not inside close before or after. */
  ghost predicate OnlyMoves(w: World, who: Who, w': World) {
    && who in w.threads && who in w'.threads
    && (forall x | x in w.threads && x != who :: x in w'.threads && w'.threads[x] == w.threads[x])
    && (forall x | x in w'.threads && x != who :: x in w.threads)
  }

  // ----- inside close

  lemma CloseKeepsOwnThread(w: World, who: Who, w': World)
    requires who in w.threads && ThreadOk(w, who)
    requires w.threads[who].closing.At? && CloseStep(w, who, w.threads[who], w')
    ensures OnlyMoves(w, who, w') && PairsGrow(w, w') && |w'.pairs| == |w.pairs| && ThreadOk(w', who)
    ensures forall j | 0 <= j < |w.pairs| && j != w.threads[who].closing.pair ::
              && w'.pairs[j] == w.pairs[j] && !IsShutting(w'.threads[who].closing, j)
              && w'.shut[Tenant(j)] == w.shut[Tenant(j)] && w'.shut[Local(j)] == w.shut[Local(j)]
  {
  }

  lemma CloseKeepsThreads(w: World, who: Who, w': World)
    requires ProxyInv(w) && who in w.threads && w.threads[who].closing.At? && CloseStep(w, who, w.threads[who], w')
    ensures OnlyMoves(w, who, w') && PairsGrow(w, w')
    ensures forall x | x in w'.threads :: ThreadOk(w', x)
  {
    CloseKeepsOwnThread(w, who, w');
    hide PairOk, CopiersOk, WorldOk, PairsGrow, CloseStep;
    forall x | x in w'.threads ensures ThreadOk(w', x) {
      if x != who {
        ThreadStays(w, w', x);
      }
    }
  }

  lemma MarkCounts(pair: Pair, i: nat, who: Who, conn: Thread, shut: multiset<Socket>)
    requires PairCounts(pair, i, NotClosing, conn, shut) && PairStages(pair, i, conn) && !pair.closed
    ensures PairCounts(pair.(closed := true, closer := who), i, At(i, CloseTenant(pair.local)), conn, shut)
  {
  }

  lemma TenantCounts(pair: Pair, i: nat, conn: Thread, shut: multiset<Socket>)
    requires pair.closed && PairCounts(pair, i, At(i, CloseTenant(pair.local)), conn, shut)
    ensures PairCounts(pair, i, if pair.local then At(i, CloseLocal) else NotClosing, conn, shut + multiset{Tenant(i)})
  {
  }

  lemma LocalCounts(pair: Pair, i: nat, conn: Thread, shut: multiset<Socket>)
    requires pair.closed && pair.local && PairCounts(pair, i, At(i, CloseLocal), conn, shut)
    ensures PairCounts(pair, i, NotClosing, conn, shut + multiset{Local(i)})
  {
  }

  lemma MarkKeepsOwnPair(w: World, who: Who, i: nat, w': World)
    requires who in w.threads && w.threads[who].closing == At(i, AtLock) && i < |w.pairs|
    requires ThreadOk(w, who) && PairOk(w, i) && CloseStep(w, who, w.threads[who], w')
    ensures |w'.pairs| == |w.pairs| && PairOk(w', i)
  {
    var pair, conn, conn' := w.pairs[i], w.threads[ByConn(i)], w'.threads[ByConn(i)];
    assert conn'.pc == conn.pc;
    if !pair.closed {
      MarkCounts(pair, i, who, conn, w.shut);
    } else {
      assert IsShutting(CloserAt(w', pair), i) == IsShutting(CloserAt(w, pair), i);
    }
    SameCounts(w'.pairs[i], i, CloserAt(w', w'.pairs[i]), conn, conn', w'.shut);
  }

  lemma ShutKeepsOwnPair(w: World, who: Who, i: nat, w': World)
    requires who in w.threads && w.threads[who].closing.At? && w.threads[who].closing.pair == i < |w.pairs|
    requires !w.threads[who].closing.phase.AtLock?
    requires ThreadOk(w, who) && PairOk(w, i) && CloseStep(w, who, w.threads[who], w')
    ensures |w'.pairs| == |w.pairs| && PairOk(w', i)
  {
    var pair, conn, conn' := w.pairs[i], w.threads[ByConn(i)], w'.threads[ByConn(i)];
    assert conn'.pc == conn.pc && CloserAt(w, pair) == w.threads[who].closing;
    if w.threads[who].closing.phase.CloseTenant? {
      TenantCounts(pair, i, conn, w.shut);
    } else {
      LocalCounts(pair, i, conn, w.shut);
    }
    SameCounts(pair, i, CloserAt(w', pair), conn, conn', w'.shut);
    hide PairCounts;
  }

  lemma CloseKeepsOwnPair(w: World, who: Who, w': World)
    requires ProxyInv(w) && who in w.threads && w.threads[who].closing.At? && CloseStep(w, who, w.threads[who], w')
    ensures |w'.pairs| == |w.pairs| && PairOk(w', w.threads[who].closing.pair)
  {
    var i := w.threads[who].closing.pair;
    assert ThreadOk(w, who) && PairOk(w, i);
    if w.threads[who].closing.phase.AtLock? {
      MarkKeepsOwnPair(w, who, i, w');
    } else {
      ShutKeepsOwnPair(w, who, i, w');
    }
    hide ThreadOk, PairOk, CopiersOk, CloseStep;
  }

  lemma SameCounts(pair: Pair, i: nat, closer: Closing, conn: Thread, conn': Thread, shut: multiset<Socket>)
    requires conn'.pc == conn.pc
    ensures PairCounts(pair, i, closer, conn', shut) == PairCounts(pair, i, closer, conn, shut)
  {
  }

  lemma CloseKeepsCopiers(w: World, who: Who, w': World, j: nat)
    requires ProxyInv(w) && who in w.threads && w.threads[who].closing.At? && CloseStep(w, who, w.threads[who], w')
    requires j < |w.pairs|
    ensures ByConn(j) in w'.threads && CopiersOk(w', j)
  {
    assert ThreadOk(w, who) && PairOk(w, j) && CopiersOk(w, j);
    hide PairStages, PairCounts;
  }

  lemma CloseKeepsPairs(w: World, who: Who, w': World)
    requires ProxyInv(w) && who in w.threads && w.threads[who].closing.At? && CloseStep(w, who, w.threads[who], w')
    ensures |w'.pairs| == |w.pairs|
    ensures forall j | 0 <= j < |w'.pairs| :: PairOk(w', j) && CopiersOk(w', j)
  {
    var i := w.threads[who].closing.pair;
    assert ThreadOk(w, who);
    CloseKeepsOwnPair(w, who, w');
    CloseKeepsOwnThread(w, who, w');
    hide CopiersOk, PairStages, PairCounts, CloseStep, PairsGrow;
    forall j | 0 <= j < |w'.pairs| ensures PairOk(w', j) && CopiersOk(w', j) {
      CloseKeepsCopiers(w, who, w', j);
      if j != i {
        PairStays(w, w', who, j);
      }
    }
  }

  lemma CloseKeepsStage(w: World, who: Who, w': World)
    requires ByMain in w.threads && who in w.threads && StageOk(w) && ThreadOk(w, who)
    requires w.threads[who].closing.At? && CloseStep(w, who, w.threads[who], w')
    ensures ByMain in w'.threads && StageOk(w')
  {
    assert w'.threads[ByMain].pc == w.threads[ByMain].pc && |w'.pairs| == |w.pairs|;
    if ConnsDone(w) {
      assert !who.ByConn?;
      assert forall i | 0 <= i < |w.pairs| :: w'.threads[ByConn(i)] == w.threads[ByConn(i)];
    }
  }

  lemma CloseKeepsBounds(w: World, who: Who, w': World)
    requires who in w.threads && Bounded(w) && TenantsDiffer(w.pairs)
    requires w.threads[who].closing.At? && CloseStep(w, who, w.threads[who], w')
    ensures Bounded(w') && TenantsDiffer(w'.pairs)
  {
    var i := w.threads[who].closing.pair;
    assert w'.pairs == w.pairs || w'.pairs == w.pairs[i := w'.pairs[i]];
    assert w'.pairs[i].tenant == w.pairs[i].tenant;
  }

  lemma CloseKeepsInv(w: World, who: Who, w': World)
    requires ProxyInv(w) && who in w.threads && w.threads[who].closing.At? && CloseStep(w, who, w.threads[who], w')
    ensures ProxyInv(w')
  {
    assert ThreadOk(w, who);
    CloseKeepsThreads(w, who, w');
    CloseKeepsPairs(w, who, w');
    assert ThreadOk(w, who);
    CloseKeepsStage(w, who, w');
    CloseKeepsBounds(w, who, w');
    hide Bounded, StageOk, TenantsDiffer, ThreadOk, PairOk, CopiersOk, PairsGrow, CloseStep;
  }

  // ----- the main goroutine and the hook

  lemma RunnerGrows(w: World, who: Who, w': World)
    requires ByMain in w.threads && ByHook in w.threads && (who == ByMain || who == ByHook)
    requires if who == ByMain then MainStep(w, w.threads[who].pc, w') else HookStep(w, w.threads[who].pc, w')
    ensures PairsGrow(w, w')
  {
  }

  lemma RunnerKeepsThreads(w: World, who: Who, w': World)
    requires ProxyInv(w) && (who == ByMain || who == ByHook) && w.threads[who].closing.NotClosing?
    requires if who == ByMain then MainStep(w, w.threads[who].pc, w') else HookStep(w, w.threads[who].pc, w')
    ensures PairsGrow(w, w') && forall x | x in w'.threads :: ThreadOk(w', x)
  {
    assert ThreadOk(w, who);
    assert Bounded(w);
    RunnerGrows(w, who, w');
    hide PairOk, CopiersOk, PairsGrow, StageOk, TenantsDiffer;
    forall x | x in w'.threads ensures ThreadOk(w', x) {
      if x in w.threads && w'.threads[x] == w.threads[x] {
        ThreadStays(w, w', x);
      }
    }
  }

  lemma RunnerMovesAlone(w: World, who: Who, w': World)
    requires ByMain in w.threads && ByHook in w.threads
    requires (who == ByMain || who == ByHook) && w.threads[who].closing.NotClosing?
    requires if who == ByMain then MainStep(w, w.threads[who].pc, w') else HookStep(w, w.threads[who].pc, w')
    ensures |w.pairs| <= |w'.pairs| <= |w.pairs| + 1 && w'.pairs[..|w.pairs|] == w.pairs && w'.shut == w.shut
    ensures who in w'.threads && (w'.threads[who].closing.NotClosing? || w'.threads[who].closing.phase.AtLock?)
    ensures forall x | x in w.threads && x != who && x != ByConn(|w.pairs|) ::
              x in w'.threads && w'.threads[x].closing == w.threads[x].closing && (x != ByHook ==> w'.threads[x] == w.threads[x])
    ensures forall x | x in w'.threads && x !in w.threads :: x == ByConn(|w.pairs|)
    ensures |w'.pairs| > |w.pairs| ==>
              && ByConn(|w.pairs|) in w'.threads && w'.threads[ByConn(|w.pairs|)] == Calm(Dialing)
              && w'.pairs[|w.pairs|] == Pair(w'.pairs[|w.pairs|].tenant, false, false, false, ByMain)
  {
  }

  lemma RunnerKeepsPair(w: World, who: Who, w': World, j: nat)
    requires ProxyInv(w) && (who == ByMain || who == ByHook) && w.threads[who].closing.NotClosing?
    requires if who == ByMain then MainStep(w, w.threads[who].pc, w') else HookStep(w, w.threads[who].pc, w')
    requires j < |w.pairs|
    ensures j < |w'.pairs| && PairOk(w', j) && CopiersOk(w', j)
  {
    RunnerMovesAlone(w, who, w');
    assert PairOk(w, j) && CopiersOk(w, j);
    assert NoneBeyond(w);
    assert w'.pairs[..|w.pairs|][j] == w'.pairs[j];
    PairStays(w, w', who, j);
    hide PairOk, ThreadOk, MainStep, HookStep;
  }

  /** No goroutine belongs to a pair that does not exist yet. */
  ghost predicate NoneBeyond(w: World) {
    forall who | who in w.threads && (who.ByConn? || who.ByCopier?) :: who.pair < |w.pairs|
  }

  lemma FreshPair(w: World, who: Who, w': World, j: nat)
    requires ProxyInv(w) && (who == ByMain || who == ByHook) && w.threads[who].closing.NotClosing?
    requires if who == ByMain then MainStep(w, w.threads[who].pc, w') else HookStep(w, w.threads[who].pc, w')
    requires j == |w.pairs| < |w'.pairs|
    ensures PairOk(w', j) && CopiersOk(w', j)
  {
    RunnerMovesAlone(w, who, w');
    assert NoneBeyond(w);
    assert forall s | s in w.shut :: s.pair < |w.pairs|;
    hide ThreadOk, MainStep, HookStep;
  }

  lemma RunnerKeepsPairs(w: World, who: Who, w': World)
    requires ProxyInv(w) && (who == ByMain || who == ByHook) && w.threads[who].closing.NotClosing?
    requires if who == ByMain then MainStep(w, w.threads[who].pc, w') else HookStep(w, w.threads[who].pc, w')
    ensures forall j | 0 <= j < |w'.pairs| :: PairOk(w', j) && CopiersOk(w', j)
  {
    RunnerMovesAlone(w, who, w');
    hide MainStep, HookStep, ProxyInv, PairOk, CopiersOk;
    forall j | 0 <= j < |w'.pairs| ensures PairOk(w', j) && CopiersOk(w', j) {
      if j < |w.pairs| {
        RunnerKeepsPair(w, who, w', j);
      } else {
        FreshPair(w, who, w', j);
      }
    }
  }

  lemma RunnerKeepsStage(w: World, who: Who, w': World)
    requires ByMain in w.threads && ByHook in w.threads && StageOk(w) && Bounded(w) && TenantsDiffer(w.pairs)
    requires (who == ByMain || who == ByHook) && PcFits(who, w.threads[who].pc)
    requires if who == ByMain then MainStep(w, w.threads[who].pc, w') else HookStep(w, w.threads[who].pc, w')
    ensures ByMain in w'.threads && ByHook in w'.threads && StageOk(w')
  {
    hide TenantsDiffer, Bounded;
  }

  lemma RunnerKeepsBounds(w: World, who: Who, w': World)
    requires ByMain in w.threads && ByHook in w.threads && Bounded(w) && TenantsDiffer(w.pairs)
    requires (who == ByMain || who == ByHook) && PcFits(who, w.threads[who].pc)
    requires if who == ByMain then MainStep(w, w.threads[who].pc, w') else HookStep(w, w.threads[who].pc, w')
    ensures Bounded(w') && TenantsDiffer(w'.pairs)
  {
  }

  lemma RunnerKeepsInv(w: World, who: Who, w': World)
    requires ProxyInv(w) && (who == ByMain || who == ByHook) && w.threads[who].closing.NotClosing?
    requires if who == ByMain then MainStep(w, w.threads[who].pc, w') else HookStep(w, w.threads[who].pc, w')
    ensures ProxyInv(w')
  {
    RunnerKeepsThreads(w, who, w');
    RunnerKeepsPairs(w, who, w');
    assert PcFits(who, w.threads[who].pc) by { assert ThreadOk(w, who); }
    RunnerKeepsStage(w, who, w');
    RunnerKeepsBounds(w, who, w');
    hide Bounded, StageOk, TenantsDiffer, PairOk, CopiersOk, PairsGrow, ThreadOk, MainStep, HookStep;
  }

  // ----- connection goroutines and copiers

  /** The goroutine of pair i moves outside close: what it does to its own pair. */
  lemma ConnKeepsOwnPair(w: World, i: nat, w': World)
    requires i < |w.pairs| && PairOk(w, i) && CopiersOk(w, i) && ThreadOk(w, ByConn(i))
    requires w.threads[ByConn(i)].closing.NotClosing? && ConnStep(w, i, w.threads[ByConn(i)].pc, w')
    ensures |w'.pairs| == |w.pairs| && PairOk(w', i)
  {
    var pair, conn := w.pairs[i], w.threads[ByConn(i)];
    assert pair.closed && pair.closer == ByConn(i) ==> CloserAt(w, pair) == NotClosing;
    hide PcFits, ThreadOk;
  }

  lemma ConnGrows(w: World, i: nat, w': World)
    requires i < |w.pairs| && ByConn(i) in w.threads && PairStages(w.pairs[i], i, w.threads[ByConn(i)])
    requires ConnStep(w, i, w.threads[ByConn(i)].pc, w')
    ensures PairsGrow(w, w')
  {
  }

  /** The goroutine itself, and the copiers it may have started. */
  lemma ConnKeepsOwnThreads(w: World, i: nat, w': World, x: Who)
    requires i < |w.pairs| && ByConn(i) in w.threads && ThreadOk(w, ByConn(i)) && w.threads[ByConn(i)].closing.NotClosing?
    requires ConnStep(w, i, w.threads[ByConn(i)].pc, w')
    requires x in w'.threads && !(x in w.threads && w'.threads[x] == w.threads[x])
    ensures ThreadOk(w', x)
  {
  }

  lemma ConnKeepsThreads(w: World, i: nat, w': World)
    requires ProxyInv(w) && i < |w.pairs| && ByConn(i) in w.threads && w.threads[ByConn(i)].closing.NotClosing?
    requires ConnStep(w, i, w.threads[ByConn(i)].pc, w')
    ensures PairsGrow(w, w') && forall x | x in w'.threads :: ThreadOk(w', x)
  {
    assert PairStages(w.pairs[i], i, w.threads[ByConn(i)]) by { assert PairOk(w, i); }
    ConnGrows(w, i, w');
    hide PairOk, CopiersOk, WorldOk, PairsGrow, ConnStep, ThreadOk;
    forall x | x in w'.threads ensures ThreadOk(w', x) {
      if x in w.threads && w'.threads[x] == w.threads[x] {
        ThreadStays(w, w', x);
      } else {
        ConnKeepsOwnThreads(w, i, w', x);
      }
    }
  }

  /** A connection goroutine touches no thread but its own and, once, its copiers, which did not exist before. */
  lemma ConnMovesAlone(w: World, i: nat, w': World)
    requires i < |w.pairs| && ByConn(i) in w.threads && CopiersOk(w, i) && w.threads[ByConn(i)].closing.NotClosing?
    requires ConnStep(w, i, w.threads[ByConn(i)].pc, w')
    ensures ByConn(i) in w'.threads && |w'.pairs| == |w.pairs|
    ensures !IsShutting(w'.threads[ByConn(i)].closing, i)
    ensures forall x | x in w.threads && x != ByConn(i) :: x in w'.threads && w'.threads[x] == w.threads[x]
    ensures forall x | x in w'.threads && x !in w.threads :: x.ByCopier? && x.pair == i
    ensures forall j | 0 <= j < |w.pairs| && j != i ::
              w'.pairs[j] == w.pairs[j] && w'.shut[Tenant(j)] == w.shut[Tenant(j)] && w'.shut[Local(j)] == w.shut[Local(j)]
    ensures w'.threads[ByConn(i)].closing.NotClosing? || w'.threads[ByConn(i)].closing == At(i, AtLock)
  {
  }

  /** The other pairs. */
  lemma ConnKeepsOtherPair(w: World, i: nat, w': World, j: nat)
    requires ProxyInv(w) && i < |w.pairs| && j < |w.pairs| && j != i
    requires ByConn(i) in w.threads && w.threads[ByConn(i)].closing.NotClosing?
    requires ConnStep(w, i, w.threads[ByConn(i)].pc, w')
    ensures j < |w'.pairs| && PairOk(w', j) && CopiersOk(w', j)
  {
    assert PairOk(w, j) && CopiersOk(w, j) && CopiersOk(w, i);
    ConnMovesAlone(w, i, w');
    PairStays(w, w', ByConn(i), j);
    hide PairOk, ThreadOk, ConnStep;
  }

  lemma ConnKeepsOwnCopiers(w: World, i: nat, w': World)
    requires i < |w.pairs| && ByConn(i) in w.threads && CopiersOk(w, i) && w.threads[ByConn(i)].closing.NotClosing?
    requires ConnStep(w, i, w.threads[ByConn(i)].pc, w')
    ensures ByConn(i) in w'.threads && CopiersOk(w', i)
  {
  }

  lemma ConnKeepsStage(w: World, i: nat, w': World)
    requires i < |w.pairs| && ByMain in w.threads && ByHook in w.threads && ByConn(i) in w.threads && StageOk(w)
    requires w.threads[ByConn(i)].closing.NotClosing? && ConnStep(w, i, w.threads[ByConn(i)].pc, w') && CopiersOk(w, i)
    ensures ByMain in w'.threads && ByHook in w'.threads && StageOk(w')
  {
    ConnMovesAlone(w, i, w');
    if ConnsDone(w) {
      assert false;
    }
  }

  lemma ConnKeepsBounds(w: World, i: nat, w': World)
    requires i < |w.pairs| && ByConn(i) in w.threads && Bounded(w) && TenantsDiffer(w.pairs)
    requires ConnStep(w, i, w.threads[ByConn(i)].pc, w')
    ensures Bounded(w') && TenantsDiffer(w'.pairs)
  {
    assert w'.pairs == w.pairs || w'.pairs == w.pairs[i := w'.pairs[i]];
    assert w'.pairs[i].tenant == w.pairs[i].tenant;
  }

  lemma ConnKeepsInv(w: World, i: nat, w': World)
    requires ProxyInv(w) && i < |w.pairs| && ByConn(i) in w.threads && w.threads[ByConn(i)].closing.NotClosing?
    requires ConnStep(w, i, w.threads[ByConn(i)].pc, w')
    ensures ProxyInv(w')
  {
    assert PairOk(w, i) && CopiersOk(w, i) && ThreadOk(w, ByConn(i));
    ConnKeepsOwnPair(w, i, w');
    ConnKeepsOwnCopiers(w, i, w');
    ConnKeepsThreads(w, i, w');
    ConnKeepsStage(w, i, w');
    ConnKeepsBounds(w, i, w');
    forall j | 0 <= j < |w'.pairs| ensures PairOk(w', j) && CopiersOk(w', j) {
      if j != i {
        ConnKeepsOtherPair(w, i, w', j);
      }
    }
    hide PairOk, CopiersOk, PairsGrow, ThreadOk, Bounded, StageOk, TenantsDiffer, ConnStep;
  }

  lemma CopierKeepsWorld(w: World, who: Who, w': World)
    requires ByMain in w.threads && WorldOk(w) && who in w.threads && who.ByCopier?
    requires CopierStep(w, who, who.pair, w.threads[who].pc, w')
    ensures ByMain in w'.threads && WorldOk(w')
  {
  }

  lemma CopierKeepsInv(w: World, who: Who, w': World)
    requires ProxyInv(w) && who in w.threads && who.ByCopier? && w.threads[who].closing.NotClosing?
    requires CopierStep(w, who, who.pair, w.threads[who].pc, w')
    ensures ProxyInv(w')
  {
    assert ThreadOk(w, who);
    assert PairsGrow(w, w');
    hide PairOk, WorldOk, PairsGrow;
    assert WorldOk(w') by { CopierKeepsWorld(w, who, w'); }
    forall j | 0 <= j < |w'.pairs| ensures PairOk(w', j) && CopiersOk(w', j) {
      assert PairOk(w, j) && CopiersOk(w, j);
      PairStays(w, w', who, j);
    }
    forall x | x in w'.threads ensures ThreadOk(w', x) {
      if x != who {
        ThreadStays(w, w', x);
      }
    }
  }

  lemma NextProxy(w: World, a: Action, w': World)
    requires ProxyInv(w) && Next(w, a, w')
    ensures ProxyInv(w')
  {
    match a
    case Cancel =>
      assert forall i | 0 <= i < |w.pairs| :: PairOk(w, i) && CopiersOk(w, i) ==> PairOk(w', i) && CopiersOk(w', i);
      assert forall x | x in w.threads :: ThreadOk(w, x) ==> ThreadOk(w', x);
    case Move(who) =>
      if w.threads[who].closing.At? {
        CloseKeepsInv(w, who, w');
      } else {
        match who
        case ByMain => RunnerKeepsInv(w, who, w');
        case ByHook => RunnerKeepsInv(w, who, w');
        case ByConn(i) => ConnKeepsInv(w, i, w');
        case ByCopier(_, _) => CopierKeepsInv(w, who, w');
      }
      hide ProxyInv, CloseStep, MainStep, HookStep, ConnStep, CopierStep;
  }

  lemma {:induction false} RunProxyInv(ws: seq<World>, actions: seq<Action>, i: nat)
    requires IsRun(ws, actions) && i < |ws|
    ensures ProxyInv(ws[i])
  {
    if i > 0 {
      RunProxyInv(ws, actions, i - 1);
      NextProxy(ws[i - 1], actions[i - 1], ws[i]);
      hide ProxyInv, Next;
    }
  }
}
