/** The UDP proxy's threads over one flow table: forward calls, one response reader per flow, the cleanup loop and
    close, interleaved one lock section or socket operation at a time. */
module UdpFlows {
  import opened UdpTable

  /** A goroutine inside forward or close, or waiting for the manager's goroutines after close. */
  datatype CallPc =
    | ForwardLock(frame: Frame)
    | ForwardWrite(flow: nat)
    | RemoveLock(flow: nat)
    | RemoveClose(flow: nat)
    | CloseLock
    | CloseSockets(rest: set<nat>)
    | CloseReturned
    | Waited
    | Returned

  datatype ReaderPc = Reading | ReadLock | Sending(frame: Frame) | ReaderRemove | ReaderClose | ReaderDone

  datatype CleanerPc = Ticking | CleanerClose(rest: set<nat>) | CleanerDone

  /** shut is the set of sockets closed so far; readers[f] reads from the socket of flow f. */
  datatype World = World(
    table: Table,
    shut: set<nat>,
    ctxDone: bool,
    calls: map<nat, CallPc>,
    readers: seq<ReaderPc>,
    cleaner: CleanerPc)

  datatype Action = Cancel | Call(id: nat) | CallMove(id: nat) | ReaderMove(flow: nat) | CleanerMove

  ghost predicate Init(w: World) {
    w == World(EMPTY, {}, false, map[], [], Ticking)
  }

  ghost predicate Next(w: World, a: Action, w': World) {
    match a
    case Cancel => w' == w.(ctxDone := true)
    case Call(id) =>
      && id !in w.calls && id in w'.calls
      && (w'.calls[id].ForwardLock? || w'.calls[id].CloseLock?)
      && w' == w.(calls := w.calls[id := w'.calls[id]])
    case CallMove(id) =>
      && id in w.calls && id in w'.calls
      && var p, p' := w.calls[id], w'.calls[id];
         && w' == w.(table := w'.table, shut := w'.shut, calls := w.calls[id := p'],
                     readers := if |w'.table.objects| > |w.table.objects| then w.readers + [Reading] else w.readers)
         && (p.CloseReturned? ==> AllDone(w))
         && CallStep(w.table, w.shut, p, w'.table, w'.shut, p')
    case ReaderMove(f) =>
      && f < |w.readers| && f < |w'.readers| && f < |w.table.objects|
      && w' == w.(table := w'.table, shut := w'.shut, readers := w.readers[f := w'.readers[f]])
      && ReaderStep(f, w.table, w.shut, w.readers[f], w'.table, w'.shut, w'.readers[f])
    case CleanerMove =>
      && w' == w.(table := w'.table, shut := w'.shut, cleaner := w'.cleaner)
      && CleanerStep(w.ctxDone, w.table, w.shut, w.cleaner, w'.table, w'.shut, w'.cleaner)
  }

  ghost predicate IsRun(ws: seq<World>, actions: seq<Action>) {
    && |ws| == |actions| + 1
    && Init(ws[0])
    && forall i | 0 <= i < |actions| :: Next(ws[i], actions[i], ws[i + 1])
  }

  /** The wait group is at zero. */
  predicate AllDone(w: World) {
    w.cleaner.CleanerDone? && forall f | 0 <= f < |w.readers| :: w.readers[f].ReaderDone?
  }

  ghost predicate CallStep(t: Table, shut: set<nat>, p: CallPc, t': Table, shut': set<nat>, p': CallPc) {
    match p
    case ForwardLock(frame) =>
      && TableOk(t) && shut' == shut
      && exists dialed: bool, now: int ::
           var (after, r) := ForwardLocked(t, frame, dialed, now);
           && t' == after
           && p' == if r.Reused? || r.Inserted? then ForwardWrite(r.flow) else Returned
    case ForwardWrite(f) => t' == t && shut' == shut && (p' == Returned || p' == RemoveLock(f))
    case RemoveLock(f) => f < |t.objects| && t' == RemoveLocked(t, f) && shut' == shut && p' == RemoveClose(f)
    case RemoveClose(f) => t' == t && shut' == shut + {f} && p' == Returned
    case CloseLock =>
      && shut' == shut && t' == CloseLocked(t).0
      && p' == if t.closed then CloseReturned else CloseSockets(CloseLocked(t).1)
    case CloseSockets(rest) =>
      && t' == t
      && (if rest == {} then shut' == shut && p' == CloseReturned
          else exists f | f in rest :: shut' == shut + {f} && p' == CloseSockets(rest - {f}))
    case CloseReturned => t' == t && shut' == shut && p' == Waited
    case _ => false
  }

  ghost predicate ReaderStep(f: nat, t: Table, shut: set<nat>, p: ReaderPc,
                             t': Table, shut': set<nat>, p': ReaderPc)
    requires f < |t.objects|
  {
    match p
    case Reading => t' == t && shut' == shut && (p' == ReadLock || p' == ReaderRemove)
    case ReadLock =>
      && shut' == shut
      && exists now: int ::
           var (after, frame) := ReadLocked(t, f, now);
           t' == after && p' == if frame.Some? then Sending(frame.value) else ReaderDone
    case Sending(_) => t' == t && shut' == shut && (p' == Reading || p' == ReaderRemove)
    case ReaderRemove => t' == RemoveLocked(t, f) && shut' == shut && p' == ReaderClose
    case ReaderClose => t' == t && shut' == shut + {f} && p' == ReaderDone
    case ReaderDone => false
  }

  ghost predicate CleanerStep(ctxDone: bool, t: Table, shut: set<nat>, p: CleanerPc,
                              t': Table, shut': set<nat>, p': CleanerPc) {
    match p
    case Ticking =>
      && shut' == shut
      && ((ctxDone && t' == t && p' == CleanerDone)
          || (TableOk(t) && exists now: int :: (t', p') == (ExpireLocked(t, now).0, CleanerClose(ExpireLocked(t, now).1))))
    case CleanerClose(rest) =>
      && t' == t
      && (if rest == {} then shut' == shut && p' == Ticking
          else exists f | f in rest :: shut' == shut + {f} && p' == CleanerClose(rest - {f}))
    case CleanerDone => false
  }

  // ----- who is about to close which socket

  function CallOwns(p: CallPc): set<nat> {
    match p
    case RemoveClose(f) => {f}
    case CloseSockets(rest) => rest
    case _ => {}
  }

  function ReaderOwns(f: nat, p: ReaderPc): set<nat> { if p.ReaderClose? then {f} else {} }

  function CleanerOwns(p: CleanerPc): set<nat> { if p.CleanerClose? then p.rest else {} }

  predicate CallOwnsIt(w: World, id: nat, f: nat) { id in w.calls && f in CallOwns(w.calls[id]) }

  ghost predicate AboutToClose(w: World, f: nat) {
    || (exists id :: CallOwnsIt(w, id, f))
    || (f < |w.readers| && w.readers[f].ReaderClose?)
    || f in CleanerOwns(w.cleaner)
  }

  /** These flows exist and have left the table. */
  ghost predicate Gone(t: Table, flows: set<nat>) {
    forall f | f in flows :: f < |t.objects| && !InTable(t, f)
  }

  ghost predicate CallOk(t: Table, p: CallPc) {
    && Gone(t, CallOwns(p))
    && (p.ForwardWrite? || p.RemoveLock? ==> p.flow < |t.objects|)
    && (p.CloseSockets? || p.CloseReturned? || p.Waited? ==> t.closed)
  }

  ghost predicate ReaderOk(t: Table, f: nat, p: ReaderPc) {
    && f < |t.objects|
    && (p.ReaderClose? || p.ReaderDone? ==> !InTable(t, f))
    && (p.Sending? ==> KeyOf(p.frame) == t.objects[f].key)
  }

  ghost predicate FlowInv(w: World) {
    && TableOk(w.table)
    && |w.readers| == |w.table.objects|
    && Gone(w.table, w.shut)
    && Gone(w.table, CleanerOwns(w.cleaner))
    && (forall id | id in w.calls :: CallOk(w.table, w.calls[id]))
    && (forall f | 0 <= f < |w.readers| :: ReaderOk(w.table, f, w.readers[f]))
  }

  /** Every socket is in the table, closed, or about to be closed. */
  ghost predicate Covered(w: World) {
    forall f: nat | f < |w.table.objects| :: InTable(w.table, f) || f in w.shut || AboutToClose(w, f)
  }

  /** What one step keeps safe: sockets that the table, shut or the moving thread accounted for, and new ones. */
  ghost predicate Handover(t: Table, shut: set<nat>, owned: set<nat>, t': Table, shut': set<nat>, owned': set<nat>) {
    && shut <= shut'
    && forall f: nat | f < |t'.objects| && (InTable(t, f) || f in owned || f >= |t.objects|) ::
         InTable(t', f) || f in shut' || f in owned'
  }

  // ----- local steps

  /** Flows leave the table and the moving thread is now about to close their sockets. */
  lemma TakeOut(t: Table, shut: set<nat>, t': Table, gone: set<nat>)
    requires Gone(t, shut) && Frozen(t, t') && |t'.objects| == |t.objects|
    requires forall g: nat :: InTable(t', g) <==> InTable(t, g) && g !in gone
    requires forall g: nat | g in gone :: g < |t.objects|
    ensures Gone(t', shut) && Gone(t', gone) && Handover(t, shut, {}, t', shut, gone)
  {
    StillGone(t, t', shut);
    hide InTable, Frozen;
  }

  /** The moving thread closes one of the sockets that it owns. */
  lemma ShutOne(t: Table, shut: set<nat>, owned: set<nat>, f: nat)
    requires Gone(t, shut) && Gone(t, owned) && f in owned
    ensures Gone(t, shut + {f}) && Gone(t, owned - {f}) && Handover(t, shut, owned, t, shut + {f}, owned - {f})
  {
    hide InTable;
  }

  lemma Untouched(t: Table, shut: set<nat>, owned: set<nat>)
    ensures Frozen(t, t) && Handover(t, shut, owned, t, shut, owned)
  {
  }

  lemma ForwardMoves(t: Table, shut: set<nat>, p: CallPc, t': Table, shut': set<nat>, p': CallPc)
    requires TableOk(t) && Gone(t, shut) && p.ForwardLock? && CallStep(t, shut, p, t', shut', p')
    ensures TableOk(t') && Frozen(t, t') && Gone(t', shut') && CallOk(t', p') && CallOwns(p') == {}
    ensures Handover(t, shut, {}, t', shut', {})
    ensures |t'.objects| == |t.objects| || (|t'.objects| == |t.objects| + 1 && !t.closed)
  {
    var dialed, now :| var (after, r) := ForwardLocked(t, p.frame, dialed, now);
                       && t' == after
                       && p' == if r.Reused? || r.Inserted? then ForwardWrite(r.flow) else Returned;
    ForwardKeeps(t, p.frame, dialed, now);
    StillGone(t, t', shut);
    Inserts(t, shut, p.frame, dialed, now);
    hide TableOk, InTable, ForwardLocked, Frozen, Handover;
  }

  lemma RemoveMoves(t: Table, shut: set<nat>, p: CallPc, t': Table, shut': set<nat>, p': CallPc)
    requires TableOk(t) && Gone(t, shut) && (p.RemoveLock? || p.CloseLock?) && CallStep(t, shut, p, t', shut', p')
    ensures TableOk(t') && Frozen(t, t') && Gone(t', shut') && CallOk(t', p') && |t'.objects| == |t.objects|
    ensures Handover(t, shut, {}, t', shut', CallOwns(p'))
  {
    if p.RemoveLock? {
      RemoveKeeps(t, p.flow);
      TakeOut(t, shut, t', {p.flow});
    } else {
      CloseKeeps(t);
      CloseAgain(t);
      Untouched(t, shut, {});
      if !t.closed {
        TakeOut(t, shut, t', CloseLocked(t).1);
      }
    }
    hide TableOk, InTable, RemoveLocked, CloseLocked, Frozen, Handover;
  }

  lemma SocketMoves(t: Table, shut: set<nat>, p: CallPc, t': Table, shut': set<nat>, p': CallPc)
    requires Gone(t, shut) && CallOk(t, p) && CallStep(t, shut, p, t', shut', p')
    requires !p.ForwardLock? && !p.RemoveLock? && !p.CloseLock?
    ensures t' == t && Frozen(t, t') && Gone(t', shut') && CallOk(t', p')
    ensures Handover(t, shut, CallOwns(p), t', shut', CallOwns(p'))
  {
    Untouched(t, shut, CallOwns(p));
    if p.RemoveClose? {
      ShutOne(t, shut, {p.flow}, p.flow);
    } else if p.CloseSockets? && p.rest != {} {
      var f :| f in p.rest && shut' == shut + {f} && p' == CloseSockets(p.rest - {f});
      ShutOne(t, shut, p.rest, f);
    }
    hide InTable, Frozen, Handover;
  }

  lemma CallMoves(t: Table, shut: set<nat>, p: CallPc, t': Table, shut': set<nat>, p': CallPc)
    requires TableOk(t) && Gone(t, shut) && CallOk(t, p) && CallStep(t, shut, p, t', shut', p')
    ensures TableOk(t') && Frozen(t, t') && Gone(t', shut') && CallOk(t', p')
    ensures Handover(t, shut, CallOwns(p), t', shut', CallOwns(p'))
    ensures |t'.objects| == |t.objects| || (|t'.objects| == |t.objects| + 1 && !t.closed)
  {
    if p.ForwardLock? {
      ForwardMoves(t, shut, p, t', shut', p');
    } else if p.RemoveLock? || p.CloseLock? {
      RemoveMoves(t, shut, p, t', shut', p');
    } else {
      SocketMoves(t, shut, p, t', shut', p');
    }
    hide TableOk, Frozen, Handover, Gone, CallStep, CallOk;
  }

  lemma CloseAgain(t: Table)
    ensures t.closed ==> CloseLocked(t).0 == t
    ensures forall g: nat | g in CloseLocked(t).1 && InTable(t, g) :: g < |t.objects|
  {
  }

  /** A flow that forward makes is in the table. */
  lemma Inserts(t: Table, shut: set<nat>, frame: Frame, dialed: bool, now: int)
    requires TableOk(t)
    ensures var (t', r) := ForwardLocked(t, frame, dialed, now);
            && Handover(t, shut, {}, t', shut, {})
            && (r.Reused? || r.Inserted? ==> r.flow < |t'.objects|)
  {
    ForwardKeeps(t, frame, dialed, now);
    var (t', r) := ForwardLocked(t, frame, dialed, now);
    assert InTable(t', |t.objects|) || !r.Inserted?;
    assert r.Reused? ==> InTable(t', r.flow);
    hide TableOk, ForwardLocked, Frozen;
  }

  lemma ReaderMoves(f: nat, t: Table, shut: set<nat>, p: ReaderPc, t': Table, shut': set<nat>, p': ReaderPc)
    requires TableOk(t) && Gone(t, shut) && ReaderOk(t, f, p) && ReaderStep(f, t, shut, p, t', shut', p')
    ensures TableOk(t') && Frozen(t, t') && Gone(t', shut') && ReaderOk(t', f, p') && |t'.objects| == |t.objects|
    ensures Handover(t, shut, ReaderOwns(f, p), t', shut', ReaderOwns(f, p'))
  {
    if p.ReadLock? {
      ReadMoves(f, t, shut, p, t', shut', p');
    } else if p.ReaderRemove? {
      RemoveKeeps(t, f);
      TakeOut(t, shut, t', {f});
    } else if p.ReaderClose? {
      assert Gone(t, {f});
      Untouched(t, shut, {});
      ShutOne(t, shut, {f}, f);
      assert {f} - {f} == {};
    } else {
      Untouched(t, shut, {});
    }
    hide TableOk, InTable, ReadLocked, RemoveLocked, Frozen, Handover, Gone;
  }

  lemma ReadMoves(f: nat, t: Table, shut: set<nat>, p: ReaderPc, t': Table, shut': set<nat>, p': ReaderPc)
    requires TableOk(t) && Gone(t, shut) && ReaderOk(t, f, p) && p.ReadLock? && ReaderStep(f, t, shut, p, t', shut', p')
    ensures TableOk(t') && Frozen(t, t') && Gone(t', shut') && ReaderOk(t', f, p') && |t'.objects| == |t.objects|
    ensures !p'.ReaderClose? && Handover(t, shut, {}, t', shut', {})
  {
    var now :| var (after, frame) := ReadLocked(t, f, now);
               t' == after && p' == if frame.Some? then Sending(frame.value) else ReaderDone;
    ReadKeeps(t, f, now);
    StillGone(t, t', shut);
    TakeOut(t, shut, t', {});
    hide TableOk, InTable, ReadLocked, Frozen, Handover, Gone;
  }

  lemma CleanerMoves(ctxDone: bool, t: Table, shut: set<nat>, p: CleanerPc, t': Table, shut': set<nat>, p': CleanerPc)
    requires TableOk(t) && Gone(t, shut) && Gone(t, CleanerOwns(p)) && CleanerStep(ctxDone, t, shut, p, t', shut', p')
    ensures TableOk(t') && Frozen(t, t') && Gone(t', shut') && Gone(t', CleanerOwns(p')) && |t'.objects| == |t.objects|
    ensures Handover(t, shut, CleanerOwns(p), t', shut', CleanerOwns(p'))
  {
    Untouched(t, shut, CleanerOwns(p));
    if p.Ticking? && !p'.CleanerDone? {
      var now :| (t', p') == (ExpireLocked(t, now).0, CleanerClose(ExpireLocked(t, now).1));
      ExpireKeeps(t, now);
      assert forall g: nat | g in ExpireLocked(t, now).1 :: InTable(t, g) && g < |t.objects|;
      TakeOut(t, shut, t', ExpireLocked(t, now).1);
      hide TableOk, InTable, ExpireLocked, Frozen, Handover, Gone;
    } else {
      if p.CleanerClose? && p.rest != {} {
        var f :| f in p.rest && shut' == shut + {f} && p' == CleanerClose(p.rest - {f});
        ShutOne(t, shut, p.rest, f);
      }
      hide TableOk, InTable, Frozen, Handover;
    }
  }

  // ----- what the other threads know stays true

  lemma StillGone(t: Table, t': Table, flows: set<nat>)
    requires Frozen(t, t') && Gone(t, flows)
    ensures Gone(t', flows)
  {
  }

  lemma CallStays(t: Table, t': Table, p: CallPc)
    requires Frozen(t, t') && CallOk(t, p)
    ensures CallOk(t', p)
  {
    StillGone(t, t', CallOwns(p));
  }

  lemma ReaderStays(t: Table, t': Table, f: nat, p: ReaderPc)
    requires Frozen(t, t') && ReaderOk(t, f, p)
    ensures ReaderOk(t', f, p)
  {
  }

  /** What a world keeps when its table moves on. */
  lemma OthersStay(w: World, t': Table)
    requires FlowInv(w) && Frozen(w.table, t')
    ensures Gone(t', CleanerOwns(w.cleaner))
    ensures forall id | id in w.calls :: CallOk(t', w.calls[id])
    ensures forall f | 0 <= f < |w.readers| :: ReaderOk(t', f, w.readers[f])
  {
    StillGone(w.table, t', CleanerOwns(w.cleaner));
    forall id | id in w.calls ensures CallOk(t', w.calls[id]) { CallStays(w.table, t', w.calls[id]); }
    forall f | 0 <= f < |w.readers| ensures ReaderOk(t', f, w.readers[f]) { ReaderStays(w.table, t', f, w.readers[f]); }
  }

  lemma CallKeepsFlows(w: World, id: nat, w': World)
    requires FlowInv(w) && Next(w, CallMove(id), w')
    ensures FlowInv(w') && Frozen(w.table, w'.table)
  {
    CallMoves(w.table, w.shut, w.calls[id], w'.table, w'.shut, w'.calls[id]);
    OthersStay(w, w'.table);
    hide CallStep, CallOk, InTable, TableOk, Gone, Frozen, Handover;
    var n := |w.table.objects|;
    if |w'.table.objects| > n {
      NewReader(w'.table, n);
    }
  }

  lemma NewReader(t: Table, f: nat)
    requires f < |t.objects|
    ensures ReaderOk(t, f, Reading)
  {
  }

  lemma ReaderKeepsFlows(w: World, f: nat, w': World)
    requires FlowInv(w) && Next(w, ReaderMove(f), w')
    ensures FlowInv(w') && Frozen(w.table, w'.table)
  {
    ReaderMoves(f, w.table, w.shut, w.readers[f], w'.table, w'.shut, w'.readers[f]);
    OthersStay(w, w'.table);
    hide ReaderStep, CallOk, ReaderOk, InTable, TableOk, Gone, Frozen, Handover;
  }

  lemma CleanerKeepsFlows(w: World, w': World)
    requires FlowInv(w) && Next(w, CleanerMove, w')
    ensures FlowInv(w') && Frozen(w.table, w'.table)
  {
    CleanerMoves(w.ctxDone, w.table, w.shut, w.cleaner, w'.table, w'.shut, w'.cleaner);
    OthersStay(w, w'.table);
    hide CleanerStep, CallOk, ReaderOk, InTable, TableOk, Gone, Frozen, Handover;
  }

  lemma NextFlows(w: World, a: Action, w': World)
    requires FlowInv(w) && Next(w, a, w')
    ensures FlowInv(w') && Frozen(w.table, w'.table)
  {
    Untouched(w.table, {}, {});
    match a
    case Cancel =>
      hide InTable, TableOk, Frozen, Gone;
    case Call(id) =>
      assert Gone(w.table, {});
      hide InTable, TableOk, Frozen, Gone;
    case CallMove(id) =>
      CallKeepsFlows(w, id, w');
      hide FlowInv, Next;
    case ReaderMove(f) =>
      ReaderKeepsFlows(w, f, w');
      hide FlowInv, Next;
    case CleanerMove =>
      CleanerKeepsFlows(w, w');
      hide FlowInv, Next;
  }

  lemma CallCovers(w: World, id: nat, w': World)
    requires FlowInv(w) && Covered(w) && Next(w, CallMove(id), w')
    ensures Covered(w')
  {
    CallMoves(w.table, w.shut, w.calls[id], w'.table, w'.shut, w'.calls[id]);
    hide CallStep, FlowInv, TableOk, InTable, Gone, Frozen, CallOk, CallOwns;
    forall f: nat | f < |w'.table.objects| ensures InTable(w'.table, f) || f in w'.shut || AboutToClose(w', f) {
      if other :| other != id && CallOwnsIt(w, other, f) {
        assert CallOwnsIt(w', other, f);
      } else if f in CallOwns(w'.calls[id]) {
        assert CallOwnsIt(w', id, f);
      }
    }
  }

  /** The calls are as they were, so what they own is covered still. */
  lemma SameCalls(w: World, w': World, f: nat)
    requires w'.calls == w.calls && exists id :: CallOwnsIt(w, id, f)
    ensures exists id :: CallOwnsIt(w', id, f)
  {
    var id :| CallOwnsIt(w, id, f);
    assert CallOwnsIt(w', id, f);
  }

  lemma ReaderCovers(w: World, r: nat, w': World)
    requires FlowInv(w) && Covered(w) && Next(w, ReaderMove(r), w')
    ensures Covered(w')
  {
    ReaderMoves(r, w.table, w.shut, w.readers[r], w'.table, w'.shut, w'.readers[r]);
    hide ReaderStep, FlowInv, TableOk, InTable, Gone, Frozen, ReaderOk, CallOwnsIt;
    forall f: nat | f < |w'.table.objects| ensures InTable(w'.table, f) || f in w'.shut || AboutToClose(w', f) {
      if exists id :: CallOwnsIt(w, id, f) {
        SameCalls(w, w', f);
      }
    }
  }

  lemma CleanerCovers(w: World, w': World)
    requires FlowInv(w) && Covered(w) && Next(w, CleanerMove, w')
    ensures Covered(w')
  {
    CleanerMoves(w.ctxDone, w.table, w.shut, w.cleaner, w'.table, w'.shut, w'.cleaner);
    hide CleanerStep, FlowInv, TableOk, InTable, Gone, Frozen, CallOwnsIt;
    forall f: nat | f < |w'.table.objects| ensures InTable(w'.table, f) || f in w'.shut || AboutToClose(w', f) {
      if exists id :: CallOwnsIt(w, id, f) {
        SameCalls(w, w', f);
      }
    }
  }

  lemma NextCovers(w: World, a: Action, w': World)
    requires FlowInv(w) && Covered(w) && Next(w, a, w')
    ensures Covered(w')
  {
    match a
    case CallMove(id) =>
      CallCovers(w, id, w');
      hide FlowInv, Covered, Next;
    case ReaderMove(f) =>
      ReaderCovers(w, f, w');
      hide FlowInv, Covered, Next;
    case CleanerMove =>
      CleanerCovers(w, w');
      hide FlowInv, Covered, Next;
    case _ =>
      hide FlowInv, InTable;
      assert forall id, f :: CallOwnsIt(w, id, f) ==> CallOwnsIt(w', id, f);
  }

  lemma {:induction false} RunFlowInv(ws: seq<World>, actions: seq<Action>, i: nat)
    requires IsRun(ws, actions) && i < |ws|
    ensures FlowInv(ws[i]) && Covered(ws[i])
  {
    if i > 0 {
      RunFlowInv(ws, actions, i - 1);
      NextFlows(ws[i - 1], actions[i - 1], ws[i]);
      NextCovers(ws[i - 1], actions[i - 1], ws[i]);
      hide FlowInv, Covered, Next, Frozen;
    }
  }

  // ----- main results

  /** The table holds at most 1024 flows, each under its own key and with a matching reply relay and flow id, and none
      once it is closed. */
  lemma TableIsBounded(ws: seq<World>, actions: seq<Action>, i: nat)
    requires IsRun(ws, actions) && i < |ws|
    ensures var t := ws[i].table;
            && |t.flows| <= 1024
            && (t.closed ==> t.flows == map[])
            && forall k | k in t.flows ::
                 t.flows[k] < |t.objects| && t.objects[t.flows[k]].key == k == KeyOf(t.objects[t.flows[k]].frame)
  {
    RunFlowInv(ws, actions, i);
  }

  lemma {:induction false} StaysFrozen(ws: seq<World>, actions: seq<Action>, i: nat, j: nat)
    requires IsRun(ws, actions) && i <= j < |ws|
    ensures Frozen(ws[i].table, ws[j].table)
  {
    if i < j {
      StaysFrozen(ws, actions, i, j - 1);
      RunFlowInv(ws, actions, j - 1);
      NextFlows(ws[j - 1], actions[j - 1], ws[j]);
      FrozenTransitive(ws[i].table, ws[j - 1].table, ws[j].table);
      hide FlowInv, Next, Frozen;
    }
  }

  lemma FrozenTransitive(a: Table, b: Table, c: Table)
    requires Frozen(a, b) && Frozen(b, c)
    ensures Frozen(a, c)
  {
  }

  /** Once closed the table is closed and empty for good, and a flow that has left it never returns and is never
      written again, whatever happens under its key afterwards. */
  lemma GoneForGood(ws: seq<World>, actions: seq<Action>, i: nat, j: nat, f: nat)
    requires IsRun(ws, actions) && i <= j < |ws|
    ensures ws[i].table.closed ==> ws[j].table.closed && ws[j].table.flows == map[]
    ensures f < |ws[i].table.objects| && !InTable(ws[i].table, f) ==>
              f < |ws[j].table.objects| && !InTable(ws[j].table, f) && ws[j].table.objects[f] == ws[i].table.objects[f]
  {
    StaysFrozen(ws, actions, i, j);
    TableIsBounded(ws, actions, j);
  }

  /** At every moment each dialled socket is in the table, closed, or about to be closed by some thread; one in the
      table is neither of the other two. */
  lemma EverySocketIsAccountedFor(ws: seq<World>, actions: seq<Action>, i: nat, f: nat)
    requires IsRun(ws, actions) && i < |ws| && f < |ws[i].table.objects|
    ensures InTable(ws[i].table, f) <==> !(f in ws[i].shut || AboutToClose(ws[i], f))
  {
    RunFlowInv(ws, actions, i);
    var w := ws[i];
    if exists id :: CallOwnsIt(w, id, f) {
      var id :| CallOwnsIt(w, id, f);
      assert CallOk(w.table, w.calls[id]);
    }
    assert ReaderOk(w.table, f, w.readers[f]);
    hide InTable, TableOk;
  }

  /** A flow leaves the table only by its own removal, by a cleanup tick, or by close. So removing an old flow
      never evicts the successor that has taken over its key. */
  lemma OnlyItsOwnRemovalEvicts(ws: seq<World>, actions: seq<Action>, i: nat, f: nat)
    requires IsRun(ws, actions) && i + 1 < |ws| && InTable(ws[i].table, f) && !InTable(ws[i + 1].table, f)
    ensures match actions[i]
            case CallMove(id) => id in ws[i].calls && (ws[i].calls[id] == RemoveLock(f) || ws[i].calls[id] == CloseLock)
            case ReaderMove(reader) => reader == f && f < |ws[i].readers| && ws[i].readers[f] == ReaderRemove
            case CleanerMove => ws[i].cleaner == Ticking
            case _ => false
  {
    RunFlowInv(ws, actions, i);
    var w, w' := ws[i], ws[i + 1];
    assert Next(w, actions[i], w');
    match actions[i]
    case CallMove(id) =>
      match w.calls[id] {
        case ForwardLock(frame) =>
          var dialed, now :| w'.table == ForwardLocked(w.table, frame, dialed, now).0;
          ForwardKeeps(w.table, frame, dialed, now);
        case RemoveLock(g) => RemoveKeeps(w.table, g);
        case _ =>
      }
      hide TableOk, InTable, ForwardLocked, RemoveLocked, CloseLocked, CallOk, ReaderOk;
    case ReaderMove(reader) =>
      if w.readers[reader].ReadLock? {
        var now :| w'.table == ReadLocked(w.table, reader, now).0;
        ReadKeeps(w.table, reader, now);
      } else {
        RemoveKeeps(w.table, reader);
      }
      hide TableOk, InTable, ReadLocked, RemoveLocked, CallOk, ReaderOk;
    case _ =>
      hide TableOk, InTable;
  }

  /** Whatever a reader sends goes to the relay and flow id for which its own socket was dialled. */
  lemma RepliesMatchTheFlow(ws: seq<World>, actions: seq<Action>, i: nat, f: nat)
    requires IsRun(ws, actions) && i < |ws| && f < |ws[i].readers| && ws[i].readers[f].Sending?
    ensures f < |ws[i].table.objects| && KeyOf(ws[i].readers[f].frame) == ws[i].table.objects[f].key
  {
    RunFlowInv(ws, actions, i);
    assert ReaderOk(ws[i].table, f, ws[i].readers[f]);
  }

  predicate AtRest(p: CallPc) { p.CloseReturned? || p.Waited? || p.Returned? }

  predicate SomeWaited(w: World) { exists id | id in w.calls :: w.calls[id].Waited? }

  lemma WaitStaysFinal(w: World, a: Action, w': World)
    requires FlowInv(w) && FlowInv(w') && Next(w, a, w') && SomeWaited(w')
    requires SomeWaited(w) ==> w.table.closed && AllDone(w)
    ensures w'.table.closed && AllDone(w')
  {
    assert forall id | id in w'.calls && w'.calls[id].Waited? :: CallOk(w'.table, w'.calls[id]);
    if a.CallMove? {
      CallMoves(w.table, w.shut, w.calls[a.id], w'.table, w'.shut, w'.calls[a.id]);
      if w'.calls[a.id].Waited? {
        OnlyCloseWaits(w, a.id, w');
      }
    }
    hide TableOk, InTable, Gone, ForwardLocked, RemoveLocked, CloseLocked, ReaderOk, Frozen, Handover, CallStep;
  }

  lemma OnlyCloseWaits(w: World, id: nat, w': World)
    requires Next(w, CallMove(id), w') && id in w'.calls && id in w.calls && w'.calls[id].Waited?
    ensures w.calls[id].CloseReturned? && AllDone(w)
  {
  }

  /** No reader starts and none moves once a wait after close has returned. */
  lemma {:induction false} WaitIsFinal(ws: seq<World>, actions: seq<Action>, i: nat)
    requires IsRun(ws, actions) && i < |ws| && SomeWaited(ws[i])
    ensures ws[i].table.closed && AllDone(ws[i])
  {
    if i > 0 {
      RunFlowInv(ws, actions, i - 1);
      RunFlowInv(ws, actions, i);
      if SomeWaited(ws[i - 1]) {
        WaitIsFinal(ws, actions, i - 1);
      }
      WaitStaysFinal(ws[i - 1], actions[i - 1], ws[i]);
      hide FlowInv, Covered, Next, AllDone;
    }
  }

  /** When the wait after close returns and no other call is under way, every socket ever dialled is closed. */
  lemma NothingStaysOpen(ws: seq<World>, actions: seq<Action>, i: nat)
    requires IsRun(ws, actions) && i < |ws| && SomeWaited(ws[i])
    requires forall id | id in ws[i].calls :: AtRest(ws[i].calls[id])
    ensures forall f: nat | f < |ws[i].table.objects| :: f in ws[i].shut
  {
    WaitIsFinal(ws, actions, i);
    RunFlowInv(ws, actions, i);
    var w := ws[i];
    forall f: nat | f < |w.table.objects| ensures f in w.shut {
      assert !InTable(w.table, f);
      assert forall id :: !CallOwnsIt(w, id, f);
    }
  }
}
