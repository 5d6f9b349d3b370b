/** Any number of processes that load or create one identity file: exclusive creation, polling after a lost race, and
    removal on failure, one system call at a time. */
module IdentityRace {
  import opened Options

  datatype Identity = Identity(name: string, key: nat)

  /** How much of the encoded identity and its final newline a file holds. The JSON text parses without the newline,
      and no shorter prefix of it does. */
  datatype Progress = Empty | Partial | AllButNewline | Full

  function Rank(p: Progress): nat {
    match p
    case Empty => 0
    case Partial => 1
    case AllButNewline => 2
    case Full => 3
  }

  /** A file, whether or not the path still names it. owner is the process that created it, if any of ours; identity is
      None for content that is not an identity at all. */
  datatype File = File(owner: Option<nat>, identity: Option<Identity>, progress: Progress)

  datatype Pc =
    | FirstOpen
    | FirstRead(file: nat)
    | Generate
    | Create(identity: Identity)
    | RaceOpen(identity: Identity)
    | RaceRead(identity: Identity, file: nat)
    // the file is ours
    | Chmod(identity: Identity, file: nat)
    | Write(identity: Identity, file: nat)
    | CloseFile(identity: Identity, file: nat)
    | Unwind(identity: Identity, file: nat)
    | Succeeded(identity: Identity)
    | GaveUp

  /** files lists every file that the path has ever named; path is the index of the one it names now. */
  datatype World = World(files: seq<File>, path: Option<nat>, names: map<nat, string>, procs: map<nat, Pc>)

  datatype Action = Start(id: nat) | Move(id: nat)

  /** What ParseIdentity makes of the content. */
  function Parsed(f: File): Option<Identity> {
    if f.progress.AllButNewline? || f.progress.Full? then f.identity else None
  }

  predicate NameFits(requested: string, identity: Identity) { requested == "" || requested == identity.name }

  /** At the start the path names nothing, or a file from elsewhere. */
  ghost predicate Init(w: World) {
    && w.names == map[] && w.procs == map[]
    && (w == World([], None, map[], map[])
        || (|w.files| == 1 && w.path == Some(0) && w.files[0].owner.None? && w.files[0].progress.Full?))
  }

  /** late: whether creating may fail once the bytes on disk already parse. */
  ghost predicate Next(late: bool, w: World, a: Action, w': World) {
    match a
    case Start(id) =>
      && id !in w.procs && id in w'.names
      && w' == w.(names := w.names[id := w'.names[id]], procs := w.procs[id := FirstOpen])
    case Move(id) =>
      && id in w.procs && id in w'.procs && id in w.names
      && w' == w.(files := w'.files, path := w'.path, procs := w.procs[id := w'.procs[id]])
      && Step(late, id, w.names[id], w.files, w.path, w.procs[id], w'.files, w'.path, w'.procs[id])
  }

  ghost predicate IsRun(late: bool, ws: seq<World>, actions: seq<Action>) {
    && |ws| == |actions| + 1
    && Init(ws[0])
    && forall i | 0 <= i < |actions| :: Next(late, ws[i], actions[i], ws[i + 1])
  }

  ghost predicate Step(late: bool, id: nat, name: string, files: seq<File>, path: Option<nat>, p: Pc,
                       files': seq<File>, path': Option<nat>, p': Pc)
  {
    if p.FirstOpen? || p.FirstRead? || p.Generate? || p.RaceOpen? || p.RaceRead? then
      files' == files && path' == path && LookStep(name, files, path, p, p')
    else CreateStep(late, id, files, path, p, files', path', p')
  }

  /** Reading, and choosing an identity. Any system call may also fail, which ends the attempt. */
  ghost predicate LookStep(name: string, files: seq<File>, path: Option<nat>, p: Pc, p': Pc) {
    || p'.GaveUp?
    || match p
       case FirstOpen => p' == if path.None? then Generate else FirstRead(path.value)
       case FirstRead(file) =>
         && file < |files| && Parsed(files[file]).Some? && NameFits(name, Parsed(files[file]).value)
         && p' == Succeeded(Parsed(files[file]).value)
       case Generate => p'.Create? && NameFits(name, p'.identity)
       case RaceOpen(identity) => p' == if path.None? then Create(identity) else RaceRead(identity, path.value)
       case RaceRead(identity, file) =>
         && file < |files|
         && if Parsed(files[file]).None? then p' == RaceOpen(identity)
            else NameFits(name, Parsed(files[file]).value) && p' == Succeeded(Parsed(files[file]).value)
       case _ => false
  }

  ghost predicate CreateStep(late: bool, id: nat, files: seq<File>, path: Option<nat>, p: Pc,
                             files': seq<File>, path': Option<nat>, p': Pc)
  {
    match p
    case Create(identity) =>
      || (files' == files && path' == path && (p'.GaveUp? || (path.Some? && p' == RaceOpen(identity))))
      || (&& path.None? && path' == Some(|files|) && p' == Chmod(identity, |files|)
          && files' == files + [File(Some(id), Some(identity), Empty)])
    case Chmod(identity, file) =>
      files' == files && path' == path && (p' == Write(identity, file) || p' == Unwind(identity, file))
    case Write(identity, file) =>
      && file < |files| && |files'| == |files| && path' == path
      && files' == files[file := files[file].(progress := files'[file].progress)]
      && Rank(files[file].progress) <= Rank(files'[file].progress)
      // some more bytes are on disk, and the call goes on, succeeds, or fails or stops short
      && (|| p' == p
          || (p' == CloseFile(identity, file) && files'[file].progress.Full?)
          || (p' == Unwind(identity, file) && MayFail(late, files'[file])))
    case CloseFile(identity, file) =>
      && files' == files && path' == path && file < |files|
      && (p' == Succeeded(identity) || (p' == Unwind(identity, file) && MayFail(late, files[file])))
    case Unwind(_, _) =>
      // os.Remove works on the path, whatever it names by now; it may fail
      files' == files && p'.GaveUp? && (path' == None || path' == path)
    case _ => false
  }

  predicate MayFail(late: bool, f: File) { late || Parsed(f).None? }

  // ----- what holds even with late failures

  predicate Creating(p: Pc) { p.Chmod? || p.Write? || p.CloseFile? || p.Unwind? }

  /** A process that has created the file and not finished is the one that the path names as its owner. */
  predicate OwnerOk(id: nat, files: seq<File>, path: Option<nat>, p: Pc) {
    Creating(p) ==>
      && path == Some(p.file) && p.file < |files|
      && files[p.file].owner == Some(id) && files[p.file].identity == Some(p.identity)
      && (p.Chmod? ==> files[p.file].progress.Empty?)
      && (p.CloseFile? ==> files[p.file].progress.Full?)
  }

  predicate PathOk(files: seq<File>, path: Option<nat>) { path.Some? ==> path.value < |files| }

  ghost predicate RaceInv(w: World) {
    && PathOk(w.files, w.path)
    && w.procs.Keys == w.names.Keys
    && forall id | id in w.procs :: OwnerOk(id, w.files, w.path, w.procs[id])
  }

  /** A step by someone who is not the owner leaves the owner's file and its name alone. */
  lemma OwnerUndisturbed(late: bool, id: nat, name: string, files: seq<File>, path: Option<nat>, p: Pc,
                         files': seq<File>, path': Option<nat>, p': Pc, other: nat, q: Pc)
    requires PathOk(files, path) && OwnerOk(id, files, path, p) && OwnerOk(other, files, path, q) && other != id
    requires Step(late, id, name, files, path, p, files', path', p')
    ensures OwnerOk(other, files', path', q)
  {
  }

  lemma OwnStep(late: bool, id: nat, name: string, files: seq<File>, path: Option<nat>, p: Pc,
                files': seq<File>, path': Option<nat>, p': Pc)
    requires PathOk(files, path) && OwnerOk(id, files, path, p)
    requires Step(late, id, name, files, path, p, files', path', p')
    ensures PathOk(files', path') && OwnerOk(id, files', path', p')
  {
  }

  lemma NextRace(late: bool, w: World, a: Action, w': World)
    requires RaceInv(w) && Next(late, w, a, w')
    ensures RaceInv(w')
  {
    if a.Move? {
      var id := a.id;
      OwnStep(late, id, w.names[id], w.files, w.path, w.procs[id], w'.files, w'.path, w'.procs[id]);
      forall other | other in w'.procs ensures OwnerOk(other, w'.files, w'.path, w'.procs[other]) {
        if other != id {
          OwnerUndisturbed(late, id, w.names[id], w.files, w.path, w.procs[id], w'.files, w'.path, w'.procs[id],
                           other, w.procs[other]);
        }
      }
      hide Step, OwnerOk;
    }
  }

  lemma {:induction false} RunRaceInv(late: bool, ws: seq<World>, actions: seq<Action>, i: nat)
    requires IsRun(late, ws, actions) && i < |ws|
    ensures RaceInv(ws[i])
  {
    if i > 0 {
      RunRaceInv(late, ws, actions, i - 1);
      NextRace(late, ws[i - 1], actions[i - 1], ws[i]);
      hide RaceInv, Next;
    }
  }

  /** At most one process at a time has an unfinished file, and what it will remove on failure is its own file: the
      path names it until then. This holds with or without late failures. */
  lemma OneUnfinishedOwner(late: bool, ws: seq<World>, actions: seq<Action>, i: nat, p: nat, q: nat)
    requires IsRun(late, ws, actions) && i < |ws| && p in ws[i].procs && q in ws[i].procs
    requires Creating(ws[i].procs[p]) && Creating(ws[i].procs[q])
    ensures p == q && ws[i].path == Some(ws[i].procs[p].file)
    ensures ws[i].procs[p].file < |ws[i].files| && ws[i].files[ws[i].procs[p].file].owner == Some(p)
  {
    RunRaceInv(late, ws, actions, i);
    assert OwnerOk(p, ws[i].files, ws[i].path, ws[i].procs[p]) && OwnerOk(q, ws[i].files, ws[i].path, ws[i].procs[q]);
  }

  // ----- without late failures

  /** A file that parses is the one that the path names. */
  ghost predicate CompleteIsNamed(files: seq<File>, path: Option<nat>) {
    forall n: nat | n < |files| && Parsed(files[n]).Some? :: path == Some(n)
  }

  /** A result is the identity on disk, with the requested name if any; an attempt about to be undone does not parse. */
  predicate ResultOk(name: string, files: seq<File>, path: Option<nat>, p: Pc)
    requires PathOk(files, path)
  {
    && (p.Succeeded? ==> path.Some? && Parsed(files[path.value]) == Some(p.identity) && NameFits(name, p.identity))
    && (p.Unwind? && p.file < |files| ==> Parsed(files[p.file]).None?)
    && (p.Create? || p.RaceOpen? || p.RaceRead? || Creating(p) ==> NameFits(name, p.identity))
  }

  ghost predicate AgreeInv(w: World) {
    && RaceInv(w)
    && CompleteIsNamed(w.files, w.path)
    && forall id | id in w.procs :: ResultOk(w.names[id], w.files, w.path, w.procs[id])
  }

  /** The same file, possibly with more of the same bytes written. */
  predicate Grows(f: File, f': File) {
    f' == f.(progress := f'.progress) && Rank(f.progress) <= Rank(f'.progress)
  }

  /** Files are only added, and once one parses it keeps its content, but for a newline to come, and the path goes on
      naming it. */
  ghost predicate Settled(files: seq<File>, path: Option<nat>, files': seq<File>, path': Option<nat>) {
    && |files| <= |files'|
    && forall n: nat | n < |files| && Parsed(files[n]).Some? :: Grows(files[n], files'[n]) && path' == path == Some(n)
  }

  lemma StepSettles(id: nat, name: string, files: seq<File>, path: Option<nat>, p: Pc,
                    files': seq<File>, path': Option<nat>, p': Pc)
    requires PathOk(files, path) && CompleteIsNamed(files, path)
    requires OwnerOk(id, files, path, p) && ResultOk(name, files, path, p)
    requires Step(false, id, name, files, path, p, files', path', p')
    ensures Settled(files, path, files', path') && CompleteIsNamed(files', path')
  {
  }

  lemma StepAgrees(id: nat, name: string, files: seq<File>, path: Option<nat>, p: Pc,
                   files': seq<File>, path': Option<nat>, p': Pc)
    requires PathOk(files, path) && CompleteIsNamed(files, path)
    requires OwnerOk(id, files, path, p) && ResultOk(name, files, path, p)
    requires Step(false, id, name, files, path, p, files', path', p')
    ensures PathOk(files', path') && ResultOk(name, files', path', p')
  {
  }

  lemma OthersAgree(name: string, files: seq<File>, path: Option<nat>, files': seq<File>, path': Option<nat>, id: nat, q: Pc)
    requires PathOk(files, path) && PathOk(files', path') && Settled(files, path, files', path')
    requires ResultOk(name, files, path, q) && OwnerOk(id, files', path', q) && OwnerOk(id, files, path, q)
    requires q.Unwind? && q.file < |files| ==> files'[q.file] == files[q.file]
    ensures ResultOk(name, files', path', q)
  {
  }

  lemma NextAgrees(w: World, a: Action, w': World)
    requires AgreeInv(w) && Next(false, w, a, w')
    ensures AgreeInv(w') && Settled(w.files, w.path, w'.files, w'.path)
  {
    NextRace(false, w, a, w');
    if a.Move? {
      var id := a.id;
      var p, p' := w.procs[id], w'.procs[id];
      StepSettles(id, w.names[id], w.files, w.path, p, w'.files, w'.path, p');
      StepAgrees(id, w.names[id], w.files, w.path, p, w'.files, w'.path, p');
      forall other | other in w'.procs ensures ResultOk(w'.names[other], w'.files, w'.path, w'.procs[other]) {
        if other != id {
          UnwindUndisturbed(id, w.names[id], w.files, w.path, p, w'.files, w'.path, p', other, w.procs[other]);
          OthersAgree(w.names[other], w.files, w.path, w'.files, w'.path, other, w.procs[other]);
        }
      }
    }
    hide Step, OwnerOk, ResultOk;
  }

  lemma UnwindUndisturbed(id: nat, name: string, files: seq<File>, path: Option<nat>, p: Pc,
                          files': seq<File>, path': Option<nat>, p': Pc, other: nat, q: Pc)
    requires OwnerOk(id, files, path, p) && OwnerOk(other, files, path, q) && other != id
    requires Step(false, id, name, files, path, p, files', path', p')
    ensures q.Unwind? && q.file < |files| ==> q.file < |files'| && files'[q.file] == files[q.file]
  {
  }

  lemma {:induction false} RunAgreeInv(ws: seq<World>, actions: seq<Action>, i: nat)
    requires IsRun(false, ws, actions) && i < |ws|
    ensures AgreeInv(ws[i])
  {
    if i > 0 {
      RunAgreeInv(ws, actions, i - 1);
      NextAgrees(ws[i - 1], actions[i - 1], ws[i]);
      hide AgreeInv, Next, Settled;
    }
  }

  lemma {:induction false} StaysSettled(ws: seq<World>, actions: seq<Action>, i: nat, j: nat)
    requires IsRun(false, ws, actions) && i <= j < |ws|
    ensures Settled(ws[i].files, ws[i].path, ws[j].files, ws[j].path)
  {
    RunAgreeInv(ws, actions, i);
    if i < j {
      StaysSettled(ws, actions, i, j - 1);
      RunAgreeInv(ws, actions, j - 1);
      NextAgrees(ws[j - 1], actions[j - 1], ws[j]);
      hide Next;
    }
  }

  // ----- main results

  /** All successful processes return one identity, which is the one on disk, and it has the name each asked for. */
  ghost predicate Agreement(ws: seq<World>) {
    forall i, j, p, q | 0 <= i < |ws| && 0 <= j < |ws| && p in ws[i].procs && q in ws[j].procs
                        && ws[i].procs[p].Succeeded? && ws[j].procs[q].Succeeded? ::
      ws[i].procs[p].identity == ws[j].procs[q].identity
  }

  /** A successful result is on disk, stays there, and has the requested name. */
  lemma SuccessIsOnDisk(ws: seq<World>, actions: seq<Action>, i: nat, j: nat, p: nat)
    requires IsRun(false, ws, actions) && i <= j < |ws| && p in ws[i].procs && ws[i].procs[p].Succeeded?
    ensures var w, identity := ws[j], ws[i].procs[p].identity;
            && w.path.Some? && w.path.value < |w.files| && Parsed(w.files[w.path.value]) == Some(identity)
            && p in ws[i].names && NameFits(ws[i].names[p], identity)
  {
    RunAgreeInv(ws, actions, i);
    assert ResultOk(ws[i].names[p], ws[i].files, ws[i].path, ws[i].procs[p]);
    StaysSettled(ws, actions, i, j);
  }

  /** A file that parses is never overwritten, replaced or removed: it goes on being read as the same identity, also by
      those who find it before its creator has written the final newline. */
  lemma CompleteFileStays(ws: seq<World>, actions: seq<Action>, i: nat, j: nat)
    requires IsRun(false, ws, actions) && i <= j < |ws|
    requires ws[i].path.Some? && ws[i].path.value < |ws[i].files| && Parsed(ws[i].files[ws[i].path.value]).Some?
    ensures ws[j].path == ws[i].path && ws[i].path.value < |ws[j].files|
    ensures var f, f' := ws[i].files[ws[i].path.value], ws[j].files[ws[i].path.value];
            Parsed(f') == Parsed(f) && Grows(f, f')
  {
    StaysSettled(ws, actions, i, j);
  }

  /** A file's content changes only by a write of the process that created it, late failures or not. */
  lemma OnlyItsCreatorWrites(late: bool, ws: seq<World>, actions: seq<Action>, i: nat, n: nat)
    requires IsRun(late, ws, actions) && i + 1 < |ws| && n < |ws[i].files|
    ensures n < |ws[i + 1].files| && Grows(ws[i].files[n], ws[i + 1].files[n])
    ensures ws[i + 1].files[n] != ws[i].files[n] ==>
              && actions[i].Move? && actions[i].id in ws[i].procs && ws[i].procs[actions[i].id].Write?
              && ws[i].files[n].owner == Some(actions[i].id)
  {
    RunRaceInv(late, ws, actions, i);
    assert Next(late, ws[i], actions[i], ws[i + 1]);
    if actions[i].Move? {
      assert OwnerOk(actions[i].id, ws[i].files, ws[i].path, ws[i].procs[actions[i].id]);
    }
  }

  lemma WithoutLateFailuresAllAgree(ws: seq<World>, actions: seq<Action>)
    requires IsRun(false, ws, actions)
    ensures Agreement(ws)
  {
    forall i, j, p, q | 0 <= i < |ws| && 0 <= j < |ws| && p in ws[i].procs && q in ws[j].procs
                        && ws[i].procs[p].Succeeded? && ws[j].procs[q].Succeeded?
      ensures ws[i].procs[p].identity == ws[j].procs[q].identity
    {
      var last := if i < j then j else i;
      SuccessIsOnDisk(ws, actions, i, last, p);
      SuccessIsOnDisk(ws, actions, j, last, q);
    }
  }

  // ----- with a late failure two processes can disagree

  const A: Identity := Identity("a", 1)
  const B: Identity := Identity("b", 2)

  function NamesUpTo(n: nat): map<nat, string> {
    if n <= 0 then map[] else if n == 1 then map[1 := ""] else if n == 2 then map[1 := "", 2 := ""] else map[1 := "", 2 := "", 3 := ""]
  }

  /** Process 1 writes all but the newline and fails; 2 reads the identity; 1 removes the file; 3 creates another. */
  function Moment(n: nat): World {
    var short, whole := File(Some(1), Some(A), AllButNewline), File(Some(3), Some(B), Full);
    var bare, begun := File(Some(1), Some(A), Empty), File(Some(3), Some(B), Empty);
    match n
    case 0 => World([], None, map[], map[])
    case 1 => World([], None, NamesUpTo(1), map[1 := FirstOpen])
    case 2 => World([], None, NamesUpTo(1), map[1 := Generate])
    case 3 => World([], None, NamesUpTo(1), map[1 := Create(A)])
    case 4 => World([bare], Some(0), NamesUpTo(1), map[1 := Chmod(A, 0)])
    case 5 => World([bare], Some(0), NamesUpTo(1), map[1 := Write(A, 0)])
    case 6 => World([short], Some(0), NamesUpTo(1), map[1 := Unwind(A, 0)])
    case 7 => World([short], Some(0), NamesUpTo(2), map[1 := Unwind(A, 0), 2 := FirstOpen])
    case 8 => World([short], Some(0), NamesUpTo(2), map[1 := Unwind(A, 0), 2 := FirstRead(0)])
    case 9 => World([short], Some(0), NamesUpTo(2), map[1 := Unwind(A, 0), 2 := Succeeded(A)])
    case 10 => World([short], None, NamesUpTo(2), map[1 := GaveUp, 2 := Succeeded(A)])
    case 11 => World([short], None, NamesUpTo(3), map[1 := GaveUp, 2 := Succeeded(A), 3 := FirstOpen])
    case 12 => World([short], None, NamesUpTo(3), map[1 := GaveUp, 2 := Succeeded(A), 3 := Generate])
    case 13 => World([short], None, NamesUpTo(3), map[1 := GaveUp, 2 := Succeeded(A), 3 := Create(B)])
    case 14 => World([short, begun], Some(1), NamesUpTo(3), map[1 := GaveUp, 2 := Succeeded(A), 3 := Chmod(B, 1)])
    case 15 => World([short, begun], Some(1), NamesUpTo(3), map[1 := GaveUp, 2 := Succeeded(A), 3 := Write(B, 1)])
    case 16 => World([short, whole], Some(1), NamesUpTo(3), map[1 := GaveUp, 2 := Succeeded(A), 3 := CloseFile(B, 1)])
    case _ => World([short, whole], Some(1), NamesUpTo(3), map[1 := GaveUp, 2 := Succeeded(A), 3 := Succeeded(B)])
  }

  function Mover(n: nat): Action {
    if n == 0 then Start(1) else if n < 6 then Move(1)
    else if n == 6 then Start(2) else if n < 9 then Move(2)
    else if n == 9 then Move(1)
    else if n == 10 then Start(3) else Move(3)
  }

  ghost predicate Steps(n: nat) { Next(true, Moment(n), Mover(n), Moment(n + 1)) }

  lemma FirstCreates()
    ensures Steps(0) && Steps(1) && Steps(2) && Steps(3)
  {
    assert Moment(4).files == Moment(3).files + [File(Some(1), Some(A), Empty)];
  }

  lemma FirstFailsLate()
    ensures Steps(4) && Steps(5)
  {
    assert Moment(6).files == Moment(5).files[0 := Moment(5).files[0].(progress := AllButNewline)];
  }

  lemma SecondReads()
    ensures Steps(6) && Steps(7) && Steps(8) && Steps(9)
  {
  }

  lemma ThirdCreates()
    ensures Steps(10) && Steps(11) && Steps(12) && Steps(13)
  {
    assert Moment(14).files == Moment(13).files + [File(Some(3), Some(B), Empty)];
  }

  lemma ThirdSucceeds()
    ensures Steps(14) && Steps(15) && Steps(16)
  {
    assert Moment(16).files == Moment(15).files[1 := Moment(15).files[1].(progress := Full)];
  }

  function LateRun(): seq<World> { seq(18, n requires n >= 0 => Moment(n)) }

  function LateActions(): seq<Action> { seq(17, n requires n >= 0 => Mover(n)) }

  lemma AllSteps()
    requires Init(Moment(0)) && forall n: nat | n < 17 :: Steps(n)
    ensures IsRun(true, LateRun(), LateActions())
  {
    hide Init, Next, Moment, Mover;
    forall i | 0 <= i < 17 ensures Next(true, LateRun()[i], LateActions()[i], LateRun()[i + 1]) {
      assert Steps(i);
    }
  }

  lemma LateFailureDisagrees()
    ensures IsRun(true, LateRun(), LateActions()) && !Agreement(LateRun())
  {
    hide Steps, Init, Next, IsRun, Moment, Mover;
    FirstCreates();
    FirstFailsLate();
    SecondReads();
    ThirdCreates();
    ThirdSucceeds();
    FirstAndLast();
    AllSteps();
    var w := LateRun()[17];
    assert w.procs[2].identity != w.procs[3].identity;
  }

  lemma FirstAndLast()
    ensures Init(Moment(0))
    ensures var w := Moment(17); 2 in w.procs && 3 in w.procs && w.procs[2] == Succeeded(A) && w.procs[3] == Succeeded(B)
    ensures A != B
  {
  }

  /** All successful processes agree on every run exactly when creating cannot fail once the bytes on disk parse. */
  lemma AgreementExactlyWithoutLateFailures(late: bool)
    ensures (forall ws, actions | IsRun(late, ws, actions) :: Agreement(ws)) <==> !late
  {
    if late {
      LateFailureDisagrees();
    } else {
      forall ws, actions | IsRun(late, ws, actions) ensures Agreement(ws) {
        WithoutLateFailuresAllAgree(ws, actions);
      }
    }
  }
}
