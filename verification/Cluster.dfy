/**
 One custom resource on a versioned Kubernetes API server, the Gerrit server behind it, and everybody else who
 acts on them while a reconciler runs.

 The environment is a script. Every remote call of the operator consumes one turn: first the other clients
 take the turn's steps, then the call works or fails (a failed call changes nothing), and a read may be
 answered from an older state. When the script is used up every further call fails, so a script that ends in
 the middle of a reconcile is an operator that is killed there.
 */
module Cluster {
  import opened Common
  import opened AccessRights
  import opened BackOff

  // ---------- Objects ----------

  datatype Owner = Owner(kind: string, name: string, uid: nat)

  datatype Spec =
    | MemberSpec(groupId: string, accountId: string, ownerName: string)
    | ProjectSpec(name: string, description: string, parent: string, ownerName: string)
    | AccessSpec(projectName: string, accessParent: string, references: seq<AccessInfo>, ownerName: string)
    | MergeRequestSpec(projectName: string, sourceBranch: string, changesConfigMap: string, ownerName: string)
    | GerritSpec(keycloakEnabled: bool)

  /** The status fields of all kinds in one record; each kind uses its own. */
  datatype Status = Status(
    value: string, failureCount: int64, branches: seq<string>, created: bool, changeId: string,
    phase: string, available: bool)

  const EMPTY_STATUS := Status("", 0, [], false, "", "", false)

  datatype Obj = Obj(
    uid: nat, version: nat, spec: Spec, status: Status, finalizers: seq<string>, owners: seq<Owner>,
    annotations: map<string, string>, deleting: bool)

  predicate SameKind(a: Spec, b: Spec) {
    && (a.MemberSpec? <==> b.MemberSpec?) && (a.ProjectSpec? <==> b.ProjectSpec?)
    && (a.AccessSpec? <==> b.AccessSpec?) && (a.MergeRequestSpec? <==> b.MergeRequestSpec?)
  }

  function FinalizerOf(spec: Spec): string {
    match spec
    case MemberSpec(_, _, _) => "gerritgroupmember.gerrit.finalizer.name"
    case ProjectSpec(_, _, _, _) => "gerritproject.gerrit.finalizer.name"
    case AccessSpec(_, _, _, _) => "gerritprojectaccess.gerrit.finalizer.name"
    case MergeRequestSpec(_, _, _, _) => "merge_request.gerrit.finalizer.name"
    case GerritSpec(_) => ""
  }

  // ---------- The Gerrit server ----------

  const CHANGE_NEW := "NEW"
  const CHANGE_ABANDONED := "ABANDONED"

  datatype ProjectInfo = ProjectInfo(description: string, parent: string)

  datatype Backend = Backend(
    members: set<(string, string)>, projects: map<string, ProjectInfo>, access: map<string, Rights>,
    parents: map<string, string>, changes: map<string, string>)

  /** Nothing is left of what the object stands for. */
  predicate Tidy(spec: Spec, status: Status, b: Backend) {
    match spec
    case MemberSpec(g, a, _) => (g, a) !in b.members
    case ProjectSpec(n, _, _, _) => n !in b.projects
    case AccessSpec(p, _, l, _) => p in b.access ==> HoldsNone(b.access[p], l)
    case MergeRequestSpec(_, _, _, _) =>
      status.changeId != "" && status.changeId in b.changes ==> b.changes[status.changeId] != CHANGE_NEW
    case GerritSpec(_) => true
  }

  // ---------- The world ----------

  /** What others may do between two calls of the operator. Sync* are the two calls of the project syncer. */
  datatype Step =
    | Create(spec: Spec)
    | Delete
    | EditSpec(spec: Spec)
    | AddFinalizer(name: string)
    | DropFinalizer(name: string)
    | ForeignStatus(status: Status)
    | SyncRead(cached: Option<Obj>)
    | SyncWrite(branches: seq<string>)

  /**
   `stale` is an older copy a read may be answered with, `code` an HTTP status to answer with, `text` fresh random
   text, `down` a deployment that is not ready at that moment.
   */
  datatype Turn = Turn(steps: seq<Step>, works: bool, stale: Option<Obj>, code: nat, text: string, down: bool)

  datatype Event =
    | Begin                             // a reconcile starts
    | Cleaned                           // a cleanup function returned without error
    | Released(uid: nat, tidy: bool)    // this object lost its finalizer, or left the server still carrying it

  /**
   Bookkeeping: what happened so far, for stating properties of runs. The operator never reads it.
   `ownerlessDelete`: an object without a recorded change id and without an owner was marked for deletion.
   `misread`: a read was answered by a state whose phase or availability the server no longer showed.
   */
  datatype Book = Book(
    log: seq<Event>, commits: seq<(Obj, Obj)>,
    lastValue: string, lastBranches: seq<string>,
    pushes: nat, statusLost: nat, dirsLost: nat, streak: nat, ownerlessDelete: bool, misread: bool)

  datatype GerritRef = GerritRef(name: string, uid: nat)

  datatype World = World(
    stored: Option<Obj>, clock: nat, history: set<Obj>, gerrits: seq<GerritRef>, backend: Backend,
    script: seq<Turn>, peer: Option<Obj>, book: Book)

  function Logged(w: World, e: Event): World {
    w.(book := w.book.(log := w.book.log + [e]))
  }

  /** The event of replacing `before` by something with these finalizers (none when the object is gone). */
  function Noted(w: World, before: Obj, after: seq<string>): World {
    var f := FinalizerOf(before.spec);
    if f in before.finalizers && f !in after then Logged(w, Released(before.uid, Tidy(before.spec, before.status, w.backend))) else w
  }

  /** Stores `after` in place of `before` under a new version; a write that changes nothing keeps the version. */
  function Put(w: World, before: Obj, after: Obj): World {
    if after == before then w
    else
      var o := after.(version := w.clock + 1);
      Noted(w, before, after.finalizers).(stored := Some(o), clock := w.clock + 1, history := w.history + {o})
  }

  function Gone(w: World, before: Obj): World {
    Noted(w, before, []).(stored := None, clock := w.clock + 1)
  }

  // ---------- Other clients ----------

  /** The object that a step writes in place of the stored one, when it writes. */
  function Written(w: World, s: Step): Option<Obj> {
    if w.stored.None? then None
    else
      var o := w.stored.value;
      match s
      case Delete => if o.finalizers == [] then None else Some(o.(deleting := true))
      case EditSpec(spec) => if SameKind(spec, o.spec) then Some(o.(spec := spec)) else None
      case AddFinalizer(n) => if o.deleting || n in o.finalizers then None else Some(o.(finalizers := o.finalizers + [n]))
      case DropFinalizer(n) =>
        if n == FinalizerOf(o.spec) || (o.deleting && Without(o.finalizers, n) == []) then None
        else Some(o.(finalizers := Without(o.finalizers, n)))
      case ForeignStatus(st) => Some(o.(status := st))
      case SyncWrite(bs) =>
        if w.peer.Some? && w.peer.value.version == o.version then Some(o.(status := w.peer.value.status.(branches := bs))) else None
      case _ => None
  }

  /** Deleting an object without finalizers removes it, and so does dropping the last finalizer of a deleted one. */
  predicate Removes(w: World, s: Step) {
    w.stored.Some?
    && match s
       case Delete => w.stored.value.finalizers == []
       case DropFinalizer(n) =>
         n != FinalizerOf(w.stored.value.spec) && w.stored.value.deleting && Without(w.stored.value.finalizers, n) == []
       case _ => false
  }

  function Annotated(book: Book, stored: Option<Obj>, s: Step): Book {
    match s
    case Delete => if stored.Some? && Unprotected(stored.value) then book.(ownerlessDelete := true) else book
    case SyncWrite(bs) => book.(lastBranches := bs)
    case _ => book
  }

  /** Deleting this object marks it while it has neither a change id nor an owner. */
  predicate Unprotected(o: Obj) {
    o.status.changeId == "" && o.owners == [] && o.finalizers != []
  }

  function Take(w: World, s: Step): World {
    var w1 := w.(book := Annotated(w.book, w.stored, s));
    if Written(w, s).Some? then Put(w1, w.stored.value, Written(w, s).value)
    else if Removes(w, s) then Gone(w1, w.stored.value)
    else if s.Create? && w.stored.None? then Created(w, s.spec)
    else if s.SyncRead? then w.(peer := if s.cached.Some? && s.cached.value in w.history then s.cached else w.stored)
    else w
  }

  function Created(w: World, spec: Spec): World {
    var o := Obj(w.clock + 1, w.clock + 1, spec, EMPTY_STATUS, [], [], map[], false);
    w.(stored := Some(o), clock := w.clock + 1, history := w.history + {o},
       book := w.book.(lastValue := "", lastBranches := [], streak := 0))
  }

  function Without(s: seq<string>, x: string): seq<string> {
    if s == [] then [] else (if s[0] == x then [] else [s[0]]) + Without(s[1..], x)
  }

  function Act(w: World, steps: seq<Step>): World
    decreases |steps|
  {
    if steps == [] then w else Act(Take(w, steps[0]), steps[1..])
  }

  // ---------- Calls of the operator ----------

  const DEAD := Turn([], false, None, 0, "", true)

  function Call(w: World): (World, Turn) {
    if w.script == [] then (w, DEAD)
    else (Act(w.(script := w.script[1..]), w.script[0].steps), w.script[0])
  }

  /** A call that only says whether it worked. */
  function Remote(w: World): (World, bool) {
    var (w1, t) := Call(w);
    (w1, t.works)
  }

  datatype Reply = Answer(obj: Obj) | Missing | Conflict | Failed

  /** The server shows another phase or availability than this state, or nothing at all. */
  predicate Disagrees(w: World, o: Obj) {
    w.stored.None?
    || w.stored.value.status.phase != o.status.phase || w.stored.value.status.available != o.status.available
  }

  function Misread(w: World): World {
    w.(book := w.book.(misread := true))
  }

  function ApiGet(w: World): (World, Reply) {
    var (w1, t) := Call(w);
    if !t.works then (w1, Failed)
    else if t.stale.Some? && t.stale.value in w1.history then
      (if Disagrees(w1, t.stale.value) then Misread(w1) else w1, Answer(t.stale.value))
    else (w1, if w1.stored.Some? then Answer(w1.stored.value) else Missing)
  }

  /** What a main-resource update makes of the stored object: everything but the status comes from the caller. */
  function Overwritten(cur: Obj, me: Obj): Obj {
    cur.(spec := me.spec, finalizers := me.finalizers, owners := me.owners, annotations := me.annotations)
  }

  function ApiUpdate(w: World, me: Obj): (World, Reply) {
    var (w1, t) := Call(w);
    if !t.works then (w1, Failed)
    else if w1.stored.None? then (w1, Missing)
    else if w1.stored.value.version != me.version then (w1, Conflict)
    else
      var cur := w1.stored.value;
      var after := Overwritten(cur, me);
      if cur.deleting && after.finalizers == [] then (Gone(w1, cur), Answer(after))
      else
        var w2 := Put(w1, cur, after);
        (w2, Answer(w2.stored.value))
  }

  function ApiStatusUpdate(w: World, me: Obj): (World, Reply) {
    var (w1, t) := Call(w);
    if !t.works then (w1, Failed)
    else if w1.stored.None? then (w1, Missing)
    else if w1.stored.value.version != me.version then (w1, Conflict)
    else
      var cur := w1.stored.value;
      var w2 := Put(w1, cur, cur.(status := me.status));
      (w2.(book := w2.book.(commits := w2.book.commits + [(cur, w2.stored.value)])), Answer(w2.stored.value))
  }

  // ---------- What always holds ----------

  /** Versions identify contents, and an object marked for deletion is only kept by a finalizer. */
  ghost predicate WellFormed(w: World) {
    && (w.stored.Some? ==> w.stored.value in w.history)
    && (w.peer.Some? ==> w.peer.value in w.history)
    && (forall o | o in w.history :: o.version <= w.clock && (o.deleting ==> o.finalizers != []))
    && (forall a, b | a in w.history && b in w.history && a.version == b.version :: a == b)
  }

  lemma PutWellFormed(w: World, before: Obj, after: Obj)
    requires WellFormed(w) && w.stored == Some(before)
    requires after.deleting ==> after.finalizers != []
    ensures WellFormed(Put(w, before, after))
    ensures w.history <= Put(w, before, after).history
  {
  }

  lemma {:induction false} WithoutContains(s: seq<string>, x: string, y: string)
    ensures y in Without(s, x) <==> y in s && y != x
  {
    if s != [] {
      WithoutContains(s[1..], x, y);
      assert s == [s[0]] + s[1..];
    }
  }

  /** What the other clients leave alone. */
  ghost predicate OthersKeep(w: World, v: World) {
    && v.backend == w.backend && v.gerrits == w.gerrits && v.script == w.script
    && SameCounts(w.book, v.book)
    && w.history <= v.history
  }

  predicate SameCounts(a: Book, b: Book) {
    && b.log == a.log && b.commits == a.commits
    && b.pushes == a.pushes && b.statusLost == a.statusLost && b.dirsLost == a.dirsLost && b.misread == a.misread
  }

  /** A write that keeps the finalizer is no event. */
  lemma PutKeeps(w: World, before: Obj, after: Obj)
    requires WellFormed(w) && w.stored == Some(before)
    requires after.deleting ==> after.finalizers != []
    requires FinalizerOf(before.spec) in before.finalizers ==> FinalizerOf(before.spec) in after.finalizers
    ensures WellFormed(Put(w, before, after))
    ensures OthersKeep(w, Put(w, before, after)) && Put(w, before, after).book == w.book
    ensures Put(w, before, after).stored.Some? && Put(w, before, after).stored.value.(version := 0) == after.(version := 0)
    ensures Put(w, before, after).history == w.history + {Put(w, before, after).stored.value}
    ensures Put(w, before, after).peer == w.peer
  {
    PutWellFormed(w, before, after);
  }

  /** The writes of other clients keep the finalizer, the identity and the kind. */
  lemma WrittenLawful(w: World, s: Step)
    requires WellFormed(w) && Written(w, s).Some?
    ensures var o, r := w.stored.value, Written(w, s).value;
            (r.deleting ==> r.finalizers != []) && r.uid == o.uid && FinalizerOf(r.spec) == FinalizerOf(o.spec)
            && (FinalizerOf(o.spec) in o.finalizers ==> FinalizerOf(o.spec) in r.finalizers)
  {
    if s.DropFinalizer? {
      WithoutContains(w.stored.value.finalizers, s.name, FinalizerOf(w.stored.value.spec));
    }
  }

  lemma TakeKeeps(w: World, s: Step)
    requires WellFormed(w)
    ensures WellFormed(Take(w, s))
    ensures OthersKeep(w, Take(w, s))
    ensures forall u | Guarded(w, u) :: Guarded(Take(w, s), u)
  {
    var w1 := w.(book := Annotated(w.book, w.stored, s));
    if Written(w, s).Some? {
      WrittenLawful(w, s);
      PutKeeps(w1, w.stored.value, Written(w, s).value);
      hide Put, Written;
    } else if Removes(w, s) {
      if s.DropFinalizer? {
        WithoutContains(w.stored.value.finalizers, s.name, FinalizerOf(w.stored.value.spec));
      }
    }
  }

  /** The object with this uid is stored and carries its own finalizer. */
  predicate Guarded(w: World, u: nat) {
    w.stored.Some? && w.stored.value.uid == u && FinalizerOf(w.stored.value.spec) in w.stored.value.finalizers
  }

  lemma {:induction false} ActKeeps(w: World, steps: seq<Step>)
    requires WellFormed(w)
    ensures WellFormed(Act(w, steps))
    ensures OthersKeep(w, Act(w, steps))
    ensures forall u | Guarded(w, u) :: Guarded(Act(w, steps), u)
    decreases |steps|
  {
    hide Take;
    if steps != [] {
      TakeKeeps(w, steps[0]);
      ActKeeps(Take(w, steps[0]), steps[1..]);
    }
  }

  /** The same for a whole call, which only uses up its turn besides. */
  lemma CallKeeps(w: World)
    requires WellFormed(w)
    ensures WellFormed(Call(w).0)
    ensures OthersKeep(w.(script := Call(w).0.script), Call(w).0)
    ensures forall u | Guarded(w, u) :: Guarded(Call(w).0, u)
    ensures Call(w).0.script == if w.script == [] then [] else w.script[1..]
  {
    if w.script != [] {
      ActKeeps(w.(script := w.script[1..]), w.script[0].steps);
    }
  }

  lemma {:induction false} ActSpends(w: World, steps: seq<Step>)
    ensures Act(w, steps).script == w.script
    decreases |steps|
  {
    if steps != [] {
      assert Take(w, steps[0]).script == w.script;
      hide Take;
      ActSpends(Take(w, steps[0]), steps[1..]);
    }
  }

  /** A call uses up one turn. */
  lemma CallSpends(w: World)
    ensures Call(w).0.script == if w.script == [] then [] else w.script[1..]
  {
    if w.script != [] {
      ActSpends(w.(script := w.script[1..]), w.script[0].steps);
    }
  }
}
