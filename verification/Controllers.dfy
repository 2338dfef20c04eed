/**
 The four reconcilers that own a finalizer, as functions on the world: group member, project, project access
 and merge request. One reconcile reads the object, works on its copy, and finally writes the status.
 */
module Controllers {
  import opened AccessRights
  import opened BackOff
  import opened Cluster
  import opened Helper

  const STATUS_OK := "OK"
  const ERROR_TEXT := "error"  // stands for the text of the error

  // ---------- Group member ----------

  function MemberTry(s: St): Try {
    match s.me.spec
    case MemberSpec(g, a, _) =>
      var s :- EnsureOwner(s);
      var s :- Calling(s);
      var s :- Serving(s, s.w.backend.(members := s.w.backend.members + {(g, a)}));
      TryToDelete(s)
    case _ => Err(s)
  }

  function MemberStatus(t: Try): Status {
    var st := t.st.me.status;
    if t.Ok? then st.(value := STATUS_OK, failureCount := 0)
    else st.(value := ERROR_TEXT, failureCount := Increment(st.failureCount))
  }

  // ---------- Project ----------

  /** GetProject, then CreateProject or the two requests of UpdateProject. */
  function EnsureProject(s: St, n: string, description: string, parent: string): Try {
    var s :- Calling(s);
    if n !in s.w.backend.projects then
      var s :- Calling(s);
      Serving(s, s.w.backend.(projects := s.w.backend.projects[n := ProjectInfo(description, parent)]))
    else
      var s :- Calling(s);
      var s :- Serving(s, s.w.backend.(projects := s.w.backend.projects[n := ProjectInfo(description, ParentOf(s, n))]));
      var s :- Calling(s);
      Serving(s, s.w.backend.(projects := s.w.backend.projects[n := ProjectInfo(description, parent)]))
  }

  function ParentOf(s: St, n: string): string {
    if n in s.w.backend.projects then s.w.backend.projects[n].parent else ""
  }

  function ProjectTry(s: St): Try {
    match s.me.spec
    case ProjectSpec(n, description, parent, _) =>
      var s :- EnsureOwner(s);
      var s :- EnsureProject(s, n, description, parent);
      TryToDelete(s)
    case _ => Err(s)
  }

  function PlainStatus(t: Try): Status {
    t.st.me.status.(value := if t.Ok? then STATUS_OK else ERROR_TEXT)
  }

  // ---------- Project access ----------

  function GrantRights(s: St, p: string, l: seq<AccessInfo>): Try {
    if l == [] then Ok(s)
    else
      var s :- Calling(s);
      if p !in s.w.backend.access then Err(s)
      else
        var b := s.w.backend.access[p];
        Serving(s, s.w.backend.(access := s.w.backend.access[p := if s.me.status.created then AfterUpdate(b, l) else AfterAdd(b, l)]))
  }

  function SetParent(s: St, p: string, parent: string): Try {
    if parent == "" then Ok(s)
    else
      var s :- Calling(s);
      if p !in s.w.backend.access then Err(s)
      else
        Serving(s, s.w.backend.(parents := s.w.backend.parents[p := parent]))
  }

  function AccessTry(s: St): Try {
    match s.me.spec
    case AccessSpec(p, parent, l, _) =>
      var s :- EnsureOwner(s);
      var s :- GrantRights(s, p, l);
      var s :- SetParent(s, p, parent);
      TryToDelete(s)
    case _ => Err(s)
  }

  function AccessStatus(t: Try): Status {
    var st := t.st.me.status;
    if t.Ok? then st.(value := STATUS_OK, created := true) else st.(value := ERROR_TEXT)
  }

  // ---------- Merge request ----------

  /** GetGitClient reads the Gerrit object under exactly the given owner name, then the admin secret. */
  function GitClient(s: St): Try {
    var s :- Calling(s);
    if Named(s.w.gerrits, OwnerName(s.me.spec)).None? then Err(s) else Calling(s)
  }

  function Pushed(s: St, id: string): St {
    St(s.w.(backend := s.w.backend.(changes := s.w.backend.changes[id := CHANGE_NEW]),
            book := s.w.book.(pushes := s.w.book.pushes + 1)),
       s.me.(status := EMPTY_STATUS.(value := CHANGE_NEW, changeId := id)))
  }

  /** SetProjectUser and Merge, or the three remote or local git steps of commitFiles that may fail. */
  function PrepareCommit(s: St): Try {
    var s :- Calling(s);
    var s :- Calling(s);
    if s.me.spec.MergeRequestSpec? && s.me.spec.sourceBranch != "" then Ok(s) else Calling(s)
  }

  /** What createChange does in the clone: change id, commit, push. */
  function PushChange(s: St): Try {
    var (w, t) := Call(s.w);
    if !t.works then Err(s.(w := w))
    else
      var s :- PrepareCommit(s.(w := w));
      var s :- Calling(s);
      Ok(Pushed(s, "I" + t.text))
  }

  /** The deferred removal of the clone runs in every case and may turn a success into an error. */
  function PushThenRemoveClone(s: St): Try {
    var t := PushChange(s);
    var (w, removed) := Remote(t.st.w);
    if !removed then Err(St(w.(book := w.book.(dirsLost := w.book.dirsLost + 1)), s.me))
    else if t.Err? then Err(t.st.(w := w))
    else Ok(t.st.(w := w))
  }

  function CreateChange(s: St): Try {
    var s :- GitClient(s);
    var s :- Calling(s);
    PushThenRemoveClone(s)
  }

  /** The status is restored after TryToDelete, whose update would have discarded it. */
  function DeleteKeepingStatus(s: St): Try {
    var snapshot := s.me.status;
    var s :- TryToDelete(s);
    Ok(s.(me := s.me.(status := snapshot)))
  }

  function RefreshValue(s: St): Try {
    var s :- EnsureOwner(s);
    var s :- Calling(s);
    var id := s.me.status.changeId;
    if id !in s.w.backend.changes then Err(s)
    else Ok(s.(me := s.me.(status := s.me.status.(value := s.w.backend.changes[id]))))
  }

  function MergeTry(s: St): Try {
    match s.me.spec
    case MergeRequestSpec(_, sourceBranch, changesConfigMap, _) =>
      if s.me.status.changeId == "" then
        if sourceBranch == "" && changesConfigMap == "" then Err(s)
        else
          var s :- CreateChange(s);
          DeleteKeepingStatus(s)
      else
        var s :- RefreshValue(s);
        DeleteKeepingStatus(s)
    case _ => Err(s)
  }

  function MergeStatus(t: Try): Status {
    if t.Ok? then t.st.me.status else t.st.me.status.(value := ERROR_TEXT)
  }

  // ---------- Reconciling ----------

  /** The status write that ends every reconcile. */
  function Finish(w: World, me: Obj, status: Status): World {
    var (v, r) := ApiStatusUpdate(w, me.(status := status));
    if r.Answer? then v.(book := v.book.(lastValue := status.value))
    else v.(book := v.book.(statusLost := v.book.statusLost + 1))
  }

  datatype Kind = Member | Project | Access | MergeRequest

  predicate IsKind(spec: Spec, k: Kind) {
    match k
    case Member => spec.MemberSpec?
    case Project => spec.ProjectSpec?
    case Access => spec.AccessSpec?
    case MergeRequest => spec.MergeRequestSpec?
  }

  function TryOf(k: Kind, s: St): Try {
    match k
    case Member => MemberTry(s)
    case Project => ProjectTry(s)
    case Access => AccessTry(s)
    case MergeRequest => MergeTry(s)
  }

  function StatusOf(k: Kind, t: Try): Status {
    match k
    case Member => MemberStatus(t)
    case Project => PlainStatus(t)
    case Access => AccessStatus(t)
    case MergeRequest => MergeStatus(t)
  }

  /** Failed attempts since the last success (or since the object was created). */
  function Counted(w: World, ok: bool): World {
    w.(book := w.book.(streak := if ok then 0 else w.book.streak + 1))
  }

  function Reconcile(w: World, k: Kind): World {
    var (w1, r) := ApiGet(Logged(w, Begin));
    if !r.Answer? || !IsKind(r.obj.spec, k) then w1
    else
      var t := TryOf(k, St(w1, r.obj));
      Counted(Finish(t.st.w, t.st.me, StatusOf(k, t)), t.Ok?)
  }

  /** A run: reconciles of this object by its controller, interleaved with everybody else. */
  datatype Move = Work(kind: Kind) | Others(steps: seq<Step>)

  function Moved(w: World, m: Move): World {
    match m
    case Work(k) => Reconcile(w, k)
    case Others(steps) => Act(w, steps)
  }

  function Run(w: World, moves: seq<Move>): World {
    if moves == [] then w else Moved(Run(w, moves[..|moves| - 1]), moves[|moves| - 1])
  }

  lemma {:induction false} RunOfConcat(w: World, before: seq<Move>, after: seq<Move>)
    ensures Run(w, before + after) == Run(Run(w, before), after)
  {
    hide Moved;
    if after == [] {
      assert before + after == before;
    } else {
      var all := before + after;
      assert all[..|all| - 1] == before + after[..|after| - 1];
      RunOfConcat(w, before, after[..|after| - 1]);
    }
  }

  // ---------- The final status write ----------

  /** A status write that works replaces the status of an object that is still as the copy's origin was. */
  ghost predicate StatusStored(x: World, v: World, status: Status, origin: Obj) {
    && x.stored.Some? && SameFacts(x.stored.value, origin)
    && v.stored.Some? && v.stored.value.(version := 0) == x.stored.value.(status := status, version := 0)
    && v.history == x.history + {v.stored.value}
    && v.book == x.book.(lastValue := status.value, commits := v.book.commits)
    && v.peer == x.peer && v.script == x.script && v.backend == x.backend
  }

  predicate StatusLost(x: World, v: World) {
    v == x.(book := x.book.(statusLost := x.book.statusLost + 1))
  }

  lemma BookIsUnseen(w: World)
    requires WellFormed(w)
    ensures forall b :: WellFormed(w.(book := b))
  {
  }

  lemma FinishCases(w: World, me: Obj, status: Status, origin: Obj)
    requires WellFormed(w) && Of(w, me, origin)
    ensures WellFormed(Finish(w, me, status))
    ensures StatusLost(Call(w).0, Finish(w, me, status)) || StatusStored(Call(w).0, Finish(w, me, status), status, origin)
  {
    CallKeeps(w);
    var x := Call(w).0;
    var works := Call(w).1.works;
    OfGrows(w, x, me, origin);
    hide Call;
    if works && x.stored.Some? && x.stored.value.version == me.version {
      CurrentFacts(x, me, origin);
      hide Of;
      var cur := x.stored.value;
      PutKeeps(x, cur, cur.(status := status));
      hide Put;
      BookIsUnseen(Put(x, cur, cur.(status := status)));
    } else {
      BookIsUnseen(x);
    }
    hide WellFormed;
  }
}
