/**
 What a successful attempt means: whenever a reconciler of an object that is not being deleted reports success, the
 Gerrit server is in the state that the object asks for, whatever interfered and whatever earlier attempts left.
 */
module Effects {
  import opened Common
  import opened AccessRights
  import opened Cluster
  import opened Helper
  import opened Invariants
  import opened Controllers

  /** The server does what the object asks for; for a merge request, the status shows its change as it is. */
  ghost predicate Served(spec: Spec, status: Status, b: Backend) {
    match spec
    case MemberSpec(g, a, _) => (g, a) in b.members
    case ProjectSpec(n, description, parent, _) => n in b.projects && b.projects[n] == ProjectInfo(description, parent)
    case AccessSpec(p, parent, l, _) => Granted(b, p, l) && (parent != "" ==> p in b.parents && b.parents[p] == parent)
    case MergeRequestSpec(_, _, _, _) => status.changeId in b.changes && b.changes[status.changeId] == status.value
    case GerritSpec(_) => true
  }

  /** Every listed rule has the value listed first for it. */
  ghost predicate Granted(b: Backend, p: string, l: seq<AccessInfo>) {
    l != [] ==>
      p in b.access
      && forall r, q, g | Listed(l, r, q, g) :: RuleAt(b.access[p], r, q, g) == ListedRule(l, r, q, g)
  }

  predicate Whatever(s: Step) {
    true
  }

  ghost function Any(): World -> bool {
    Promised(WellFormed, Whatever)
  }

  lemma AnyIsStable()
    ensures Stable(Any())
  {
    forall w, s | WellFormed(w) ensures WellFormed(Take(w, s)) { TakeKeeps(w, s); }
    forall w, a, b | WellFormed(w) && w.stored == Some(a) && PlainWrite(a, b) ensures WellFormed(Put(w, a, b)) {
      PutWellFormed(w, a, b);
    }
    hide Take, Put;
    ClosedIsStable(WellFormed, Whatever);
  }

  lemma AnyMeans(w: World)
    ensures Any()(w) <==> WellFormed(w)
  {
    assert Promised(WellFormed, Whatever)(w) <==> WellFormed(w) && Only(w.script, Whatever);
    hide WellFormed;
  }

  lemma UpdatingKeepsBackend(s: St)
    requires WellFormed(s.w)
    ensures Updating(s).st.w.backend == s.w.backend
  {
    CallKeeps(s.w);
    hide Call, WellFormed;
  }

  /** For an object that is not being deleted the finalizer protocol leaves the Gerrit server alone. */
  lemma GuardingKeepsBackend(s: St)
    requires WellFormed(s.w) && !s.me.deleting
    ensures TryToDelete(s).st.w.backend == s.w.backend
  {
    UpdatingKeepsBackend(s.(me := s.me.(finalizers := s.me.finalizers + [FinalizerOf(s.me.spec)])));
    hide WellFormed, Updating;
  }

  lemma OwnerKeeps(s: St, origin: Obj)
    requires WellFormed(s.w) && Of(s.w, s.me, origin)
    ensures var t := EnsureOwner(s).st;
            WellFormed(t.w) && Of(t.w, t.me, origin) && (t.me.status == s.me.status || t.me.status == origin.status)
  {
    AnyIsStable();
    AnyMeans(s.w);
    AnyMeans(EnsureOwner(s).st.w);
    hide Any, EnsureOwner, Of, Stable;
    EnsureOwnerCarries(Any(), s, origin);
  }

  lemma CallingKeeps(s: St, origin: Obj)
    requires WellFormed(s.w) && Of(s.w, s.me, origin)
    ensures var t := Calling(s).st;
            WellFormed(t.w) && Of(t.w, t.me, origin) && t.me == s.me && t.w.backend == s.w.backend
  {
    CallKeeps(s.w);
    OfGrows(s.w, Call(s.w).0, s.me, origin);
    hide Call, Of, WellFormed;
  }

  lemma MemberServed(s: St)
    requires WellFormed(s.w) && Of(s.w, s.me, s.me) && s.me.spec.MemberSpec? && !s.me.deleting && MemberTry(s).Ok?
    ensures Served(s.me.spec, s.me.status, MemberTry(s).st.w.backend)
  {
    hide EnsureOwner, Calling, TryToDelete, WellFormed, Of;
    OwnerKeeps(s, s.me);
    var t := EnsureOwner(s).st;
    CallingKeeps(t, s.me);
    var u := Calling(t).st;
    var v := Serving(u, u.w.backend.(members := u.w.backend.members + {(s.me.spec.groupId, s.me.spec.accountId)})).st;
    BackendIsNoFact(u, v.w.backend, s.me);
    GuardingKeepsBackend(v);
  }

  lemma BackendIsNoFact(s: St, b: Backend, origin: Obj)
    requires WellFormed(s.w) && Of(s.w, s.me, origin)
    ensures WellFormed(Serving(s, b).st.w) && Of(Serving(s, b).st.w, s.me, origin) && s.me.deleting == origin.deleting && s.me.spec == origin.spec
  {
  }

  lemma EnsureProjectServes(s: St, n: string, description: string, parent: string, origin: Obj)
    requires WellFormed(s.w) && Of(s.w, s.me, origin) && EnsureProject(s, n, description, parent).Ok?
    ensures var t := EnsureProject(s, n, description, parent).st;
            WellFormed(t.w) && Of(t.w, t.me, origin)
            && n in t.w.backend.projects && t.w.backend.projects[n] == ProjectInfo(description, parent)
  {
    hide Calling, WellFormed, Of;
    CallingKeeps(s, origin);
    var s1 := Calling(s).st;
    CallingKeeps(s1, origin);
    var s2 := Calling(s1).st;
    var info := if n in s1.w.backend.projects then ProjectInfo(description, ParentOf(s2, n)) else ProjectInfo(description, parent);
    var b := s2.w.backend.(projects := s2.w.backend.projects[n := info]);
    BackendIsNoFact(s2, b, origin);
    var s3 := Serving(s2, b).st;
    CallingKeeps(s3, origin);
    var s4 := Calling(s3).st;
    BackendIsNoFact(s4, s4.w.backend.(projects := s4.w.backend.projects[n := ProjectInfo(description, parent)]), origin);
  }

  /** An update that fails half-way may have changed the description but never the parent; a failed creation leaves nothing. */
  lemma FailedProjectKeepsParent(s: St, n: string, description: string, parent: string)
    requires WellFormed(s.w) && EnsureProject(s, n, description, parent).Err?
    ensures var b, c := s.w.backend.projects, EnsureProject(s, n, description, parent).st.w.backend.projects;
            (n in c <==> n in b) && (n in b ==> c[n] == b[n] || c[n] == ProjectInfo(description, b[n].parent))
  {
    BackendUntouched(s);
    var s1 := Calling(s).st;
    BackendUntouched(s1);
    var s2 := Calling(s1).st;
    var b := s2.w.backend.(projects := s2.w.backend.projects[n := ProjectInfo(description, ParentOf(s2, n))]);
    var s3 := Serving(s2, b).st;
    assert WellFormed(s3.w);
    BackendUntouched(s3);
    hide Calling, WellFormed;
  }

  lemma BackendUntouched(s: St)
    requires WellFormed(s.w)
    ensures var t := Calling(s).st; WellFormed(t.w) && t.w.backend == s.w.backend && t.me == s.me
  {
    CallKeeps(s.w);
    hide Call, WellFormed;
  }

  lemma ProjectServed(s: St)
    requires WellFormed(s.w) && Of(s.w, s.me, s.me) && s.me.spec.ProjectSpec? && !s.me.deleting && ProjectTry(s).Ok?
    ensures Served(s.me.spec, s.me.status, ProjectTry(s).st.w.backend)
  {
    hide EnsureOwner, EnsureProject, TryToDelete, WellFormed;
    var ProjectSpec(n, description, parent, _) := s.me.spec;
    OwnerKeeps(s, s.me);
    var t := EnsureOwner(s).st;
    EnsureProjectServes(t, n, description, parent, s.me);
    GuardingKeepsBackend(EnsureProject(t, n, description, parent).st);
  }

  /** Both ways of granting leave every listed rule with its first-listed value. */
  lemma GrantServes(s: St, p: string, l: seq<AccessInfo>, origin: Obj)
    requires WellFormed(s.w) && Of(s.w, s.me, origin) && GrantRights(s, p, l).Ok?
    ensures var t := GrantRights(s, p, l).st;
            WellFormed(t.w) && Of(t.w, t.me, origin) && Granted(t.w.backend, p, l)
  {
    hide Calling, WellFormed, Of, AfterAdd, AfterUpdate, RuleAt, LabelAt, NoEmpty;
    if l != [] {
      CallingKeeps(s, origin);
      var u := Calling(s).st;
      var b := u.w.backend.access[p];
      var after := if u.me.status.created then AfterUpdate(b, l) else AfterAdd(b, l);
      BackendIsNoFact(u, u.w.backend.(access := u.w.backend.access[p := after]), origin);
      forall r, q, g | Listed(l, r, q, g) ensures RuleAt(after, r, q, g) == ListedRule(l, r, q, g) {
        AfterAddLookups(b, l, r, q, g);
        AfterUpdateLookups(b, l, r, q, g);
      }
    }
  }

  lemma ParentServes(s: St, p: string, parent: string, origin: Obj)
    requires WellFormed(s.w) && Of(s.w, s.me, origin) && SetParent(s, p, parent).Ok?
    ensures var t := SetParent(s, p, parent).st;
            WellFormed(t.w) && Of(t.w, t.me, origin) && t.w.backend.access == s.w.backend.access
            && (parent != "" ==> p in t.w.backend.parents && t.w.backend.parents[p] == parent)
  {
    hide Calling, WellFormed, Of;
    if parent != "" {
      CallingKeeps(s, origin);
      var u := Calling(s).st;
      BackendIsNoFact(u, u.w.backend.(parents := u.w.backend.parents[p := parent]), origin);
    }
  }

  lemma AccessServed(s: St)
    requires WellFormed(s.w) && Of(s.w, s.me, s.me) && s.me.spec.AccessSpec? && !s.me.deleting && AccessTry(s).Ok?
    ensures Served(s.me.spec, s.me.status, AccessTry(s).st.w.backend)
  {
    hide EnsureOwner, GrantRights, SetParent, TryToDelete, WellFormed, RuleAt, ListedRule, Listed;
    var AccessSpec(p, parent, l, _) := s.me.spec;
    OwnerKeeps(s, s.me);
    var t := EnsureOwner(s).st;
    GrantServes(t, p, l, s.me);
    var u := GrantRights(t, p, l).st;
    ParentServes(u, p, parent, s.me);
    GuardingKeepsBackend(SetParent(u, p, parent).st);
  }

  // ---------- Merge requests ----------

  lemma GitClientKeeps(s: St, origin: Obj)
    requires WellFormed(s.w) && Of(s.w, s.me, origin)
    ensures var t := GitClient(s).st; WellFormed(t.w) && Of(t.w, t.me, origin) && t.me == s.me
  {
    hide Calling, Of, WellFormed, Named;
    CallingKeeps(s, origin);
    CallingKeeps(Calling(s).st, origin);
  }

  lemma PrepareKeeps(s: St, origin: Obj)
    requires WellFormed(s.w) && Of(s.w, s.me, origin)
    ensures var t := PrepareCommit(s).st; WellFormed(t.w) && Of(t.w, t.me, origin) && t.me == s.me
  {
    hide Calling, Of, WellFormed;
    CallingKeeps(s, origin);
    var s1 := Calling(s).st;
    CallingKeeps(s1, origin);
    CallingKeeps(Calling(s1).st, origin);
  }

  /** The recorded change exists and has the recorded value. */
  ghost predicate Shown(s: St, origin: Obj) {
    WellFormed(s.w) && Of(s.w, s.me, origin) && s.me.status.changeId in s.w.backend.changes
    && s.w.backend.changes[s.me.status.changeId] == s.me.status.value
  }

  lemma PushedIsShown(s: St, id: string, origin: Obj)
    requires WellFormed(s.w) && Of(s.w, s.me, origin)
    ensures Shown(Pushed(s, id), origin)
  {
    BookIsUnseen(s.w);
  }

  lemma PushShows(s: St, origin: Obj)
    requires WellFormed(s.w) && Of(s.w, s.me, origin) && PushChange(s).Ok?
    ensures Shown(PushChange(s).st, origin)
  {
    CallingKeeps(s, origin);
    assert Calling(s).st.w == Call(s.w).0;
    hide Call, PrepareCommit, Pushed, Of, WellFormed, Shown;
    var s1 := Calling(s).st;
    PrepareKeeps(s1, origin);
    var s2 := PrepareCommit(s1).st;
    CallingKeeps(s2, origin);
    PushedIsShown(Calling(s2).st, "I" + Call(s.w).1.text, origin);
  }

  lemma CallShows(s: St, origin: Obj)
    requires Shown(s, origin)
    ensures Shown(s.(w := Call(s.w).0), origin)
  {
    CallKeeps(s.w);
    OfGrows(s.w, Call(s.w).0, s.me, origin);
    hide Call, Of, WellFormed;
  }

  lemma CreateShows(s: St, origin: Obj)
    requires WellFormed(s.w) && Of(s.w, s.me, origin) && CreateChange(s).Ok?
    ensures Shown(CreateChange(s).st, origin)
  {
    hide GitClient, PushChange, Call, Of, WellFormed, Shown;
    GitClientKeeps(s, origin);
    var s1 := GitClient(s).st;
    CallingKeeps(s1, origin);
    var s2 := Calling(s1).st;
    PushShows(s2, origin);
    CallShows(PushChange(s2).st, origin);
  }

  lemma RefreshShows(s: St, origin: Obj)
    requires WellFormed(s.w) && Of(s.w, s.me, origin) && RefreshValue(s).Ok?
    ensures Shown(RefreshValue(s).st, origin)
  {
    hide EnsureOwner, Calling, WellFormed;
    OwnerKeeps(s, origin);
    CallingKeeps(EnsureOwner(s).st, origin);
  }

  lemma KeepingStatusShows(s: St, origin: Obj)
    requires Shown(s, origin) && !origin.deleting
    ensures var t := DeleteKeepingStatus(s);
            t.Ok? ==> t.st.me.status == s.me.status && t.st.w.backend == s.w.backend
  {
    assert s.me.deleting == origin.deleting;
    hide TryToDelete, WellFormed, Of;
    GuardingKeepsBackend(s);
  }

  lemma MergeServed(s: St)
    requires WellFormed(s.w) && Of(s.w, s.me, s.me) && s.me.spec.MergeRequestSpec? && !s.me.deleting && MergeTry(s).Ok?
    ensures Served(s.me.spec, MergeTry(s).st.me.status, MergeTry(s).st.w.backend)
  {
    hide CreateChange, RefreshValue, DeleteKeepingStatus, WellFormed, Of;
    var t := if s.me.status.changeId == "" then CreateChange(s) else RefreshValue(s);
    if s.me.status.changeId == "" {
      CreateShows(s, s.me);
    } else {
      RefreshShows(s, s.me);
    }
    KeepingStatusShows(t.st, s.me);
  }

  // ---------- Main result ----------

  /**
   In every world, with any interference in between: when the attempt of a reconciler succeeds on an object that is
   not being deleted, the server is at that moment in the state the object asks for.
   */
  lemma SuccessMeansServed(w: World, k: Kind)
    requires WellFormed(w)
    ensures var (w1, r) := ApiGet(Logged(w, Begin));
            r.Answer? && IsKind(r.obj.spec, k) && !r.obj.deleting ==>
              var t := TryOf(k, St(w1, r.obj));
              t.Ok? ==> Served(r.obj.spec, t.st.me.status, t.st.w.backend)
  {
    hide MemberTry, ProjectTry, AccessTry, MergeTry, Served, Of, WellFormed, ApiGet, Logged;
    ReadIsGenuine(w);
    var (w1, r) := ApiGet(Logged(w, Begin));
    if r.Answer? && IsKind(r.obj.spec, k) && !r.obj.deleting {
      var s := St(w1, r.obj);
      if TryOf(k, s).Ok? {
        match k {
          case Member =>
            MemberServed(s);
            StatusDoesNotMatter(r.obj.spec, s.me.status, MemberTry(s).st.me.status, MemberTry(s).st.w.backend);
          case Project =>
            ProjectServed(s);
            StatusDoesNotMatter(r.obj.spec, s.me.status, ProjectTry(s).st.me.status, ProjectTry(s).st.w.backend);
          case Access =>
            AccessServed(s);
            StatusDoesNotMatter(r.obj.spec, s.me.status, AccessTry(s).st.me.status, AccessTry(s).st.w.backend);
          case MergeRequest =>
            MergeServed(s);
        }
      }
    }
  }

  lemma StatusDoesNotMatter(spec: Spec, a: Status, b: Status, server: Backend)
    requires !spec.MergeRequestSpec? && Served(spec, a, server)
    ensures Served(spec, b, server)
  {
    hide Granted;
  }

  lemma ReadIsGenuine(w: World)
    requires WellFormed(w)
    ensures var (v, r) := ApiGet(Logged(w, Begin)); WellFormed(v) && (r.Answer? ==> Of(v, r.obj, r.obj))
  {
    CallKeeps(Logged(w, Begin));
    hide Call;
  }
}
