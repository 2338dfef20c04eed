/**
 What a reconciler leaves alone on the Gerrit server: in every world, with any interference and any failures, it touches
 the item its object stands for and at most the one change it pushes. Stated over the server's fields.
 */
module Bystanders {
  import opened Common
  import opened AccessRights
  import opened Cluster
  import opened Helper
  import opened Invariants
  import opened Controllers
  import Effects
  import FinalizerSafety
  import UsedTurns

  /** The things on the server that can be told apart. */
  datatype Item =
    | MemberItem(group: string, account: string)
    | ProjectItem(name: string)
    | RuleItem(project: string, reference: string, permission: string, group: string)
    | ParentItem(project: string)
    | ChangeItem(id: string)

  /** The object stands for this item. A merge request stands for its recorded change once it is deleted. */
  ghost predicate Names(o: Obj, it: Item) {
    match it
    case MemberItem(g, a) => o.spec.MemberSpec? && o.spec.groupId == g && o.spec.accountId == a
    case ProjectItem(n) => o.spec.ProjectSpec? && o.spec.name == n
    case RuleItem(p, r, q, g) => o.spec.AccessSpec? && o.spec.projectName == p && Listed(o.spec.references, r, q, g)
    case ParentItem(p) => o.spec.AccessSpec? && o.spec.projectName == p && o.spec.accessParent != ""
    case ChangeItem(id) => o.spec.MergeRequestSpec? && o.deleting && o.status.changeId == id
  }

  /** A rule together with the label of its permission, in a project that Gerrit knows or not. */
  function RuleIn(b: Backend, p: string, r: string, q: string, g: string): Option<(Rule, Option<string>)> {
    if p in b.access && RuleAt(b.access[p], r, q, g).Some?
      then Some((RuleAt(b.access[p], r, q, g).value, LabelAt(b.access[p], r, q))) else None
  }

  predicate Present(b: Backend, it: Item) {
    match it
    case MemberItem(g, a) => (g, a) in b.members
    case ProjectItem(n) => n in b.projects
    case RuleItem(p, r, q, g) => RuleIn(b, p, r, q, g).Some?
    case ParentItem(p) => p in b.parents
    case ChangeItem(id) => id in b.changes
  }

  /** The item is there in both or in neither, with the same contents. */
  predicate Same(b: Backend, c: Backend, it: Item) {
    (Present(b, it) <==> Present(c, it))
    && (Present(b, it) && Present(c, it) ==>
          match it
          case MemberItem(_, _) => true
          case ProjectItem(n) => b.projects[n] == c.projects[n]
          case RuleItem(p, r, q, g) => RuleIn(b, p, r, q, g) == RuleIn(c, p, r, q, g)
          case ParentItem(p) => b.parents[p] == c.parents[p]
          case ChangeItem(id) => b.changes[id] == c.changes[id])
  }

  predicate IsPushed(pushed: Option<string>, it: Item) {
    it.ChangeItem? && pushed == Some(it.id)
  }

  /**
   Everything but the object's own item and the pushed change is as before. While the object is not being deleted
   nothing goes away; changes never do, and are at most abandoned when they were NEW.
   */
  ghost predicate Spared(b: Backend, c: Backend, o: Obj, pushed: Option<string>) {
    && (forall it | !Names(o, it) && !IsPushed(pushed, it) :: Same(b, c, it))
    && (!o.deleting ==> forall it | Present(b, it) :: Present(c, it))
    && (forall id | id in b.changes && pushed != Some(id) ::
          id in c.changes && (c.changes[id] == b.changes[id] || (b.changes[id] == CHANGE_NEW && c.changes[id] == CHANGE_ABANDONED)))
  }

  lemma SparedTransitive(b: Backend, c: Backend, d: Backend, o: Obj, pushed: Option<string>)
    requires Spared(b, c, o, pushed) && Spared(c, d, o, pushed)
    ensures Spared(b, d, o, pushed)
  {
    forall it | !Names(o, it) && !IsPushed(pushed, it) ensures Same(b, d, it) {
      assert Same(b, c, it) && Same(c, d, it);
    }
    hide Names, RuleIn;
  }

  lemma SparedReflexive(b: Backend, o: Obj, pushed: Option<string>)
    ensures Spared(b, b, o, pushed)
  {
  }

  /** A push that did not happen excuses nothing. */
  lemma SparedAnyway(b: Backend, c: Backend, o: Obj, pushed: Option<string>)
    requires Spared(b, c, o, None)
    ensures Spared(b, c, o, pushed)
  {
    hide Same, Present, Names;
  }

  // ---------- Changes of the server's fields ----------

  lemma MemberChange(b: Backend, o: Obj, members: set<(string, string)>, pushed: Option<string>)
    requires o.spec.MemberSpec?
    requires forall m | m != (o.spec.groupId, o.spec.accountId) :: m in members <==> m in b.members
    requires !o.deleting ==> b.members <= members
    ensures Spared(b, b.(members := members), o, pushed)
  {
    hide RuleAt, LabelAt;
  }

  lemma ProjectChange(b: Backend, o: Obj, projects: map<string, ProjectInfo>, pushed: Option<string>)
    requires o.spec.ProjectSpec?
    requires forall n | n != o.spec.name :: (n in projects <==> n in b.projects) && (n in projects ==> projects[n] == b.projects[n])
    requires !o.deleting ==> b.projects.Keys <= projects.Keys
    ensures Spared(b, b.(projects := projects), o, pushed)
  {
    hide RuleAt, LabelAt;
  }

  lemma ParentChange(b: Backend, o: Obj, pushed: Option<string>)
    requires o.spec.AccessSpec? && o.spec.accessParent != ""
    ensures Spared(b, b.(parents := b.parents[o.spec.projectName := o.spec.accessParent]), o, pushed)
  {
    hide RuleAt, LabelAt;
  }

  /** New rights for the object's project. */
  lemma RightsChange(b: Backend, o: Obj, rights: Rights, pushed: Option<string>)
    requires o.spec.AccessSpec? && o.spec.projectName in b.access
    requires var before := b.access[o.spec.projectName];
             forall r, q, g | !Listed(o.spec.references, r, q, g) ::
               RuleAt(rights, r, q, g) == RuleAt(before, r, q, g) && (RuleAt(before, r, q, g).Some? ==> LabelAt(rights, r, q) == LabelAt(before, r, q))
    requires var before := b.access[o.spec.projectName];
             !o.deleting ==> forall r, q, g | RuleAt(before, r, q, g).Some? :: RuleAt(rights, r, q, g).Some?
    ensures Spared(b, b.(access := b.access[o.spec.projectName := rights]), o, pushed)
  {
    hide RuleAt, LabelAt, Listed;
  }

  lemma ChangePushed(b: Backend, o: Obj, id: string)
    ensures Spared(b, b.(changes := b.changes[id := CHANGE_NEW]), o, Some(id))
  {
    hide RuleAt, LabelAt;
  }

  lemma ChangeAbandoned(b: Backend, o: Obj, id: string, pushed: Option<string>)
    requires o.spec.MergeRequestSpec? && o.deleting && (id == o.status.changeId || pushed == Some(id))
    requires id in b.changes && b.changes[id] == CHANGE_NEW
    ensures Spared(b, b.(changes := b.changes[id := CHANGE_ABANDONED]), o, pushed)
  {
    hide RuleAt, LabelAt;
  }

  /** Granting and removing rights touch listed rules only. */
  lemma RightsSpare(b: Rights, l: seq<AccessInfo>, r: string, q: string, g: string)
    ensures !Listed(l, r, q, g) ==> RuleAt(AfterAdd(b, l), r, q, g) == RuleAt(b, r, q, g)
    ensures !Listed(l, r, q, g) ==> RuleAt(AfterUpdate(b, l), r, q, g) == RuleAt(b, r, q, g)
    ensures !Listed(l, r, q, g) ==> RuleAt(AfterDelete(b, l), r, q, g) == RuleAt(b, r, q, g)
    ensures !Listed(l, r, q, g) && RuleAt(b, r, q, g).Some? ==>
              LabelAt(AfterAdd(b, l), r, q) == LabelAt(AfterUpdate(b, l), r, q) == LabelAt(AfterDelete(b, l), r, q) == LabelAt(b, r, q)
    ensures RuleAt(b, r, q, g).Some? ==> RuleAt(AfterAdd(b, l), r, q, g).Some? && RuleAt(AfterUpdate(b, l), r, q, g).Some?
  {
    AfterAddLookups(b, l, r, q, g);
    AfterUpdateLookups(b, l, r, q, g);
    AfterUpdateLabel(b, l, r, q);
    AfterDeleteLookups(b, l, r, q, g);
    FirstRuleIsListed(l, r, q, g);
    assert RuleAt(b, r, q, g).Some? ==> LabelAt(b, r, q).Some?;
    hide AfterAdd, AfterUpdate, AfterDelete, RuleAt, LabelAt, FirstRule, FirstPermission;
  }

  lemma GrantSpares(b: Backend, o: Obj, created: bool, pushed: Option<string>)
    requires o.spec.AccessSpec? && o.spec.projectName in b.access
    ensures var before := b.access[o.spec.projectName];
            var after := if created then AfterUpdate(before, o.spec.references) else AfterAdd(before, o.spec.references);
            Spared(b, b.(access := b.access[o.spec.projectName := after]), o, pushed)
  {
    var before, l := b.access[o.spec.projectName], o.spec.references;
    var after := if created then AfterUpdate(before, l) else AfterAdd(before, l);
    hide AfterAdd, AfterUpdate, AfterDelete, RuleAt, LabelAt, Listed, Spared;
    forall r, q, g
      ensures RuleAt(before, r, q, g).Some? ==> RuleAt(after, r, q, g).Some?
      ensures !Listed(l, r, q, g) ==> RuleAt(after, r, q, g) == RuleAt(before, r, q, g)
      ensures !Listed(l, r, q, g) && RuleAt(before, r, q, g).Some? ==> LabelAt(after, r, q) == LabelAt(before, r, q)
    {
      RightsSpare(before, l, r, q, g);
    }
    RightsChange(b, o, after, pushed);
  }

  /** Each of the three removals. */
  lemma RemovalSpares(b: Backend, o: Obj, pushed: Option<string>)
    requires o.deleting && AfterRemoval(o.spec, b).Some?
    ensures Spared(b, AfterRemoval(o.spec, b).value, o, pushed)
  {
    match o.spec
    case MemberSpec(g, a, _) => MemberChange(b, o, b.members - {(g, a)}, pushed);
    case ProjectSpec(n, _, _, _) => ProjectChange(b, o, b.projects - {n}, pushed);
    case AccessSpec(p, _, l, _) =>
      var before := b.access[p];
      var after := AfterDelete(before, l);
      hide AfterDelete, RuleAt, LabelAt, Listed, Spared;
      forall r, q, g
        ensures !Listed(l, r, q, g) ==> RuleAt(after, r, q, g) == RuleAt(before, r, q, g)
        ensures !Listed(l, r, q, g) && RuleAt(before, r, q, g).Some? ==> LabelAt(after, r, q) == LabelAt(before, r, q)
      {
        RightsSpare(before, l, r, q, g);
      }
      RightsChange(b, o, after, pushed);
    case _ =>
  }

  // ---------- Steps ----------

  /** A step keeps the copy's origin and spares the bystanders; it pushes nothing and writes no status. */
  ghost predicate Sparing(s: St, t: St, o: Obj, pushed: Option<string>) {
    && WellFormed(t.w) && Of(t.w, t.me, o)
    && Spared(s.w.backend, t.w.backend, o, pushed)
    && t.w.book.pushes == s.w.book.pushes && t.w.book.commits == s.w.book.commits && s.w.history <= t.w.history
    && (t.me.status == s.me.status || t.me.status == o.status)
  }

  ghost predicate Known(s: St, o: Obj) {
    WellFormed(s.w) && Of(s.w, s.me, o)
  }

  lemma SparingTransitive(s: St, t: St, u: St, o: Obj, pushed: Option<string>)
    requires Sparing(s, t, o, pushed) && Sparing(t, u, o, pushed)
    ensures Sparing(s, u, o, pushed)
  {
    SparedTransitive(s.w.backend, t.w.backend, u.w.backend, o, pushed);
    hide Spared, WellFormed, Of;
  }

  lemma CallingSpares(s: St, o: Obj, pushed: Option<string>)
    requires Known(s, o)
    ensures Sparing(s, Calling(s).st, o, pushed) && Calling(s).st.me == s.me && Calling(s).st.w.backend == s.w.backend
  {
    Effects.CallingKeeps(s, o);
    CallKeeps(s.w);
    SparedReflexive(s.w.backend, o, pushed);
    hide Call, Spared, WellFormed, Of;
  }

  lemma UpdatingSpares(s: St, o: Obj, pushed: Option<string>)
    requires Known(s, o)
    ensures Sparing(s, Updating(s).st, o, pushed) && Updating(s).st.w.backend == s.w.backend
  {
    UpdateFacts(s.w, s.me, o);
    Effects.UpdatingKeepsBackend(s);
    UpdatePushesNothing(s.w, s.me);
    SparedReflexive(s.w.backend, o, pushed);
    hide ApiUpdate, Spared, WellFormed, Of;
  }

  lemma UpdatePushesNothing(w: World, me: Obj)
    requires WellFormed(w)
    ensures ApiUpdate(w, me).0.book.pushes == w.book.pushes && ApiUpdate(w, me).0.book.commits == w.book.commits
  {
    CallKeeps(w);
    hide Call, WellFormed, Tidy;
  }

  lemma ServingSpares(s: St, b: Backend, o: Obj, pushed: Option<string>)
    requires Known(s, o) && Spared(s.w.backend, b, o, pushed)
    ensures Sparing(s, Serving(s, b).st, o, pushed)
  {
    Effects.BackendIsNoFact(s, b, o);
    hide Spared, WellFormed, Of;
  }

  lemma ResolveSpares(s: St, o: Obj, pushed: Option<string>)
    requires Known(s, o)
    ensures Sparing(s, ResolveOwner(s).st, o, pushed) && ResolveOwner(s).st.w.backend == s.w.backend
  {
    hide Calling, Sparing, GerritOwner, Named;
    assert Sparing(s, s, o, pushed) by { StillSparing(s, o, pushed); }
    CallingSpares(s, o, pushed);
    var t := Calling(s).st;
    SparingIsKnown(s, t, o, pushed);
    CallingSpares(t, o, pushed);
    SparingTransitive(s, t, Calling(t).st, o, pushed);
  }

  lemma StillSparing(s: St, o: Obj, pushed: Option<string>)
    requires Known(s, o)
    ensures Sparing(s, s, o, pushed)
  {
    SparedReflexive(s.w.backend, o, pushed);
    hide Spared, WellFormed, Of;
  }

  lemma SparingIsKnown(s: St, t: St, o: Obj, pushed: Option<string>)
    requires Sparing(s, t, o, pushed)
    ensures Known(t, o)
  {
    hide Spared, WellFormed, Of;
  }

  lemma EnsureOwnerSpares(s: St, o: Obj, pushed: Option<string>)
    requires Known(s, o)
    ensures Sparing(s, EnsureOwner(s).st, o, pushed) && EnsureOwner(s).st.w.backend == s.w.backend
  {
    hide Calling, Updating, ResolveOwner, Sparing, GerritInstance, Known;
    ResolveSpares(s, o, pushed);
    CallingSpares(s, o, pushed);
    var s1 := Calling(s).st;
    SparingIsKnown(s, s1, o, pushed);
    var g := GerritInstance(s1.w.gerrits, OwnerName(s1.me.spec));
    if s.me.owners == [] && Calling(s).Ok? && g.Some? {
      var s2 := s1.(me := s1.me.(owners := [Owner("Gerrit", g.value.name, g.value.uid)]));
      OwnersSpare(s1, s2.me.owners, o, pushed);
      UpdatingSpares(s2, o, pushed);
      SparingTransitive(s, s1, s2, o, pushed);
      var s3 := Updating(s2).st;
      SparingTransitive(s, s2, s3, o, pushed);
      SparingIsKnown(s, s3, o, pushed);
      ResolveSpares(s3, o, pushed);
      SparingTransitive(s, s3, ResolveOwner(s3).st, o, pushed);
    }
  }

  lemma OwnersSpare(s: St, owners: seq<Owner>, o: Obj, pushed: Option<string>)
    requires Known(s, o) && owners != []
    ensures Known(s.(me := s.me.(owners := owners)), o) && Sparing(s, s.(me := s.me.(owners := owners)), o, pushed)
  {
    OwnersAreNoFact(s.w, s.me, owners, o);
    SparedReflexive(s.w.backend, o, pushed);
    hide Spared, WellFormed, Of;
  }

  /** The change that an abandoning cleanup would look at. */
  predicate IdFits(me: Obj, o: Obj, pushed: Option<string>) {
    me.status.changeId == o.status.changeId || pushed == Some(me.status.changeId)
  }

  lemma AbandonSpares(s: St, o: Obj, pushed: Option<string>)
    requires Known(s, o) && o.spec.MergeRequestSpec? && o.deleting && IdFits(s.me, o, pushed)
    ensures Sparing(s, AbandonIfNew(s).st, o, pushed)
  {
    hide Calling, Sparing, Known;
    CallingSpares(s, o, pushed);
    var s1 := Calling(s).st;
    SparingIsKnown(s, s1, o, pushed);
    CallingSpares(s1, o, pushed);
    var s2 := Calling(s1).st;
    SparingTransitive(s, s1, s2, o, pushed);
    SparingIsKnown(s, s2, o, pushed);
    var id := s1.me.status.changeId;
    if id in s1.w.backend.changes && s1.w.backend.changes[id] == CHANGE_NEW {
      var b := s2.w.backend.(changes := s2.w.backend.changes[id := CHANGE_ABANDONED]);
      ChangeAbandoned(s2.w.backend, o, id, pushed);
      ServingSpares(s2, b, o, pushed);
      SparingTransitive(s, s2, Serving(s2, b).st, o, pushed);
    }
    hide Spared;
  }

  lemma CleanupSpares(s: St, o: Obj, pushed: Option<string>)
    requires Known(s, o) && o.deleting && IdFits(s.me, o, pushed)
    ensures Sparing(s, Cleanup(s).st, o, pushed)
  {
    assert s.me.spec == o.spec;
    if o.spec.MergeRequestSpec? {
      hide EnsureOwner, AbandonIfNew, Known;
      EnsureOwnerSpares(s, o, pushed);
      var t := EnsureOwner(s).st;
      SparingIsKnown(s, t, o, pushed);
      AbandonSpares(t, o, pushed);
      SparingTransitive(s, t, AbandonIfNew(t).st, o, pushed);
    } else {
      RemovingSpares(s, o, pushed);
    }
    hide EnsureOwner, AbandonIfNew, Calling, Spared, WellFormed, Of, AfterRemoval;
  }

  lemma RemovingSpares(s: St, o: Obj, pushed: Option<string>)
    requires Known(s, o) && o.deleting && !o.spec.MergeRequestSpec?
    ensures Sparing(s, Cleanup(s).st, o, pushed)
  {
    assert s.me.spec == o.spec;
    hide Calling, Sparing, Known, AfterRemoval;
    CallingSpares(s, o, pushed);
    var t := Calling(s).st;
    SparingIsKnown(s, t, o, pushed);
    var b := AfterRemoval(o.spec, t.w.backend);
    if b.Some? {
      RemovalSpares(t.w.backend, o, pushed);
      ServingSpares(t, b.value, o, pushed);
      SparingTransitive(s, t, Serving(t, b.value).st, o, pushed);
    }
  }

  lemma TryToDeleteSpares(s: St, o: Obj, pushed: Option<string>)
    requires Known(s, o) && IdFits(s.me, o, pushed)
    ensures Sparing(s, TryToDelete(s).st, o, pushed)
  {
    assert s.me.deleting == o.deleting;
    StillSparing(s, o, pushed);
    if o.deleting {
      CleaningSpares(s, o, pushed);
    } else {
      GuardingSpares(s, o, pushed);
    }
    hide TryToDelete, Sparing, Known;
  }

  lemma GuardingSpares(s: St, o: Obj, pushed: Option<string>)
    requires Known(s, o) && !s.me.deleting
    ensures Sparing(s, TryToDelete(s).st, o, pushed)
  {
    StillSparing(s, o, pushed);
    var s1 := s.(me := s.me.(finalizers := s.me.finalizers + [FinalizerOf(s.me.spec)]));
    assert Known(s1, o);
    UpdatingSpares(s1, o, pushed);
    hide Updating, Spared, WellFormed, Of;
  }

  lemma CleaningSpares(s: St, o: Obj, pushed: Option<string>)
    requires Known(s, o) && s.me.deleting && o.deleting && IdFits(s.me, o, pushed)
    ensures Sparing(s, TryToDelete(s).st, o, pushed)
  {
    hide Cleanup, Updating, Sparing, Known;
    CleanupSpares(s, o, pushed);
    var s1 := Cleanup(s).st;
    if Cleanup(s).Ok? {
      SparingIsKnown(s, s1, o, pushed);
      var s2 := St(Logged(s1.w, Cleaned), s1.me.(finalizers := Without(s1.me.finalizers, FinalizerOf(s.me.spec))));
      LoggingSpares(s1, s2.me.finalizers, o, pushed);
      SparingTransitive(s, s1, s2, o, pushed);
      UpdatingSpares(s2, o, pushed);
      SparingTransitive(s, s2, Updating(s2).st, o, pushed);
    }
  }

  lemma LoggingSpares(s: St, finalizers: seq<string>, o: Obj, pushed: Option<string>)
    requires Known(s, o)
    ensures var t := St(Logged(s.w, Cleaned), s.me.(finalizers := finalizers)); Known(t, o) && Sparing(s, t, o, pushed)
  {
    SparedReflexive(s.w.backend, o, pushed);
    OfGrows(s.w, Logged(s.w, Cleaned), s.me, o);
    hide Spared;
  }

  // ---------- The attempts of the four reconcilers ----------

  lemma MemberSpares(s: St, o: Obj)
    requires Known(s, o) && s.me == o && o.spec.MemberSpec?
    ensures Sparing(s, MemberTry(s).st, o, None)
  {
    hide EnsureOwner, Calling, TryToDelete, Sparing, Known;
    EnsureOwnerSpares(s, o, None);
    var t := EnsureOwner(s).st;
    SparingIsKnown(s, t, o, None);
    CallingSpares(t, o, None);
    var u := Calling(t).st;
    SparingTransitive(s, t, u, o, None);
    SparingIsKnown(s, u, o, None);
    var b := u.w.backend.(members := u.w.backend.members + {(o.spec.groupId, o.spec.accountId)});
    MemberChange(u.w.backend, o, b.members, None);
    ThenDeleteSpares(s, u, b, o);
    hide Spared;
  }

  /** A change of the server, then the finalizer protocol. */
  lemma ThenDeleteSpares(s: St, u: St, b: Backend, o: Obj)
    requires Known(s, o) && s.me == o && Sparing(s, u, o, None) && Spared(u.w.backend, b, o, None)
    ensures Sparing(s, Serving(u, b).st, o, None) && Sparing(s, TryToDelete(Serving(u, b).st).st, o, None)
  {
    SparingIsKnown(s, u, o, None);
    hide TryToDelete, Spared, Known;
    ServingSpares(u, b, o, None);
    var v := Serving(u, b).st;
    SparingTransitive(s, u, v, o, None);
    SparingIsKnown(s, v, o, None);
    TryToDeleteSpares(v, o, None);
    SparingTransitive(s, v, TryToDelete(v).st, o, None);
    hide WellFormed, Of;
  }

  lemma EnsureProjectSpares(s: St, n: string, description: string, parent: string, o: Obj)
    requires Known(s, o) && o.spec.ProjectSpec? && o.spec.name == n
    ensures Sparing(s, EnsureProject(s, n, description, parent).st, o, None)
  {
    hide Calling, Sparing, Known, ParentOf;
    CallingSpares(s, o, None);
    var s1 := Calling(s).st;
    SparingIsKnown(s, s1, o, None);
    CallingSpares(s1, o, None);
    var s2 := Calling(s1).st;
    SparingIsKnown(s1, s2, o, None);
    SparingTransitive(s, s1, s2, o, None);
    var info := if n in s1.w.backend.projects then ProjectInfo(description, ParentOf(s2, n)) else ProjectInfo(description, parent);
    ProjectServingSpares(s, s2, info, o);
    var s3 := Serving(s2, s2.w.backend.(projects := s2.w.backend.projects[n := info])).st;
    SparingIsKnown(s, s3, o, None);
    CallingSpares(s3, o, None);
    var s4 := Calling(s3).st;
    SparingTransitive(s, s3, s4, o, None);
    ProjectServingSpares(s, s4, ProjectInfo(description, parent), o);
  }

  lemma ProjectServingSpares(s: St, u: St, info: ProjectInfo, o: Obj)
    requires Sparing(s, u, o, None) && o.spec.ProjectSpec?
    ensures Sparing(s, Serving(u, u.w.backend.(projects := u.w.backend.projects[o.spec.name := info])).st, o, None)
  {
    SparingIsKnown(s, u, o, None);
    hide Sparing, Known, Spared;
    var b := u.w.backend.(projects := u.w.backend.projects[o.spec.name := info]);
    ProjectChange(u.w.backend, o, b.projects, None);
    ServingSpares(u, b, o, None);
    SparingTransitive(s, u, Serving(u, b).st, o, None);
  }

  lemma ProjectSpares(s: St, o: Obj)
    requires Known(s, o) && s.me == o && o.spec.ProjectSpec?
    ensures Sparing(s, ProjectTry(s).st, o, None)
  {
    hide EnsureOwner, EnsureProject, TryToDelete, Sparing, Known;
    EnsureOwnerSpares(s, o, None);
    var t := EnsureOwner(s).st;
    SparingIsKnown(s, t, o, None);
    var ProjectSpec(n, description, parent, _) := o.spec;
    EnsureProjectSpares(t, n, description, parent, o);
    SparingTransitive(s, t, EnsureProject(t, n, description, parent).st, o, None);
    EndSpares(s, EnsureProject(t, n, description, parent).st, o);
  }

  lemma EndSpares(s: St, u: St, o: Obj)
    requires Known(s, o) && s.me == o && Sparing(s, u, o, None)
    ensures Sparing(s, TryToDelete(u).st, o, None)
  {
    SparingIsKnown(s, u, o, None);
    hide TryToDelete, Spared, Known;
    TryToDeleteSpares(u, o, None);
    SparingTransitive(s, u, TryToDelete(u).st, o, None);
    hide WellFormed, Of;
  }

  lemma GrantRightsSpares(s: St, p: string, l: seq<AccessInfo>, o: Obj)
    requires Known(s, o) && o.spec.AccessSpec? && o.spec.projectName == p && o.spec.references == l
    ensures Sparing(s, GrantRights(s, p, l).st, o, None)
  {
    hide Calling, Sparing, Known, AfterAdd, AfterUpdate, Spared;
    StillSparing(s, o, None);
    CallingSpares(s, o, None);
    var t := Calling(s).st;
    SparingIsKnown(s, t, o, None);
    if p in t.w.backend.access {
      GrantSpares(t.w.backend, o, t.me.status.created, None);
      var b := t.w.backend.access[p];
      var c := t.w.backend.(access := t.w.backend.access[p := if t.me.status.created then AfterUpdate(b, l) else AfterAdd(b, l)]);
      ServingSpares(t, c, o, None);
      SparingTransitive(s, t, Serving(t, c).st, o, None);
    }
  }

  lemma SetParentSpares(s: St, p: string, parent: string, o: Obj)
    requires Known(s, o) && o.spec.AccessSpec? && o.spec.projectName == p && o.spec.accessParent == parent
    ensures Sparing(s, SetParent(s, p, parent).st, o, None)
  {
    hide Calling, Sparing, Known, Spared;
    StillSparing(s, o, None);
    CallingSpares(s, o, None);
    var t := Calling(s).st;
    SparingIsKnown(s, t, o, None);
    if parent != "" {
      var c := t.w.backend.(parents := t.w.backend.parents[p := parent]);
      ParentChange(t.w.backend, o, None);
      ServingSpares(t, c, o, None);
      SparingTransitive(s, t, Serving(t, c).st, o, None);
    }
  }

  lemma AccessSpares(s: St, o: Obj)
    requires Known(s, o) && s.me == o && o.spec.AccessSpec?
    ensures Sparing(s, AccessTry(s).st, o, None)
  {
    hide EnsureOwner, GrantRights, SetParent, TryToDelete, Sparing, Known;
    var AccessSpec(p, parent, l, _) := o.spec;
    EnsureOwnerSpares(s, o, None);
    var t := EnsureOwner(s).st;
    SparingIsKnown(s, t, o, None);
    GrantRightsSpares(t, p, l, o);
    var u := GrantRights(t, p, l).st;
    SparingTransitive(s, t, u, o, None);
    SparingIsKnown(s, u, o, None);
    SetParentSpares(u, p, parent, o);
    SparingTransitive(s, u, SetParent(u, p, parent).st, o, None);
    EndSpares(s, SetParent(u, p, parent).st, o);
  }

  // ---------- Merge requests ----------

  /** What a step that may push did: which change, if any, and what became of the copy. */
  ghost predicate Pushing(s: St, t: Try, o: Obj, pushed: Option<string>) {
    && Known(t.st, o) && s.w.history <= t.st.w.history && t.st.w.book.commits == s.w.book.commits
    && Spared(s.w.backend, t.st.w.backend, o, pushed)
    && t.st.w.book.pushes == s.w.book.pushes + (if pushed.Some? then 1 else 0)
    && (t.Ok? ==> IdFits(t.st.me, o, pushed))
    && (pushed.Some? ==> Drawn(s.w.script, pushed.value))
  }

  /** The id was drawn in some call. */
  ghost predicate Drawn(script: seq<Turn>, id: string) {
    exists t :: t in script && id == "I" + t.text
  }

  lemma CallingPlainly(s: St, o: Obj)
    requires Known(s, o)
    ensures var t := Calling(s).st;
            Known(t, o) && t.me == s.me && t.w.backend == s.w.backend && t.w.book.pushes == s.w.book.pushes
            && s.w.history <= t.w.history && t.w.book.commits == s.w.book.commits && t.w.script == if s.w.script == [] then [] else s.w.script[1..]
  {
    Effects.CallingKeeps(s, o);
    CallKeeps(s.w);
    hide Call, WellFormed, Of;
  }

  /** Some calls were made, and nothing else happened. */
  ghost predicate Idle(s: St, t: St, o: Obj) {
    && Known(t, o) && t.me == s.me && t.w.backend == s.w.backend && t.w.book.pushes == s.w.book.pushes
    && s.w.history <= t.w.history && t.w.book.commits == s.w.book.commits && (forall x | x in t.w.script :: x in s.w.script)
  }

  lemma CallingIdles(s: St, o: Obj)
    requires Known(s, o)
    ensures Idle(s, Calling(s).st, o)
  {
    CallingPlainly(s, o);
    hide Calling, Known;
  }

  lemma IdleTransitive(s: St, t: St, u: St, o: Obj)
    requires Idle(s, t, o) && Idle(t, u, o)
    ensures Idle(s, u, o)
  {
    hide Known;
  }

  lemma GitClientIdles(s: St, o: Obj)
    requires Known(s, o)
    ensures Idle(s, GitClient(s).st, o)
  {
    hide Calling, Known, Named;
    CallingIdles(s, o);
    CallingIdles(Calling(s).st, o);
    IdleTransitive(s, Calling(s).st, Calling(Calling(s).st).st, o);
  }

  lemma PrepareIdles(s: St, o: Obj)
    requires Known(s, o)
    ensures Idle(s, PrepareCommit(s).st, o)
  {
    hide Calling, Known;
    CallingIdles(s, o);
    var t := Calling(s).st;
    CallingIdles(t, o);
    var u := Calling(t).st;
    CallingIdles(u, o);
    IdleTransitive(s, t, u, o);
    IdleTransitive(s, u, Calling(u).st, o);
  }

  lemma PushedSpares(s: St, id: string, o: Obj)
    requires Known(s, o)
    ensures var t := Pushed(s, id);
            Known(t, o) && Spared(s.w.backend, t.w.backend, o, Some(id)) && t.me.status.changeId == id
            && t.w.book.pushes == s.w.book.pushes + 1 && t.w.history == s.w.history && t.w.book.commits == s.w.book.commits
  {
    ChangePushed(s.w.backend, o, id);
    BookIsUnseen(s.w);
    Effects.BackendIsNoFact(s, s.w.backend.(changes := s.w.backend.changes[id := CHANGE_NEW]), o);
    hide Spared;
  }

  lemma PushChangeSpares(s: St, o: Obj) returns (pushed: Option<string>)
    requires Known(s, o)
    ensures Pushing(s, PushChange(s), o, pushed) && (PushChange(s).Err? ==> pushed.None?)
  {
    var (w, x) := Call(s.w);
    CallingIdles(s, o);
    FirstTurn(s.w);
    var s1 := s.(w := w);
    assert s1 == Calling(s).st;
    hide Calling, Call, PrepareCommit, Known, Pushed, Spared, Idle, Pushing, Drawn;
    PrepareIdles(s1, o);
    var s2 := PrepareCommit(s1).st;
    IdleIsKnown(s1, s2, o);
    CallingIdles(s2, o);
    var s3 := Calling(s2).st;
    IdleTransitive(s, s1, s2, o);
    IdleTransitive(s, s2, s3, o);
    IdleIsKnown(s, s3, o);
    pushed := None;
    if PushChange(s).Ok? {
      PushedPushes(s, s3, x, o);
      pushed := Some("I" + x.text);
    } else if !x.works {
      IdleIsPushing(s, s1, o);
    } else if PrepareCommit(s1).Err? {
      IdleIsPushing(s, s2, o);
    } else {
      IdleIsPushing(s, s3, o);
    }
  }

  lemma IdleIsKnown(s: St, t: St, o: Obj)
    requires Idle(s, t, o)
    ensures Known(t, o)
  {
    hide Known;
  }

  lemma PushedPushes(s: St, t: St, x: Turn, o: Obj)
    requires Idle(s, t, o) && x in s.w.script
    ensures Pushing(s, Ok(Pushed(t, "I" + x.text)), o, Some("I" + x.text))
  {
    PushedSpares(t, "I" + x.text, o);
    hide Known, Pushed, Spared;
  }

  lemma FirstTurn(w: World)
    ensures Call(w).1.works ==> Call(w).1 in w.script
  {
  }

  lemma RemoveCloneSpares(s: St, o: Obj) returns (pushed: Option<string>)
    requires Known(s, o)
    ensures Pushing(s, PushThenRemoveClone(s), o, pushed)
  {
    pushed := PushChangeSpares(s, o);
    var t := PushChange(s);
    hide PushChange, Call, Spared;
    CallingIdles(t.st, o);
    assert Calling(t.st).st.w == Call(t.st.w).0;
    var w := Call(t.st.w).0;
    CloneIsNoFact(w, t.st.me, s.me, o);
    hide WellFormed, Of, Drawn, Calling;
  }

  /** The copy with the outcome of the push, or the one before it. */
  lemma CloneIsNoFact(w: World, me: Obj, was: Obj, o: Obj)
    requires WellFormed(w) && Of(w, me, o)
    ensures forall b :: WellFormed(w.(book := b)) && Of(w.(book := b), me, o)
  {
  }

  lemma PushingFrom(s: St, u: St, t: Try, o: Obj, pushed: Option<string>)
    requires Idle(s, u, o) && Pushing(u, t, o, pushed)
    ensures Pushing(s, t, o, pushed)
  {
    hide Known, Spared;
  }

  lemma CreateChangeSpares(s: St, o: Obj) returns (pushed: Option<string>)
    requires Known(s, o)
    ensures Pushing(s, CreateChange(s), o, pushed)
  {
    hide GitClient, Calling, PushThenRemoveClone, Known, Pushing, Spared;
    GitClientIdles(s, o);
    var t := GitClient(s).st;
    CallingIdles(t, o);
    var u := Calling(t).st;
    IdleTransitive(s, t, u, o);
    pushed := None;
    if GitClient(s).Ok? && Calling(t).Ok? {
      pushed := RemoveCloneSpares(u, o);
      PushingFrom(s, u, PushThenRemoveClone(u), o, pushed);
    } else if GitClient(s).Err? {
      IdleIsPushing(s, t, o);
    } else {
      IdleIsPushing(s, u, o);
    }
  }

  lemma IdleIsPushing(s: St, t: St, o: Obj)
    requires Idle(s, t, o)
    ensures Pushing(s, Err(t), o, None)
  {
    SparedReflexive(s.w.backend, o, None);
    hide Known, Spared;
  }

  lemma SparingIsPushing(s: St, t: St, o: Obj)
    requires Sparing(s, t, o, None) && s.me == o
    ensures Pushing(s, Ok(t), o, None) && Pushing(s, Err(t), o, None) && t.me.status == o.status
  {
    hide Spared, WellFormed, Of;
  }

  lemma RefreshSpares(s: St, o: Obj)
    requires Known(s, o) && s.me == o
    ensures Pushing(s, RefreshValue(s), o, None)
  {
    hide EnsureOwner, Calling, Pushing, Sparing, Known;
    EnsureOwnerSpares(s, o, None);
    var t := EnsureOwner(s).st;
    SparingIsPushing(s, t, o);
    SparingIsKnown(s, t, o, None);
    CallingSpares(t, o, None);
    var u := Calling(t).st;
    SparingTransitive(s, t, u, o, None);
    SparingIsPushing(s, u, o);
    var id := u.me.status.changeId;
    if id in u.w.backend.changes {
      ValueIsNoFact(s, u, u.w.backend.changes[id], o);
    }
  }

  lemma ValueIsNoFact(s: St, u: St, v: string, o: Obj)
    requires Pushing(s, Ok(u), o, None)
    ensures Pushing(s, Ok(u.(me := u.me.(status := u.me.status.(value := v)))), o, None)
  {
    hide Spared, WellFormed;
  }

  /** The finalizer protocol around the status. */
  lemma KeepingStatusSpares(s: St, t: St, o: Obj, pushed: Option<string>)
    requires Pushing(s, Ok(t), o, pushed)
    ensures Pushing(s, DeleteKeepingStatus(t), o, pushed)
  {
    hide TryToDelete, Spared, Known;
    TryToDeleteSpares(t, o, pushed);
    var u := TryToDelete(t).st;
    SparingIsKnown(t, u, o, pushed);
    SparedTransitive(s.w.backend, t.w.backend, u.w.backend, o, pushed) by { assert Sparing(t, u, o, pushed); }
    StatusIsNoFact(u, t.me.status, o);
    hide WellFormed, Of, Drawn;
  }

  lemma StatusIsNoFact(s: St, status: Status, o: Obj)
    requires Known(s, o)
    ensures Known(s.(me := s.me.(status := status)), o)
  {
  }

  lemma MergeSpares(s: St, o: Obj) returns (pushed: Option<string>)
    requires Known(s, o) && s.me == o && o.spec.MergeRequestSpec?
    ensures Pushing(s, MergeTry(s), o, pushed) && (pushed.Some? ==> o.status.changeId == "")
  {
    hide CreateChange, RefreshValue, DeleteKeepingStatus, Pushing, Known;
    pushed := None;
    var MergeRequestSpec(_, sourceBranch, changesConfigMap, _) := o.spec;
    if o.status.changeId != "" {
      RefreshSpares(s, o);
      if RefreshValue(s).Ok? {
        KeepingStatusSpares(s, RefreshValue(s).st, o, None);
      }
    } else if sourceBranch == "" && changesConfigMap == "" {
      NothingIsPushed(s, o);
    } else {
      pushed := CreateChangeSpares(s, o);
      if CreateChange(s).Ok? {
        KeepingStatusSpares(s, CreateChange(s).st, o, pushed);
      }
    }
  }

  lemma NothingIsPushed(s: St, o: Obj)
    requires Known(s, o)
    ensures Pushing(s, Err(s), o, None)
  {
    SparedReflexive(s.w.backend, o, None);
    hide Spared, WellFormed, Of;
  }

  // ---------- Whole reconciles ----------

  lemma TrySpares(s: St, o: Obj, k: Kind) returns (pushed: Option<string>)
    requires Known(s, o) && s.me == o && IsKind(o.spec, k)
    ensures Pushing(s, TryOf(k, s), o, pushed) && (pushed.Some? ==> k == MergeRequest && o.status.changeId == "")
    ensures k != MergeRequest ==> TryOf(k, s).st.me.status == o.status
  {
    hide MemberTry, ProjectTry, AccessTry, MergeTry, Pushing, Sparing, Known;
    pushed := None;
    match k
    case Member =>
      MemberSpares(s, o);
      SparingIsPushing(s, MemberTry(s).st, o);
    case Project =>
      ProjectSpares(s, o);
      SparingIsPushing(s, ProjectTry(s).st, o);
    case Access =>
      AccessSpares(s, o);
      SparingIsPushing(s, AccessTry(s).st, o);
    case MergeRequest =>
      pushed := MergeSpares(s, o);
  }

  /** One reconcile touched the item of this copy, and the change it pushed if the copy showed none and it pushed one. */
  ghost predicate Touches(w: World, v: World, o: Obj) {
    exists pushed: Option<string> :: TouchesWith(w, v, o, pushed)
  }

  ghost predicate TouchesWith(w: World, v: World, o: Obj, pushed: Option<string>) {
    && Spared(w.backend, v.backend, o, pushed)
    && v.book.pushes == w.book.pushes + (if pushed.Some? then 1 else 0)
    && (pushed.Some? ==> o.spec.MergeRequestSpec? && o.status.changeId == "" && Drawn(w.script, pushed.value))
  }

  /**
   One reconcile of any kind, in every world with any interference and failures: without a copy of its kind the
   server is as before; with one, every item but the copy's own and at most one pushed change is as before.
   */
  lemma ReconcileSpares(w: World, k: Kind)
    requires WellFormed(w)
    ensures var r := ApiGet(Logged(w, Begin)).1;
            var v := Reconcile(w, k);
            if r.Answer? && IsKind(r.obj.spec, k) then Touches(w, v, r.obj) && r.obj in v.history
            else v.backend == w.backend && v.book.pushes == w.book.pushes
  {
    Effects.ReadIsGenuine(w);
    ReadIdles(w);
    var (w1, r) := ApiGet(Logged(w, Begin));
    FinalizerSafety.ReconcileSound(w, k);
    if r.Answer? && IsKind(r.obj.spec, k) {
      var s := St(w1, r.obj);
      hide ApiGet, TryOf, StatusOf, Finish, Spared, WellFormed, Of, Logged, FinalizerSafety.Sound;
      var pushed := TrySpares(s, r.obj, k);
      var t := TryOf(k, s);
      FinishIdles(t.st.w, t.st.me, StatusOf(k, t));
      assert TouchesWith(w, Reconcile(w, k), r.obj, pushed);
    }
  }

  lemma ReadIdles(w: World)
    requires WellFormed(w)
    ensures var (v, r) := ApiGet(Logged(w, Begin));
            v.backend == w.backend && v.book.pushes == w.book.pushes && w.history <= v.history
            && (r.Answer? ==> r.obj in v.history) && forall t | t in v.script :: t in w.script
  {
    CallKeeps(Logged(w, Begin));
    hide Call, WellFormed;
  }

  lemma FinishIdles(w: World, me: Obj, status: Status)
    requires WellFormed(w)
    ensures var v := Finish(w, me, status);
            v.backend == w.backend && v.book.pushes == w.book.pushes && w.history <= v.history
  {
    CallKeeps(w);
    hide Call, WellFormed, Tidy;
  }

  // ---------- Whole runs ----------

  /** No object of these stands for the item, and no call of the script draws it. */
  ghost predicate Foreign(history: set<Obj>, script: seq<Turn>, it: Item) {
    (forall o | o in history :: !Names(o, it)) && !(it.ChangeItem? && Drawn(script, it.id))
  }

  lemma ForeignIsSame(w: World, v: World, o: Obj, it: Item, history: set<Obj>, script: seq<Turn>)
    requires Touches(w, v, o) && o in history && Foreign(history, script, it)
    requires forall t | t in w.script :: t in script
    ensures Same(w.backend, v.backend, it)
  {
    hide Same, Names, Present;
    var pushed :| TouchesWith(w, v, o, pushed);
  }

  lemma SameTransitive(b: Backend, c: Backend, d: Backend, it: Item)
    requires Same(b, c, it) && Same(c, d, it)
    ensures Same(b, d, it)
  {
    hide RuleIn;
  }

  lemma ReconcileForeign(w: World, k: Kind, it: Item, history: set<Obj>, script: seq<Turn>)
    requires WellFormed(w) && Reconcile(w, k).history <= history && Foreign(history, script, it)
    requires forall t | t in w.script :: t in script
    ensures Same(w.backend, Reconcile(w, k).backend, it)
  {
    ReconcileSpares(w, k);
    var r := ApiGet(Logged(w, Begin)).1;
    hide ApiGet, Reconcile, WellFormed, Touches, Foreign, Names;
    if r.Answer? && IsKind(r.obj.spec, k) {
      ForeignIsSame(w, Reconcile(w, k), r.obj, it, history, script);
    } else {
      SameReflexive(w.backend, it);
    }
    hide Same;
  }

  lemma SameReflexive(b: Backend, it: Item)
    ensures Same(b, b, it)
  {
  }

  lemma {:induction false} RunForeign(w: World, moves: seq<Move>, it: Item, history: set<Obj>)
    requires WellFormed(w) && Run(w, moves).history <= history && Foreign(history, w.script, it)
    ensures Same(w.backend, Run(w, moves).backend, it)
  {
    hide Reconcile, Same, WellFormed, Foreign, Act;
    if moves == [] {
      SameReflexive(w.backend, it);
    } else {
      var init, last := moves[..|moves| - 1], moves[|moves| - 1];
      var v := Run(w, init);
      FinalizerSafety.RunSound(w, init);
      FinalizerSafety.RunSound(v, [last]);
      assert Run(v, [last]) == Moved(v, last) by { assert [last][..0] == []; }
      RunForeign(w, init, it, history);
      match last
      case Work(k) =>
        UsedTurns.RunUsed(w, init);
        SuffixIsPart(w.script, v.script);
        ReconcileForeign(v, k, it, history, w.script);
        SameTransitive(w.backend, v.backend, Reconcile(v, k).backend, it);
      case Others(steps) =>
        ActKeeps(v, steps);
    }
  }

  lemma SuffixIsPart(all: seq<Turn>, rest: seq<Turn>)
    requires |rest| <= |all| && rest == all[|all| - |rest|..]
    ensures forall t | t in rest :: t in all
  {
  }

  /**
   Over every run of the four reconcilers, with any interference, failures, kills and stale reads: an item on the
   server that no state of the object stands for and no push created is as it was.
   */
  lemma NeverTouched(w: World, moves: seq<Move>)
    requires WellFormed(w)
    ensures var v := Run(w, moves);
            forall it | Foreign(v.history, w.script, it) :: Same(w.backend, v.backend, it)
  {
    var v := Run(w, moves);
    hide Same, WellFormed, Foreign, Run;
    forall it | Foreign(v.history, w.script, it) ensures Same(w.backend, v.backend, it) {
      RunForeign(w, moves, it, v.history);
    }
  }
}
