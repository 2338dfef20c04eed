/**
 Whole reconciles of projects and project access when calls work and nobody interferes: they succeed, and say so.
 */
module CalmServing {
  import opened Common
  import opened AccessRights
  import opened Cluster
  import opened Helper
  import opened Controllers
  import opened CalmRuns
  import Effects

  /** The attempt has served the object and only the finalizer protocol is left, with n quiet calls to come. */
  ghost predicate ServedSo(w: World, k: Kind, t: St, n: nat) {
    && w.stored.Some? && w.script != []
    && TryOf(k, Start(w)) == TryToDelete(t)
    && t.w.stored == Some(t.me) && QuietFor(t.w.script, n) && Workable(t.w)
    && t.me.(version := 0, owners := []) == w.stored.value.(version := 0, owners := []) && t.me.owners != []
  }

  /** The end of a reconcile of a live object. */
  lemma EndsGuarded(w: World, k: Kind, t: St, m: nat, n: nat)
    requires QuietFor(w.script, m) && m > 0 && Workable(w) && IsKind(w.stored.value.spec, k)
    requires ServedSo(w, k, t, n) && n >= 2 && !w.stored.value.deleting
    ensures var v := Reconcile(w, k);
            var o := w.stored.value;
            v.backend == t.w.backend && Workable(v) && !v.stored.value.deleting && v.stored.value.spec == o.spec
            && v.stored.value.finalizers == Guarding(o.finalizers, FinalizerOf(o.spec)) && v.stored.value.owners != []
            && v.gerrits == t.w.gerrits && QuietFor(v.script, n - 2)
            && exists u: St :: u.me.status == o.status && v.stored.value.status == StatusOf(k, Ok(u))
  {
    QuietReconcile(w, k, m);
    hide Reconcile, TryOf, TryToDelete, StatusOf, Finish, QuietFor, OwnerKnown, Guarding;
    QuietGuard(t, n);
    var u := TryToDelete(t);
    QuietFinish(u.st.w, u.st.me, StatusOf(k, u), n - 1);
    var v := Finish(u.st.w, u.st.me, StatusOf(k, u));
    OwnerUnchanged(u.st.w.gerrits, u.st.me, v.stored.value);
    assert u == Ok(u.st) && u.st.me.status == w.stored.value.status;
  }

  /** The end of a reconcile of a deleted object. */
  lemma EndsReleased(w: World, k: Kind, t: St, m: nat, n: nat)
    requires QuietFor(w.script, m) && m > 0 && Workable(w) && IsKind(w.stored.value.spec, k) && k != MergeRequest
    requires ServedSo(w, k, t, n) && n >= 3 && w.stored.value.deleting && AfterRemoval(w.stored.value.spec, t.w.backend).Some?
    ensures var v := Reconcile(w, k);
            var kept := Without(w.stored.value.finalizers, FinalizerOf(w.stored.value.spec));
            v.backend == AfterRemoval(w.stored.value.spec, t.w.backend).value
            && (if kept == [] then v.stored.None? else v.stored.Some? && v.stored.value.finalizers == kept)
  {
    QuietReconcile(w, k, m);
    hide Reconcile, TryOf, TryToDelete, StatusOf, Finish, QuietFor, OwnerKnown, Without, AfterRemoval;
    QuietRelease(t, n);
    var u := TryToDelete(t);
    if u.st.w.stored.Some? {
      QuietFinish(u.st.w, u.st.me, StatusOf(k, u), n - 2);
    } else {
      QuietAbsent(u.st.w, u.st.me, StatusOf(k, u), n - 2);
    }
  }

  // ---------- Projects ----------

  lemma QuietEnsureProject(s: St, name: string, description: string, parent: string, n: nat)
    requires QuietFor(s.w.script, n) && n >= 3
    ensures var t := EnsureProject(s, name, description, parent);
            t.Ok? && t.st.me == s.me && QuietFor(t.st.w.script, n - 3)
            && t.st.w.(script := [], backend := s.w.backend) == s.w.(script := [])
            && t.st.w.backend == s.w.backend.(projects := s.w.backend.projects[name := ProjectInfo(description, parent)])
  {
    hide Calling;
    QuietCalling(s, n);
    var s1 := Calling(s).st;
    QuietCalling(s1, n - 1);
    var s2 := Calling(s1).st;
    QuietLess(s2.w.script, n - 2, n - 3);
    var s3 := Serving(s2, s2.w.backend.(projects := s2.w.backend.projects[name := ProjectInfo(description, ParentOf(s2, name))])).st;
    QuietCalling(s3, n - 2);
    hide QuietFor;
  }

  lemma ProjectServedSo(w: World, n: nat) returns (t: St)
    requires QuietFor(w.script, n) && n >= 9 && Workable(w) && w.stored.value.spec.ProjectSpec?
    ensures ServedSo(w, Project, t, n - 8)
    ensures var ProjectSpec(name, description, parent, _) := w.stored.value.spec;
            t.w.backend == w.backend.(projects := w.backend.projects[name := ProjectInfo(description, parent)])
  {
    QuietReconcile(w, Project, n);
    hide Reconcile, EnsureOwner, EnsureProject, TryToDelete, OwnerKnown;
    var s := Start(w);
    var ProjectSpec(name, description, parent, _) := w.stored.value.spec;
    QuietOwner(s, n - 1);
    var u := EnsureOwner(s).st;
    QuietEnsureProject(u, name, description, parent, n - 5);
    hide QuietFor;
    t := EnsureProject(u, name, description, parent).st;
  }

  /**
   When calls work, one reconcile of a live project creates it or brings it up to date, and leaves the object owned,
   guarded, and with status OK.
   */
  lemma QuietReconcileServesProject(w: World, n: nat)
    requires QuietFor(w.script, n) && n >= 10 && Workable(w) && w.stored.value.spec.ProjectSpec? && !w.stored.value.deleting
    ensures var v := Reconcile(w, Project);
            var ProjectSpec(name, description, parent, _) := w.stored.value.spec;
            v.backend == w.backend.(projects := w.backend.projects[name := ProjectInfo(description, parent)])
            && Workable(v) && v.stored.value.spec == w.stored.value.spec && v.stored.value.owners != []
            && v.stored.value.finalizers == Guarding(w.stored.value.finalizers, FinalizerOf(w.stored.value.spec))
            && v.stored.value.status.value == "OK" && v.stored.value.status.branches == w.stored.value.status.branches
  {
    hide Reconcile, QuietFor, OwnerKnown, ServedSo;
    var t := ProjectServedSo(w, n);
    EndsGuarded(w, Project, t, n, n - 8);
  }

  /** And of a deleted one removes it again, whether it was there before or not. */
  lemma QuietReconcileRemovesProject(w: World, n: nat)
    requires QuietFor(w.script, n) && n >= 11 && Workable(w) && w.stored.value.spec.ProjectSpec? && w.stored.value.deleting
    ensures var v := Reconcile(w, Project);
            var kept := Without(w.stored.value.finalizers, FinalizerOf(w.stored.value.spec));
            v.backend == w.backend.(projects := w.backend.projects - {w.stored.value.spec.name})
            && (if kept == [] then v.stored.None? else v.stored.Some? && v.stored.value.finalizers == kept)
  {
    hide Reconcile, QuietFor, OwnerKnown, ServedSo, Without;
    var t := ProjectServedSo(w, n);
    var name := w.stored.value.spec.name;
    assert t.w.backend.projects - {name} == w.backend.projects - {name};
    EndsReleased(w, Project, t, n, n - 8);
  }

  // ---------- Project access ----------

  /** Gerrit knows the project, if anything is asked of it. */
  predicate Grantable(spec: Spec, b: Backend) {
    spec.AccessSpec? && (spec.references != [] || spec.accessParent != "" ==> spec.projectName in b.access)
  }

  /** The server after granting, given whether the rights were granted before. */
  function AccessServed(spec: Spec, created: bool, b: Backend): Backend
    requires spec.AccessSpec? && Grantable(spec, b)
  {
    var AccessSpec(p, parent, l, _) := spec;
    var c := if l == [] then b
             else b.(access := b.access[p := if created then AfterUpdate(b.access[p], l) else AfterAdd(b.access[p], l)]);
    if parent == "" then c else c.(parents := c.parents[p := parent])
  }

  lemma QuietGrant(s: St, p: string, l: seq<AccessInfo>, n: nat)
    requires QuietFor(s.w.script, n) && n >= 1 && (l != [] ==> p in s.w.backend.access)
    ensures var t := GrantRights(s, p, l);
            t.Ok? && t.st.me == s.me && QuietFor(t.st.w.script, n - 1)
            && t.st.w.(script := [], backend := s.w.backend) == s.w.(script := [])
            && t.st.w.backend == if l == [] then s.w.backend
                 else s.w.backend.(access := s.w.backend.access[p :=
                   if s.me.status.created then AfterUpdate(s.w.backend.access[p], l) else AfterAdd(s.w.backend.access[p], l)])
  {
    hide Calling, AfterUpdate, AfterAdd;
    QuietLess(s.w.script, n, n - 1);
    QuietCalling(s, n);
    hide QuietFor;
  }

  lemma QuietSetParent(s: St, p: string, parent: string, n: nat)
    requires QuietFor(s.w.script, n) && n >= 1 && (parent != "" ==> p in s.w.backend.access)
    ensures var t := SetParent(s, p, parent);
            t.Ok? && t.st.me == s.me && QuietFor(t.st.w.script, n - 1)
            && t.st.w.(script := [], backend := s.w.backend) == s.w.(script := [])
            && t.st.w.backend == if parent == "" then s.w.backend else s.w.backend.(parents := s.w.backend.parents[p := parent])
  {
    hide Calling;
    QuietLess(s.w.script, n, n - 1);
    QuietCalling(s, n);
    hide QuietFor;
  }

  lemma AccessServedSo(w: World, n: nat) returns (t: St)
    requires QuietFor(w.script, n) && n >= 8 && Workable(w) && Grantable(w.stored.value.spec, w.backend)
    ensures ServedSo(w, Access, t, n - 7)
    ensures t.w.backend == AccessServed(w.stored.value.spec, w.stored.value.status.created, w.backend)
  {
    QuietReconcile(w, Access, n);
    hide Reconcile, EnsureOwner, GrantRights, SetParent, TryToDelete, OwnerKnown, AfterUpdate, AfterAdd;
    var s := Start(w);
    var AccessSpec(p, parent, l, _) := w.stored.value.spec;
    QuietOwner(s, n - 1);
    var u := EnsureOwner(s).st;
    QuietGrant(u, p, l, n - 5);
    var x := GrantRights(u, p, l).st;
    QuietSetParent(x, p, parent, n - 6);
    hide QuietFor;
    t := SetParent(x, p, parent).st;
  }

  /** When calls work and Gerrit knows the project, one reconcile grants the rights, sets the parent, and says so. */
  lemma QuietReconcileServesAccess(w: World, n: nat)
    requires QuietFor(w.script, n) && n >= 9 && Workable(w) && Grantable(w.stored.value.spec, w.backend) && !w.stored.value.deleting
    ensures var v := Reconcile(w, Access);
            var AccessSpec(p, parent, l, _) := w.stored.value.spec;
            Effects.Granted(v.backend, p, l) && (parent != "" ==> p in v.backend.parents && v.backend.parents[p] == parent)
            && Workable(v) && v.stored.value.spec == w.stored.value.spec && v.stored.value.owners != []
            && v.stored.value.finalizers == Guarding(w.stored.value.finalizers, FinalizerOf(w.stored.value.spec))
            && v.stored.value.status.value == "OK" && v.stored.value.status.created
  {
    hide Reconcile, QuietFor, OwnerKnown, ServedSo, AfterUpdate, AfterAdd, RuleAt;
    var t := AccessServedSo(w, n);
    EndsGuarded(w, Access, t, n, n - 7);
    var AccessSpec(p, parent, l, _) := w.stored.value.spec;
    if l != [] {
      forall r, q, g | Listed(l, r, q, g) ensures RuleAt(t.w.backend.access[p], r, q, g) == ListedRule(l, r, q, g) {
        AfterAddLookups(w.backend.access[p], l, r, q, g);
        AfterUpdateLookups(w.backend.access[p], l, r, q, g);
      }
    }
    hide Listed, ListedRule;
  }

  /** And of a deleted one removes the listed rules. */
  lemma QuietReconcileRemovesAccess(w: World, n: nat)
    requires QuietFor(w.script, n) && n >= 10 && Workable(w) && w.stored.value.deleting
    requires w.stored.value.spec.AccessSpec? && w.stored.value.spec.projectName in w.backend.access
    ensures var v := Reconcile(w, Access);
            var AccessSpec(p, _, l, _) := w.stored.value.spec;
            var kept := Without(w.stored.value.finalizers, FinalizerOf(w.stored.value.spec));
            p in v.backend.access && HoldsNone(v.backend.access[p], l)
            && (if kept == [] then v.stored.None? else v.stored.Some? && v.stored.value.finalizers == kept)
  {
    hide Reconcile, QuietFor, OwnerKnown, ServedSo, Without, AfterUpdate, AfterAdd, AfterDelete, HoldsNone;
    var t := AccessServedSo(w, n);
    var AccessSpec(p, _, l, _) := w.stored.value.spec;
    EndsReleased(w, Access, t, n, n - 7);
    DeleteLeavesNone(t.w.backend.access[p], l);
  }

  /** A project that Gerrit does not know is an error, and nothing is granted. */
  lemma QuietReconcileUnknownProject(w: World, n: nat)
    requires QuietFor(w.script, n) && n >= 7 && Workable(w) && w.stored.value.spec.AccessSpec?
    requires !Grantable(w.stored.value.spec, w.backend)
    ensures var v := Reconcile(w, Access);
            v.backend == w.backend && v.stored.Some? && v.stored.value.status == w.stored.value.status.(value := "error")
  {
    QuietReconcile(w, Access, n);
    hide Reconcile, EnsureOwner, TryToDelete, OwnerKnown, AfterUpdate, AfterAdd, Finish;
    var s := Start(w);
    var AccessSpec(p, parent, l, _) := w.stored.value.spec;
    QuietOwner(s, n - 1);
    var u := EnsureOwner(s).st;
    QuietCalling(u, n - 5);
    var x := Calling(u).st;
    assert AccessTry(s) == Err(x) by { hide Calling, QuietFor; }
    QuietFinish(x.w, x.me, x.me.status.(value := ERROR_TEXT), n - 6);
    hide Calling, QuietFor;
  }
}
