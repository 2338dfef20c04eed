/**
 Whole reconciles of a merge request when calls work and nobody interferes: its change is created, shown, and in the end
 abandoned.
 */
module CalmMerge {
  import opened Common
  import opened Cluster
  import opened Helper
  import opened Controllers
  import opened CalmRuns

  /** The copy is the stored object but for the status. */
  predicate StatusApart(s: St) {
    s.w.stored.Some? && s.me == s.w.stored.value.(status := s.me.status)
  }

  /** A live object's finalizer protocol keeps the copy's status, which the server does not have yet. */
  lemma QuietKeepingStatus(t: St, n: nat)
    requires QuietFor(t.w.script, n) && n >= 1 && StatusApart(t) && !t.me.deleting
    ensures var u := DeleteKeepingStatus(t);
            u.Ok? && StatusApart(u.st) && u.st.me.status == t.me.status && SameBut(u.st.w, t.w) && QuietFor(u.st.w.script, n - 1)
            && u.st.me.(version := 0) == t.me.(version := 0, finalizers := Guarding(t.me.finalizers, FinalizerOf(t.me.spec)))
  {
    hide Updating;
    QuietLess(t.w.script, n, n - 1);
    var f := FinalizerOf(t.me.spec);
    if f !in t.me.finalizers {
      QuietUpdating(t.(me := t.me.(finalizers := t.me.finalizers + [f])), n);
    }
    hide QuietFor;
  }

  /** What a reconcile of a live merge request leaves of the object beside the status. */
  predicate Guarded(before: Obj, after: Obj) {
    after.(version := 0, status := before.status, owners := before.owners) ==
      before.(version := 0, finalizers := Guarding(before.finalizers, FinalizerOf(before.spec)))
  }

  lemma QuietEnd(t: St, n: nat)
    requires QuietFor(t.w.script, n) && n >= 2 && StatusApart(t) && !t.me.deleting
    ensures var u := DeleteKeepingStatus(t);
            var v := Finish(u.st.w, u.st.me, MergeStatus(u));
            u.Ok? && v.stored.Some? && Guarded(t.me, v.stored.value) && v.stored.value.status == t.me.status
            && v.stored.value.owners == t.me.owners && SameBut(v, t.w) && QuietFor(v.script, n - 2)
  {
    hide DeleteKeepingStatus, Finish, QuietFor, Guarding;
    QuietKeepingStatus(t, n);
    var u := DeleteKeepingStatus(t);
    QuietFinish(u.st.w, u.st.me, u.st.me.status, n - 1);
  }

  /** What the object asks for can be pushed: a branch or files, and a Gerrit of exactly the given name. */
  predicate Creatable(w: World) {
    && w.stored.Some? && w.stored.value.spec.MergeRequestSpec?
    && (w.stored.value.spec.sourceBranch != "" || w.stored.value.spec.changesConfigMap != "")
    && Named(w.gerrits, w.stored.value.spec.ownerName).Some?
  }

  /**
   When calls work, one reconcile of a live merge request without a change creates it: exactly one more push, a NEW
   change on the server, its id and value in the stored status, and the finalizer in place.
   */
  lemma QuietReconcileCreatesChange(w: World, n: nat)
    requires Creatable(w) && !w.stored.value.deleting && w.stored.value.status.changeId == ""
    requires QuietFor(w.script, n) && n >= CreateCalls(w.stored.value.spec) + 3
    ensures var v := Reconcile(w, MergeRequest);
            v.book.pushes == w.book.pushes + 1 && v.book.statusLost == w.book.statusLost && v.book.dirsLost == w.book.dirsLost
            && v.stored.Some? && v.stored.value.status.changeId != "" && v.stored.value.status.value == "NEW"
            && v.backend == w.backend.(changes := w.backend.changes[v.stored.value.status.changeId := "NEW"])
            && Guarded(w.stored.value, v.stored.value) && v.stored.value.owners == w.stored.value.owners && v.gerrits == w.gerrits
            && QuietFor(v.script, n - CreateCalls(w.stored.value.spec) - 3)
  {
    QuietReconcile(w, MergeRequest, n);
    hide Reconcile, CreateChange, DeleteKeepingStatus, Finish, CreateCalls, Named, QuietFor, Guarding;
    var s := Start(w);
    QuietCreateChange(s, n - 1);
    var t := CreateChange(s).st;
    QuietEnd(t, n - 1 - CreateCalls(w.stored.value.spec));
    assert MergeTry(s) == DeleteKeepingStatus(t);
  }

  /** Without a branch and without files nothing is pushed, and the status says error. */
  lemma QuietReconcileRefusesEmpty(w: World, n: nat)
    requires w.stored.Some? && w.stored.value.spec.MergeRequestSpec? && w.stored.value.status.changeId == ""
    requires w.stored.value.spec.sourceBranch == "" && w.stored.value.spec.changesConfigMap == ""
    requires QuietFor(w.script, n) && n >= 2
    ensures var v := Reconcile(w, MergeRequest);
            v.book.pushes == w.book.pushes && v.backend == w.backend
            && v.stored.Some? && v.stored.value.status == w.stored.value.status.(value := "error")
  {
    QuietReconcile(w, MergeRequest, n);
    hide Reconcile, Finish, QuietFor;
    var s := Start(w);
    assert MergeTry(s) == Err(s);
    QuietFinish(s.w, s.me, s.me.status.(value := ERROR_TEXT), n - 1);
  }

  /** Nor without a Gerrit of exactly the given name. */
  lemma QuietReconcileNeedsGerrit(w: World, n: nat)
    requires w.stored.Some? && w.stored.value.spec.MergeRequestSpec? && w.stored.value.status.changeId == ""
    requires Named(w.gerrits, w.stored.value.spec.ownerName).None?
    requires QuietFor(w.script, n) && n >= 3
    ensures var v := Reconcile(w, MergeRequest);
            v.book.pushes == w.book.pushes && v.backend == w.backend
            && v.stored.Some? && v.stored.value.status == w.stored.value.status.(value := "error")
  {
    QuietReconcile(w, MergeRequest, n);
    hide Reconcile, Finish, QuietFor, Named, PushThenRemoveClone;
    var s := Start(w);
    QuietCalling(s, n - 1);
    var t := Calling(s).st;
    hide Calling;
    if w.stored.value.spec.sourceBranch == "" && w.stored.value.spec.changesConfigMap == "" {
      QuietReconcileRefusesEmpty(w, n);
    } else {
      assert MergeTry(s) == Err(t);
      QuietFinish(t.w, t.me, t.me.status.(value := ERROR_TEXT), n - 2);
    }
  }

  /** The recorded change is known to Gerrit, and the object's Gerrit can be found. */
  predicate Refreshable(w: World) {
    Workable(w) && w.stored.value.spec.MergeRequestSpec? && w.stored.value.status.changeId != ""
    && w.stored.value.status.changeId in w.backend.changes
  }

  lemma QuietRefresh(s: St, n: nat)
    requires QuietFor(s.w.script, n) && n >= 5 && s.w.stored == Some(s.me) && Refreshable(s.w)
    ensures var t := RefreshValue(s);
            t.Ok? && StatusApart(t.st) && SameBut(t.st.w, s.w) && QuietFor(t.st.w.script, n - 5)
            && t.st.w.stored.value.status == s.me.status
            && t.st.me.status == s.me.status.(value := s.w.backend.changes[s.me.status.changeId])
            && t.st.me.(version := 0, owners := [], status := s.me.status) == s.me.(version := 0, owners := [])
            && t.st.me.owners != [] && OwnerKnown(t.st.w.gerrits, t.st.me)
  {
    hide EnsureOwner, Calling, OwnerKnown;
    QuietOwner(s, n);
    var t := EnsureOwner(s).st;
    QuietCalling(t, n - 4);
    hide QuietFor;
    OwnerUnchanged(t.w.gerrits, t.me, RefreshValue(s).st.me);
  }

  /** With a recorded change there is no push, and the stored value is Gerrit's status of that change. */
  lemma QuietReconcileShowsChange(w: World, n: nat)
    requires Refreshable(w) && !w.stored.value.deleting && QuietFor(w.script, n) && n >= 8
    ensures var v := Reconcile(w, MergeRequest);
            v.book.pushes == w.book.pushes && v.backend == w.backend && v.stored.Some?
            && v.stored.value.status == w.stored.value.status.(value := w.backend.changes[w.stored.value.status.changeId])
            && Guarded(w.stored.value, v.stored.value) && v.stored.value.owners != []
  {
    QuietReconcile(w, MergeRequest, n);
    hide Reconcile, RefreshValue, DeleteKeepingStatus, Finish, OwnerKnown, QuietFor, Guarding;
    var s := Start(w);
    QuietRefresh(s, n - 1);
    var t := RefreshValue(s).st;
    QuietEnd(t, n - 6);
    assert MergeTry(s) == DeleteKeepingStatus(t);
  }

  // ---------- Deletion ----------

  /** The server's change after a cleanup: abandoned if it was NEW. */
  function Abandoned(b: Backend, id: string): Backend
    requires id in b.changes
  {
    if b.changes[id] == "NEW" then b.(changes := b.changes[id := "ABANDONED"]) else b
  }

  lemma QuietAbandon(s: St, n: nat)
    requires QuietFor(s.w.script, n) && n >= 2 && s.me.status.changeId != "" && s.me.status.changeId in s.w.backend.changes
    ensures var t := AbandonIfNew(s);
            t.Ok? && t.st.me == s.me && QuietFor(t.st.w.script, n - 2)
            && t.st.w.(script := [], backend := s.w.backend) == s.w.(script := [])
            && t.st.w.backend == Abandoned(s.w.backend, s.me.status.changeId)
  {
    hide Calling;
    QuietCalling(s, n);
    var t := Calling(s).st;
    QuietLess(t.w.script, n - 1, n - 2);
    QuietCalling(t, n - 1);
    hide QuietFor;
  }

  lemma QuietCleanup(s: St, n: nat)
    requires QuietFor(s.w.script, n) && n >= 6 && StatusApart(s) && s.me.spec.MergeRequestSpec? && s.me.finalizers != []
    requires s.w.stored.value.status.changeId == s.me.status.changeId != "" && s.me.status.changeId in s.w.backend.changes
    requires s.me.owners != [] && OwnerKnown(s.w.gerrits, s.me)
    ensures var t := Cleanup(s);
            t.Ok? && t.st.me == s.me && QuietFor(t.st.w.script, n - 6)
            && t.st.w.(script := [], backend := s.w.backend) == s.w.(script := [])
            && t.st.w.backend == Abandoned(s.w.backend, s.me.status.changeId)
  {
    hide Calling, Named, GerritOwner, AbandonIfNew;
    QuietResolve(s, n);
    var t := s.(w := Skip(s.w, 2));
    assert EnsureOwner(s) == Ok(t);
    QuietLess(t.w.script, n - 2, n - 4);
    QuietAbandon(t, n - 4);
    hide QuietFor, ResolveOwner;
  }

  /** Cleaning up and dropping the own finalizer, for a copy whose status is ahead of the server's. */
  lemma QuietDeletion(t: St, n: nat)
    requires QuietFor(t.w.script, n) && n >= 7 && StatusApart(t) && t.me.deleting && t.me.spec.MergeRequestSpec?
    requires t.me.finalizers != [] && t.w.stored.value.status.changeId == t.me.status.changeId != ""
    requires t.me.status.changeId in t.w.backend.changes && t.me.owners != [] && OwnerKnown(t.w.gerrits, t.me)
    ensures var u := DeleteKeepingStatus(t);
            var kept := Without(t.me.finalizers, FinalizerOf(t.me.spec));
            u.Ok? && u.st.w.backend == Abandoned(t.w.backend, t.me.status.changeId) && QuietFor(u.st.w.script, n - 7)
            && u.st.w.book.pushes == t.w.book.pushes
            && (if kept == [] then u.st.w.stored.None?
                else u.st.w.stored.Some? && u.st.w.stored.value.finalizers == kept && u.st.w.stored.value.version == u.st.me.version)
  {
    hide Cleanup, Call, Without, OwnerKnown, Abandoned;
    QuietCleanup(t, n);
    var c := Cleanup(t).st;
    QuietCall(Logged(c.w, Cleaned), n - 6);
    hide QuietFor;
  }

  /** The same with the final status write. */
  lemma QuietDeletionEnd(t: St, n: nat)
    requires QuietFor(t.w.script, n) && n >= 8 && StatusApart(t) && t.me.deleting && t.me.spec.MergeRequestSpec?
    requires t.me.finalizers != [] && t.w.stored.value.status.changeId == t.me.status.changeId != ""
    requires t.me.status.changeId in t.w.backend.changes && t.me.owners != [] && OwnerKnown(t.w.gerrits, t.me)
    ensures var u := DeleteKeepingStatus(t);
            var v := Finish(u.st.w, u.st.me, MergeStatus(u));
            var kept := Without(t.me.finalizers, FinalizerOf(t.me.spec));
            v.backend == Abandoned(t.w.backend, t.me.status.changeId) && v.book.pushes == t.w.book.pushes
            && (if kept == [] then v.stored.None? else v.stored.Some? && v.stored.value.finalizers == kept)
  {
    hide DeleteKeepingStatus, Finish, OwnerKnown, QuietFor, Without, Abandoned;
    QuietDeletion(t, n);
    var u := DeleteKeepingStatus(t);
    if u.st.w.stored.Some? {
      QuietFinish(u.st.w, u.st.me, MergeStatus(u), n - 7);
    } else {
      QuietAbsent(u.st.w, u.st.me, MergeStatus(u), n - 7);
      AbsentPushes(u.st.w, u.st.me, MergeStatus(u), n - 7);
    }
  }

  lemma QuietMergeDeletion(s: St, n: nat)
    requires Refreshable(s.w) && s.w.stored == Some(s.me) && s.me.deleting && QuietFor(s.w.script, n) && n >= 13
    ensures var u := MergeTry(s);
            var v := Finish(u.st.w, u.st.me, MergeStatus(u));
            var kept := Without(s.me.finalizers, FinalizerOf(s.me.spec));
            v.backend == Abandoned(s.w.backend, s.me.status.changeId) && v.book.pushes == s.w.book.pushes
            && (if kept == [] then v.stored.None? else v.stored.Some? && v.stored.value.finalizers == kept)
  {
    hide RefreshValue, DeleteKeepingStatus, Finish, OwnerKnown, QuietFor, Without, Abandoned;
    QuietRefresh(s, n);
    var t := RefreshValue(s).st;
    assert t.me.finalizers == s.me.finalizers && t.me.spec == s.me.spec && t.me.deleting;
    MergeContinues(s);
    hide MergeTry, MergeStatus;
    QuietDeletionEnd(t, n - 5);
  }

  /** When calls work, one reconcile of a deleted merge request abandons its change and lets the object go. */
  lemma QuietReconcileAbandons(w: World, n: nat)
    requires Refreshable(w) && w.stored.value.deleting && QuietFor(w.script, n) && n >= 14
    ensures var v := Reconcile(w, MergeRequest);
            var kept := Without(w.stored.value.finalizers, FinalizerOf(w.stored.value.spec));
            v.book.pushes == w.book.pushes && v.backend == Abandoned(w.backend, w.stored.value.status.changeId)
            && (if kept == [] then v.stored.None? else v.stored.Some? && v.stored.value.finalizers == kept)
  {
    QuietReconcile(w, MergeRequest, n);
    hide Reconcile, MergeTry, MergeStatus, Finish, OwnerKnown, QuietFor, Without, Abandoned;
    QuietMergeDeletion(Start(w), n - 1);
  }

  lemma MergeContinues(s: St)
    requires s.me.spec.MergeRequestSpec? && s.me.status.changeId != "" && RefreshValue(s).Ok?
    ensures MergeTry(s) == DeleteKeepingStatus(RefreshValue(s).st)
  {
    hide RefreshValue, DeleteKeepingStatus;
  }

  lemma AbsentPushes(w: World, me: Obj, status: Status, n: nat)
    requires QuietFor(w.script, n) && n > 0 && w.stored.None?
    ensures Finish(w, me, status).book.pushes == w.book.pushes
  {
    hide Call;
    QuietCall(w, n);
  }

  /**
   Created, deleted by a user, reconciled again: one push in all, its change is abandoned, and the object is gone. The
   owner name must be spelt as the Gerrit is named, for the push, and resolve in lower case, for the cleanup.
   */
  lemma ChangeComesAndGoes(w: World, n: nat)
    requires Creatable(w) && Workable(w) && !w.stored.value.deleting && w.stored.value.status.changeId == ""
    requires forall f | f in w.stored.value.finalizers :: f == FinalizerOf(w.stored.value.spec)
    requires QuietFor(w.script, n) && n >= CreateCalls(w.stored.value.spec) + 17
    ensures var u := Run(w, [Work(MergeRequest)]);
            var v := Run(w, [Work(MergeRequest), Others([Delete]), Work(MergeRequest)]);
            v.stored.None? && v.book.pushes == w.book.pushes + 1 && u.stored.Some?
            && var id := u.stored.value.status.changeId;
               id in u.backend.changes && u.backend.changes[id] == "NEW" && id in v.backend.changes && v.backend.changes[id] == "ABANDONED"
  {
    hide Reconcile, QuietFor, OwnerKnown, Without, CreateCalls, Named;
    QuietReconcileCreatesChange(w, n);
    var v := Reconcile(w, MergeRequest);
    var f := FinalizerOf(w.stored.value.spec);
    var x := Act(v, [Delete]);
    assert v.stored.value.finalizers == Guarding(w.stored.value.finalizers, f) && v.stored.value.spec == w.stored.value.spec;
    assert x == Take(v, Delete) && v.stored.value.finalizers != [];
    OwnerUnchanged(w.gerrits, w.stored.value, x.stored.value);
    OnlyOwnIsDropped(v.stored.value.finalizers, f);
    QuietReconcileAbandons(x, n - CreateCalls(w.stored.value.spec) - 3);
    RunOfThree(w, Work(MergeRequest), Others([Delete]), Work(MergeRequest));
  }
}
