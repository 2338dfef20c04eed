/**
 Changes that are left on the Gerrit server. A finalizer only cleans up the change whose id is recorded; here is a
 bound on the others: every change comes from a push, and pushes are only repeated when a record was lost.
 */
module ChangeCount {
  import AccessRights
  import opened Cluster
  import opened Helper
  import opened Invariants
  import opened Controllers
  import opened MergeBound

  /** From w to v, no more changes became known than were pushed. */
  predicate Accounted(w: World, v: World) {
    |v.backend.changes.Keys| + w.book.pushes <= |w.backend.changes.Keys| + v.book.pushes
  }

  predicate SameCount(w: World, v: World) {
    v.backend.changes.Keys == w.backend.changes.Keys && v.book.pushes == w.book.pushes
  }

  lemma {:induction false} ActCounts(w: World, steps: seq<Step>)
    ensures SameCount(w, Act(w, steps))
    decreases |steps|
  {
    if steps != [] {
      TakeCounts(w, steps[0]);
      hide Take;
      ActCounts(Take(w, steps[0]), steps[1..]);
    }
  }

  lemma TakeCounts(w: World, s: Step)
    ensures SameCount(w, Take(w, s))
  {
    hide Written, Removes, Tidy;
  }

  lemma CallCounts(w: World)
    ensures SameCount(w, Call(w).0)
  {
    if w.script != [] {
      ActCounts(w.(script := w.script[1..]), w.script[0].steps);
    }
  }

  lemma CallingCounts(s: St)
    ensures SameCount(s.w, Calling(s).st.w)
  {
    CallCounts(s.w);
    hide Call;
  }

  lemma UpdatingCounts(s: St)
    ensures SameCount(s.w, Updating(s).st.w)
  {
    CallCounts(s.w);
    hide Call, Tidy;
  }

  lemma ResolveOwnerCounts(s: St)
    ensures SameCount(s.w, ResolveOwner(s).st.w)
  {
    hide Calling, GerritOwner, Named;
    CallingCounts(s);
    CallingCounts(Calling(s).st);
  }

  lemma EnsureOwnerCounts(s: St)
    ensures SameCount(s.w, EnsureOwner(s).st.w)
  {
    hide Calling, Updating, ResolveOwner, GerritInstance;
    ResolveOwnerCounts(s);
    CallingCounts(s);
    var s1 := Calling(s).st;
    var g := GerritInstance(s1.w.gerrits, OwnerName(s1.me.spec));
    if g.Some? {
      var s2 := s1.(me := s1.me.(owners := [Owner("Gerrit", g.value.name, g.value.uid)]));
      UpdatingCounts(s2);
      ResolveOwnerCounts(Updating(s2).st);
    }
  }

  lemma AbandonCounts(s: St)
    ensures SameCount(s.w, AbandonIfNew(s).st.w)
  {
    hide Calling;
    CallingCounts(s);
    CallingCounts(Calling(s).st);
  }

  lemma CleanupCounts(s: St)
    ensures SameCount(s.w, Cleanup(s).st.w)
  {
    if s.me.spec.MergeRequestSpec? {
      EnsureOwnerCounts(s);
      AbandonCounts(EnsureOwner(s).st);
      hide EnsureOwner, AbandonIfNew;
    } else {
      CallingCounts(s);
      hide Calling, AccessRights.AfterDelete;
    }
  }

  lemma DeleteCounts(s: St)
    ensures SameCount(s.w, DeleteKeepingStatus(s).st.w)
  {
    hide Cleanup, Updating, Without;
    var f := FinalizerOf(s.me.spec);
    UpdatingCounts(s.(me := s.me.(finalizers := s.me.finalizers + [f])));
    CleanupCounts(s);
    var c := Cleanup(s).st;
    UpdatingCounts(St(Logged(c.w, Cleaned), c.me.(finalizers := Without(c.me.finalizers, f))));
  }

  lemma GitClientCounts(s: St)
    ensures SameCount(s.w, GitClient(s).st.w)
  {
    hide Calling, Named;
    CallingCounts(s);
    CallingCounts(Calling(s).st);
  }

  lemma PrepareCommitCounts(s: St)
    ensures SameCount(s.w, PrepareCommit(s).st.w)
  {
    hide Calling;
    CallingCounts(s);
    CallingCounts(Calling(s).st);
    CallingCounts(Calling(Calling(s).st).st);
  }

  lemma PushedCounts(s: St, id: string)
    ensures Accounted(s.w, Pushed(s, id).w)
  {
    assert Pushed(s, id).w.backend.changes.Keys == s.w.backend.changes.Keys + {id};
  }

  lemma PushChangeCounts(s: St)
    ensures Accounted(s.w, PushChange(s).st.w)
  {
    hide Call, PrepareCommit, Calling, Pushed;
    CallCounts(s.w);
    var (w, t) := Call(s.w);
    var s1 := s.(w := w);
    PrepareCommitCounts(s1);
    CallingCounts(PrepareCommit(s1).st);
    PushedCounts(Calling(PrepareCommit(s1).st).st, "I" + t.text);
  }

  lemma CreateChangeCounts(s: St)
    ensures Accounted(s.w, CreateChange(s).st.w)
  {
    hide Call, GitClient, Calling, PushChange;
    GitClientCounts(s);
    CallingCounts(GitClient(s).st);
    var s2 := Calling(GitClient(s).st).st;
    PushChangeCounts(s2);
    CallCounts(PushChange(s2).st.w);
  }

  lemma MergeTryCounts(s: St)
    ensures Accounted(s.w, MergeTry(s).st.w)
  {
    hide CreateChange, EnsureOwner, Calling, DeleteKeepingStatus;
    CreateChangeCounts(s);
    EnsureOwnerCounts(s);
    CallingCounts(EnsureOwner(s).st);
    DeleteCounts(CreateChange(s).st);
    DeleteCounts(RefreshValue(s).st);
  }

  lemma GetCounts(w: World)
    ensures SameCount(w, ApiGet(w).0)
  {
    CallCounts(w);
    hide Call;
  }

  lemma FinishCounts(w: World, me: Obj, status: Status)
    ensures SameCount(w, Finish(w, me, status))
  {
    CallCounts(w);
    hide Call, Tidy;
  }

  lemma ReconcileCounts(w: World)
    ensures Accounted(w, Reconcile(w, MergeRequest))
  {
    hide ApiGet, MergeTry, MergeStatus, Finish;
    var w0 := Logged(w, Begin);
    GetCounts(w0);
    var (w1, r) := ApiGet(w0);
    if r.Answer? {
      var t := MergeTry(St(w1, r.obj));
      MergeTryCounts(St(w1, r.obj));
      FinishCounts(t.st.w, t.st.me, MergeStatus(t));
    }
  }

  lemma {:induction false} RunCounts(w: World, moves: seq<Move>)
    requires forall m | m in moves :: AllowedMove(m)
    ensures Accounted(w, Run(w, moves))
  {
    hide Reconcile;
    if moves != [] {
      var init, last := moves[..|moves| - 1], moves[|moves| - 1];
      RunCounts(w, init);
      assert AllowedMove(last);
      match last
      case Work(k) => ReconcileCounts(Run(w, init));
      case Others(steps) => ActCounts(Run(w, init), steps);
    }
  }

  /** The changes that await review. */
  function NewChanges(w: World): set<string> {
    set id | id in w.backend.changes && w.backend.changes[id] == CHANGE_NEW
  }

  /**
   Over any run from a fresh merge request: beside one change, no more are left than status writes were lost and
   directory removals failed. When one of the changes has been abandoned, as the finalizer sees to, that one is not
   among those left.
   */
  lemma ChangesLeft(w: World, moves: seq<Move>)
    requires Untouched(w) && w.backend.changes == map[] && Only(w.script, OneIncarnation)
    requires forall m | m in moves :: AllowedMove(m)
    ensures var v := Run(w, moves);
            !v.book.ownerlessDelete ==>
              |NewChanges(v)| <= 1 + v.book.statusLost + v.book.dirsLost
              && ((exists id :: id in v.backend.changes && v.backend.changes[id] != CHANGE_NEW) ==>
                    |NewChanges(v)| <= v.book.statusLost + v.book.dirsLost)
  {
    hide Run, Untouched;
    var v := Run(w, moves);
    RunCounts(w, moves);
    PushBound(w, moves);
    assert w.book.pushes == 0 by { UntouchedHasNoPush(w); }
    var keys := v.backend.changes.Keys;
    Smaller(NewChanges(v), keys);
    if id :| id in v.backend.changes && v.backend.changes[id] != CHANGE_NEW {
      Smaller(NewChanges(v), keys - {id});
      assert |keys - {id}| == |keys| - 1;
    }
  }

  lemma UntouchedHasNoPush(w: World)
    requires Untouched(w)
    ensures w.book.pushes == 0
  {
  }

  lemma {:induction false} Smaller(a: set<string>, b: set<string>)
    requires a <= b
    ensures |a| <= |b|
    decreases |a|
  {
    if a != {} {
      var x :| x in a;
      Smaller(a - {x}, b - {x});
    }
  }
}
