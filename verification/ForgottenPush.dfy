/**
 The one way a push is forgotten although no write and no directory removal fails: the object is marked for
 deletion while it has neither a recorded change id nor an owner. Then storing the owner reference discards the
 fresh id, and the next reconcile pushes again. `MergeBound` shows that this is the only way.
 */
module ForgottenPush {
  import opened Common
  import opened Cluster
  import opened Helper
  import opened Controllers
  import opened CalmRuns
  import MergeBound

  /** A merge request that asks for something, under a Gerrit that both look-ups find. */
  predicate Pushable(gerrits: seq<GerritRef>, o: Obj) {
    && o.spec.MergeRequestSpec? && (o.spec.sourceBranch != "" || o.spec.changesConfigMap != "")
    && Named(gerrits, o.spec.ownerName).Some? && Resolvable(gerrits, o.spec.ownerName)
  }

  /** Marked for deletion with neither a recorded change nor an owner. */
  predicate Unrecorded(w: World) {
    && w.stored.Some? && Pushable(w.gerrits, w.stored.value) && !MergeBound.Protected(w.stored.value)
    && w.stored.value.deleting && w.stored.value.finalizers != []
  }

  /** The same object once it has its owner: still deleted, still without a change id. */
  predicate OwnedTooLate(w: World) {
    && w.stored.Some? && Pushable(w.gerrits, w.stored.value)
    && w.stored.value.status.changeId == "" && GerritOwner(w.stored.value.owners).Some? && w.stored.value.deleting
  }

  predicate SameLosses(w: World, v: World) {
    v.book.statusLost == w.book.statusLost && v.book.dirsLost == w.book.dirsLost
  }

  /** Adding the owner reference discards the fresh change id, and abandoning fails for want of one. */
  lemma CleanupForgets(s: St, n: nat)
    requires QuietFor(s.w.script, n) && n >= 5 && Unrecorded(s.w) && s.me.(status := s.w.stored.value.status) == s.w.stored.value
    ensures var t := DeleteKeepingStatus(s);
            t.Err? && t.st.w.stored == Some(t.st.me) && SameBut(t.st.w, s.w)
            && |s.w.script| >= 5 && t.st.w.script == s.w.script[5..] && QuietFor(t.st.w.script, n - 5)
            && OwnedTooLate(t.st.w) && t.st.me.spec == s.me.spec
  {
    hide EnsureOwner, Calling, Updating, Named, GerritInstance;
    QuietFirstOwner(s, n);
    var t := EnsureOwner(s).st;
    QuietCalling(t, n - 4);
    assert s.w.script[4..][1..] == s.w.script[5..];
    hide QuietFor;
    assert Cleanup(s) == AbandonIfNew(t);
  }

  lemma MergeForgets(s: St, n: nat)
    requires QuietFor(s.w.script, n) && n >= CreateCalls(s.me.spec) + 5 && Unrecorded(s.w) && s.w.stored == Some(s.me)
    ensures var t := MergeTry(s);
            var k := CreateCalls(s.me.spec) + 5;
            t.Err? && t.st.w.stored == Some(t.st.me) && OwnedTooLate(t.st.w) && t.st.me.spec == s.me.spec
            && |s.w.script| >= k && t.st.w.script == s.w.script[k..] && QuietFor(t.st.w.script, n - k)
            && t.st.w.book.pushes == s.w.book.pushes + 1 && SameLosses(s.w, t.st.w)
  {
    hide CreateChange, DeleteKeepingStatus, CreateCalls, Pushable, OwnedTooLate;
    PushableMeans(s);
    QuietCreateChange(s, n);
    var t := CreateChange(s);
    var k := CreateCalls(s.me.spec);
    assert s.w.script[k..][5..] == s.w.script[k + 5..];
    hide QuietFor;
    CleanupForgets(t.st, n - k);
    assert MergeTry(s) == DeleteKeepingStatus(t.st);
  }

  lemma PushableMeans(s: St)
    requires Pushable(s.w.gerrits, s.me)
    ensures s.me.spec.MergeRequestSpec? && Named(s.w.gerrits, OwnerName(s.me.spec)).Some?
    ensures s.me.spec.sourceBranch != "" || s.me.spec.changesConfigMap != ""
  {
  }

  /** Calls of the reconcile that forgets its push. */
  function ForgettingCalls(spec: Spec): nat {
    CreateCalls(spec) + 7
  }

  /** Every call works and nothing is lost, and yet there is one more push and still no change id on the server. */
  lemma ReconcileForgets(w: World, n: nat)
    requires Unrecorded(w) && QuietFor(w.script, n) && n >= ForgettingCalls(w.stored.value.spec)
    ensures var v := Reconcile(w, MergeRequest);
            var k := ForgettingCalls(w.stored.value.spec);
            v.book.pushes == w.book.pushes + 1 && SameLosses(w, v) && OwnedTooLate(v)
            && v.stored.value.spec == w.stored.value.spec && |w.script| >= k && v.script == w.script[k..]
  {
    assert |w.script| >= n > 0;
    PushableMeans(St(w, w.stored.value));
    QuietReconcile(w, MergeRequest, n);
    hide Reconcile, QuietFor, Pushable, MergeTry, Finish, CreateCalls;
    MergeForgets(Start(w), n - 1);
    var u := MergeTry(Start(w));
    var k := CreateCalls(w.stored.value.spec) + 5;
    QuietFinish(u.st.w, u.st.me, MergeStatus(u), n - 1 - k);
    assert w.script[1..][k..][1..] == w.script[k + 2..];
    StillPushable(u.st.w, Finish(u.st.w, u.st.me, MergeStatus(u)));
  }

  lemma StillPushable(w: World, v: World)
    requires OwnedTooLate(w) && v.stored.Some? && v.gerrits == w.gerrits
    requires v.stored.value.(version := 0, status := w.stored.value.status) == w.stored.value.(version := 0)
    requires v.stored.value.status.changeId == ""
    ensures OwnedTooLate(v)
  {
  }

  /** Connecting to Gerrit for the cleanup fails after the push. */
  lemma FailingCleanup(s: St)
    requires s.me.deleting && s.me.spec.MergeRequestSpec? && GerritOwner(s.me.owners).Some?
    requires s.w.script != [] && !s.w.script[0].works && s.w.script[0].steps == []
    ensures DeleteKeepingStatus(s) == Err(s.(w := Skip(s.w, 1)))
  {
    assert s.me.owners != [];
    hide GerritOwner;
    assert Calling(s) == Err(s.(w := Skip(s.w, 1)));
    assert EnsureOwner(s) == ResolveOwner(s);
  }

  /** Until the change exists every call works; then connecting for the cleanup fails, and the status write works. */
  ghost predicate FailsAfterPush(script: seq<Turn>, spec: Spec) {
    var k := CreateCalls(spec) + 1;
    QuietFor(script, k) && |script| >= k + 2
    && !script[k].works && script[k].steps == [] && QuietTurn(script[k + 1])
  }

  lemma MergeRepeats(s: St)
    requires s.w.stored == Some(s.me) && OwnedTooLate(s.w) && QuietFor(s.w.script, CreateCalls(s.me.spec))
    requires var k := CreateCalls(s.me.spec); |s.w.script| >= k + 2 && !s.w.script[k].works && s.w.script[k].steps == []
    ensures var t := MergeTry(s);
            var k := CreateCalls(s.me.spec);
            t.Err? && t.st.w.script == s.w.script[k + 1..] && t.st.w.stored == s.w.stored && t.st.me.version == s.me.version
            && t.st.w.book.pushes == s.w.book.pushes + 1 && SameLosses(s.w, t.st.w) && MergeBound.HasId(t.st.me)
  {
    hide Pushable, CreateChange, DeleteKeepingStatus, CreateCalls, QuietFor;
    var k := CreateCalls(s.me.spec);
    PushableMeans(s);
    QuietCreateChange(s, k);
    var t := CreateChange(s).st;
    assert t.w.script == s.w.script[k..];
    FailingCleanup(t);
    assert s.w.script[k..][1..] == s.w.script[k + 1..];
    assert MergeTry(s) == Err(t.(w := Skip(t.w, 1)));
  }

  /** The same merge request is pushed once more, again with nothing lost, and now the push is recorded. */
  lemma ReconcileRepeats(w: World)
    requires OwnedTooLate(w) && FailsAfterPush(w.script, w.stored.value.spec)
    ensures var v := Reconcile(w, MergeRequest);
            v.book.pushes == w.book.pushes + 1 && SameLosses(w, v) && v.stored.Some? && MergeBound.HasId(v.stored.value)
  {
    hide Reconcile, Pushable, MergeTry, Finish, CreateCalls, QuietFor, FailsAfterPush;
    var k := CreateCalls(w.stored.value.spec);
    ScriptParts(w.script, w.stored.value.spec);
    PushableMeans(St(w, w.stored.value));
    QuietReconcile(w, MergeRequest, k + 1);
    var s := Start(w);
    MergeRepeats(s);
    var u := MergeTry(s).st;
    QuietFinish(u.w, u.me, u.me.status.(value := ERROR_TEXT), 1);
  }

  lemma ScriptParts(script: seq<Turn>, spec: Spec)
    requires FailsAfterPush(script, spec)
    ensures var k := CreateCalls(spec);
            |script| >= k + 3 && QuietFor(script, k + 1) && QuietFor(script[1..], k)
            && !script[1..][k].works && script[1..][k].steps == [] && QuietFor(script[1..][k + 1..], 1)
  {
    hide CreateCalls;
    QuietLater(script, CreateCalls(spec) + 1, 1);
  }

  // ---------- Two reconciles ----------

  const CALM := Turn([], true, None, 0, "", false)
  const BROKEN := Turn([], false, None, 0, "", false)

  /** One quiet reconcile, and one in which a single call fails. */
  function TwoReconciles(spec: Spec): seq<Turn> {
    seq(ForgettingCalls(spec) + CreateCalls(spec) + 1, _ => CALM) + [BROKEN, CALM]
  }

  lemma ScriptFits(spec: Spec)
    ensures QuietFor(TwoReconciles(spec), ForgettingCalls(spec))
    ensures |TwoReconciles(spec)| >= ForgettingCalls(spec)
    ensures FailsAfterPush(TwoReconciles(spec)[ForgettingCalls(spec)..], spec)
  {
    hide CreateCalls;
    var all := TwoReconciles(spec);
    var k := ForgettingCalls(spec);
    assert forall i | 0 <= i < k + CreateCalls(spec) + 1 :: all[i] == CALM;
    assert forall i | 0 <= i < CreateCalls(spec) + 1 :: all[k..][i] == all[k + i];
  }

  /**
   The converse of the push bound: from every world with an unrecorded, ownerless, deleted merge request two
   reconciles can push twice without losing a write or a directory, so whenever each loss so far was a push
   the bound is exceeded.
   */
  lemma UnrecordedPushesTwice(w: World)
    requires Unrecorded(w)
    ensures var v := Run(w.(script := TwoReconciles(w.stored.value.spec)), [Work(MergeRequest), Work(MergeRequest)]);
            v.book.pushes == w.book.pushes + 2 && SameLosses(w, v)
            && (w.book.pushes >= w.book.statusLost + w.book.dirsLost ==> v.book.pushes > 1 + v.book.statusLost + v.book.dirsLost)
  {
    hide Reconcile, TwoReconciles, ForgettingCalls;
    var x := w.(script := TwoReconciles(w.stored.value.spec));
    ScriptFits(w.stored.value.spec);
    assert Unrecorded(x);
    ReconcileForgets(x, ForgettingCalls(w.stored.value.spec));
    ReconcileRepeats(Reconcile(x, MergeRequest));
    RunOfTwo(x, Work(MergeRequest), Work(MergeRequest));
  }

  lemma RunOfTwo(w: World, a: Move, b: Move)
    ensures Run(w, [a, b]) == Moved(Moved(w, a), b)
  {
    hide Moved;
    assert [a][..0] == [] && [a, b][..1] == [a];
    assert Run(w, [a]) == Moved(w, a);
  }

  /** A fresh merge request that some other client guards and a user deletes. */
  lemma DeletedFresh(w: World, foreign: string)
    requires MergeBound.Untouched(w) && w.stored.Some? && Pushable(w.gerrits, w.stored.value)
    requires w.stored.value.owners == [] && w.stored.value.finalizers == []
    ensures var v := Take(Take(w, AddFinalizer(foreign)), Delete);
            Unrecorded(v) && v.stored.value.spec == w.stored.value.spec && v.script == w.script
            && v.book.pushes == 0 && v.book.statusLost == 0 && v.book.dirsLost == 0
  {
    var o := w.stored.value;
    assert o in w.history && !MergeBound.HasId(o) && !o.deleting;
    hide Pushable;
    var w1 := Take(w, AddFinalizer(foreign));
    assert w1.stored.value.(version := 0, finalizers := []) == o.(version := 0) && w1.stored.value.finalizers == [foreign];
    SamePushable(w.gerrits, o, Take(w1, Delete).stored.value);
  }

  lemma SamePushable(gerrits: seq<GerritRef>, a: Obj, b: Obj)
    requires Pushable(gerrits, a) && b.spec == a.spec
    ensures Pushable(gerrits, b)
  {
  }

  lemma ActOne(w: World, s: Step)
    ensures Act(w, [s]) == Take(w, s)
  {
    assert [s][1..] == [];
    assert Act(Take(w, s), []) == Take(w, s);
  }

  /**
   The bound is exceeded in a run from the very beginning: a fresh merge request, some other client's finalizer
   (foreground deletion sets one), a deletion, and the two reconciles.
   */
  lemma BoundIsExceeded(w: World, foreign: string)
    requires MergeBound.Untouched(w) && w.stored.Some? && Pushable(w.gerrits, w.stored.value)
    requires w.stored.value.owners == [] && w.stored.value.finalizers == [] && w.script == TwoReconciles(w.stored.value.spec)
    ensures var v := Run(w, [Others([AddFinalizer(foreign)]), Others([Delete])] + [Work(MergeRequest), Work(MergeRequest)]);
            v.book.pushes > 1 + v.book.statusLost + v.book.dirsLost
  {
    hide TwoReconciles, Pushable, Take, Run, Reconcile, Act;
    DeletedFresh(w, foreign);
    var w2 := Take(Take(w, AddFinalizer(foreign)), Delete);
    ActOne(w, AddFinalizer(foreign));
    ActOne(Take(w, AddFinalizer(foreign)), Delete);
    RunOfTwo(w, Others([AddFinalizer(foreign)]), Others([Delete]));
    UnrecordedPushesTwice(w2);
    assert w2 == w2.(script := w.script);
    RunOfConcat(w, [Others([AddFinalizer(foreign)]), Others([Delete])], [Work(MergeRequest), Work(MergeRequest)]);
  }
}
