/**
 What the finalizer reconcilers achieve when calls work and nobody interferes.
 */
module CalmRuns {
  import opened Common
  import opened Cluster
  import opened Helper
  import opened Controllers

  predicate QuietTurn(t: Turn) {
    t.works && t.steps == [] && t.stale.None?
  }

  /** The next n calls work, are answered currently, and nobody acts in between. */
  ghost predicate QuietFor(script: seq<Turn>, n: nat) {
    |script| >= n && forall i | 0 <= i < n :: QuietTurn(script[i])
  }

  /** The world with the next k turns used up. */
  function Skip(w: World, k: nat): World
    requires k <= |w.script|
  {
    w.(script := w.script[k..])
  }

  lemma QuietCall(w: World, n: nat)
    requires QuietFor(w.script, n) && n > 0
    ensures Call(w) == (Skip(w, 1), w.script[0]) && w.script[0].works && w.script[0].stale.None?
    ensures QuietFor(w.script[1..], n - 1)
  {
    assert QuietTurn(w.script[0]);
  }

  lemma QuietCalling(s: St, n: nat)
    requires QuietFor(s.w.script, n) && n > 0
    ensures Calling(s) == Ok(s.(w := Skip(s.w, 1))) && QuietFor(s.w.script[1..], n - 1)
  {
    QuietCall(s.w, n);
    hide Call;
  }

  lemma SkipTwice(w: World, j: nat, k: nat)
    requires j + k <= |w.script|
    ensures Skip(Skip(w, j), k) == Skip(w, j + k)
  {
    assert w.script[j..][k..] == w.script[j + k..];
  }

  lemma QuietLater(script: seq<Turn>, n: nat, k: nat)
    requires QuietFor(script, n) && k <= n
    ensures QuietFor(script[k..], n - k)
  {
    forall i | 0 <= i < n - k ensures QuietTurn(script[k..][i]) {
      assert script[k..][i] == script[k + i];
    }
  }

  // ---------- Creating a change ----------

  lemma QuietGitClient(s: St, n: nat)
    requires QuietFor(s.w.script, n) && n >= 2 && Named(s.w.gerrits, OwnerName(s.me.spec)).Some?
    ensures GitClient(s) == Ok(s.(w := Skip(s.w, 2)))
  {
    hide Calling, Named;
    QuietCalling(s, n);
    QuietCalling(s.(w := Skip(s.w, 1)), n - 1);
    SkipTwice(s.w, 1, 1);
  }

  /** SetProjectUser and Merge, or the three calls of commitFiles. */
  function PrepareCalls(spec: Spec): nat {
    if spec.MergeRequestSpec? && spec.sourceBranch != "" then 2 else 3
  }

  function CreateCalls(spec: Spec): nat {
    6 + PrepareCalls(spec)
  }

  lemma QuietPrepare(s: St, n: nat)
    requires QuietFor(s.w.script, n) && n >= PrepareCalls(s.me.spec)
    ensures PrepareCommit(s) == Ok(s.(w := Skip(s.w, PrepareCalls(s.me.spec))))
  {
    hide Calling;
    QuietCalling(s, n);
    var s1 := s.(w := Skip(s.w, 1));
    QuietCalling(s1, n - 1);
    SkipTwice(s.w, 1, 1);
    if PrepareCalls(s.me.spec) == 3 {
      QuietLater(s.w.script, n, 2);
      QuietCalling(s.(w := Skip(s.w, 2)), n - 2);
      SkipTwice(s.w, 2, 1);
    }
  }

  /** The clone is there: change id, commit, push, and the removal of the clone. */
  lemma QuietPush(s: St, n: nat)
    requires QuietFor(s.w.script, n) && n >= 3 + PrepareCalls(s.me.spec)
    ensures PushThenRemoveClone(s) == Ok(Pushed(s.(w := Skip(s.w, 3 + PrepareCalls(s.me.spec))), "I" + s.w.script[0].text))
  {
    hide Calling, PrepareCommit, Call, PrepareCalls;
    var k := PrepareCalls(s.me.spec);
    QuietCall(s.w, n);
    var s1 := s.(w := Skip(s.w, 1));
    QuietPrepare(s1, n - 1);
    SkipTwice(s.w, 1, k);
    QuietLater(s.w.script, n, 1 + k);
    QuietCalling(s.(w := Skip(s.w, 1 + k)), n - 1 - k);
    SkipTwice(s.w, 1 + k, 1);
    QuietLater(s.w.script, n, 2 + k);
    var s4 := Pushed(s.(w := Skip(s.w, 2 + k)), "I" + s.w.script[0].text);
    assert PushChange(s) == Ok(s4);
    QuietCall(s4.w, n - 2 - k);
    SkipTwice(s.w, 2 + k, 1);
  }

  /** createChange takes eight calls for a merge and nine for files, and leaves exactly one more push behind. */
  lemma QuietCreateChange(s: St, n: nat)
    requires QuietFor(s.w.script, n) && n >= CreateCalls(s.me.spec) && Named(s.w.gerrits, OwnerName(s.me.spec)).Some?
    ensures CreateChange(s) == Ok(Pushed(s.(w := Skip(s.w, CreateCalls(s.me.spec))), "I" + s.w.script[3].text))
    ensures QuietFor(s.w.script[CreateCalls(s.me.spec)..], n - CreateCalls(s.me.spec))
  {
    hide GitClient, Calling, PushThenRemoveClone, Pushed, PrepareCalls;
    QuietGitClient(s, n);
    QuietLater(s.w.script, n, 2);
    QuietCalling(s.(w := Skip(s.w, 2)), n - 2);
    SkipTwice(s.w, 2, 1);
    QuietLater(s.w.script, n, 3);
    QuietPush(s.(w := Skip(s.w, 3)), n - 3);
    SkipTwice(s.w, 3, 3 + PrepareCalls(s.me.spec));
    QuietLater(s.w.script, n, CreateCalls(s.me.spec));
    hide Named;
  }

  /**
   The git client looks the Gerrit up under exactly the given owner name. So even when every call works, a change
   is created exactly if a Gerrit of that very name exists: neither an empty name nor another case will do, although
   the owner reference accepts both.
   */
  lemma ChangeNeedsExactOwner(s: St, n: nat)
    requires QuietFor(s.w.script, n) && n >= CreateCalls(s.me.spec)
    ensures CreateChange(s).Ok? <==> Named(s.w.gerrits, OwnerName(s.me.spec)).Some?
    ensures CreateChange(s).Err? ==> CreateChange(s).st.w.book.pushes == s.w.book.pushes
  {
    hide Call, PushThenRemoveClone, Named;
    if Named(s.w.gerrits, OwnerName(s.me.spec)).Some? {
      QuietCreateChange(s, n);
    } else {
      QuietCall(s.w, n);
    }
  }

  // ---------- Updates ----------

  predicate SameBut(v: World, w: World) {
    && v.gerrits == w.gerrits && v.backend == w.backend
    && v.book.pushes == w.book.pushes && v.book.statusLost == w.book.statusLost && v.book.dirsLost == w.book.dirsLost
  }

  /** An update from a current copy: everything but the status comes from the copy. */
  lemma QuietUpdating(s: St, n: nat)
    requires QuietFor(s.w.script, n) && n > 0 && s.w.stored.Some? && s.w.stored.value.version == s.me.version
    requires s.w.stored.value.deleting ==> s.me.finalizers != []
    ensures var t := Updating(s);
            t.Ok? && t.st.w.stored == Some(t.st.me) && SameBut(t.st.w, s.w) && t.st.w.script == s.w.script[1..]
            && t.st.me.(version := 0) == Overwritten(s.w.stored.value, s.me).(version := 0)
            && QuietFor(t.st.w.script, n - 1)
  {
    QuietCall(s.w, n);
    hide Call, QuietFor;
  }

  /** The Gerrit that a reconcile settles on can be read back by its name. */
  predicate Resolvable(gerrits: seq<GerritRef>, ownerName: string) {
    GerritInstance(gerrits, ownerName).Some?
  }

  lemma {:induction false} NamedIsNamed(gerrits: seq<GerritRef>, name: string)
    ensures match Named(gerrits, name)
            case Some(g) => g.name == name
            case None => forall g | g in gerrits :: g.name != name
  {
    if gerrits != [] {
      NamedIsNamed(gerrits[1..], name);
      assert gerrits == [gerrits[0]] + gerrits[1..];
    }
  }

  lemma ResolvableReadsBack(gerrits: seq<GerritRef>, ownerName: string)
    requires Resolvable(gerrits, ownerName)
    ensures Named(gerrits, GerritInstance(gerrits, ownerName).value.name).Some?
  {
    NamedIsNamed(gerrits, Lower(ownerName));
  }

  lemma QuietResolve(s: St, n: nat)
    requires QuietFor(s.w.script, n) && n >= 2
    requires GerritOwner(s.me.owners).Some? && Named(s.w.gerrits, GerritOwner(s.me.owners).value.name).Some?
    ensures ResolveOwner(s) == Ok(s.(w := Skip(s.w, 2))) && QuietFor(s.w.script[2..], n - 2)
  {
    hide Calling, Named, GerritOwner;
    QuietCalling(s, n);
    QuietCalling(s.(w := Skip(s.w, 1)), n - 1);
    SkipTwice(s.w, 1, 1);
    QuietLater(s.w.script, n, 2);
  }

  /** A copy without owners gets one, and with it whatever else the server holds: a status it had not stored is gone. */
  lemma QuietFirstOwner(s: St, n: nat)
    requires QuietFor(s.w.script, n) && n >= 4 && s.me.owners == [] && Resolvable(s.w.gerrits, OwnerName(s.me.spec))
    requires s.w.stored.Some? && s.w.stored.value.version == s.me.version
    requires s.w.stored.value.deleting ==> s.me.finalizers != []
    ensures var t := EnsureOwner(s);
            t.Ok? && t.st.w.stored == Some(t.st.me) && SameBut(t.st.w, s.w)
            && |s.w.script| >= 4 && t.st.w.script == s.w.script[4..] && QuietFor(t.st.w.script, n - 4)
            && t.st.me.status == s.w.stored.value.status && t.st.me.owners != []
            && t.st.me.spec == s.me.spec && t.st.me.finalizers == s.me.finalizers
            && t.st.me.uid == s.w.stored.value.uid && t.st.me.deleting == s.w.stored.value.deleting
            && GerritOwner(t.st.me.owners).Some? && Named(t.st.w.gerrits, GerritOwner(t.st.me.owners).value.name).Some?
  {
    hide Calling, Named, Updating, GerritInstance;
    QuietCalling(s, n);
    var s1 := s.(w := Skip(s.w, 1));
    var g := GerritInstance(s.w.gerrits, OwnerName(s.me.spec)).value;
    ResolvableReadsBack(s.w.gerrits, OwnerName(s.me.spec));
    var s2 := s1.(me := s1.me.(owners := [Owner("Gerrit", g.name, g.uid)]));
    QuietUpdating(s2, n - 1);
    var s3 := Updating(s2).st;
    assert GerritOwner(s3.me.owners) == Some(s3.me.owners[0]);
    QuietResolve(s3, n - 2);
    assert s.w.script[1..][1..][2..] == s.w.script[4..];
    hide QuietFor;
  }

  // ---------- Whole reconciles ----------

  lemma QuietFinish(w: World, me: Obj, status: Status, n: nat)
    requires QuietFor(w.script, n) && n > 0 && w.stored.Some? && w.stored.value.version == me.version
    ensures var v := Finish(w, me, status);
            v.stored.Some? && v.stored.value.(version := 0) == w.stored.value.(status := status, version := 0)
            && SameBut(v, w) && v.script == w.script[1..] && QuietFor(v.script, n - 1)
  {
    QuietCall(w, n);
    hide Call, QuietFor;
  }

  /** Where the attempt of a reconcile starts when the read is answered currently. */
  function Start(w: World): St
    requires w.script != [] && w.stored.Some?
  {
    St(Skip(Logged(w, Begin), 1), w.stored.value)
  }

  lemma QuietReconcile(w: World, k: Kind, n: nat)
    requires QuietFor(w.script, n) && n > 0 && w.stored.Some? && IsKind(w.stored.value.spec, k)
    ensures var t := TryOf(k, Start(w));
            Reconcile(w, k) == Counted(Finish(t.st.w, t.st.me, StatusOf(k, t)), t.Ok?)
    ensures QuietFor(Start(w).w.script, n - 1)
  {
    hide Call, TryOf, StatusOf, Finish, Counted;
    var w0 := Logged(w, Begin);
    QuietCall(w0, n);
    hide QuietFor;
    assert ApiGet(w0) == (Start(w).w, Answer(w.stored.value));
  }

  // ---------- A member's life ----------

  /** The owner reference of the copy can be followed, or one can be set. */
  predicate OwnerKnown(gerrits: seq<GerritRef>, o: Obj) {
    if o.owners == [] then Resolvable(gerrits, OwnerName(o.spec))
    else GerritOwner(o.owners).Some? && Named(gerrits, GerritOwner(o.owners).value.name).Some?
  }

  /** A stored object whose Gerrit exists, owned or not, guarded or not. */
  predicate Workable(w: World) {
    && w.stored.Some? && OwnerKnown(w.gerrits, w.stored.value)
    && (w.stored.value.deleting ==> w.stored.value.finalizers != [])
  }

  predicate KnownMember(w: World) {
    Workable(w) && w.stored.value.spec.MemberSpec?
  }

  predicate IsMember(o: Obj, b: Backend) {
    o.spec.MemberSpec? && (o.spec.groupId, o.spec.accountId) in b.members
  }

  /** Whether it sets the owner or finds one: at most four calls. */
  lemma QuietOwner(s: St, n: nat)
    requires QuietFor(s.w.script, n) && n >= 4 && s.w.stored == Some(s.me) && OwnerKnown(s.w.gerrits, s.me)
    requires s.me.deleting ==> s.me.finalizers != []
    ensures var t := EnsureOwner(s);
            t.Ok? && t.st.w.stored == Some(t.st.me) && SameBut(t.st.w, s.w) && QuietFor(t.st.w.script, n - 4)
            && t.st.me.(version := 0, owners := []) == s.me.(version := 0, owners := [])
            && t.st.me.owners != [] && OwnerKnown(t.st.w.gerrits, t.st.me)
  {
    hide Calling, Named, GerritInstance, GerritOwner;
    if s.me.owners == [] {
      OwnerOnly(s, n);
    } else {
      QuietResolve(s, n);
      QuietLess(s.w.script[2..], n - 2, n - 4);
      hide ResolveOwner, QuietFor;
    }
  }

  lemma QuietLess(script: seq<Turn>, n: nat, k: nat)
    requires QuietFor(script, n) && k <= n
    ensures QuietFor(script, k)
  {
  }

  /** Setting the owner on the stored object changes nothing else. */
  lemma OwnerOnly(s: St, n: nat)
    requires QuietFor(s.w.script, n) && n >= 4 && s.w.stored == Some(s.me) && s.me.owners == [] && OwnerKnown(s.w.gerrits, s.me)
    requires s.me.deleting ==> s.me.finalizers != []
    ensures var t := EnsureOwner(s);
            t.Ok? && t.st.w.stored == Some(t.st.me) && SameBut(t.st.w, s.w) && QuietFor(t.st.w.script, n - 4)
            && t.st.me.(version := 0, owners := []) == s.me.(version := 0, owners := [])
            && t.st.me.owners != [] && OwnerKnown(t.st.w.gerrits, t.st.me)
  {
    hide Named, GerritInstance, GerritOwner;
    QuietFirstOwner(s, n);
    hide EnsureOwner, QuietFor;
  }

  /** Owner reference and membership, up to the finalizer protocol: at most five calls. */
  lemma QuietMembership(s: St, n: nat)
    requires QuietFor(s.w.script, n) && n >= 5 && KnownMember(s.w) && s.w.stored == Some(s.me)
    ensures exists t: St ::
              MemberTry(s) == TryToDelete(t) && t.w.stored == Some(t.me) && QuietFor(t.w.script, n - 5) && IsMember(t.me, t.w.backend)
              && t.me.(version := 0, owners := []) == s.me.(version := 0, owners := []) && t.me.owners != [] && KnownMember(t.w)
  {
    hide EnsureOwner, Calling, TryToDelete, OwnerKnown;
    QuietOwner(s, n);
    var t := EnsureOwner(s).st;
    QuietCalling(t, n - 4);
    hide QuietFor;
    var u := Calling(t).st;
    var v := Serving(u, u.w.backend.(members := u.w.backend.members + {(s.me.spec.groupId, s.me.spec.accountId)})).st;
    assert MemberTry(s) == TryToDelete(v);
  }

  /** The object's own finalizer is there; others stay as they are. */
  function Guarding(finalizers: seq<string>, own: string): seq<string> {
    if own in finalizers then finalizers else finalizers + [own]
  }

  lemma QuietGuard(t: St, n: nat)
    requires QuietFor(t.w.script, n) && n >= 1 && t.w.stored == Some(t.me) && Workable(t.w) && !t.me.deleting
    ensures var u := TryToDelete(t);
            u.Ok? && u.st.w.stored == Some(u.st.me) && SameBut(u.st.w, t.w) && QuietFor(u.st.w.script, n - 1) && Workable(u.st.w)
            && u.st.me.(version := 0) == t.me.(version := 0, finalizers := Guarding(t.me.finalizers, FinalizerOf(t.me.spec)))
  {
    hide Updating, OwnerKnown;
    var f := FinalizerOf(t.me.spec);
    QuietLess(t.w.script, n, n - 1);
    if f !in t.me.finalizers {
      QuietUpdating(t.(me := t.me.(finalizers := t.me.finalizers + [f])), n);
    }
    hide QuietFor;
    OwnerUnchanged(t.w.gerrits, t.me, TryToDelete(t).st.me);
  }

  lemma OwnerUnchanged(gerrits: seq<GerritRef>, a: Obj, b: Obj)
    requires OwnerKnown(gerrits, a) && b.owners == a.owners && b.spec == a.spec
    ensures OwnerKnown(gerrits, b)
  {
  }

  lemma QuietMemberTry(s: St, n: nat)
    requires QuietFor(s.w.script, n) && n >= 6 && KnownMember(s.w) && s.w.stored == Some(s.me) && !s.me.deleting
    ensures var u := MemberTry(s);
            u.Ok? && u.st.w.stored == Some(u.st.me) && QuietFor(u.st.w.script, n - 6) && KnownMember(u.st.w)
            && IsMember(u.st.me, u.st.w.backend) && u.st.me.owners != []
            && u.st.me.(version := 0, owners := []) ==
                 s.me.(version := 0, owners := [], finalizers := Guarding(s.me.finalizers, FinalizerOf(s.me.spec)))
  {
    hide MemberTry, QuietFor, OwnerKnown, TryToDelete;
    QuietMembership(s, n);
    var t: St :| MemberTry(s) == TryToDelete(t) && t.w.stored == Some(t.me) && QuietFor(t.w.script, n - 5) && IsMember(t.me, t.w.backend)
              && t.me.(version := 0, owners := []) == s.me.(version := 0, owners := []) && t.me.owners != [] && KnownMember(t.w);
    QuietGuard(t, n - 5);
  }

  /** At most eight calls later the member exists, the object is owned and guarded, and the status says so. */
  lemma QuietReconcileAddsMember(w: World, n: nat)
    requires QuietFor(w.script, n) && n >= 8 && KnownMember(w) && !w.stored.value.deleting
    ensures var v := Reconcile(w, Member);
            KnownMember(v) && IsMember(v.stored.value, v.backend) && QuietFor(v.script, n - 8)
            && v.stored.value.finalizers == Guarding(w.stored.value.finalizers, FinalizerOf(w.stored.value.spec))
            && v.stored.value.owners != [] && v.stored.value.spec == w.stored.value.spec && !v.stored.value.deleting
            && v.stored.value.status.value == STATUS_OK && v.stored.value.status.failureCount == 0
  {
    assert |w.script| >= 8;
    QuietReconcile(w, Member, n);
    hide Reconcile, MemberTry, Finish, QuietFor, OwnerKnown, Guarding;
    QuietMemberTry(Start(w), n - 1);
    var u := MemberTry(Start(w));
    QuietFinish(u.st.w, u.st.me, MemberStatus(u), n - 7);
    OwnerUnchanged(u.st.w.gerrits, u.st.me, Finish(u.st.w, u.st.me, MemberStatus(u)).stored.value);
  }

  /** Deleting it works too: the member and the own finalizer are gone, and the object unless somebody else guards it. */
  lemma QuietReconcileRemovesMember(w: World, n: nat)
    requires QuietFor(w.script, n) && n >= 9 && KnownMember(w) && w.stored.value.deleting
    ensures var v := Reconcile(w, Member);
            var kept := Without(w.stored.value.finalizers, FinalizerOf(w.stored.value.spec));
            !IsMember(w.stored.value, v.backend)
            && (if kept == [] then v.stored.None? else v.stored.Some? && v.stored.value.finalizers == kept)
  {
    assert |w.script| >= 9;
    QuietReconcile(w, Member, n);
    hide Reconcile, MemberTry, Finish, QuietFor, OwnerKnown, TryToDelete, Without;
    var s := Start(w);
    QuietMembership(s, n - 1);
    var t: St :| MemberTry(s) == TryToDelete(t) && t.w.stored == Some(t.me) && QuietFor(t.w.script, n - 6) && IsMember(t.me, t.w.backend)
              && t.me.(version := 0, owners := []) == s.me.(version := 0, owners := []) && t.me.owners != [] && KnownMember(t.w);
    QuietRelease(t, n - 6);
    var u := TryToDelete(t);
    if u.st.w.stored.Some? {
      QuietFinish(u.st.w, u.st.me, MemberStatus(u), n - 8);
    } else {
      QuietAbsent(u.st.w, u.st.me, MemberStatus(u), n - 8);
    }
  }

  /** Removing the item and dropping the own finalizer. */
  lemma QuietRelease(t: St, n: nat)
    requires QuietFor(t.w.script, n) && n >= 2 && t.w.stored == Some(t.me) && t.me.deleting
    requires !t.me.spec.MergeRequestSpec? && AfterRemoval(t.me.spec, t.w.backend).Some?
    ensures var u := TryToDelete(t);
            var kept := Without(t.me.finalizers, FinalizerOf(t.me.spec));
            u.Ok? && u.st.w.backend == AfterRemoval(t.me.spec, t.w.backend).value && QuietFor(u.st.w.script, n - 2)
            && (if kept == [] then u.st.w.stored.None?
                else u.st.w.stored == Some(u.st.me) && u.st.me.finalizers == kept)
  {
    hide Call, Without, AfterRemoval;
    QuietCalling(t, n);
    var t1 := Calling(t).st;
    var b := AfterRemoval(t.me.spec, t1.w.backend).value;
    var t2 := Serving(t1, b).st;
    assert Cleanup(t) == Ok(t2);
    var t3 := t2.(w := Logged(t2.w, Cleaned));
    QuietCall(t3.w, n - 1);
    hide QuietFor;
  }

  /** The final status write finds nothing to write to. */
  lemma QuietAbsent(w: World, me: Obj, status: Status, n: nat)
    requires w.stored.None? && QuietFor(w.script, n) && n > 0
    ensures Finish(w, me, status).stored.None? && Finish(w, me, status).backend == w.backend
  {
    hide Call;
    QuietCall(w, n);
  }

  /** Added, then deleted by a user, then reconciled again: neither the object nor the member is left. */
  lemma MemberComesAndGoes(w: World, n: nat)
    requires QuietFor(w.script, n) && n >= 17 && KnownMember(w) && !w.stored.value.deleting
    requires forall f | f in w.stored.value.finalizers :: f == FinalizerOf(w.stored.value.spec)
    ensures var v := Run(w, [Work(Member), Others([Delete]), Work(Member)]);
            v.stored.None? && !IsMember(w.stored.value, v.backend)
    ensures IsMember(w.stored.value, Run(w, [Work(Member)]).backend)
  {
    hide Reconcile, QuietFor, OwnerKnown, Without;
    QuietReconcileAddsMember(w, n);
    var v := Reconcile(w, Member);
    var f := FinalizerOf(w.stored.value.spec);
    var x := Act(v, [Delete]);
    assert x == Take(v, Delete) && v.stored.value.finalizers != [];
    OwnerUnchanged(v.gerrits, v.stored.value, x.stored.value);
    OnlyOwnIsDropped(v.stored.value.finalizers, f);
    QuietReconcileRemovesMember(x, n - 8);
    RunOfThree(w, Work(Member), Others([Delete]), Work(Member));
  }

  lemma {:induction false} OnlyOwnIsDropped(finalizers: seq<string>, own: string)
    requires forall f | f in finalizers :: f == own
    ensures Without(finalizers, own) == []
  {
    if finalizers != [] {
      assert finalizers[0] in finalizers;
      assert forall f | f in finalizers[1..] :: f in finalizers;
      OnlyOwnIsDropped(finalizers[1..], own);
    }
  }

  lemma RunOfThree(w: World, a: Move, b: Move, c: Move)
    ensures Run(w, [a]) == Moved(w, a)
    ensures Run(w, [a, b, c]) == Moved(Moved(Moved(w, a), b), c)
  {
    hide Moved;
    assert [a][..0] == [] && [a, b][..1] == [a] && [a, b, c][..2] == [a, b];
    assert Run(w, [a, b]) == Moved(Run(w, [a]), b);
  }
}
