/**
 The finalizer protocol over whole runs: users, other controllers, failing calls, stale reads and operators that
 are killed anywhere. Once the finalizer is stored, the object loses it only after a cleanup function returned
 without error in the same reconcile, and at that moment nothing is left on the Gerrit server, although every
 reconcile re-adds what it is about to delete.
 */
module FinalizerSafety {
  import opened Cluster
  import opened Helper
  import opened Invariants
  import opened Controllers

  // ---------- Reading the log ----------

  function CleanedSinceBegin(log: seq<Event>): bool {
    if log == [] then false
    else match log[|log| - 1]
      case Begin => false
      case Cleaned => true
      case Released(_, _) => CleanedSinceBegin(log[..|log| - 1])
  }

  /** Every release came after a cleanup of the same reconcile and left nothing behind. */
  predicate Safe(log: seq<Event>) {
    log == []
    || (var init, last := log[..|log| - 1], log[|log| - 1];
        Safe(init) && (last.Released? ==> last.tidy && CleanedSinceBegin(init)))
  }

  lemma {:induction false} CleanedSinceBeginMeans(log: seq<Event>)
    ensures CleanedSinceBegin(log) <==> exists j: nat :: j < |log| && log[j] == Cleaned && forall k | j < k < |log| :: log[k] != Begin
  {
    if log != [] {
      var init, last := log[..|log| - 1], log[|log| - 1];
      CleanedSinceBeginMeans(init);
      if last.Released? && CleanedSinceBegin(init) {
        var j: nat :| j < |init| && init[j] == Cleaned && forall k | j < k < |init| :: init[k] != Begin;
        assert log[j] == Cleaned && forall k | j < k < |log| :: log[k] != Begin;
      }
      if j: nat :| j < |log| && log[j] == Cleaned && forall k | j < k < |log| :: log[k] != Begin {
        if j < |init| {
          assert log[|init|] == last;
          assert init[j] == Cleaned && forall k | j < k < |init| :: init[k] != Begin;
        }
      }
    }
  }

  /** Safe, written out over positions of the log. */
  lemma {:induction false} SafeMeans(log: seq<Event>)
    requires Safe(log)
    ensures forall i | 0 <= i < |log| && log[i].Released? ::
              log[i].tidy && exists j: nat :: j < i && log[j] == Cleaned && forall k | j < k < i :: log[k] != Begin
  {
    if log != [] {
      var init := log[..|log| - 1];
      SafeMeans(init);
      CleanedSinceBeginMeans(init);
      forall i | 0 <= i < |log| && log[i].Released?
        ensures log[i].tidy && exists j: nat :: j < i && log[j] == Cleaned && forall k | j < k < i :: log[k] != Begin
      {
        if i < |init| {
          assert init[i] == log[i];
          var j: nat :| j < i && init[j] == Cleaned && forall k | j < k < i :: init[k] != Begin;
          assert log[j] == Cleaned;
        } else {
          var j: nat :| j < |init| && init[j] == Cleaned && forall k | j < k < |init| :: init[k] != Begin;
          assert log[j] == Cleaned;
        }
      }
    }
  }

  // ---------- Steps without events ----------

  /** Nothing was logged, and a guarded object is still guarded. */
  ghost predicate Quiet(w: World, v: World) {
    && WellFormed(v)
    && w.history <= v.history
    && v.book.log == w.book.log
    && forall u | Guarded(w, u) :: Guarded(v, u)
  }

  predicate ReleasedSince(n: nat, log: seq<Event>, u: nat) {
    exists i :: n <= i < |log| && log[i].Released? && log[i].uid == u
  }

  /** The log stays safe, and a guarded object stays guarded unless a release was logged. */
  ghost predicate Sound(w: World, v: World) {
    && WellFormed(v)
    && w.history <= v.history
    && w.book.log <= v.book.log
    && (Safe(w.book.log) ==> Safe(v.book.log))
    && forall u | Guarded(w, u) && !Guarded(v, u) :: ReleasedSince(|w.book.log|, v.book.log, u)
  }

  lemma SoundTransitive(w: World, v: World, x: World)
    requires Sound(w, v) && Sound(v, x)
    ensures Sound(w, x)
  {
    forall u | ReleasedSince(|w.book.log|, v.book.log, u) ensures ReleasedSince(|w.book.log|, x.book.log, u) {
      var i :| |w.book.log| <= i < |v.book.log| && v.book.log[i].Released? && v.book.log[i].uid == u;
      assert x.book.log[i] == v.book.log[i];
    }
  }

  lemma QuietTransitive(w: World, v: World, x: World)
    requires Quiet(w, v) && Quiet(v, x)
    ensures Quiet(w, x)
  {
  }

  /** The copy has the finalizers of the version it names. */
  ghost predicate Synced(w: World, me: Obj) {
    exists b :: b in w.history && b.version == me.version && b.finalizers == me.finalizers
  }

  /** The change the cleanup will look at is the recorded one, when one is recorded. */
  predicate IdOk(me: Obj, origin: Obj) {
    origin.status.changeId == "" || me.status.changeId == origin.status.changeId
  }

  ghost predicate Ready(s: St, origin: Obj) {
    WellFormed(s.w) && Of(s.w, s.me, origin) && Synced(s.w, s.me) && IdOk(s.me, origin)
  }

  /** The step was quiet, and when it succeeded the copy is as good as before. */
  ghost predicate Fine(s: St, t: Try, origin: Obj) {
    Quiet(s.w, t.st.w) && (t.Ok? ==> Ready(t.st, origin))
  }

  lemma CallQuiet(w: World)
    requires WellFormed(w)
    ensures Quiet(w, Call(w).0) && Call(w).0.backend == w.backend
  {
    CallKeeps(w);
    hide Call;
  }

  lemma ReadyGrows(s: St, v: World, origin: Obj)
    requires Ready(s, origin) && WellFormed(v) && s.w.history <= v.history
    ensures Ready(s.(w := v), origin)
  {
  }

  lemma CallingFine(s: St, origin: Obj)
    requires Ready(s, origin)
    ensures Fine(s, Calling(s), origin) && Calling(s).st.w.backend == s.w.backend && Calling(s).st.me == s.me
  {
    CallQuiet(s.w);
    ReadyGrows(s, Call(s.w).0, origin);
    hide Call, Ready, Quiet;
  }

  lemma ServingFine(s: St, b: Backend, origin: Obj)
    requires Ready(s, origin)
    ensures Fine(s, Serving(s, b), origin)
  {
  }

  /** An update that keeps the finalizer, and keeps a deleted object alive, is quiet. */
  lemma UpdateQuiet(w: World, me: Obj, base: Obj)
    requires WellFormed(w) && base in w.history && base.version == me.version
    requires FinalizerOf(base.spec) in base.finalizers ==> FinalizerOf(base.spec) in me.finalizers
    requires base.deleting ==> me.finalizers != []
    requires me.spec == base.spec
    ensures var (v, r) := ApiUpdate(w, me);
            Quiet(w, v) && v.backend == w.backend && (r.Answer? ==> Synced(v, r.obj))
  {
    CallQuiet(w);
    var v := Call(w).0;
    var works := Call(w).1.works;
    hide Call;
    if works && v.stored.Some? && v.stored.value.version == me.version {
      assert v.stored.value == base;
      PutKeeps(v, base, Overwritten(base, me));
      hide Put;
    }
  }

  lemma UpdatingFine(s: St, origin: Obj, base: Obj)
    requires WellFormed(s.w) && Of(s.w, s.me, origin) && IdOk(s.me, origin)
    requires base in s.w.history && base.version == s.me.version
    requires FinalizerOf(base.spec) in base.finalizers ==> FinalizerOf(base.spec) in s.me.finalizers
    requires base.deleting ==> s.me.finalizers != []
    ensures Fine(s, Updating(s), origin) && Updating(s).st.w.backend == s.w.backend
  {
    UpdateFacts(s.w, s.me, origin);
    assert base.spec == s.me.spec;
    UpdateQuiet(s.w, s.me, base);
    hide ApiUpdate, Of, Quiet, Synced, WellFormed;
  }

  lemma ResolveOwnerFine(s: St, origin: Obj)
    requires Ready(s, origin)
    ensures Fine(s, ResolveOwner(s), origin) && ResolveOwner(s).st.w.backend == s.w.backend && ResolveOwner(s).st.me == s.me
  {
    assert Quiet(s.w, s.w);
    hide Ready, Calling, Quiet;
    CallingFine(s, origin);
    var s1 := Calling(s).st;
    if Calling(s).Ok? {
      CallingFine(s1, origin);
      QuietTransitive(s.w, s1.w, Calling(s1).st.w);
    }
  }

  lemma EnsureOwnerFine(s: St, origin: Obj)
    requires Ready(s, origin)
    ensures Fine(s, EnsureOwner(s), origin) && EnsureOwner(s).st.w.backend == s.w.backend
  {
    if s.me.owners != [] {
      hide Ready, Quiet, ResolveOwner;
      ResolveOwnerFine(s, origin);
    } else {
      CallingFine(s, origin);
      var s1 := Calling(s).st;
      var g := GerritInstance(s1.w.gerrits, OwnerName(s1.me.spec));
      if Calling(s).Ok? && g.Some? {
        var s2 := s1.(me := s1.me.(owners := [Owner("Gerrit", g.value.name, g.value.uid)]));
        var base :| base in s1.w.history && base.version == s1.me.version && base.finalizers == s1.me.finalizers;
        OwnersAreNoFact(s1.w, s1.me, s2.me.owners, origin);
        UpdatingFine(s2, origin, base);
        hide Calling, Updating, ResolveOwner, Ready;
        QuietTransitive(s.w, s1.w, Updating(s2).st.w);
        if Updating(s2).Ok? {
          ResolveOwnerFine(Updating(s2).st, origin);
          QuietTransitive(s.w, Updating(s2).st.w, ResolveOwner(Updating(s2).st).st.w);
        }
      }
    }
  }

  /** A successful cleanup leaves nothing behind. */
  lemma CleanupFine(s: St, origin: Obj)
    requires Ready(s, origin)
    ensures Fine(s, Cleanup(s), origin)
    ensures Cleanup(s).Ok? ==> Tidy(origin.spec, origin.status, Cleanup(s).st.w.backend)
  {
    if s.me.spec.MergeRequestSpec? {
      EnsureOwnerFine(s, origin);
      var s1 := EnsureOwner(s).st;
      if EnsureOwner(s).Ok? {
        AbandonFine(s1, origin);
        QuietTransitive(s.w, s1.w, AbandonIfNew(s1).st.w);
      }
      hide EnsureOwner, AbandonIfNew, Quiet;
    } else {
      CallingFine(s, origin);
      var s1 := Calling(s).st;
      var b := AfterRemoval(s.me.spec, s1.w.backend);
      if Calling(s).Ok? && b.Some? {
        RemovalTidies(s.me.spec, origin.status, s1.w.backend);
        ServingFine(s1, b.value, origin);
        QuietTransitive(s.w, s1.w, Serving(s1, b.value).st.w);
      }
      hide Calling, AfterRemoval, Quiet, Tidy;
    }
  }

  lemma RemovalTidies(spec: Spec, status: Status, b: Backend)
    requires AfterRemoval(spec, b).Some?
    ensures Tidy(spec, status, AfterRemoval(spec, b).value)
  {
    if spec.AccessSpec? {
      AccessRights.DeleteLeavesNone(b.access[spec.projectName], spec.references);
      hide AccessRights.AfterDelete, AccessRights.HoldsNone;
    }
  }

  lemma AbandonFine(s: St, origin: Obj)
    requires Ready(s, origin) && s.me.spec.MergeRequestSpec?
    ensures Fine(s, AbandonIfNew(s), origin)
    ensures AbandonIfNew(s).Ok? ==> Tidy(origin.spec, origin.status, AbandonIfNew(s).st.w.backend)
  {
    assert origin.spec.MergeRequestSpec? && IdOk(s.me, origin);
    hide Ready;
    CallingFine(s, origin);
    var s1 := Calling(s).st;
    if Calling(s).Ok? {
      CallingFine(s1, origin);
      var s2 := Calling(s1).st;
      QuietTransitive(s.w, s1.w, s2.w);
      if Calling(s1).Ok? {
        var b := s2.w.backend.(changes := s2.w.backend.changes[s1.me.status.changeId := CHANGE_ABANDONED]);
        ServingFine(s2, b, origin);
        QuietTransitive(s.w, s2.w, Serving(s2, b).st.w);
      }
    }
    hide Calling, Quiet;
  }

  /** Storing the finalizer is quiet; taking it away after a cleanup is a release that the log accepts. */
  lemma ReleaseSound(s: St, origin: Obj)
    requires WellFormed(s.w) && Of(s.w, s.me, origin)
    requires CleanedSinceBegin(s.w.book.log)
    requires Tidy(origin.spec, origin.status, s.w.backend)
    ensures Sound(s.w, Updating(s).st.w)
  {
    UpdateFacts(s.w, s.me, origin);
    CallQuiet(s.w);
    var v := Call(s.w).0;
    var works := Call(s.w).1.works;
    hide Call;
    if works && v.stored.Some? && v.stored.value.version == s.me.version {
      CurrentFacts(v, s.me, origin);
      NotedSound(v, v.stored.value, Overwritten(v.stored.value, s.me).finalizers);
      NotedSound(v, v.stored.value, []);
      hide Tidy, Of, Safe, CleanedSinceBegin;
    }
  }

  lemma NotedSound(w: World, before: Obj, after: seq<string>)
    requires Safe(w.book.log) ==> CleanedSinceBegin(w.book.log)
    requires Tidy(before.spec, before.status, w.backend)
    ensures Safe(w.book.log) ==> Safe(Noted(w, before, after).book.log)
    ensures w.book.log <= Noted(w, before, after).book.log
    ensures FinalizerOf(before.spec) in before.finalizers && FinalizerOf(before.spec) !in after ==>
              ReleasedSince(|w.book.log|, Noted(w, before, after).book.log, before.uid)
  {
    var log := Noted(w, before, after).book.log;
    if FinalizerOf(before.spec) in before.finalizers && FinalizerOf(before.spec) !in after {
      assert log[..|log| - 1] == w.book.log;
      assert log[|w.book.log|].Released? && log[|w.book.log|].uid == before.uid;
    }
  }

  lemma CleanedLogged(w: World)
    ensures Safe(w.book.log) ==> Safe(Logged(w, Cleaned).book.log)
    ensures CleanedSinceBegin(Logged(w, Cleaned).book.log)
  {
    var log := Logged(w, Cleaned).book.log;
    assert log[..|log| - 1] == w.book.log;
  }

  lemma QuietIsSound(w: World, v: World)
    requires Quiet(w, v)
    ensures Sound(w, v)
  {
  }

  lemma GuardSound(s: St, origin: Obj)
    requires Ready(s, origin)
    ensures Sound(s.w, Updating(s.(me := s.me.(finalizers := s.me.finalizers + [FinalizerOf(s.me.spec)]))).st.w)
  {
    var base :| base in s.w.history && base.version == s.me.version && base.finalizers == s.me.finalizers;
    var s1 := s.(me := s.me.(finalizers := s.me.finalizers + [FinalizerOf(s.me.spec)]));
    UpdatingFine(s1, origin, base);
    hide Updating, Of, Stems, Seen, WellFormed;
    QuietIsSound(s.w, Updating(s1).st.w);
  }

  lemma CleanUpSound(s: St, origin: Obj)
    requires Ready(s, origin) && s.me.deleting
    ensures Sound(s.w, TryToDelete(s).st.w)
  {
    var f := FinalizerOf(s.me.spec);
    CleanupFine(s, origin);
    var s1 := Cleanup(s).st;
    if Cleanup(s).Ok? {
      var s2 := s1.(w := Logged(s1.w, Cleaned));
      CleanedLogged(s1.w);
      assert Sound(s.w, s2.w);
      var s3 := s2.(me := s2.me.(finalizers := Without(s2.me.finalizers, f)));
      assert Of(s3.w, s3.me, origin);
      hide Cleanup, Updating, Logged, Safe, CleanedSinceBegin, Tidy, Ready, Of;
      ReleaseSound(s3, origin);
      SoundTransitive(s.w, s2.w, Updating(s3).st.w);
    }
  }

  lemma TryToDeleteSound(s: St, origin: Obj)
    requires Ready(s, origin)
    ensures Sound(s.w, TryToDelete(s).st.w)
  {
    if s.me.deleting {
      CleanUpSound(s, origin);
    } else {
      GuardSound(s, origin);
      QuietIsSound(s.w, s.w);
    }
    hide Cleanup, Updating, Ready, Sound;
  }

  // ---------- The reconcilers ----------

  /** Quiet steps followed by TryToDelete. */
  lemma ThenDelete(s: St, t: Try, origin: Obj)
    requires Fine(s, t, origin)
    ensures Sound(s.w, if t.Ok? then TryToDelete(t.st).st.w else t.st.w)
  {
    QuietIsSound(s.w, t.st.w);
    if t.Ok? {
      TryToDeleteSound(t.st, origin);
      SoundTransitive(s.w, t.st.w, TryToDelete(t.st).st.w);
    }
  }

  lemma FineTransitive(s: St, t: Try, u: Try, origin: Obj)
    requires Fine(s, t, origin) && t.Ok? && Fine(t.st, u, origin)
    ensures Fine(s, u, origin)
  {
    QuietTransitive(s.w, t.st.w, u.st.w);
  }

  lemma MemberSound(s: St, origin: Obj)
    requires Ready(s, origin) && s.me.spec.MemberSpec?
    ensures Sound(s.w, MemberTry(s).st.w)
  {
    hide Ready, EnsureOwner, Calling, Quiet, Sound, TryToDelete;
    var MemberSpec(g, a, _) := s.me.spec;
    var t1 := EnsureOwner(s);
    EnsureOwnerFine(s, origin);
    ThenDelete(s, t1, origin);
    if t1.Ok? {
      var t2 := Calling(t1.st);
      CallingFine(t1.st, origin);
      FineTransitive(s, t1, t2, origin);
      ThenDelete(s, t2, origin);
      if t2.Ok? {
        var b := t2.st.w.backend.(members := t2.st.w.backend.members + {(g, a)});
        var t3 := Serving(t2.st, b);
        ServingFine(t2.st, b, origin);
        FineTransitive(s, t2, t3, origin);
        ThenDelete(s, t3, origin);
      }
    }
  }

  lemma EnsureProjectFine(s: St, n: string, description: string, parent: string, origin: Obj)
    requires Ready(s, origin)
    ensures Fine(s, EnsureProject(s, n, description, parent), origin)
  {
    hide Ready, Calling, Quiet;
    var t1 := Calling(s);
    CallingFine(s, origin);
    if t1.Ok? {
      var t2 := Calling(t1.st);
      CallingFine(t1.st, origin);
      FineTransitive(s, t1, t2, origin);
      if t2.Ok? {
        var info := if n in t1.st.w.backend.projects then ProjectInfo(description, ParentOf(t2.st, n)) else ProjectInfo(description, parent);
        var b := t2.st.w.backend.(projects := t2.st.w.backend.projects[n := info]);
        var t3 := Serving(t2.st, b);
        ServingFine(t2.st, b, origin);
        FineTransitive(s, t2, t3, origin);
        var t4 := Calling(t3.st);
        CallingFine(t3.st, origin);
        FineTransitive(s, t3, t4, origin);
        if t4.Ok? {
          var c := t4.st.w.backend.(projects := t4.st.w.backend.projects[n := ProjectInfo(description, parent)]);
          ServingFine(t4.st, c, origin);
          FineTransitive(s, t4, Serving(t4.st, c), origin);
        }
      }
    }
  }

  lemma ProjectSound(s: St, origin: Obj)
    requires Ready(s, origin) && s.me.spec.ProjectSpec?
    ensures Sound(s.w, ProjectTry(s).st.w)
  {
    hide Ready, EnsureOwner, EnsureProject, Quiet, Sound, TryToDelete;
    var ProjectSpec(n, description, parent, _) := s.me.spec;
    var t1 := EnsureOwner(s);
    EnsureOwnerFine(s, origin);
    ThenDelete(s, t1, origin);
    if t1.Ok? {
      var t2 := EnsureProject(t1.st, n, description, parent);
      EnsureProjectFine(t1.st, n, description, parent, origin);
      FineTransitive(s, t1, t2, origin);
      ThenDelete(s, t2, origin);
    }
  }

  lemma GrantFine(s: St, p: string, l: seq<AccessRights.AccessInfo>, origin: Obj)
    requires Ready(s, origin)
    ensures Fine(s, GrantRights(s, p, l), origin)
  {
    var t1 := Calling(s);
    CallingFine(s, origin);
    if l != [] && t1.Ok? && p in t1.st.w.backend.access {
      var b := t1.st.w.backend.access[p];
      var r := if t1.st.me.status.created then AccessRights.AfterUpdate(b, l) else AccessRights.AfterAdd(b, l);
      var c := t1.st.w.backend.(access := t1.st.w.backend.access[p := r]);
      ServingFine(t1.st, c, origin);
      FineTransitive(s, t1, Serving(t1.st, c), origin);
    }
    hide Calling, AccessRights.AfterUpdate, AccessRights.AfterAdd;
  }

  lemma SetParentFine(s: St, p: string, parent: string, origin: Obj)
    requires Ready(s, origin)
    ensures Fine(s, SetParent(s, p, parent), origin)
  {
    var t1 := Calling(s);
    CallingFine(s, origin);
    if parent != "" && t1.Ok? {
      var c := t1.st.w.backend.(parents := t1.st.w.backend.parents[p := parent]);
      ServingFine(t1.st, c, origin);
      FineTransitive(s, t1, Serving(t1.st, c), origin);
    }
    hide Calling;
  }

  lemma AccessSound(s: St, origin: Obj)
    requires Ready(s, origin) && s.me.spec.AccessSpec?
    ensures Sound(s.w, AccessTry(s).st.w)
  {
    hide Ready, EnsureOwner, GrantRights, SetParent, Quiet, Sound, TryToDelete;
    var AccessSpec(p, parent, l, _) := s.me.spec;
    var t1 := EnsureOwner(s);
    EnsureOwnerFine(s, origin);
    ThenDelete(s, t1, origin);
    if t1.Ok? {
      var t2 := GrantRights(t1.st, p, l);
      GrantFine(t1.st, p, l, origin);
      FineTransitive(s, t1, t2, origin);
      ThenDelete(s, t2, origin);
      if t2.Ok? {
        var t3 := SetParent(t2.st, p, parent);
        SetParentFine(t2.st, p, parent, origin);
        FineTransitive(s, t2, t3, origin);
        ThenDelete(s, t3, origin);
      }
    }
  }

  lemma GitClientFine(s: St, origin: Obj)
    requires Ready(s, origin)
    ensures Fine(s, GitClient(s), origin) && GitClient(s).st.me == s.me
  {
    hide Ready, Calling, Quiet;
    var t1 := Calling(s);
    CallingFine(s, origin);
    if t1.Ok? {
      CallingFine(t1.st, origin);
      FineTransitive(s, t1, Calling(t1.st), origin);
    }
  }

  lemma PrepareCommitFine(s: St, origin: Obj)
    requires Ready(s, origin)
    ensures Fine(s, PrepareCommit(s), origin) && PrepareCommit(s).st.me == s.me
  {
    hide Ready, Calling, Quiet;
    var t1 := Calling(s);
    CallingFine(s, origin);
    if t1.Ok? {
      var t2 := Calling(t1.st);
      CallingFine(t1.st, origin);
      FineTransitive(s, t1, t2, origin);
      if t2.Ok? {
        CallingFine(t2.st, origin);
        FineTransitive(s, t2, Calling(t2.st), origin);
      }
    }
  }

  lemma PushedFine(s: St, id: string, origin: Obj)
    requires Ready(s, origin) && origin.status.changeId == ""
    ensures Fine(s, Ok(Pushed(s, id)), origin)
  {
  }

  lemma PushChangeFine(s: St, origin: Obj)
    requires Ready(s, origin) && origin.status.changeId == ""
    ensures Fine(s, PushChange(s), origin)
  {
    var (w, t) := Call(s.w);
    CallQuiet(s.w);
    ReadyGrows(s, w, origin);
    hide Ready, Call, PrepareCommit, Calling, Quiet;
    if t.works {
      var s1 := s.(w := w);
      var t1 := PrepareCommit(s1);
      PrepareCommitFine(s1, origin);
      FineTransitive(s, Ok(s1), t1, origin);
      if t1.Ok? {
        var t2 := Calling(t1.st);
        CallingFine(t1.st, origin);
        FineTransitive(s, t1, t2, origin);
        if t2.Ok? {
          PushedFine(t2.st, "I" + t.text, origin);
          FineTransitive(s, t2, Ok(Pushed(t2.st, "I" + t.text)), origin);
        }
      }
    }
  }

  lemma CreateChangeFine(s: St, origin: Obj)
    requires Ready(s, origin) && origin.status.changeId == ""
    ensures Fine(s, CreateChange(s), origin)
  {
    hide Ready, GitClient, Calling, PushThenRemoveClone, Quiet;
    var t1 := GitClient(s);
    GitClientFine(s, origin);
    if t1.Ok? {
      var t2 := Calling(t1.st);
      CallingFine(t1.st, origin);
      FineTransitive(s, t1, t2, origin);
      if t2.Ok? {
        PushThenRemoveFine(t2.st, origin);
        FineTransitive(s, t2, PushThenRemoveClone(t2.st), origin);
      }
    }
  }

  lemma PushThenRemoveFine(s: St, origin: Obj)
    requires Ready(s, origin) && origin.status.changeId == ""
    ensures Fine(s, PushThenRemoveClone(s), origin)
  {
    hide Ready, PushChange, Quiet;
    PushChangeFine(s, origin);
    RemovalQuiet(s, PushChange(s), origin);
    hide Remote;
  }

  /** Counting a failed removal of the clone is quiet. */
  lemma RemovalQuiet(s: St, t: Try, origin: Obj)
    requires Fine(s, t, origin)
    ensures var v := Remote(t.st.w).0;
            Quiet(s.w, v) && Quiet(s.w, v.(book := v.book.(dirsLost := v.book.dirsLost + 1)))
            && (t.Ok? ==> Ready(t.st.(w := v), origin))
  {
    CallQuiet(t.st.w);
    QuietTransitive(s.w, t.st.w, Call(t.st.w).0);
    if t.Ok? {
      ReadyGrows(t.st, Call(t.st.w).0, origin);
    }
    hide Call, Ready;
  }

  lemma RefreshValueFine(s: St, origin: Obj)
    requires Ready(s, origin)
    ensures Fine(s, RefreshValue(s), origin)
  {
    var t1 := EnsureOwner(s);
    EnsureOwnerFine(s, origin);
    if t1.Ok? {
      var t2 := Calling(t1.st);
      CallingFine(t1.st, origin);
      FineTransitive(s, t1, t2, origin);
      if t2.Ok? {
        StatusIsNoFact(t2.st, origin);
      }
    }
    hide EnsureOwner, Calling, Quiet, Ready;
  }

  lemma StatusIsNoFact(s: St, origin: Obj)
    requires Ready(s, origin)
    ensures forall v: string :: Ready(s.(me := s.me.(status := s.me.status.(value := v))), origin)
  {
  }

  lemma MergeSound(s: St, origin: Obj)
    requires Ready(s, origin) && s.me.spec.MergeRequestSpec? && s.me.status == origin.status
    ensures Sound(s.w, MergeTry(s).st.w)
  {
    hide CreateChange, RefreshValue, TryToDelete, Sound, Quiet;
    var MergeRequestSpec(_, sourceBranch, changesConfigMap, _) := s.me.spec;
    if s.me.status.changeId == "" {
      if sourceBranch == "" && changesConfigMap == "" {
        assert Sound(s.w, s.w) by { QuietReflexive(s.w); QuietIsSound(s.w, s.w); }
      } else {
        CreateChangeFine(s, origin);
        ThenDelete(s, CreateChange(s), origin);
      }
    } else {
      RefreshValueFine(s, origin);
      ThenDelete(s, RefreshValue(s), origin);
    }
  }

  lemma QuietReflexive(w: World)
    requires WellFormed(w)
    ensures Quiet(w, w)
  {
  }

  lemma FinishSound(w: World, me: Obj, status: Status)
    requires WellFormed(w)
    ensures Sound(w, Finish(w, me, status))
  {
    CallQuiet(w);
    var v := Call(w).0;
    var works := Call(w).1.works;
    hide Call;
    if works && v.stored.Some? && v.stored.value.version == me.version {
      var cur := v.stored.value;
      PutKeeps(v, cur, cur.(status := status));
      hide Put;
    }
  }

  lemma BeginSound(w: World)
    requires WellFormed(w)
    ensures Sound(w, Logged(w, Begin))
  {
    var log := Logged(w, Begin).book.log;
    assert log[..|log| - 1] == w.book.log;
  }

  /** What a read returns is a state the object once had. */
  lemma GetFacts(w: World)
    requires WellFormed(w)
    ensures var (v, r) := ApiGet(w); Quiet(w, v) && (r.Answer? ==> r.obj in v.history && Ready(St(v, r.obj), r.obj))
  {
    CallQuiet(w);
    hide Call;
  }

  lemma ReconcileSound(w: World, k: Kind)
    requires WellFormed(w)
    ensures Sound(w, Reconcile(w, k))
  {
    hide ApiGet, Logged, Sound, Ready, Finish, MemberTry, ProjectTry, AccessTry, MergeTry, Quiet, StatusOf, WellFormed;
    BeginSound(w);
    var w0 := Logged(w, Begin);
    SoundIsWellFormed(w, w0);
    GetFacts(w0);
    var (w1, r) := ApiGet(w0);
    QuietIsSound(w0, w1);
    SoundTransitive(w, w0, w1);
    if r.Answer? && IsKind(r.obj.spec, k) {
      var s := St(w1, r.obj);
      match k {
        case Member => MemberSound(s, r.obj);
        case Project => ProjectSound(s, r.obj);
        case Access => AccessSound(s, r.obj);
        case MergeRequest => MergeSound(s, r.obj);
      }
      var t := TryOf(k, s);
      SoundTransitive(w, w1, t.st.w);
      SoundIsWellFormed(w, t.st.w);
      FinishSound(t.st.w, t.st.me, StatusOf(k, t));
      var v := Finish(t.st.w, t.st.me, StatusOf(k, t));
      SoundTransitive(w, t.st.w, v);
      CountedSound(w, v, t.Ok?);
    }
  }

  lemma SoundIsWellFormed(w: World, v: World)
    requires Sound(w, v)
    ensures WellFormed(v)
  {
  }

  lemma CountedSound(w: World, v: World, ok: bool)
    requires Sound(w, v)
    ensures Sound(w, Counted(v, ok))
  {
  }

  // ---------- Main results ----------

  lemma {:induction false} RunSound(w: World, moves: seq<Move>)
    requires WellFormed(w)
    ensures Sound(w, Run(w, moves))
  {
    hide Reconcile, Sound, Quiet, WellFormed;
    QuietReflexive(w);
    QuietIsSound(w, w);
    if moves != [] {
      var v := Run(w, moves[..|moves| - 1]);
      RunSound(w, moves[..|moves| - 1]);
      SoundIsWellFormed(w, v);
      match moves[|moves| - 1]
      case Work(k) =>
        ReconcileSound(v, k);
        SoundTransitive(w, v, Reconcile(v, k));
      case Others(steps) =>
        ActSound(v, steps);
        SoundTransitive(w, v, Act(v, steps));
    }
  }

  lemma ActSound(v: World, steps: seq<Step>)
    requires WellFormed(v)
    ensures Sound(v, Act(v, steps))
  {
    ActKeeps(v, steps);
    hide Act;
  }

  /** In every run each release follows a cleanup of the same reconcile and leaves nothing behind. */
  lemma CleanedBeforeReleased(w: World, moves: seq<Move>)
    requires WellFormed(w) && w.book.log == []
    ensures var log := Run(w, moves).book.log;
            forall i | 0 <= i < |log| && log[i].Released? ::
              log[i].tidy && exists j: nat :: j < i && log[j] == Cleaned && forall k | j < k < i :: log[k] != Begin
  {
    hide Run;
    RunSound(w, moves);
    SafeMeans(Run(w, moves).book.log);
  }

  /** An object that carried its finalizer and no longer does (or is gone) left its own release in the log. */
  lemma NoSilentDeparture(w: World, moves: seq<Move>, u: nat)
    requires WellFormed(w) && Guarded(w, u)
    requires !Guarded(Run(w, moves), u)
    ensures var log := Run(w, moves).book.log;
            exists i :: |w.book.log| <= i < |log| && log[i].Released? && log[i].uid == u
  {
    hide Run;
    RunSound(w, moves);
    assert ReleasedSince(|w.book.log|, Run(w, moves).book.log, u);
  }
}
