/**
 The calls that an attempt makes: it uses up turns from the front of the script, and it succeeds only if every one of
 them worked.
 */
module UsedTurns {
  import AccessRights
  import opened Cluster
  import opened Helper
  import opened Controllers

  /** Some turns of w's script were used up, and all of them worked if this is claimed. */
  predicate Used(w: World, v: World, worked: bool) {
    && |v.script| <= |w.script| && v.script == w.script[|w.script| - |v.script|..]
    && (worked ==> forall i | 0 <= i < |w.script| - |v.script| :: w.script[i].works)
  }

  /** For a step that may fail. */
  predicate Tried(s: St, t: Try) {
    Used(s.w, t.st.w, t.Ok?)
  }

  lemma UsedTransitive(w: World, v: World, x: World, worked: bool, then_: bool)
    requires Used(w, v, worked) && Used(v, x, then_)
    ensures Used(w, x, worked && then_)
  {
    var j := |w.script| - |v.script|;
    forall i | 0 <= i < |w.script| - |x.script| && worked && then_ ensures w.script[i].works {
      if i >= j {
        assert v.script[i - j] == w.script[i];
      }
    }
  }

  lemma TriedTransitive(s: St, t: Try, u: Try)
    requires Tried(s, t) && t.Ok? && Tried(t.st, u)
    ensures Tried(s, u)
  {
    UsedTransitive(s.w, t.st.w, u.st.w, true, u.Ok?);
    hide Used;
  }

  lemma CallUsed(w: World)
    ensures Used(w, Call(w).0, Call(w).1.works)
  {
    CallSpends(w);
    assert w.script != [] ==> Call(w).1 == w.script[0];
    hide Call;
  }

  lemma CallingTried(s: St)
    ensures Tried(s, Calling(s))
  {
    CallUsed(s.w);
    hide Call, Used;
  }

  lemma UpdatingTried(s: St)
    ensures Tried(s, Updating(s))
  {
    CallUsed(s.w);
    var (w1, t) := Call(s.w);
    hide Call, Used, Tidy;
    assert Used(s.w, w1, t.works);
    UsedAnyway(s.w, w1, t.works);
    assert Updating(s).st.w.script == w1.script;
    SameScript(s.w, w1, Updating(s).st.w, Updating(s).Ok?);
  }

  lemma UsedAnyway(w: World, v: World, worked: bool)
    requires Used(w, v, worked)
    ensures Used(w, v, false)
  {
  }

  lemma SameScript(w: World, v: World, x: World, worked: bool)
    requires Used(w, v, worked) && x.script == v.script
    ensures Used(w, x, worked)
  {
  }

  lemma NothingTried(s: St)
    ensures Tried(s, Ok(s)) && Tried(s, Err(s))
  {
  }

  lemma ResolveTried(s: St)
    ensures Tried(s, ResolveOwner(s))
  {
    hide Calling, Tried, GerritOwner, Named;
    NothingTried(s);
    CallingTried(s);
    if Calling(s).Ok? {
      var t := Calling(s).st;
      CallingTried(t);
      NothingTried(t);
      TriedTransitive(s, Calling(s), Calling(t));
      TriedTransitive(s, Calling(s), Err(t));
    }
  }

  lemma EnsureOwnerTried(s: St)
    ensures Tried(s, EnsureOwner(s))
  {
    hide Calling, Updating, ResolveOwner, GerritInstance, Tried;
    ResolveTried(s);
    CallingTried(s);
    if s.me.owners == [] && Calling(s).Ok? {
      var t := Calling(s).st;
      NothingTried(t);
      TriedTransitive(s, Calling(s), Err(t));
      var g := GerritInstance(t.w.gerrits, OwnerName(t.me.spec));
      if g.Some? {
        var u := t.(me := t.me.(owners := [Owner("Gerrit", g.value.name, g.value.uid)]));
        UpdatingTried(u);
        assert Tried(t, Updating(u)) by { SameStart(t, u, Updating(u)); }
        TriedTransitive(s, Calling(s), Updating(u));
        if Updating(u).Ok? {
          ResolveTried(Updating(u).st);
          TriedTransitive(s, Updating(u), ResolveOwner(Updating(u).st));
        }
      }
    }
  }

  /** The copy plays no role. */
  lemma SameStart(s: St, u: St, t: Try)
    requires u.w.script == s.w.script && Tried(u, t)
    ensures Tried(s, t)
  {
  }

  lemma AbandonTried(s: St)
    ensures Tried(s, AbandonIfNew(s))
  {
    hide Calling, Tried;
    CallingTried(s);
    if Calling(s).Ok? {
      var t := Calling(s).st;
      NothingTried(t);
      TriedTransitive(s, Calling(s), Ok(t));
      TriedTransitive(s, Calling(s), Err(t));
      CallingTried(t);
      TriedTransitive(s, Calling(s), Calling(t));
      if Calling(t).Ok? {
        ServingTried(s, Calling(t));
      }
    }
  }

  /** Requests to Gerrit take effect with the call they belong to. */
  lemma ServingTried(s: St, t: Try)
    requires Tried(s, t) && t.Ok?
    ensures forall b {:trigger Serving(t.st, b)} :: Tried(s, Serving(t.st, b))
  {
  }

  lemma CleanupTried(s: St)
    ensures Tried(s, Cleanup(s))
  {
    hide Calling, EnsureOwner, AbandonIfNew, Tried, AfterRemoval;
    if s.me.spec.MergeRequestSpec? {
      EnsureOwnerTried(s);
      if EnsureOwner(s).Ok? {
        AbandonTried(EnsureOwner(s).st);
        TriedTransitive(s, EnsureOwner(s), AbandonIfNew(EnsureOwner(s).st));
      }
    } else {
      CallingTried(s);
      if Calling(s).Ok? {
        NothingTried(Calling(s).st);
        TriedTransitive(s, Calling(s), Err(Calling(s).st));
        ServingTried(s, Calling(s));
      }
    }
  }

  lemma TryToDeleteTried(s: St)
    ensures Tried(s, TryToDelete(s))
  {
    hide Cleanup, Updating, Tried, Without;
    var f := FinalizerOf(s.me.spec);
    NothingTried(s);
    if !s.me.deleting {
      var u := s.(me := s.me.(finalizers := s.me.finalizers + [f]));
      UpdatingTried(u);
      SameStart(s, u, Updating(u));
    } else {
      CleanupTried(s);
      if Cleanup(s).Ok? {
        var c := Cleanup(s).st;
        var u := St(Logged(c.w, Cleaned), c.me.(finalizers := Without(c.me.finalizers, f)));
        UpdatingTried(u);
        SameStart(c, u, Updating(u));
        TriedTransitive(s, Cleanup(s), Updating(u));
      }
    }
  }

  lemma ThenTried(s: St, t: Try)
    requires Tried(s, t)
    ensures t.Ok? ==> Tried(s, TryToDelete(t.st))
  {
    hide TryToDelete, Tried;
    if t.Ok? {
      TryToDeleteTried(t.st);
      TriedTransitive(s, t, TryToDelete(t.st));
    }
  }

  lemma MemberTried(s: St)
    ensures Tried(s, MemberTry(s))
  {
    hide EnsureOwner, Calling, TryToDelete, Tried;
    NothingTried(s);
    EnsureOwnerTried(s);
    if EnsureOwner(s).Ok? && s.me.spec.MemberSpec? {
      var t := EnsureOwner(s).st;
      CallingTried(t);
      TriedTransitive(s, EnsureOwner(s), Calling(t));
      if Calling(t).Ok? {
        var u := Calling(t).st;
        ServingTried(s, Calling(t));
        ThenTried(s, Serving(u, u.w.backend.(members := u.w.backend.members + {(s.me.spec.groupId, s.me.spec.accountId)})));
      }
    }
  }

  lemma EnsureProjectTried(s: St, n: string, description: string, parent: string)
    ensures Tried(s, EnsureProject(s, n, description, parent))
  {
    hide Calling, Tried, ParentOf;
    CallingTried(s);
    if Calling(s).Ok? {
      var t := Calling(s).st;
      CallingTried(t);
      TriedTransitive(s, Calling(s), Calling(t));
      if Calling(t).Ok? {
        var u := Calling(t).st;
        ServingTried(s, Calling(t));
        var b := u.w.backend.(projects := u.w.backend.projects[n := ProjectInfo(description, ParentOf(u, n))]);
        var v := Serving(u, b);
        CallingTried(v.st);
        TriedTransitive(s, v, Calling(v.st));
        if Calling(v.st).Ok? {
          ServingTried(s, Calling(v.st));
        }
      }
    }
  }

  lemma ProjectTried(s: St)
    ensures Tried(s, ProjectTry(s))
  {
    hide EnsureOwner, EnsureProject, TryToDelete, Tried;
    NothingTried(s);
    EnsureOwnerTried(s);
    if EnsureOwner(s).Ok? && s.me.spec.ProjectSpec? {
      var ProjectSpec(n, description, parent, _) := s.me.spec;
      var t := EnsureOwner(s).st;
      EnsureProjectTried(t, n, description, parent);
      TriedTransitive(s, EnsureOwner(s), EnsureProject(t, n, description, parent));
      ThenTried(s, EnsureProject(t, n, description, parent));
    }
  }

  lemma GrantTried(s: St, p: string, l: seq<AccessRights.AccessInfo>)
    ensures Tried(s, GrantRights(s, p, l))
  {
    hide Calling, Tried, AccessRights.AfterAdd, AccessRights.AfterUpdate;
    NothingTried(s);
    CallingTried(s);
    if Calling(s).Ok? {
      NothingTried(Calling(s).st);
      TriedTransitive(s, Calling(s), Err(Calling(s).st));
      ServingTried(s, Calling(s));
    }
  }

  lemma SetParentTried(s: St, p: string, parent: string)
    ensures Tried(s, SetParent(s, p, parent))
  {
    hide Calling, Tried;
    NothingTried(s);
    CallingTried(s);
    if Calling(s).Ok? {
      NothingTried(Calling(s).st);
      TriedTransitive(s, Calling(s), Err(Calling(s).st));
      ServingTried(s, Calling(s));
    }
  }

  lemma AccessTried(s: St)
    ensures Tried(s, AccessTry(s))
  {
    hide EnsureOwner, GrantRights, SetParent, TryToDelete, Tried;
    NothingTried(s);
    EnsureOwnerTried(s);
    if EnsureOwner(s).Ok? && s.me.spec.AccessSpec? {
      var AccessSpec(p, parent, l, _) := s.me.spec;
      var t := EnsureOwner(s).st;
      GrantTried(t, p, l);
      TriedTransitive(s, EnsureOwner(s), GrantRights(t, p, l));
      if GrantRights(t, p, l).Ok? {
        var u := GrantRights(t, p, l);
        SetParentTried(u.st, p, parent);
        TriedTransitive(s, u, SetParent(u.st, p, parent));
        ThenTried(s, SetParent(u.st, p, parent));
      }
    }
  }

  // ---------- Merge requests ----------

  lemma GitClientTried(s: St)
    ensures Tried(s, GitClient(s))
  {
    hide Calling, Tried, Named;
    CallingTried(s);
    if Calling(s).Ok? {
      var t := Calling(s).st;
      NothingTried(t);
      TriedTransitive(s, Calling(s), Err(t));
      CallingTried(t);
      TriedTransitive(s, Calling(s), Calling(t));
    }
  }

  lemma PrepareTried(s: St)
    ensures Tried(s, PrepareCommit(s))
  {
    hide Calling, Tried;
    CallingTried(s);
    if Calling(s).Ok? {
      var t := Calling(s).st;
      CallingTried(t);
      TriedTransitive(s, Calling(s), Calling(t));
      if Calling(t).Ok? {
        CallingTried(Calling(t).st);
        TriedTransitive(s, Calling(t), Calling(Calling(t).st));
      }
    }
  }

  lemma PushTried(s: St)
    ensures Tried(s, PushChange(s))
  {
    CallingTried(s);
    assert Calling(s).st.w == Call(s.w).0 && (Calling(s).Ok? <==> Call(s.w).1.works);
    hide Calling, Call, Tried, PrepareCommit, Pushed;
    if Calling(s).Ok? {
      var t := Calling(s).st;
      PrepareTried(t);
      TriedTransitive(s, Calling(s), PrepareCommit(t));
      if PrepareCommit(t).Ok? {
        var u := PrepareCommit(t).st;
        CallingTried(u);
        TriedTransitive(s, PrepareCommit(t), Calling(u));
        if Calling(u).Ok? {
          PushedTried(s, Calling(u), "I" + Call(s.w).1.text);
        }
      }
    }
  }

  lemma PushedTried(s: St, t: Try, id: string)
    requires Tried(s, t) && t.Ok?
    ensures Tried(s, Ok(Pushed(t.st, id)))
  {
  }

  lemma RemoveCloneTried(s: St)
    ensures Tried(s, PushThenRemoveClone(s))
  {
    hide PushChange, Call;
    PushTried(s);
    var t := PushChange(s);
    CallUsed(t.st.w);
    var (w, x) := Call(t.st.w);
    UsedTransitive(s.w, t.st.w, w, t.Ok?, x.works);
    UsedAnyway(s.w, w, t.Ok? && x.works);
    hide Used;
    SameScript(s.w, w, PushThenRemoveClone(s).st.w, PushThenRemoveClone(s).Ok?);
  }

  lemma CreateTried(s: St)
    ensures Tried(s, CreateChange(s))
  {
    hide GitClient, Calling, PushThenRemoveClone, Tried;
    GitClientTried(s);
    if GitClient(s).Ok? {
      var t := GitClient(s).st;
      CallingTried(t);
      TriedTransitive(s, GitClient(s), Calling(t));
      if Calling(t).Ok? {
        RemoveCloneTried(Calling(t).st);
        TriedTransitive(s, Calling(t), PushThenRemoveClone(Calling(t).st));
      }
    }
  }

  lemma RefreshTried(s: St)
    ensures Tried(s, RefreshValue(s))
  {
    hide EnsureOwner, Calling, Tried;
    EnsureOwnerTried(s);
    if EnsureOwner(s).Ok? {
      var t := EnsureOwner(s).st;
      CallingTried(t);
      TriedTransitive(s, EnsureOwner(s), Calling(t));
      if Calling(t).Ok? {
        SameOutcome(s, Calling(t), RefreshValue(s));
      }
    }
  }

  lemma SameOutcome(s: St, t: Try, u: Try)
    requires Tried(s, t) && t.Ok? && u.st.w.script == t.st.w.script
    ensures Tried(s, u)
  {
  }

  lemma KeepingTried(s: St, t: Try)
    requires Tried(s, t) && t.Ok?
    ensures Tried(s, DeleteKeepingStatus(t.st))
  {
    hide TryToDelete, Tried;
    ThenTried(s, t);
    var u := TryToDelete(t.st);
    if u.Ok? {
      SameOutcome(s, u, DeleteKeepingStatus(t.st));
    }
  }

  lemma MergeTried(s: St)
    ensures Tried(s, MergeTry(s))
  {
    hide CreateChange, RefreshValue, DeleteKeepingStatus, Tried;
    NothingTried(s);
    CreateTried(s);
    RefreshTried(s);
    if CreateChange(s).Ok? {
      KeepingTried(s, CreateChange(s));
    }
    if RefreshValue(s).Ok? {
      KeepingTried(s, RefreshValue(s));
    }
  }

  // ---------- Whole reconciles ----------

  /** Every attempt: turns are used up from the front, and success means that all of them worked. */
  lemma AttemptTried(k: Kind, s: St)
    ensures Tried(s, TryOf(k, s))
  {
    hide MemberTry, ProjectTry, AccessTry, MergeTry, Tried;
    match k
    case Member => MemberTried(s);
    case Project => ProjectTried(s);
    case Access => AccessTried(s);
    case MergeRequest => MergeTried(s);
  }

  lemma ReadUsed(w: World)
    ensures var (v, r) := ApiGet(Logged(w, Begin)); Used(w, v, r.Answer?)
  {
    CallUsed(Logged(w, Begin));
    hide Call;
  }

  lemma FinishUsed(w: World, me: Obj, status: Status)
    ensures var v := Finish(w, me, status);
            Used(w, v, false) && |v.script| == (if w.script == [] then 0 else |w.script| - 1)
  {
    CallUsed(w);
    CallSpends(w);
    FinishScript(w, me, status);
    hide Call, Finish, Used;
    UsedAnyway(w, Call(w).0, Call(w).1.works);
    SameScript(w, Call(w).0, Finish(w, me, status), false);
  }

  lemma FinishScript(w: World, me: Obj, status: Status)
    ensures Finish(w, me, status).script == Call(w).0.script
  {
    hide Call, Tidy;
  }

  lemma ReconcileUsed(w: World, k: Kind)
    ensures Used(w, Reconcile(w, k), false)
  {
    hide ApiGet, TryOf, StatusOf, Finish, Used, Tried;
    ReadUsed(w);
    var (w1, r) := ApiGet(Logged(w, Begin));
    UsedAnyway(w, w1, r.Answer?);
    if r.Answer? && IsKind(r.obj.spec, k) {
      var s := St(w1, r.obj);
      var t := TryOf(k, s);
      AttemptTried(k, s);
      TriedIsUsed(s, t);
      UsedTransitive(w, w1, t.st.w, false, false);
      FinishUsed(t.st.w, t.st.me, StatusOf(k, t));
      UsedTransitive(w, t.st.w, Finish(t.st.w, t.st.me, StatusOf(k, t)), false, false);
      SameScript(w, Finish(t.st.w, t.st.me, StatusOf(k, t)), Reconcile(w, k), false);
    }
  }

  lemma TriedIsUsed(s: St, t: Try)
    requires Tried(s, t)
    ensures Used(s.w, t.st.w, false)
  {
    UsedAnyway(s.w, t.st.w, t.Ok?);
    hide Used;
  }

  lemma {:induction false} RunUsed(w: World, moves: seq<Move>)
    ensures Used(w, Run(w, moves), false)
  {
    hide Reconcile, Used, Act;
    if moves == [] {
      UsedSelf(w);
    } else {
      var v := Run(w, moves[..|moves| - 1]);
      RunUsed(w, moves[..|moves| - 1]);
      match moves[|moves| - 1]
      case Work(k) =>
        ReconcileUsed(v, k);
        UsedTransitive(w, v, Reconcile(v, k), false, false);
      case Others(steps) =>
        ActSpends(v, steps);
        SameScript(w, v, Act(v, steps), false);
    }
  }

  lemma UsedSelf(w: World)
    ensures Used(w, w, false)
  {
  }
}
