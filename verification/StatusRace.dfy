/**
 Two writers of one status: the project reconciler writes `value`, the project syncer writes `branches`, each
 from its own copy, interleaved call by call and with everybody else. Neither loses what the other wrote.
 */
module StatusRace {
  import opened Common
  import opened Cluster
  import opened Helper
  import opened Invariants
  import opened Controllers

  /** The stored status shows the last successful write of each writer. */
  ghost predicate ShowsLastWrites(w: World) {
    WellFormed(w)
    && (w.stored.Some? ==>
          w.stored.value.status.value == w.book.lastValue && w.stored.value.status.branches == w.book.lastBranches)
  }

  /** There is no third status writer. */
  predicate NoThirdWriter(s: Step) {
    !s.ForeignStatus?
  }

  lemma TakeShows(w: World, s: Step)
    requires ShowsLastWrites(w) && NoThirdWriter(s)
    ensures ShowsLastWrites(Take(w, s))
  {
    TakeKeeps(w, s);
  }

  lemma ShowsIsClosed()
    ensures Closed(ShowsLastWrites, NoThirdWriter)
  {
    forall w, s | ShowsLastWrites(w) && NoThirdWriter(s) ensures ShowsLastWrites(Take(w, s)) { TakeShows(w, s); }
    forall w, a, b | ShowsLastWrites(w) && w.stored == Some(a) && PlainWrite(a, b) ensures ShowsLastWrites(Put(w, a, b)) {
      PutWellFormed(w, a, b);
    }
    hide Take, Put;
  }

  ghost function Inv(): World -> bool {
    Promised(ShowsLastWrites, NoThirdWriter)
  }

  lemma EnsureProjectCarries(s: St, n: string, description: string, parent: string, origin: Obj)
    requires Stable(Inv()) && Inv()(s.w) && Of(s.w, s.me, origin)
    ensures Carried(Inv(), s, EnsureProject(s, n, description, parent).st, origin)
  {
    hide Calling, Of, Stable, Inv;
    var inv := Inv();
    var t1 := Calling(s);
    CallingCarries(inv, s, origin);
    if t1.Ok? {
      var t2 := Calling(t1.st);
      CallingCarries(inv, t1.st, origin);
      CarriedTransitive(inv, s, t1.st, t2.st, origin);
      if t2.Ok? {
        var info := if n in t1.st.w.backend.projects then ProjectInfo(description, ParentOf(t2.st, n)) else ProjectInfo(description, parent);
        var b := t2.st.w.backend.(projects := t2.st.w.backend.projects[n := info]);
        var t3 := Serving(t2.st, b);
        ServingCarries(inv, t2.st, b, origin);
        CarriedTransitive(inv, s, t2.st, t3.st, origin);
        var t4 := Calling(t3.st);
        CallingCarries(inv, t3.st, origin);
        CarriedTransitive(inv, s, t3.st, t4.st, origin);
        if t4.Ok? {
          var c := t4.st.w.backend.(projects := t4.st.w.backend.projects[n := ProjectInfo(description, parent)]);
          ServingCarries(inv, t4.st, c, origin);
          CarriedTransitive(inv, s, t4.st, Serving(t4.st, c).st, origin);
        }
      }
    }
  }

  lemma ProjectTryCarries(s: St, origin: Obj)
    requires Stable(Inv()) && Inv()(s.w) && Of(s.w, s.me, origin) && s.me.spec.ProjectSpec?
    ensures Carried(Inv(), s, ProjectTry(s).st, origin)
  {
    hide EnsureOwner, EnsureProject, TryToDelete, Of, Stable, Inv;
    var inv := Inv();
    var ProjectSpec(n, description, parent, _) := s.me.spec;
    var t1 := EnsureOwner(s);
    EnsureOwnerCarries(inv, s, origin);
    if t1.Ok? {
      var t2 := EnsureProject(t1.st, n, description, parent);
      EnsureProjectCarries(t1.st, n, description, parent, origin);
      CarriedTransitive(inv, s, t1.st, t2.st, origin);
      if t2.Ok? {
        TryToDeleteCarries(inv, t2.st, origin);
        CarriedTransitive(inv, s, t2.st, TryToDelete(t2.st).st, origin);
      }
    }
  }

  /** A status write from a copy that differs from its origin in `value` only. */
  lemma FinishShows(w: World, me: Obj, v: string, origin: Obj)
    requires Inv()(w) && Of(w, me, origin) && me.status == origin.status
    ensures Inv()(Finish(w, me, me.status.(value := v)))
  {
    ShowsIsClosed();
    CallPromised(ShowsLastWrites, NoThirdWriter, w);
    FinishCases(w, me, me.status.(value := v), origin);
    hide Call, Finish, Of, WellFormed, Closed;
  }

  lemma ReconcileShows(w: World)
    requires Inv()(w)
    ensures Inv()(Reconcile(w, Project))
  {
    ShowsIsClosed();
    ClosedIsStable(ShowsLastWrites, NoThirdWriter);
    var w0 := Logged(w, Begin);
    GetCarries(Inv(), w0);
    var (w1, r) := ApiGet(w0);
    if r.Answer? && r.obj.spec.ProjectSpec? {
      var s := St(w1, r.obj);
      hide ApiGet, Finish, ProjectTry, Closed, Stable, Of;
      ProjectTryCarries(s, r.obj);
      var t := ProjectTry(s);
      FinishShows(t.st.w, t.st.me, if t.Ok? then STATUS_OK else ERROR_TEXT, r.obj);
      CountingIsUnseen(Finish(t.st.w, t.st.me, PlainStatus(t)), t.Ok?);
      hide Inv, Logged;
    }
  }

  lemma CountingIsUnseen(w: World, ok: bool)
    requires Promised(ShowsLastWrites, NoThirdWriter)(w)
    ensures Promised(ShowsLastWrites, NoThirdWriter)(Counted(w, ok))
  {
    assert ShowsLastWrites(w);
    BookIsUnseen(w);
    assert ShowsLastWrites(Counted(w, ok));
  }

  predicate AllowedMove(m: Move) {
    match m
    case Work(k) => k == Project
    case Others(steps) => forall s | s in steps :: NoThirdWriter(s)
  }

  /** In every interleaving the status shows the last successful write of the reconciler and of the syncer. */
  lemma {:induction false} NoWriteIsLost(w: World, moves: seq<Move>)
    requires ShowsLastWrites(w) && Only(w.script, NoThirdWriter)
    requires forall m | m in moves :: AllowedMove(m)
    ensures ShowsLastWrites(Run(w, moves)) && Only(Run(w, moves).script, NoThirdWriter)
  {
    if moves != [] {
      var init, last := moves[..|moves| - 1], moves[|moves| - 1];
      NoWriteIsLost(w, init);
      var v := Run(w, init);
      assert Inv()(v);
      assert AllowedMove(last);
      hide Reconcile, ShowsLastWrites, Only;
      match last
      case Work(k) => ReconcileShows(v);
      case Others(steps) =>
        ShowsIsClosed();
        ActPromised(ShowsLastWrites, NoThirdWriter, v, steps);
    }
  }
}
