/**
 The failure count of a group member (controllers/gerritgroupmember/controller.go, controllers/helper/status.go):
 as long as status writes succeed, the stored count is the number of failed attempts since the last success.
 */
module FailureStreak {
  import opened Common
  import opened BackOff
  import opened Cluster
  import opened Helper
  import opened Invariants
  import opened Controllers

  ghost predicate CountsFailures(w: World) {
    WellFormed(w)
    && (w.book.statusLost == 0 && w.stored.Some? && w.book.streak < TWO_63 ==> w.stored.value.status.failureCount == w.book.streak)
  }

  predicate NoOtherWriter(s: Step) {
    !s.ForeignStatus?
  }

  lemma TakeCounts(w: World, s: Step)
    requires CountsFailures(w) && NoOtherWriter(s)
    ensures CountsFailures(Take(w, s))
  {
    TakeKeeps(w, s);
  }

  lemma CountsIsClosed()
    ensures Closed(CountsFailures, NoOtherWriter)
  {
    forall w, s | CountsFailures(w) && NoOtherWriter(s) ensures CountsFailures(Take(w, s)) { TakeCounts(w, s); }
    forall w, a, b | CountsFailures(w) && w.stored == Some(a) && PlainWrite(a, b) ensures CountsFailures(Put(w, a, b)) {
      PutWellFormed(w, a, b);
    }
    hide Take, Put;
  }

  ghost function Inv(): World -> bool {
    Promised(CountsFailures, NoOtherWriter)
  }

  lemma MemberTryCarries(s: St, origin: Obj)
    requires Stable(Inv()) && Inv()(s.w) && Of(s.w, s.me, origin) && s.me.spec.MemberSpec?
    ensures Carried(Inv(), s, MemberTry(s).st, origin)
  {
    hide EnsureOwner, Calling, TryToDelete, Of, Stable, Inv;
    var inv := Inv();
    var MemberSpec(g, a, _) := s.me.spec;
    var t1 := EnsureOwner(s);
    EnsureOwnerCarries(inv, s, origin);
    if t1.Ok? {
      var t2 := Calling(t1.st);
      CallingCarries(inv, t1.st, origin);
      CarriedTransitive(inv, s, t1.st, t2.st, origin);
      if t2.Ok? {
        var b := t2.st.w.backend.(members := t2.st.w.backend.members + {(g, a)});
        var t3 := Serving(t2.st, b);
        ServingCarries(inv, t2.st, b, origin);
        CarriedTransitive(inv, s, t2.st, t3.st, origin);
        TryToDeleteCarries(inv, t3.st, origin);
        CarriedTransitive(inv, s, t3.st, TryToDelete(t3.st).st, origin);
      }
    }
  }

  /** The status write together with the count it stands for. */
  lemma FinishCounts(w: World, t: Try, origin: Obj)
    requires w == t.st.w && Inv()(w) && Of(w, t.st.me, origin) && t.st.me.status == origin.status
    ensures Inv()(Counted(Finish(w, t.st.me, MemberStatus(t)), t.Ok?))
  {
    CountsIsClosed();
    CallPromised(CountsFailures, NoOtherWriter, w);
    FinishCases(w, t.st.me, MemberStatus(t), origin);
    CountingIsLawful(Finish(w, t.st.me, MemberStatus(t)), t.Ok?);
    hide Call, Finish, Of, WellFormed, Closed;
  }

  lemma CountingIsLawful(w: World, ok: bool)
    requires WellFormed(w)
    ensures WellFormed(Counted(w, ok))
  {
  }

  lemma ReconcileCounts(w: World)
    requires Inv()(w)
    ensures Inv()(Reconcile(w, Member))
  {
    CountsIsClosed();
    ClosedIsStable(CountsFailures, NoOtherWriter);
    var w0 := Logged(w, Begin);
    GetCarries(Inv(), w0);
    var (w1, r) := ApiGet(w0);
    if r.Answer? && r.obj.spec.MemberSpec? {
      var s := St(w1, r.obj);
      hide ApiGet, Finish, MemberTry, Closed, Stable, Of;
      MemberTryCarries(s, r.obj);
      FinishCounts(MemberTry(s).st.w, MemberTry(s), r.obj);
      hide Inv, Logged;
    }
  }

  predicate AllowedMove(m: Move) {
    match m
    case Work(k) => k == Member
    case Others(steps) => forall s | s in steps :: NoOtherWriter(s)
  }

  /** In every run without a lost status write the stored count is the streak of failures. */
  lemma {:induction false} StoredCountIsTheStreak(w: World, moves: seq<Move>)
    requires CountsFailures(w) && Only(w.script, NoOtherWriter)
    requires forall m | m in moves :: AllowedMove(m)
    ensures CountsFailures(Run(w, moves)) && Only(Run(w, moves).script, NoOtherWriter)
  {
    if moves != [] {
      var init, last := moves[..|moves| - 1], moves[|moves| - 1];
      StoredCountIsTheStreak(w, init);
      var v := Run(w, init);
      assert Inv()(v);
      assert AllowedMove(last);
      hide Reconcile, CountsFailures, Only;
      match last
      case Work(k) => ReconcileCounts(v);
      case Others(steps) =>
        CountsIsClosed();
        ActPromised(CountsFailures, NoOtherWriter, v, steps);
    }
  }
}
