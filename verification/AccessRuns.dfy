/**
 Project access over runs: its status says `created` exactly after the first success, the first success adds the rights,
 and every later one updates them. The two differ in the labels of permissions.
 */
module AccessRuns {
  import opened Common
  import opened AccessRights
  import opened Cluster
  import opened Helper
  import opened Invariants
  import opened Controllers
  import opened StatusMeaning
  import Bystanders
  import Effects

  /** A success was stored since the n-th write. */
  predicate SucceededSince(commits: Commits, n: nat) {
    exists i :: n <= i < |commits| && commits[i].1.status.value == "OK"
  }

  ghost predicate CreatedShows(w: World, n: nat) {
    && WellFormed(w) && n <= |w.book.commits|
    && (w.stored.Some? ==> (w.stored.value.status.created <==> SucceededSince(w.book.commits, n)))
  }

  ghost function Core(n: nat): World -> bool {
    w => CreatedShows(w, n)
  }

  /** Nobody else writes the status but the syncer its branches, and the object is not created anew. */
  predicate Allowed(s: Step) {
    !s.ForeignStatus? && !s.Create?
  }

  ghost function Inv(n: nat): World -> bool {
    Promised(Core(n), Allowed)
  }

  lemma TakeShows(w: World, s: Step, n: nat)
    requires CreatedShows(w, n) && Allowed(s)
    ensures CreatedShows(Take(w, s), n)
  {
    TakeKeeps(w, s);
    hide SucceededSince, Without;
  }

  /** Backend, script and event log play no role. */
  lemma FrameShows(w: World, v: World, n: nat)
    requires CreatedShows(w, n)
    requires v.stored == w.stored && v.peer == w.peer && v.history == w.history && v.clock == w.clock
    requires v.book.commits == w.book.commits
    ensures CreatedShows(v, n)
  {
    hide SucceededSince;
  }

  lemma PutShows(w: World, a: Obj, b: Obj, n: nat)
    requires CreatedShows(w, n) && w.stored == Some(a) && PlainWrite(a, b)
    ensures CreatedShows(Put(w, a, b), n)
  {
    PutWellFormed(w, a, b);
    hide WellFormed, SucceededSince;
  }

  lemma GoneShows(w: World, a: Obj, n: nat)
    requires CreatedShows(w, n) && w.stored == Some(a)
    ensures CreatedShows(Gone(w, a), n)
  {
    hide Tidy, SucceededSince;
  }

  lemma ShowsIsWellFormed(w: World, n: nat)
    requires CreatedShows(w, n)
    ensures WellFormed(w)
  {
  }

  lemma ShowsIsClosed(n: nat)
    ensures Closed(Core(n), Allowed)
  {
    hide CreatedShows, Take, Put, Gone, Allowed, PlainWrite;
    var core := Core(n);
    forall w, s | core(w) && Allowed(s) ensures core(Take(w, s)) { TakeShows(w, s, n); }
    forall w, a, b | core(w) && w.stored == Some(a) && PlainWrite(a, b) ensures core(Put(w, a, b)) { PutShows(w, a, b, n); }
    forall w, a | core(w) && w.stored == Some(a) ensures core(Gone(w, a)) { GoneShows(w, a, n); }
    forall w, b: Backend | core(w) ensures core(WithBackend(w, b)) { FrameShows(w, WithBackend(w, b), n); }
    forall w, e | core(w) ensures core(Logged(w, e)) { FrameShows(w, Logged(w, e), n); }
    forall w | core(w) ensures core(Misread(w)) { FrameShows(w, Misread(w), n); }
    forall w, sc | core(w) ensures core(WithScript(w, sc)) { FrameShows(w, WithScript(w, sc), n); }
    forall w | core(w) ensures WellFormed(w) { ShowsIsWellFormed(w, n); }
  }

  lemma CallShows(w: World, n: nat)
    requires Inv(n)(w)
    ensures Inv(n)(Call(w).0) && WellFormed(w) && Call(w).0.book.commits == w.book.commits && w.history <= Call(w).0.history
  {
    ShowsIsClosed(n);
    ShowsIsWellFormed(w, n);
    CallPromised(Core(n), Allowed, w);
    CallKeeps(w);
    hide Call, Closed, CreatedShows, WellFormed;
  }

  // ---------- The attempt ----------

  lemma GrantCarries(s: St, p: string, l: seq<AccessInfo>, origin: Obj, n: nat)
    requires Stable(Inv(n)) && Inv(n)(s.w) && Of(s.w, s.me, origin)
    ensures Carried(Inv(n), s, GrantRights(s, p, l).st, origin)
  {
    hide Calling, Of, Stable, Inv, AfterAdd, AfterUpdate;
    CallingCarries(Inv(n), s, origin);
    var t := Calling(s).st;
    if l == [] {
      StillCarried(s, origin, n);
    } else if p in t.w.backend.access {
      var b := t.w.backend.access[p];
      var c := t.w.backend.(access := t.w.backend.access[p := if t.me.status.created then AfterUpdate(b, l) else AfterAdd(b, l)]);
      ServingCarries(Inv(n), t, c, origin);
      CarriedTransitive(Inv(n), s, t, Serving(t, c).st, origin);
    }
  }

  lemma StillCarried(s: St, origin: Obj, n: nat)
    requires Inv(n)(s.w) && Of(s.w, s.me, origin)
    ensures Carried(Inv(n), s, s, origin)
  {
  }

  lemma SetParentCarries(s: St, p: string, parent: string, origin: Obj, n: nat)
    requires Stable(Inv(n)) && Inv(n)(s.w) && Of(s.w, s.me, origin)
    ensures Carried(Inv(n), s, SetParent(s, p, parent).st, origin)
  {
    hide Calling, Of, Stable, Inv;
    CallingCarries(Inv(n), s, origin);
    var t := Calling(s).st;
    if parent == "" {
      StillCarried(s, origin, n);
    } else {
      var c := t.w.backend.(parents := t.w.backend.parents[p := parent]);
      ServingCarries(Inv(n), t, c, origin);
      CarriedTransitive(Inv(n), s, t, Serving(t, c).st, origin);
    }
  }

  lemma AccessTryCarries(s: St, origin: Obj, n: nat)
    requires Stable(Inv(n)) && Inv(n)(s.w) && Of(s.w, s.me, origin) && s.me.spec.AccessSpec?
    ensures Carried(Inv(n), s, AccessTry(s).st, origin)
  {
    hide EnsureOwner, GrantRights, SetParent, TryToDelete, Of, Stable, Inv, Carried;
    var AccessSpec(p, parent, l, _) := s.me.spec;
    EnsureOwnerCarries(Inv(n), s, origin);
    var t := EnsureOwner(s).st;
    CarriedMeans(s, t, origin, n);
    GrantCarries(t, p, l, origin, n);
    var u := GrantRights(t, p, l).st;
    CarriedTransitive(Inv(n), s, t, u, origin);
    CarriedMeans(s, u, origin, n);
    SetParentCarries(u, p, parent, origin, n);
    var x := SetParent(u, p, parent).st;
    CarriedTransitive(Inv(n), s, u, x, origin);
    CarriedMeans(s, x, origin, n);
    TryToDeleteCarries(Inv(n), x, origin);
    CarriedTransitive(Inv(n), s, x, TryToDelete(x).st, origin);
  }

  lemma CarriedMeans(s: St, t: St, origin: Obj, n: nat)
    requires Carried(Inv(n), s, t, origin)
    ensures Inv(n)(t.w) && Of(t.w, t.me, origin)
  {
    hide Inv, Of;
  }

  // ---------- The final write ----------

  lemma OneMoreWrite(commits: Commits, n: nat, before: Obj, after: Obj)
    requires n <= |commits|
    ensures SucceededSince(commits + [(before, after)], n) <==> SucceededSince(commits, n) || after.status.value == "OK"
  {
    var all := commits + [(before, after)];
    assert all[|commits|].1 == after;
    if SucceededSince(commits, n) {
      var i :| n <= i < |commits| && commits[i].1.status.value == "OK";
      assert all[i].1.status.value == "OK";
    }
    if SucceededSince(all, n) {
      var i :| n <= i < |all| && all[i].1.status.value == "OK";
      assert i < |commits| ==> commits[i] == all[i];
    }
  }

  /** The write that ends a reconcile. */
  lemma FinishKeepsShowing(t: Try, origin: Obj, n: nat)
    requires Inv(n)(t.st.w) && Of(t.st.w, t.st.me, origin) && t.st.me.status == origin.status
    ensures Inv(n)(Finish(t.st.w, t.st.me, AccessStatus(t)))
  {
    var w := t.st.w;
    CallShows(w, n);
    var x := Call(w).0;
    OfGrows(w, x, t.st.me, origin);
    var works := Call(w).1.works;
    hide Call, Inv, WellFormed, SucceededSince, Of;
    if works && x.stored.Some? && x.stored.value.version == t.st.me.version {
      CopyIsCurrent(x, t.st.me, origin, n);
      WriteShows(x, AccessStatus(t), n);
    } else {
      LostShows(x, n);
    }
    hide Put;
  }

  lemma CopyIsCurrent(x: World, me: Obj, origin: Obj, n: nat)
    requires Inv(n)(x) && Of(x, me, origin) && x.stored.Some? && x.stored.value.version == me.version
    ensures x.stored.value.status == origin.status
  {
    InvMeans(x, n);
    CurrentFacts(x, me, origin);
    hide Of, WellFormed, SucceededSince;
  }

  /** What it replaces showed the successes before it. */
  lemma ReplacedShows(w: World, me: Obj, status: Status, n: nat, before: Obj, after: Obj)
    requires Inv(n)(w) && Stored(w, Finish(w, me, status), before, after)
    ensures before.status.created <==> SucceededSince(w.book.commits, n)
  {
    CallShows(w, n);
    var x := Call(w).0;
    InvMeans(x, n);
    var works := Call(w).1.works;
    hide Call, Inv, WellFormed, SucceededSince, Noted;
    if works && x.stored.Some? && x.stored.value.version == me.version {
      LastOf(w.book.commits, before, after, Finish(w, me, status).book.commits);
      LastOf(w.book.commits, x.stored.value, Finish(w, me, status).stored.value, Finish(w, me, status).book.commits);
    } else {
      LastOf(w.book.commits, before, after, Finish(w, me, status).book.commits);
    }
  }

  lemma LastOf(was: Commits, a: Obj, b: Obj, now: Commits)
    requires now == was + [(a, b)]
    ensures now[|now| - 1] == (a, b) && now != was
  {
  }

  lemma InvMeans(w: World, n: nat)
    requires Inv(n)(w)
    ensures WellFormed(w) && (w.stored.Some? ==> (w.stored.value.status.created <==> SucceededSince(w.book.commits, n)))
  {
    hide WellFormed, SucceededSince;
  }

  lemma WriteShows(x: World, status: Status, n: nat)
    requires Inv(n)(x) && x.stored.Some?
    requires status.created == (x.stored.value.status.created || status.value == "OK")
    ensures var cur := x.stored.value;
            var y := Put(x, cur, cur.(status := status));
            y.stored.Some? && y.book == x.book
            && forall v: string :: Inv(n)(y.(book := y.book.(commits := y.book.commits + [(cur, y.stored.value)], lastValue := v)))
  {
    var cur := x.stored.value;
    PutKeeps(x, cur, cur.(status := status));
    var y := Put(x, cur, cur.(status := status));
    OneMoreWrite(x.book.commits, n, cur, y.stored.value);
    BookIsUnseen(y);
    assert y.script == x.script by { hide Noted; }
    hide Put, WellFormed, SucceededSince;
  }

  lemma LostShows(x: World, n: nat)
    requires Inv(n)(x)
    ensures forall k: nat :: Inv(n)(x.(book := x.book.(statusLost := k)))
  {
    BookIsUnseen(x);
    hide WellFormed, SucceededSince;
  }

  lemma CountedShows(w: World, ok: bool, n: nat)
    requires Inv(n)(w)
    ensures Inv(n)(Counted(w, ok))
  {
    BookIsUnseen(w);
    hide WellFormed, SucceededSince;
  }

  lemma InvIsStable(n: nat)
    ensures Stable(Inv(n))
  {
    ShowsIsClosed(n);
    ClosedIsStable(Core(n), Allowed);
    hide Closed, Stable;
  }

  /** One reconcile, and what any status it stored replaced. */
  lemma ReconcileShows(w: World, n: nat)
    requires Inv(n)(w)
    ensures var v := Reconcile(w, Access);
            Inv(n)(v) && forall before, after | Stored(w, v, before, after) :: before.status.created <==> SucceededSince(w.book.commits, n)
  {
    InvIsStable(n);
    InvMeans(w, n);
    var w0 := Logged(w, Begin);
    assert Inv(n)(w0) by { FrameShows(w, w0, n); }
    hide Inv, ApiGet, Logged, Stable, WellFormed, Of, SucceededSince, AccessTry, Finish;
    GetCarries(Inv(n), w0);
    ReadWritesNothing(w);
    var (w1, r) := ApiGet(w0);
    if r.Answer? && r.obj.spec.AccessSpec? {
      var s := St(w1, r.obj);
      var t := AccessTry(s);
      AccessTryCarries(s, r.obj, n);
      Effects.ReadIsGenuine(w);
      AttemptKeeps(s, Access);
      FinishKeepsShowing(t, r.obj, n);
      var x := Finish(t.st.w, t.st.me, AccessStatus(t));
      CountedShows(x, t.Ok?, n);
      forall before, after | Stored(w, Counted(x, t.Ok?), before, after)
        ensures before.status.created <==> SucceededSince(w.book.commits, n)
      {
        ReplacedShows(t.st.w, t.st.me, AccessStatus(t), n, before, after);
      }
    }
  }

  predicate AllowedMove(m: Move) {
    match m
    case Work(k) => k == Access
    case Others(steps) => forall s | s in steps :: Allowed(s)
  }

  lemma {:induction false} RunShows(w: World, moves: seq<Move>, n: nat)
    requires Inv(n)(w) && forall m | m in moves :: AllowedMove(m)
    ensures Inv(n)(Run(w, moves))
  {
    hide Reconcile, Inv, Act;
    if moves != [] {
      var init, last := moves[..|moves| - 1], moves[|moves| - 1];
      RunShows(w, init, n);
      assert AllowedMove(last);
      match last
      case Work(k) => ReconcileShows(Run(w, init), n);
      case Others(steps) => ActShows(Run(w, init), steps, n);
    }
  }

  lemma ActShows(w: World, steps: seq<Step>, n: nat)
    requires Inv(n)(w) && forall s | s in steps :: Allowed(s)
    ensures Inv(n)(Act(w, steps))
  {
    ShowsIsClosed(n);
    hide Act, Closed;
    ActPromised(Core(n), Allowed, w, steps);
  }

  /** An object to which nothing was granted yet. */
  ghost predicate Ungranted(w: World) {
    WellFormed(w) && (w.stored.Some? ==> !w.stored.value.status.created) && Only(w.script, Allowed)
  }

  /**
   Over every run, with any failures, kills and stale reads: the stored status says created if and only if some
   reconcile of the run stored a success.
   */
  lemma CreatedAfterFirstSuccess(w: World, moves: seq<Move>)
    requires Ungranted(w) && forall m | m in moves :: AllowedMove(m)
    ensures var v := Run(w, moves);
            v.stored.Some? ==> (v.stored.value.status.created <==> SucceededSince(v.book.commits, |w.book.commits|))
  {
    var n := |w.book.commits|;
    assert Inv(n)(w);
    RunShows(w, moves, n);
    InvMeans(Run(w, moves), n);
    hide Run, SucceededSince, Inv;
  }

  // ---------- Adding and updating ----------

  /** The label of a permission after its rights were added: an existing one stays. */
  ghost function AddedLabel(b: Rights, l: seq<AccessInfo>, r: string, q: string): Option<string> {
    if LabelAt(b, r, q).Some? then LabelAt(b, r, q)
    else if FirstPermission(l, r, q).Some? then Some(FirstPermission(l, r, q).value.permissionLabel) else None
  }

  /** After they were updated: it stays only while a rule outside the list keeps the permission alive. */
  ghost function UpdatedLabel(b: Rights, l: seq<AccessInfo>, r: string, q: string): Option<string> {
    if exists g :: RuleAt(b, r, q, g).Some? && !Listed(l, r, q, g) then LabelAt(b, r, q)
    else if FirstPermission(l, r, q).Some? then Some(FirstPermission(l, r, q).value.permissionLabel) else None
  }

  ghost predicate Labelled(before: Rights, after: Rights, l: seq<AccessInfo>, created: bool) {
    forall r, q :: LabelAt(after, r, q) == if created then UpdatedLabel(before, l, r, q) else AddedLabel(before, l, r, q)
  }

  lemma GrantLabels(s: St, p: string, l: seq<AccessInfo>)
    requires WellFormed(s.w) && GrantRights(s, p, l).Ok? && l != []
    ensures var t := GrantRights(s, p, l).st;
            p in s.w.backend.access && p in t.w.backend.access
            && Labelled(s.w.backend.access[p], t.w.backend.access[p], l, s.me.status.created)
  {
    CallKeeps(s.w);
    assert Calling(s).st.w.backend == s.w.backend by { hide Call; }
    hide Calling, Call, AfterAdd, AfterUpdate, LabelAt, RuleAt, WellFormed;
    var b := s.w.backend.access[p];
    forall r, q ensures LabelAt(AfterAdd(b, l), r, q) == AddedLabel(b, l, r, q) && LabelAt(AfterUpdate(b, l), r, q) == UpdatedLabel(b, l, r, q) {
      AfterAddLabel(b, l, r, q);
      AfterUpdateLabel(b, l, r, q);
    }
  }

  lemma AfterAddLabel(b: Rights, l: seq<AccessInfo>, r: string, q: string)
    ensures LabelAt(AfterAdd(b, l), r, q) == AddedLabel(b, l, r, q)
  {
    hide Built, Added, LabelAt, RuleAt;
    AddedLookups(b, Built(l, true, false), r, q, "");
    BuiltIsFirstWins(l, true, false, r, q, "");
  }

  lemma AttemptLabels(s: St)
    requires WellFormed(s.w) && Of(s.w, s.me, s.me) && s.me.spec.AccessSpec? && !s.me.deleting && AccessTry(s).Ok?
    requires s.me.spec.references != []
    ensures var t := AccessTry(s).st;
            var AccessSpec(p, _, l, _) := s.me.spec;
            p in s.w.backend.access && p in t.w.backend.access
            && Labelled(s.w.backend.access[p], t.w.backend.access[p], l, s.me.status.created)
  {
    hide EnsureOwner, GrantRights, SetParent, TryToDelete, WellFormed, Labelled;
    var AccessSpec(p, parent, l, _) := s.me.spec;
    Bystanders.EnsureOwnerSpares(s, s.me, None);
    Effects.OwnerKeeps(s, s.me);
    var t := EnsureOwner(s).st;
    GrantLabels(t, p, l);
    Effects.GrantServes(t, p, l, s.me);
    var u := GrantRights(t, p, l).st;
    Effects.ParentServes(u, p, parent, s.me);
    Effects.GuardingKeepsBackend(SetParent(u, p, parent).st);
  }

  /**
   Over every run: the first success adds the rights, and every later one updates them, which shows in the labels of
   the permissions.
   */
  lemma FirstAddsThenUpdates(w: World, moves: seq<Move>, before: Obj, after: Obj)
    requires Ungranted(w) && forall m | m in moves :: AllowedMove(m)
    requires var v := Run(w, moves);
             Stored(v, Reconcile(v, Access), before, after) && after.status.value == "OK" && !after.deleting
             && after.spec.AccessSpec? && after.spec.references != []
    ensures var v := Run(w, moves);
            var x := Reconcile(v, Access);
            var AccessSpec(p, _, l, _) := after.spec;
            p in v.backend.access && p in x.backend.access
            && Labelled(v.backend.access[p], x.backend.access[p], l, SucceededSince(v.book.commits, |w.book.commits|))
  {
    var n := |w.book.commits|;
    assert Inv(n)(w);
    RunShows(w, moves, n);
    var v := Run(w, moves);
    hide Run, SucceededSince, Inv, Labelled, Reconcile;
    InvMeans(v, n);
    ReconcileShows(v, n);
    ReconcileLabels(v, before, after);
  }

  lemma ReconcileLabels(v: World, before: Obj, after: Obj)
    requires WellFormed(v)
    requires Stored(v, Reconcile(v, Access), before, after) && after.status.value == "OK" && !after.deleting
    requires after.spec.AccessSpec? && after.spec.references != []
    ensures var x := Reconcile(v, Access);
            var AccessSpec(p, _, l, _) := after.spec;
            p in v.backend.access && p in x.backend.access
            && Labelled(v.backend.access[p], x.backend.access[p], l, before.status.created)
  {
    Effects.ReadIsGenuine(v);
    ReadWritesNothing(v);
    ReconcileEnd(v, Access);
    Bystanders.ReadIdles(v);
    var (w1, r) := ApiGet(Logged(v, Begin));
    hide ApiGet, Logged, AccessTry, Finish, WellFormed, Of, Labelled;
    if r.Answer? && r.obj.spec.AccessSpec? {
      var s := St(w1, r.obj);
      var t := AccessTry(s);
      AttemptKeeps(s, Access);
      FinishStores(t.st.w, t.st.me, AccessStatus(t), r.obj);
      var x := Finish(t.st.w, t.st.me, AccessStatus(t));
      LastOf(v.book.commits, before, after, x.book.commits);
      var a, b :| Stored(t.st.w, x, a, b) && OnlyStatus(a, b, AccessStatus(t)) && SameFacts(a, r.obj);
      LastOf(v.book.commits, a, b, x.book.commits);
      StatusSays(Access, t);
      AttemptLabels(s);
    } else {
      LastOf(v.book.commits, before, after, Reconcile(v, Access).book.commits);
    }
  }
}
