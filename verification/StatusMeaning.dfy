/**
 What the status that a reconcile stores says: "OK", or a change's own status, only when the server is as the object
 asks and every call worked, and "error" otherwise; and for access objects, that the rights were granted once.
 */
module StatusMeaning {
  import opened Cluster
  import opened Helper
  import opened Controllers
  import Bystanders
  import Effects
  import UsedTurns

  type Commits = seq<(Obj, Obj)>

  /** The reconcile from w to v stored this status. */
  predicate Stored(w: World, v: World, before: Obj, after: Obj) {
    v.book.commits == w.book.commits + [(before, after)]
  }

  predicate OnlyStatus(before: Obj, after: Obj, status: Status) {
    after.(version := 0) == before.(status := status, version := 0)
  }

  /** The final write stores this status on an object that is still as the copy's origin was, or nothing. */
  lemma FinishStores(w: World, me: Obj, status: Status, origin: Obj)
    requires WellFormed(w) && Of(w, me, origin)
    ensures var v := Finish(w, me, status);
            v.backend == w.backend
            && (v.book.commits == w.book.commits
                || (w.script != [] && w.script[0].works
                    && exists before, after :: Stored(w, v, before, after) && OnlyStatus(before, after, status) && SameFacts(before, origin)))
  {
    CallKeeps(w);
    var x := Call(w).0;
    OfGrows(w, x, me, origin);
    var works := Call(w).1.works;
    assert works ==> w.script != [] && w.script[0].works;
    hide Call;
    if works && x.stored.Some? && x.stored.value.version == me.version {
      CurrentFacts(x, me, origin);
      hide Of;
      var cur := x.stored.value;
      PutKeeps(x, cur, cur.(status := status));
      var after := Put(x, cur, cur.(status := status)).stored.value;
      hide Put;
      assert Stored(w, Finish(w, me, status), cur, after) && OnlyStatus(cur, after, status);
    }
    hide WellFormed;
  }

  /** What an attempt leaves of the copy, and that it succeeds only if every call worked. */
  lemma AttemptKeeps(s: St, k: Kind)
    requires WellFormed(s.w) && Of(s.w, s.me, s.me) && IsKind(s.me.spec, k)
    ensures var t := TryOf(k, s);
            WellFormed(t.st.w) && Of(t.st.w, t.st.me, s.me) && t.st.w.book.commits == s.w.book.commits
            && UsedTurns.Used(s.w, t.st.w, t.Ok?) && (k != MergeRequest ==> t.st.me.status == s.me.status)
  {
    UsedTurns.AttemptTried(k, s);
    var pushed := Bystanders.TrySpares(s, s.me, k);
    hide TryOf, WellFormed, Of, UsedTurns.Used, Bystanders.Spared;
  }

  /** "OK", or for a merge request anything but "error", says that the attempt went through. */
  lemma StatusSays(k: Kind, t: Try)
    ensures StatusOf(k, t).value != "error" ==> t.Ok?
    ensures k != MergeRequest ==> StatusOf(k, t).value == if t.Ok? then "OK" else "error"
    ensures k != MergeRequest ==> StatusOf(k, t).changeId == t.st.me.status.changeId
    ensures k == MergeRequest && t.Ok? ==> StatusOf(k, t) == t.st.me.status
  {
  }

  /** A status of this kind that reads as a success. */
  predicate Succeeded(k: Kind, status: Status) {
    if k == MergeRequest then status.value != "error" else status.value == "OK"
  }

  /** The write of one reconcile, if it stored a status. */
  ghost predicate Wrote(w: World, v: World, k: Kind) {
    v.book.commits == w.book.commits
    || exists before, after :: Stored(w, v, before, after) && Honest(w, v, k, before, after)
  }

  /**
   A stored success means: every call before the status write worked, and unless the object is being deleted the
   server is as it asks. Otherwise the status says "error".
   */
  ghost predicate Honest(w: World, v: World, k: Kind, before: Obj, after: Obj) {
    && after.(version := 0, status := before.status) == before.(version := 0) && IsKind(after.spec, k)
    && (!Succeeded(k, after.status) ==> after.status.value == "error")
    && (Succeeded(k, after.status) ==>
          && (forall i | 0 <= i < |w.script| - |v.script| :: w.script[i].works)
          && (!after.deleting ==> Effects.Served(after.spec, after.status, v.backend)))
  }

  /** All calls of a reconcile that ends with a write that works, when its attempt succeeded. */
  lemma AllWorked(w: World, w1: World, x: World, v: World)
    requires UsedTurns.Used(w, w1, true) && UsedTurns.Used(w1, x, true) && x.script != [] && x.script[0].works
    requires v.script == x.script[1..]
    ensures forall i | 0 <= i < |w.script| - |v.script| :: w.script[i].works
  {
    UsedTurns.UsedTransitive(w, w1, x, true, true);
    assert x.script[0] == w.script[|w.script| - |x.script|];
  }

  lemma WriteIsHonest(w: World, k: Kind, t: Try, before: Obj, after: Obj)
    requires WellFormed(w)
    requires var (w1, r) := ApiGet(Logged(w, Begin));
             r.Answer? && IsKind(r.obj.spec, k) && t == TryOf(k, St(w1, r.obj)) && SameFacts(before, r.obj)
             && UsedTurns.Used(w, w1, true) && UsedTurns.Used(w1, t.st.w, t.Ok?)
    requires OnlyStatus(before, after, StatusOf(k, t)) && t.st.w.script != [] && t.st.w.script[0].works
    ensures Honest(w, Reconcile(w, k), k, before, after)
  {
    StatusSays(k, t);
    Effects.SuccessMeansServed(w, k);
    CallSpends(t.st.w);
    var (w1, r) := ApiGet(Logged(w, Begin));
    var v := Reconcile(w, k);
    assert v.script == t.st.w.script[1..] && v.backend == t.st.w.backend by {
      ReconcileEnd(w, k);
    }
    hide ApiGet, Logged, TryOf, StatusOf, Reconcile, Call, WellFormed, Effects.Served, UsedTurns.Used;
    if t.Ok? {
      AllWorked(w, w1, t.st.w, v);
      if k != MergeRequest && !after.deleting {
        Effects.StatusDoesNotMatter(r.obj.spec, t.st.me.status, after.status, v.backend);
      }
    }
  }

  lemma ReconcileEnd(w: World, k: Kind)
    requires WellFormed(w)
    ensures var (w1, r) := ApiGet(Logged(w, Begin));
            r.Answer? && IsKind(r.obj.spec, k) ==>
              var t := TryOf(k, St(w1, r.obj));
              Reconcile(w, k).backend == t.st.w.backend
              && (t.st.w.script != [] ==> Reconcile(w, k).script == t.st.w.script[1..])
  {
    Effects.ReadIsGenuine(w);
    var (w1, r) := ApiGet(Logged(w, Begin));
    hide ApiGet, Logged, TryOf, StatusOf, Finish, WellFormed, Of, UsedTurns.Used;
    if r.Answer? && IsKind(r.obj.spec, k) {
      var s := St(w1, r.obj);
      var t := TryOf(k, s);
      AttemptKeeps(s, k);
      FinishStores(t.st.w, t.st.me, StatusOf(k, t), r.obj);
      FinishSpends(t.st.w, t.st.me, StatusOf(k, t));
    }
  }

  lemma FinishSpends(w: World, me: Obj, status: Status)
    ensures w.script != [] ==> Finish(w, me, status).script == w.script[1..]
  {
    CallSpends(w);
    hide Call, Tidy;
  }

  /** In every world with any interference, whatever the read was answered with. */
  lemma StoredStatusIsHonest(w: World, k: Kind)
    requires WellFormed(w)
    ensures Wrote(w, Reconcile(w, k), k)
  {
    Effects.ReadIsGenuine(w);
    UsedTurns.ReadUsed(w);
    ReadWritesNothing(w);
    var (w1, r) := ApiGet(Logged(w, Begin));
    hide ApiGet, Logged;
    if r.Answer? && IsKind(r.obj.spec, k) {
      var s := St(w1, r.obj);
      var t := TryOf(k, s);
      hide TryOf, StatusOf, Finish, WellFormed, Of, UsedTurns.Used, Effects.Served;
      AttemptKeeps(s, k);
      FinishStores(t.st.w, t.st.me, StatusOf(k, t), r.obj);
      var v := Reconcile(w, k);
      assert v == Counted(Finish(t.st.w, t.st.me, StatusOf(k, t)), t.Ok?);
      if v.book.commits != w.book.commits {
        var before, after :| Stored(t.st.w, Finish(t.st.w, t.st.me, StatusOf(k, t)), before, after)
                             && OnlyStatus(before, after, StatusOf(k, t)) && SameFacts(before, r.obj);
        assert Stored(w, v, before, after);
        WriteIsHonest(w, k, t, before, after);
      }
    }
  }

  lemma ReadWritesNothing(w: World)
    requires WellFormed(w)
    ensures ApiGet(Logged(w, Begin)).0.book.commits == w.book.commits
  {
    CallKeeps(Logged(w, Begin));
    hide Call, WellFormed;
  }
}
