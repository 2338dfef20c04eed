/**
 How often a merge request is pushed (controllers/merge_request/controller.go). A push is only repeated when its
 record was lost: by a failed status write or by a failed removal of the work directory. The recorded change
 id never changes. The one exception is an object deleted before it had either a recorded change or an owner.
 */
module MergeBound {
  import opened Common
  import opened Cluster
  import opened Helper
  import opened Invariants
  import opened Controllers
  import FinalizerSafety

  predicate HasId(o: Obj) {
    o.status.changeId != ""
  }

  /** Deleting such an object cannot make the operator forget a push. */
  predicate Protected(o: Obj) {
    HasId(o) || o.owners != []
  }

  ghost predicate Recorded(w: World) {
    exists h :: h in w.history && HasId(h)
  }

  /** At most one change id was ever recorded, and it is never lost again. */
  ghost predicate OneId(w: World) {
    && (forall a, b | a in w.history && b in w.history && HasId(a) && HasId(b) :: a.status.changeId == b.status.changeId)
    && (w.stored.Some? && !HasId(w.stored.value) ==> !Recorded(w))
  }

  /** The pushes so far, with room for `c` that are still to be accounted for. */
  ghost predicate PushesBounded(w: World, c: nat) {
    w.book.pushes <= c + w.book.statusLost + w.book.dirsLost + if Recorded(w) then 1 else 0
  }

  ghost predicate BoundedBy(w: World, c: nat) {
    && WellFormed(w)
    && OneId(w)
    && (!w.book.ownerlessDelete ==> PushesBounded(w, c) && forall h | h in w.history && h.deleting :: Protected(h))
  }

  ghost function Bounded(c: nat): World -> bool {
    w => BoundedBy(w, c)
  }

  /** One incarnation of the object, and nobody else writes its change id. */
  predicate OneIncarnation(s: Step) {
    !s.ForeignStatus? && !s.Create?
  }

  /** A write that leaves the id alone leaves the bound alone. */
  lemma PutBounded(w: World, a: Obj, b: Obj, c: nat)
    requires BoundedBy(w, c) && w.stored == Some(a)
    requires b.status.changeId == a.status.changeId
    requires b.deleting ==> b.finalizers != []
    requires b.deleting && !w.book.ownerlessDelete ==> Protected(b)
    ensures BoundedBy(Put(w, a, b), c)
  {
    PutWellFormed(w, a, b);
    assert a in w.history;
    hide WellFormed;
    PutRecords(w, a, b);
  }

  /** A write that keeps the id neither adds nor loses a record. */
  lemma PutRecords(w: World, a: Obj, b: Obj)
    requires w.stored == Some(a) && a in w.history && b.status.changeId == a.status.changeId
    ensures Recorded(Put(w, a, b)) <==> Recorded(w)
    ensures OneId(w) ==> OneId(Put(w, a, b))
  {
    var v := Put(w, a, b);
    if Recorded(v) {
      var h :| h in v.history && HasId(h);
      if h !in w.history {
        assert HasId(a);
      }
    }
    if Recorded(w) {
      var h :| h in w.history && HasId(h);
      assert h in v.history;
    }
  }

  lemma GoneBounded(w: World, a: Obj, c: nat)
    requires BoundedBy(w, c) && w.stored == Some(a)
    ensures BoundedBy(Gone(w, a), c)
  {
  }

  lemma AnnotatedBounded(w: World, s: Step, c: nat)
    requires BoundedBy(w, c)
    ensures BoundedBy(w.(book := Annotated(w.book, w.stored, s)), c)
  {
    BookIsUnseen(w);
    hide WellFormed;
  }

  lemma TakeBounded(w: World, s: Step, c: nat)
    requires BoundedBy(w, c) && OneIncarnation(s)
    ensures BoundedBy(Take(w, s), c)
  {
    TakeKeeps(w, s);
    AnnotatedBounded(w, s, c);
    var w1 := w.(book := Annotated(w.book, w.stored, s));
    if Written(w, s).Some? {
      WrittenLawful(w, s);
      PutBounded(w1, w.stored.value, Written(w, s).value, c);
    } else if Removes(w, s) {
      GoneBounded(w1, w.stored.value, c);
    }
    hide Put, Gone;
  }

  /** Backend, script and event log play no role. */
  lemma FrameBounded(w: World, v: World, c: nat)
    requires BoundedBy(w, c)
    requires v.stored == w.stored && v.peer == w.peer && v.history == w.history && v.clock == w.clock
    requires v.book == w.book.(log := v.book.log, misread := v.book.misread)
    ensures BoundedBy(v, c)
  {
    assert WellFormed(v);
  }

  lemma PlainKeepsProtection(w: World, a: Obj, b: Obj, c: nat)
    requires BoundedBy(w, c) && w.stored == Some(a) && PlainWrite(a, b) && KeepsOwner(a, b)
    ensures b.deleting && !w.book.ownerlessDelete ==> Protected(b)
  {
    assert a in w.history;
  }

  lemma BoundedIsClosed(c: nat)
    ensures Closed(Bounded(c), OneIncarnation)
  {
    forall w, s | BoundedBy(w, c) && OneIncarnation(s) ensures BoundedBy(Take(w, s), c) { TakeBounded(w, s, c); }
    forall w, a, b | BoundedBy(w, c) && w.stored == Some(a) && PlainWrite(a, b) && KeepsOwner(a, b) ensures BoundedBy(Put(w, a, b), c) {
      PlainKeepsProtection(w, a, b, c);
      PutBounded(w, a, b, c);
    }
    forall w, a | BoundedBy(w, c) && w.stored == Some(a) ensures BoundedBy(Gone(w, a), c) { GoneBounded(w, a, c); }
    forall w, b | BoundedBy(w, c) ensures BoundedBy(WithBackend(w, b), c) { FrameBounded(w, WithBackend(w, b), c); }
    forall w, e | BoundedBy(w, c) ensures BoundedBy(Logged(w, e), c) { FrameBounded(w, Logged(w, e), c); }
    forall w, sc | BoundedBy(w, c) ensures BoundedBy(WithScript(w, sc), c) { FrameBounded(w, WithScript(w, sc), c); }
    forall w | BoundedBy(w, c) ensures BoundedBy(Misread(w), c) { FrameBounded(w, Misread(w), c); }
    forall w | BoundedBy(w, c) ensures WellFormed(w) { }
    hide Take, Put, Gone, BoundedBy, WellFormed, WithBackend, Logged, WithScript, Misread;
  }

  ghost function Inv(c: nat): World -> bool {
    Promised(Bounded(c), OneIncarnation)
  }

  lemma InvIsStable(c: nat)
    ensures Stable(Inv(c))
  {
    BoundedIsClosed(c);
    ClosedIsStable(Bounded(c), OneIncarnation);
  }

  // ---------- Creating the change ----------

  lemma GitClientCarries(inv: World -> bool, s: St, origin: Obj)
    requires Stable(inv) && inv(s.w) && Of(s.w, s.me, origin)
    ensures Carried(inv, s, GitClient(s).st, origin) && GitClient(s).st.me == s.me
  {
    hide Calling, Of, Stable;
    CallingCarries(inv, s, origin);
    var t1 := Calling(s);
    CallingKeepsMe(s);
    if t1.Ok? {
      CallingCarries(inv, t1.st, origin);
      CallingKeepsMe(t1.st);
      CarriedTransitive(inv, s, t1.st, Calling(t1.st).st, origin);
    }
  }

  lemma CallingKeepsMe(s: St)
    ensures Calling(s).st.me == s.me
  {
  }

  lemma PrepareCommitCarries(inv: World -> bool, s: St, origin: Obj)
    requires Stable(inv) && inv(s.w) && Of(s.w, s.me, origin)
    ensures Carried(inv, s, PrepareCommit(s).st, origin) && PrepareCommit(s).st.me == s.me
  {
    hide Calling, Of, Stable;
    CallingCarries(inv, s, origin);
    CallingKeepsMe(s);
    var t1 := Calling(s);
    if t1.Ok? {
      CallingCarries(inv, t1.st, origin);
      CallingKeepsMe(t1.st);
      var t2 := Calling(t1.st);
      CarriedTransitive(inv, s, t1.st, t2.st, origin);
      if t2.Ok? {
        CallingCarries(inv, t2.st, origin);
        CallingKeepsMe(t2.st);
        CarriedTransitive(inv, s, t2.st, Calling(t2.st).st, origin);
      }
    }
  }

  /** A push is one more to account for; a failed attempt changes nothing. */
  lemma PushChangeCarries(s: St, origin: Obj)
    requires Inv(0)(s.w) && Of(s.w, s.me, origin)
    ensures var t := PushChange(s);
            Of(t.st.w, t.st.me, origin)
            && (t.Err? ==> Inv(0)(t.st.w) && t.st.me == s.me)
            && (t.Ok? ==> Inv(1)(t.st.w) && HasId(t.st.me) && t.st.me.owners == s.me.owners && t.st.me.spec == s.me.spec)
  {
    InvIsStable(0);
    var (w, t) := Call(s.w);
    CallKeeps(s.w);
    OfGrows(s.w, w, s.me, origin);
    assert Inv(0)(w);
    if t.works {
      hide Stable, PrepareCommit, Calling, Call;
      PrepareCommitCarries(Inv(0), s.(w := w), origin);
      var t1 := PrepareCommit(s.(w := w));
      if t1.Ok? {
        CallingCarries(Inv(0), t1.st, origin);
        CallingKeepsMe(t1.st);
        if Calling(t1.st).Ok? {
          PushedBounded(Calling(t1.st).st, "I" + t.text, origin);
        }
      }
      hide Of, Inv;
    }
  }

  lemma PushedBounded(s: St, id: string, origin: Obj)
    requires Inv(0)(s.w) && Of(s.w, s.me, origin)
    ensures Inv(1)(Pushed(s, id).w) && Of(Pushed(s, id).w, Pushed(s, id).me, origin)
  {
    var w := Pushed(s, id).w;
    BookIsUnseen(s.w);
    assert WellFormed(w);
    assert BoundedBy(s.w, 0);
    assert BoundedBy(w, 1);
  }

  lemma DirLostBounded(w: World, c: nat)
    requires Inv(c)(w) && c <= 1
    ensures Inv(0)(w.(book := w.book.(dirsLost := w.book.dirsLost + 1)))
  {
    BookIsUnseen(w);
    assert BoundedBy(w, c);
    assert BoundedBy(w.(book := w.book.(dirsLost := w.book.dirsLost + 1)), 0);
  }

  lemma CallInv(c: nat, s: St, origin: Obj)
    requires Inv(c)(s.w) && Of(s.w, s.me, origin)
    ensures Inv(c)(Call(s.w).0) && Of(Call(s.w).0, s.me, origin)
  {
    BoundedIsClosed(c);
    CallPromised(Bounded(c), OneIncarnation, s.w);
    assert BoundedBy(s.w, c);
    CallKeeps(s.w);
    OfGrows(s.w, Call(s.w).0, s.me, origin);
    hide Call;
  }

  lemma RemovalBounded(s: St, t: Try, origin: Obj)
    requires Of(t.st.w, t.st.me, origin) && Of(t.st.w, s.me, origin)
    requires t.Err? ==> Inv(0)(t.st.w)
    requires t.Ok? ==> Inv(1)(t.st.w)
    ensures var v := Remote(t.st.w).0;
            Of(v, t.st.me, origin) && Of(v, s.me, origin)
            && Inv(0)(v.(book := v.book.(dirsLost := v.book.dirsLost + 1)))
            && (t.Err? ==> Inv(0)(v)) && (t.Ok? ==> Inv(1)(v))
  {
    var c := if t.Ok? then 1 else 0;
    CallInv(c, t.st, origin);
    CallInv(c, t.st.(me := s.me), origin);
    DirLostBounded(Call(t.st.w).0, c);
    hide Call, Inv, Of;
  }

  lemma PushThenRemoveCarries(s: St, origin: Obj)
    requires Inv(0)(s.w) && Of(s.w, s.me, origin)
    ensures var t := PushThenRemoveClone(s);
            Of(t.st.w, t.st.me, origin)
            && (t.Err? ==> Inv(0)(t.st.w) && t.st.me == s.me)
            && (t.Ok? ==> Inv(1)(t.st.w) && HasId(t.st.me) && t.st.me.owners == s.me.owners && t.st.me.spec == s.me.spec)
  {
    hide Inv, PushChange, Remote;
    var t := PushChange(s);
    PushChangeCarries(s, origin);
    PushChangeKeepsHistory(s, origin);
    OfGrows(s.w, t.st.w, s.me, origin);
    hide Of;
    RemovalBounded(s, t, origin);
  }

  lemma CreateChangeCarries(s: St, origin: Obj)
    requires Inv(0)(s.w) && Of(s.w, s.me, origin)
    ensures var t := CreateChange(s);
            Of(t.st.w, t.st.me, origin)
            && (t.Err? ==> Inv(0)(t.st.w) && t.st.me == s.me)
            && (t.Ok? ==> Inv(1)(t.st.w) && HasId(t.st.me) && t.st.me.owners == s.me.owners && t.st.me.spec == s.me.spec)
  {
    InvIsStable(0);
    hide Inv, Stable, GitClient, Calling, PushThenRemoveClone, Of;
    GitClientCarries(Inv(0), s, origin);
    var t1 := GitClient(s);
    if t1.Ok? {
      var t2 := Calling(t1.st);
      CallingCarries(Inv(0), t1.st, origin);
      CallingKeepsMe(t1.st);
      if t2.Ok? {
        PushThenRemoveCarries(t2.st, origin);
      }
    }
  }

  lemma PushChangeKeepsHistory(s: St, origin: Obj)
    requires Inv(0)(s.w) && Of(s.w, s.me, origin)
    ensures s.w.history <= PushChange(s).st.w.history
  {
    InvIsStable(0);
    var (w, t) := Call(s.w);
    CallKeeps(s.w);
    OfGrows(s.w, w, s.me, origin);
    if t.works {
      assert Inv(0)(w);
      hide Call, Stable, PrepareCommit, Calling, Inv, Of;
      var t1 := PrepareCommit(s.(w := w));
      PrepareCommitCarries(Inv(0), s.(w := w), origin);
      if t1.Ok? {
        CallingCarries(Inv(0), t1.st, origin);
      }
    }
  }

  // ---------- Recording it ----------

  /** Without a deletion mark, or with an owner, TryToDelete fails with the copy's status intact. */
  lemma FailedDeleteKeepsStatus(s: St)
    requires s.me.spec.MergeRequestSpec? && (!s.me.deleting || s.me.owners != []) && TryToDelete(s).Err?
    ensures TryToDelete(s).st.me.status == s.me.status
  {
    hide ApiUpdate, Call;
    assert s.me.owners != [] ==> EnsureOwner(s) == ResolveOwner(s);
  }

  lemma DeleteKeepingStatusCarries(c: nat, s: St, origin: Obj)
    requires Inv(c)(s.w) && Of(s.w, s.me, origin) && origin.spec.MergeRequestSpec?
    ensures var t := DeleteKeepingStatus(s);
            Inv(c)(t.st.w) && Of(t.st.w, t.st.me, origin)
            && (t.st.me.status == s.me.status || (t.Err? && origin.deleting && s.me.owners == [] && t.st.me.status == origin.status))
  {
    InvIsStable(c);
    TryToDeleteCarries(Inv(c), s, origin);
    if TryToDelete(s).Err? && (!origin.deleting || s.me.owners != []) {
      assert s.me.deleting == origin.deleting && s.me.spec == origin.spec;
      FailedDeleteKeepsStatus(s);
    }
    StatusIsNotAFact(TryToDelete(s).st, s.me.status, origin);
    hide TryToDelete, Stable, Inv, Of;
  }

  lemma StatusIsNotAFact(s: St, status: Status, origin: Obj)
    requires Of(s.w, s.me, origin)
    ensures Of(s.w, s.me.(status := status), origin)
  {
  }

  /** The final status write accounts for a push: it is recorded, or a lost write is counted. */
  lemma FinishBounded(w: World, me: Obj, status: Status, origin: Obj, c: nat)
    requires Inv(c)(w) && c <= 1 && Of(w, me, origin)
    requires (c == 0 && status.changeId == origin.status.changeId)
             || (!HasId(origin) && (status.changeId != "" || (origin.deleting && !Protected(origin))))
    ensures Inv(0)(Finish(w, me, status))
  {
    CallInv(c, St(w, me), origin);
    assert BoundedBy(w, c);
    FinishCases(w, me, status, origin);
    var x, v := Call(w).0, Finish(w, me, status);
    assert BoundedBy(x, c);
    if StatusLost(x, v) {
      hide Call, Finish, Of;
      assert BoundedBy(v, 0);
    } else {
      UnprotectedIsMarked(x, me, origin, c);
      hide Call, Finish, Of;
      StoredBounded(x, v, status, origin, c);
    }
  }

  lemma UnprotectedIsMarked(x: World, me: Obj, origin: Obj, c: nat)
    requires BoundedBy(x, c) && Of(x, me, origin)
    ensures origin.deleting && !Protected(origin) ==> x.book.ownerlessDelete
    ensures origin.deleting && !x.book.ownerlessDelete && x.stored.Some? && SameFacts(x.stored.value, origin) ==> Protected(x.stored.value)
    ensures HasId(origin) ==> exists b :: b in x.history && HasId(b) && b.status.changeId == origin.status.changeId
  {
  }

  lemma StoredBounded(x: World, v: World, status: Status, origin: Obj, c: nat)
    requires BoundedBy(x, c) && c <= 1 && WellFormed(v) && StatusStored(x, v, status, origin)
    requires (c == 0 && status.changeId == origin.status.changeId)
             || (!HasId(origin) && (status.changeId != "" || (origin.deleting && !Protected(origin))))
    requires origin.deleting && !Protected(origin) ==> x.book.ownerlessDelete
    ensures BoundedBy(v, 0)
  {
    hide WellFormed;
    var o, n := x.stored.value, v.stored.value;
    assert n in v.history;
    assert HasId(o) <==> HasId(origin);
    if Recorded(x) {
      var h :| h in x.history && HasId(h);
      assert h in v.history;
    }
    assert o in x.history by { StoredInHistory(x, c); }
  }

  lemma StoredInHistory(x: World, c: nat)
    requires BoundedBy(x, c) && x.stored.Some?
    ensures x.stored.value in x.history
  {
  }

  lemma RefreshValueCarries(s: St, origin: Obj)
    requires Inv(0)(s.w) && Of(s.w, s.me, origin) && s.me.status == origin.status
    ensures var t := RefreshValue(s);
            Inv(0)(t.st.w) && Of(t.st.w, t.st.me, origin) && t.st.me.status.changeId == origin.status.changeId
  {
    InvIsStable(0);
    EnsureOwnerCarries(Inv(0), s, origin);
    var t := EnsureOwner(s);
    hide EnsureOwner, Inv, Calling, Stable, Of;
    if t.Ok? {
      ReadChangeCarries(t.st, origin);
    }
  }

  /** The second half: get the change and show its status. */
  lemma ReadChangeCarries(s: St, origin: Obj)
    requires Stable(Inv(0)) && Inv(0)(s.w) && Of(s.w, s.me, origin) && s.me.status.changeId == origin.status.changeId
    ensures var t := Calling(s).st;
            Inv(0)(t.w) && Of(t.w, t.me, origin) && t.me == s.me
    ensures forall v :: Of(Calling(s).st.w, s.me.(status := s.me.status.(value := v)), origin)
  {
    CallingCarries(Inv(0), s, origin);
    var t := Calling(s).st;
    assert t.me == s.me;
    hide Inv, Calling, Stable, WellFormed;
    forall v ensures Of(t.w, s.me.(status := s.me.status.(value := v)), origin) {
      StatusIsNotAFact(t, s.me.status.(value := v), origin);
    }
    hide Of;
  }

  lemma MergeTryBounded(s: St, origin: Obj)
    requires Inv(0)(s.w) && Of(s.w, s.me, origin) && s.me == origin && s.me.spec.MergeRequestSpec?
    ensures var t := MergeTry(s); Inv(0)(Finish(t.st.w, t.st.me, MergeStatus(t)))
  {
    hide Finish, CreateChange, RefreshValue, DeleteKeepingStatus, Inv, Of;
    var MergeRequestSpec(_, sourceBranch, changesConfigMap, _) := s.me.spec;
    var t := MergeTry(s);
    if HasId(s.me) {
      RefreshValueCarries(s, origin);
      var t1 := RefreshValue(s);
      if t1.Ok? {
        DeleteKeepingStatusCarries(0, t1.st, origin);
      }
      FinishBounded(t.st.w, t.st.me, MergeStatus(t), origin, 0);
    } else if sourceBranch == "" && changesConfigMap == "" {
      FinishBounded(t.st.w, t.st.me, MergeStatus(t), origin, 0);
    } else {
      CreateChangeCarries(s, origin);
      var t1 := CreateChange(s);
      if t1.Ok? {
        DeleteKeepingStatusCarries(1, t1.st, origin);
        FinishBounded(t.st.w, t.st.me, MergeStatus(t), origin, 1);
      } else {
        FinishBounded(t.st.w, t.st.me, MergeStatus(t), origin, 0);
      }
    }
  }

  lemma ReconcileBounded(w: World)
    requires Inv(0)(w)
    ensures Inv(0)(Reconcile(w, MergeRequest))
  {
    InvIsStable(0);
    var w0 := Logged(w, Begin);
    assert Inv(0)(w0);
    hide ApiGet, Finish, MergeTry, Stable, Of, Inv, Logged;
    GetCarries(Inv(0), w0);
    var (w1, r) := ApiGet(w0);
    if r.Answer? && r.obj.spec.MergeRequestSpec? {
      var s := St(w1, r.obj);
      MergeTryBounded(s, r.obj);
      var t := MergeTry(s);
      CountingKeepsBound(Finish(t.st.w, t.st.me, MergeStatus(t)), t.Ok?);
    }
  }

  lemma CountingKeepsBound(w: World, ok: bool)
    requires Inv(0)(w)
    ensures Inv(0)(Counted(w, ok))
  {
    assert BoundedBy(w, 0);
    BookIsUnseen(w);
    assert BoundedBy(Counted(w, ok), 0);
  }

  predicate AllowedMove(m: Move) {
    match m
    case Work(k) => k == MergeRequest
    case Others(steps) => forall s | s in steps :: OneIncarnation(s)
  }

  // ---------- Main results ----------

  lemma {:induction false} RunBounded(w: World, moves: seq<Move>)
    requires BoundedBy(w, 0) && Only(w.script, OneIncarnation)
    requires forall m | m in moves :: AllowedMove(m)
    ensures BoundedBy(Run(w, moves), 0) && Only(Run(w, moves).script, OneIncarnation)
  {
    if moves != [] {
      var init, last := moves[..|moves| - 1], moves[|moves| - 1];
      RunBounded(w, init);
      var v := Run(w, init);
      assert Inv(0)(v);
      assert AllowedMove(last);
      hide Reconcile, BoundedBy, Only;
      match last
      case Work(k) => ReconcileBounded(v);
      case Others(steps) =>
        BoundedIsClosed(0);
        ActPromised(Bounded(0), OneIncarnation, v, steps);
    }
  }

  /** A freshly created merge request that nobody worked on yet. */
  ghost predicate Untouched(w: World) {
    && WellFormed(w)
    && w.book.pushes == 0 && w.book.statusLost == 0 && w.book.dirsLost == 0 && !w.book.ownerlessDelete
    && forall h | h in w.history :: !HasId(h) && !h.deleting
  }

  /** Over any run: at most one push, plus one for every lost status write and every failed directory removal. */
  lemma PushBound(w: World, moves: seq<Move>)
    requires Untouched(w) && Only(w.script, OneIncarnation)
    requires forall m | m in moves :: AllowedMove(m)
    ensures var v := Run(w, moves); !v.book.ownerlessDelete ==> v.book.pushes <= 1 + v.book.statusLost + v.book.dirsLost
  {
    RunBounded(w, moves);
  }

  /** Once the server shows a change id it shows that id for as long as the object exists. */
  lemma RecordedIdIsStable(w: World, before: seq<Move>, after: seq<Move>)
    requires Untouched(w) && Only(w.script, OneIncarnation)
    requires forall m | m in before + after :: AllowedMove(m)
    requires var v := Run(w, before); v.stored.Some? && HasId(v.stored.value)
    ensures var v, x := Run(w, before), Run(w, before + after);
            x.stored.Some? ==> x.stored.value.status.changeId == v.stored.value.status.changeId
  {
    assert forall m | m in before :: m in before + after;
    RunBounded(w, before);
    RunBounded(w, before + after);
    RunOfConcat(w, before, after);
    FinalizerSafety.RunSound(Run(w, before), after);
    hide Run;
  }
}
