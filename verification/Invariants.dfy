/**
 Carrying an invariant of the world through the shared helpers. An invariant that calls, main-resource
 updates, the Gerrit server and the event log cannot break survives `EnsureOwner` and `TryToDelete`; what the
 individual reconcilers do to the status is dealt with where their properties are proved.
 */
module Invariants {
  import opened Common
  import opened Cluster
  import opened Helper

  ghost predicate Stable(inv: World -> bool) {
    && (forall w {:trigger inv(w)} | inv(w) :: WellFormed(w))
    && (forall w {:trigger Call(w)} | inv(w) :: inv(Call(w).0))
    && (forall w, me {:trigger ApiUpdate(w, me)} | inv(w) && Derived(w, me) :: inv(ApiUpdate(w, me).0))
    && (forall w, b: Backend {:trigger WithBackend(w, b)} | inv(w) && b.changes.Keys == w.backend.changes.Keys :: inv(WithBackend(w, b)))
    && (forall w, e {:trigger Logged(w, e)} | inv(w) :: inv(Logged(w, e)))
    && (forall w {:trigger Misread(w)} | inv(w) :: inv(Misread(w)))
  }

  /** From s to t: the invariant holds, and the copy still stems from the same origin. */
  ghost predicate Carried(inv: World -> bool, s: St, t: St, origin: Obj) {
    && inv(t.w)
    && Of(t.w, t.me, origin)
    && (t.me.status == s.me.status || t.me.status == origin.status)
    && s.w.history <= t.w.history
  }

  lemma CallingCarries(inv: World -> bool, s: St, origin: Obj)
    requires Stable(inv) && inv(s.w) && Of(s.w, s.me, origin)
    ensures Carried(inv, s, Calling(s).st, origin)
  {
    CallKeeps(s.w);
    OfGrows(s.w, Call(s.w).0, s.me, origin);
    hide Call;
  }

  lemma UpdatingCarries(inv: World -> bool, s: St, origin: Obj)
    requires Stable(inv) && inv(s.w) && Of(s.w, s.me, origin)
    ensures Carried(inv, s, Updating(s).st, origin)
  {
    UpdateFacts(s.w, s.me, origin);
    hide ApiUpdate, Of, WellFormed;
  }

  /** Only a push makes a change known. */
  lemma ServingCarries(inv: World -> bool, s: St, b: Backend, origin: Obj)
    requires Stable(inv) && inv(s.w) && Of(s.w, s.me, origin) && b.changes.Keys == s.w.backend.changes.Keys
    ensures Carried(inv, s, Serving(s, b).st, origin)
  {
  }

  lemma ResolveOwnerCarries(inv: World -> bool, s: St, origin: Obj)
    requires Stable(inv) && inv(s.w) && Of(s.w, s.me, origin)
    ensures Carried(inv, s, ResolveOwner(s).st, origin)
  {
    hide Calling, Stable, Of, GerritOwner, Named;
    CallingCarries(inv, s, origin);
    CallingCarries(inv, Calling(s).st, origin);
  }

  lemma OwnersAreNoFact(w: World, me: Obj, owners: seq<Owner>, origin: Obj)
    requires Of(w, me, origin) && owners != []
    ensures Of(w, me.(owners := owners), origin)
  {
  }

  lemma EnsureOwnerCarries(inv: World -> bool, s: St, origin: Obj)
    requires Stable(inv) && inv(s.w) && Of(s.w, s.me, origin)
    ensures Carried(inv, s, EnsureOwner(s).st, origin)
  {
    hide Stable, Of;
    if s.me.owners != [] {
      ResolveOwnerCarries(inv, s, origin);
    } else {
      CallingCarries(inv, s, origin);
      var s1 := Calling(s).st;
      var g := GerritInstance(s1.w.gerrits, OwnerName(s1.me.spec));
      if Calling(s).Ok? && g.Some? {
        var s2 := s1.(me := s1.me.(owners := [Owner("Gerrit", g.value.name, g.value.uid)]));
        OwnersAreNoFact(s1.w, s1.me, s2.me.owners, origin);
        UpdatingCarries(inv, s2, origin);
        var s3 := Updating(s2).st;
        ResolveOwnerCarries(inv, s3, origin);
        hide Updating, ResolveOwner, Calling, Stable;
      }
    }
  }

  lemma AbandonIfNewCarries(inv: World -> bool, s: St, origin: Obj)
    requires Stable(inv) && inv(s.w) && Of(s.w, s.me, origin)
    ensures Carried(inv, s, AbandonIfNew(s).st, origin)
  {
    hide Stable, Of;
    CallingCarries(inv, s, origin);
    var s1 := Calling(s).st;
    CallingCarries(inv, s1, origin);
    var s2 := Calling(s1).st;
    var id := s1.me.status.changeId;
    CallingKeepsBackend(inv, s1);
    hide Calling;
    if id in s1.w.backend.changes {
      var changes := s2.w.backend.changes[id := CHANGE_ABANDONED];
      assert changes.Keys == s2.w.backend.changes.Keys;
      ServingCarries(inv, s2, s2.w.backend.(changes := changes), origin);
    }
  }

  lemma CallingKeepsBackend(inv: World -> bool, s: St)
    requires Stable(inv) && inv(s.w)
    ensures Calling(s).st.w.backend == s.w.backend && Calling(s).st.me == s.me
  {
    CallKeeps(s.w);
    hide Call;
  }

  lemma CleanupCarries(inv: World -> bool, s: St, origin: Obj)
    requires Stable(inv) && inv(s.w) && Of(s.w, s.me, origin)
    ensures Carried(inv, s, Cleanup(s).st, origin)
  {
    if s.me.spec.MergeRequestSpec? {
      EnsureOwnerCarries(inv, s, origin);
      AbandonIfNewCarries(inv, EnsureOwner(s).st, origin);
      hide EnsureOwner, AbandonIfNew, Stable, Of;
    } else {
      CallingCarries(inv, s, origin);
      var s1 := Calling(s).st;
      var b := AfterRemoval(s1.me.spec, s1.w.backend);
      if b.Some? {
        assert b.value.changes == s1.w.backend.changes;
        ServingCarries(inv, s1, b.value, origin);
      }
      hide Calling, Stable, Of, AfterRemoval;
    }
  }

  lemma TryToDeleteCarries(inv: World -> bool, s: St, origin: Obj)
    requires Stable(inv) && inv(s.w) && Of(s.w, s.me, origin)
    ensures Carried(inv, s, TryToDelete(s).st, origin)
  {
    var f := FinalizerOf(s.me.spec);
    if !s.me.deleting {
      UpdatingCarries(inv, s.(me := s.me.(finalizers := s.me.finalizers + [f])), origin);
    } else {
      CleanupCarries(inv, s, origin);
      var s1 := Cleanup(s).st;
      if Cleanup(s).Ok? {
        var s2 := s1.(w := Logged(s1.w, Cleaned));
        OfGrows(s1.w, s2.w, s1.me, origin);
        UpdatingCarries(inv, s2.(me := s2.me.(finalizers := Without(s2.me.finalizers, f))), origin);
      }
    }
    hide Updating, Cleanup;
  }

  // ---------- Showing that an invariant is stable ----------

  /** The steps of the others that a theorem allows. */
  ghost predicate Only(script: seq<Turn>, allowed: Step -> bool) {
    forall t | t in script :: AllAllowed(t.steps, allowed)
  }

  ghost predicate AllAllowed(steps: seq<Step>, allowed: Step -> bool) {
    forall s | s in steps :: allowed(s)
  }

  function WithScript(w: World, script: seq<Turn>): World {
    w.(script := script)
  }

  /** A write that touches neither status nor identity nor the deletion mark. */
  predicate PlainWrite(before: Obj, after: Obj) {
    && after.status == before.status && after.uid == before.uid && after.version == before.version
    && after.deleting == before.deleting && (after.deleting ==> after.finalizers != [])
  }

  /** What has to be shown of a property that does not look at the script. */
  ghost predicate Closed(core: World -> bool, allowed: Step -> bool) {
    && (forall w {:trigger core(w)} | core(w) :: WellFormed(w))
    && (forall w, s {:trigger Take(w, s)} | core(w) && allowed(s) :: core(Take(w, s)))
    && (forall w, a, b {:trigger Put(w, a, b)} | core(w) && w.stored == Some(a) && PlainWrite(a, b) && KeepsOwner(a, b) :: core(Put(w, a, b)))
    && (forall w, a {:trigger Gone(w, a)} | core(w) && w.stored == Some(a) :: core(Gone(w, a)))
    && (forall w, b: Backend {:trigger WithBackend(w, b)} | core(w) && b.changes.Keys == w.backend.changes.Keys :: core(WithBackend(w, b)))
    && (forall w, e {:trigger Logged(w, e)} | core(w) :: core(Logged(w, e)))
    && (forall w {:trigger Misread(w)} | core(w) :: core(Misread(w)))
    && (forall w, sc {:trigger WithScript(w, sc)} | core(w) :: core(WithScript(w, sc)))
  }

  /** The property together with the promise that the remaining script keeps to the allowed steps. */
  ghost function Promised(core: World -> bool, allowed: Step -> bool): World -> bool {
    w => core(w) && Only(w.script, allowed)
  }

  lemma {:induction false} ActPromised(core: World -> bool, allowed: Step -> bool, w: World, steps: seq<Step>)
    requires Closed(core, allowed) && Promised(core, allowed)(w) && AllAllowed(steps, allowed)
    ensures Promised(core, allowed)(Act(w, steps))
    decreases |steps|
  {
    hide Take;
    if steps != [] {
      TakeKeeps(w, steps[0]);
      assert steps[0] in steps && forall s | s in steps[1..] :: s in steps;
      ActPromised(core, allowed, Take(w, steps[0]), steps[1..]);
    }
  }

  lemma CallPromised(core: World -> bool, allowed: Step -> bool, w: World)
    requires Closed(core, allowed) && Promised(core, allowed)(w)
    ensures Promised(core, allowed)(Call(w).0)
  {
    if w.script != [] {
      assert w.script[0] in w.script && forall t | t in w.script[1..] :: t in w.script;
      ActPromised(core, allowed, WithScript(w, w.script[1..]), w.script[0].steps);
    }
  }

  /** A copy that is still current has an owner if the stored object has one. */
  lemma CurrentOwner(w: World, v: World, me: Obj)
    requires Derived(w, me) && w.history <= v.history && WellFormed(v)
    requires v.stored.Some? && v.stored.value.version == me.version
    ensures KeepsOwner(v.stored.value, me)
  {
  }

  lemma UpdatePromised(core: World -> bool, allowed: Step -> bool, w: World, me: Obj)
    requires Closed(core, allowed) && Promised(core, allowed)(w) && Derived(w, me)
    ensures Promised(core, allowed)(ApiUpdate(w, me).0)
  {
    CallPromised(core, allowed, w);
    CallKeeps(w);
    var v := Call(w).0;
    hide Call, Take;
    if v.stored.Some? && v.stored.value.version == me.version {
      var cur := v.stored.value;
      var after := Overwritten(cur, me);
      if !(cur.deleting && after.finalizers == []) {
        assert PlainWrite(cur, after);
        assert KeepsOwner(cur, after) by { CurrentOwner(w, v, me); }
        assert core(Put(v, cur, after));
      } else {
        assert core(Gone(v, cur));
      }
    }
  }

  lemma ClosedIsStable(core: World -> bool, allowed: Step -> bool)
    requires Closed(core, allowed)
    ensures Stable(Promised(core, allowed))
  {
    var inv := Promised(core, allowed);
    forall w | inv(w) ensures inv(Call(w).0) { CallPromised(core, allowed, w); }
    forall w, me | inv(w) && Derived(w, me) ensures inv(ApiUpdate(w, me).0) { UpdatePromised(core, allowed, w, me); }
    hide Call, ApiUpdate, Take, Put, Gone;
  }

  // ---------- Reading, and whole attempts ----------

  lemma GetCarries(inv: World -> bool, w: World)
    requires Stable(inv) && inv(w)
    ensures var (v, r) := ApiGet(w); inv(v) && (r.Answer? ==> Of(v, r.obj, r.obj))
  {
    CallKeeps(w);
    hide Call;
  }

  lemma CarriedTransitive(inv: World -> bool, s: St, t: St, u: St, origin: Obj)
    requires Carried(inv, s, t, origin) && Carried(inv, t, u, origin)
    ensures Carried(inv, s, u, origin)
  {
  }
}
