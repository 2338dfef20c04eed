/**
 Which Gerrit an object belongs to (controllers/helper/helper.go, GetGerritClient): the one its owner name spells in
 lower case, or the first of the namespace; and once an owner is set, that one for good.
 */
module Owners {
  import opened Cluster
  import opened Helper
  import Effects

  /** The Gerrit to settle on for this owner name. */
  predicate Chosen(g: GerritRef, gerrits: seq<GerritRef>, ownerName: string) {
    g in gerrits && (if ownerName == "" then g == gerrits[0] else g.name == Lower(ownerName))
  }

  predicate SomeNamed(gerrits: seq<GerritRef>, name: string) {
    exists g :: g in gerrits && g.name == name
  }

  lemma {:induction false} NamedFacts(gerrits: seq<GerritRef>, name: string)
    ensures Named(gerrits, name).Some? <==> SomeNamed(gerrits, name)
    ensures Named(gerrits, name).Some? ==> Named(gerrits, name).value in gerrits && Named(gerrits, name).value.name == name
  {
    if gerrits != [] {
      NamedFacts(gerrits[1..], name);
      assert gerrits == [gerrits[0]] + gerrits[1..];
    }
  }

  /** There is one to settle on if and only if the lookup finds it. */
  lemma InstanceFacts(gerrits: seq<GerritRef>, ownerName: string)
    ensures var g := GerritInstance(gerrits, ownerName);
            (g.Some? ==> Chosen(g.value, gerrits, ownerName))
            && (g.None? ==> forall h :: !Chosen(h, gerrits, ownerName))
  {
    NamedFacts(gerrits, Lower(ownerName));
    hide Lower, Named;
  }

  /** The first owner reference of kind Gerrit. */
  ghost predicate FirstGerrit(owners: seq<Owner>, o: Owner) {
    exists i :: 0 <= i < |owners| && owners[i] == o && o.kind == "Gerrit" && forall j | 0 <= j < i :: owners[j].kind != "Gerrit"
  }

  lemma {:induction false} GerritOwnerFacts(owners: seq<Owner>)
    ensures GerritOwner(owners).Some? ==> FirstGerrit(owners, GerritOwner(owners).value)
    ensures GerritOwner(owners).None? ==> forall o | o in owners :: o.kind != "Gerrit"
  {
    if owners != [] {
      if owners[0].kind == "Gerrit" {
        assert owners[0] == GerritOwner(owners).value;
      } else {
        GerritOwnerFacts(owners[1..]);
        if GerritOwner(owners).Some? {
          var o := GerritOwner(owners).value;
          var i :| 0 <= i < |owners[1..]| && owners[1..][i] == o && forall j | 0 <= j < i :: owners[1..][j].kind != "Gerrit";
          assert owners[i + 1] == o && forall j | 0 <= j < i + 1 :: owners[j].kind != "Gerrit" by {
            forall j | 0 <= j < i + 1 ensures owners[j].kind != "Gerrit" {
              assert j > 0 ==> owners[j] == owners[1..][j - 1];
            }
          }
        }
      }
    }
  }

  /** The object's first Gerrit reference names a Gerrit that exists. */
  ghost predicate Settled(owners: seq<Owner>, gerrits: seq<GerritRef>) {
    exists o :: FirstGerrit(owners, o) && SomeNamed(gerrits, o.name)
  }

  lemma ResolveSettles(s: St)
    requires WellFormed(s.w)
    ensures var t := ResolveOwner(s);
            t.st.me == s.me && t.st.w.gerrits == s.w.gerrits && (t.Ok? ==> Settled(s.me.owners, s.w.gerrits))
  {
    CallKeeps(s.w);
    var t := Calling(s).st;
    CallKeeps(t.w);
    var owner := GerritOwner(s.me.owners);
    GerritOwnerFacts(s.me.owners);
    if owner.Some? {
      NamedFacts(s.w.gerrits, owner.value.name);
    }
    hide Call, Named, GerritOwner, FirstGerrit, SomeNamed, WellFormed;
  }

  /** What GetGerritClient leaves: an object's first owner, or the ones it had. */
  ghost predicate Owned(s: St, t: St) {
    && Settled(t.me.owners, s.w.gerrits)
    && (if s.me.owners != [] then t.me.owners == s.me.owners
        else exists g: GerritRef :: Chosen(g, s.w.gerrits, OwnerName(s.me.spec)) && t.me.owners == [Owner("Gerrit", g.name, g.uid)])
  }

  /**
   In every world with any interference: when a reconciler gets its Gerrit client, the object's owner is as it was, or
   it had none and now has the chosen Gerrit as its only one; either way that Gerrit exists.
   */
  lemma EnsureOwnerSettles(s: St)
    requires WellFormed(s.w) && Of(s.w, s.me, s.me)
    ensures var t := EnsureOwner(s); t.Ok? ==> Owned(s, t.st)
  {
    if s.me.owners != [] {
      ResolveSettles(s);
    } else if Calling(s).Ok? {
      var t := Calling(s).st;
      CallKeeps(s.w);
      Effects.CallingKeeps(s, s.me);
      assert t.w.gerrits == s.w.gerrits by { hide Call; }
      InstanceFacts(t.w.gerrits, OwnerName(s.me.spec));
      var g := GerritInstance(t.w.gerrits, OwnerName(t.me.spec));
      if g.Some? {
        var u := t.(me := t.me.(owners := [Owner("Gerrit", g.value.name, g.value.uid)]));
        UpdateReturnsOwners(u.w, u.me);
        hide Calling, GerritInstance, ResolveOwner, Settled, ApiUpdate;
        if Updating(u).Ok? {
          ResolveSettles(Updating(u).st);
        }
      }
    }
    hide ResolveOwner, Calling, Updating, Settled, WellFormed, Of;
  }

  lemma UpdateReturnsOwners(w: World, me: Obj)
    requires WellFormed(w)
    ensures var (v, r) := ApiUpdate(w, me);
            WellFormed(v) && v.gerrits == w.gerrits && (r.Answer? ==> r.obj.owners == me.owners)
  {
    CallKeeps(w);
    var x := Call(w).0;
    hide Call;
    if x.stored.Some? {
      var after := Overwritten(x.stored.value, me);
      if !(x.stored.value.deleting && after.finalizers == []) {
        PutWellFormed(x, x.stored.value, after);
        hide WellFormed;
      }
    }
  }
}
