/**
 The shared helpers in the form of the source (controllers/helper/helper.go): they change the caller's object and
 push it to the server. Each does exactly what its function in module Helper says.
 */
module HelperMethods {
  import opened Common
  import opened Cluster
  import opened Helper
  import opened Runtime

  method ContainsString(slice: seq<string>, s: string) returns (found: bool)
    ensures found <==> s in slice
  {
    for i := 0 to |slice|
      invariant s !in slice[..i]
    {
      if slice[i] == s {
        return true;
      }
    }
    return false;
  }

  lemma {:induction false} WithoutStep(s: seq<string>, x: string, i: nat)
    requires i < |s|
    ensures Without(s[..i + 1], x) == Without(s[..i], x) + (if s[i] == x then [] else [s[i]])
  {
    if i > 0 {
      WithoutStep(s[1..], x, i - 1);
      assert s[..i + 1][1..] == s[1..][..i] && s[..i][1..] == s[1..][..i - 1];
      assert s[..i + 1][0] == s[0] && s[..i][0] == s[0];
    } else {
      assert s[..1][1..] == [] && s[..0] == [];
    }
  }

  method RemoveString(slice: seq<string>, s: string) returns (result: seq<string>)
    ensures result == Without(slice, s)
    ensures s !in result && forall x | x != s :: x in result <==> x in slice
  {
    result := [];
    for i := 0 to |slice|
      invariant result == Without(slice[..i], s)
    {
      WithoutStep(slice, s, i);
      if slice[i] == s {
        continue;
      }
      result := result + [slice[i]];
    }
    assert slice[..|slice|] == slice;
    forall x ensures x in result <==> x in slice && x != s {
      WithoutContains(slice, s, x);
    }
  }

  method GetGerritOwner(references: seq<Owner>) returns (owner: Option<Owner>)
    ensures owner == GerritOwner(references)
  {
    for i := 0 to |references|
      invariant GerritOwner(references) == GerritOwner(references[i..])
    {
      assert references[i..][1..] == references[i + 1..];
      if references[i].kind == "Gerrit" {
        return Some(references[i]);
      }
    }
    return None;
  }

  /** The first Gerrit of that name, as the API server finds it. */
  method FindGerrit(gerrits: seq<GerritRef>, name: string) returns (g: Option<GerritRef>)
    ensures g == Named(gerrits, name)
  {
    for i := 0 to |gerrits|
      invariant Named(gerrits, name) == Named(gerrits[i..], name)
    {
      assert gerrits[i..][1..] == gerrits[i + 1..];
      if gerrits[i].name == name {
        return Some(gerrits[i]);
      }
    }
    return None;
  }

  method GetGerritInstance(c: Client, ownerName: string) returns (g: Option<GerritRef>)
    modifies c
    ensures c.w == Remote(old(c.w)).0
    ensures g == if Remote(old(c.w)).1 then GerritInstance(c.w.gerrits, ownerName) else None
  {
    hide Call;
    var works := c.Ask();
    if !works {
      return None;
    }
    if ownerName == "" {
      return if c.w.gerrits == [] then None else Some(c.w.gerrits[0]);
    }
    g := FindGerrit(c.w.gerrits, Lower(ownerName));
  }

  method SetOwnerReference(me: Instance, kind: string, g: GerritRef)
    modifies me
    ensures me.View() == old(me.View()).(owners := [Owner(kind, g.name, g.uid)])
  {
    var listOwnReference: seq<Owner> := [];
    var ownRef := Owner(kind, g.name, g.uid);
    listOwnReference := listOwnReference + [ownRef];
    me.owners := listOwnReference;
  }

  method GetInstanceOwner(c: Client, me: Instance) returns (ok: bool)
    modifies c
    ensures var s := old(State(c, me));
            var owner := GerritOwner(s.me.owners);
            Outcome(ok, c, me) == (
              if owner.None? then Err(s)
              else
                var s :- Calling(s);
                if Named(s.w.gerrits, owner.value.name).None? then Err(s) else Ok(s))
  {
    hide Call, GerritOwner, Named;
    var owner := GetGerritOwner(me.owners);
    if owner.None? {
      return false;
    }
    var works := c.Ask();
    if !works {
      return false;
    }
    var g := FindGerrit(c.w.gerrits, owner.value.name);
    return g.Some?;
  }

  method GetGerritClient(c: Client, me: Instance) returns (ok: bool)
    modifies c, me
    ensures Outcome(ok, c, me) == EnsureOwner(old(State(c, me)))
  {
    hide Call, GerritOwner, Named, GerritInstance, ApiUpdate;
    if |me.owners| == 0 {
      var g := GetGerritInstance(c, OwnerName(me.spec));
      if g.None? {
        return false;
      }
      SetOwnerReference(me, "Gerrit", g.value);
      var err := c.Update(me);
      if err != NoFault {
        return false;
      }
    }
    var found := GetInstanceOwner(c, me);
    if !found {
      return false;
    }
    ok := c.Ask();
  }

  /** The deletion function of the merge-request reconciler. */
  method AbandonChange(c: Client, me: Instance) returns (ok: bool)
    modifies c, me
    ensures Outcome(ok, c, me) == (var s :- EnsureOwner(old(State(c, me))); AbandonIfNew(s))
  {
    hide Call, EnsureOwner;
    var connected := GetGerritClient(c, me);
    if !connected {
      return false;
    }
    var works := c.Ask();
    var id := me.status.changeId;
    if !works || id == "" || id !in c.w.backend.changes {
      return false;
    }
    if c.w.backend.changes[id] == CHANGE_NEW {
      works := c.Ask();
      if !works {
        return false;
      }
      c.Serve(c.w.backend.(changes := c.w.backend.changes[id := CHANGE_ABANDONED]));
    }
    return true;
  }

  /** The deletion functions of the other three. */
  method RemoveFromBackend(c: Client, me: Instance) returns (ok: bool)
    requires !me.spec.MergeRequestSpec?
    modifies c
    ensures Outcome(ok, c, me) == Cleanup(old(State(c, me)))
  {
    hide Call, AfterRemoval;
    var works := c.Ask();
    if !works {
      return false;
    }
    var b := AfterRemoval(me.spec, c.w.backend);
    if b.None? {
      return false;
    }
    c.Serve(b.value);
    return true;
  }

  method DeleteFunc(c: Client, me: Instance) returns (ok: bool)
    modifies c, me
    ensures Outcome(ok, c, me) == Cleanup(old(State(c, me)))
  {
    hide EnsureOwner, AbandonIfNew;
    if me.spec.MergeRequestSpec? {
      ok := AbandonChange(c, me);
    } else {
      ok := RemoveFromBackend(c, me);
    }
  }

  method TryToDelete(c: Client, me: Instance) returns (ok: bool)
    modifies c, me
    ensures Outcome(ok, c, me) == Helper.TryToDelete(old(State(c, me)))
  {
    hide Cleanup, ApiUpdate, FinalizerOf;
    var finalizerName := FinalizerOf(me.spec);
    if !me.deleting {
      var found := ContainsString(me.finalizers, finalizerName);
      if !found {
        me.finalizers := me.finalizers + [finalizerName];
        var err := c.Update(me);
        return err == NoFault;
      }
      return true;
    }
    var cleaned := DeleteFunc(c, me);
    if !cleaned {
      return false;
    }
    c.Log(Cleaned);
    var finalizers := RemoveString(me.finalizers, finalizerName);
    me.finalizers := finalizers;
    var err := c.Update(me);
    return err == NoFault;
  }
}
