/**
 The helpers every reconciler runs through (controllers/helper/helper.go): finding the Gerrit client, which
 may store an owner reference first, and the finalizer protocol. Functions on values: the world and the
 caller's copy of the object go in and come out.
 */
module Helper {
  import opened Common
  import opened Cluster

  datatype St = St(w: World, me: Obj)

  /** The outcome of a step that may return an error; the effects it had are in the state either way. */
  datatype Try = Ok(st: St) | Err(st: St) {
    predicate IsFailure() { Err? }
    function PropagateFailure(): Try requires Err? { this }
    function Extract(): St requires Ok? { st }
  }

  function Calling(s: St): Try {
    var (w, works) := Remote(s.w);
    if works then Ok(s.(w := w)) else Err(s.(w := w))
  }

  /** client.Update: on success the server copy is written back into the caller's object. */
  function Updating(s: St): Try {
    var (w, r) := ApiUpdate(s.w, s.me);
    if r.Answer? then Ok(St(w, r.obj)) else Err(s.(w := w))
  }

  function Lower(s: string): string {
    seq(|s|, i requires 0 <= i < |s| => if 'A' <= s[i] <= 'Z' then (s[i] as int + 32) as char else s[i])
  }

  function OwnerName(spec: Spec): string {
    if spec.GerritSpec? then "" else spec.ownerName
  }

  function Named(gerrits: seq<GerritRef>, name: string): Option<GerritRef> {
    if gerrits == [] then None else if gerrits[0].name == name then Some(gerrits[0]) else Named(gerrits[1..], name)
  }

  /** GetGerritInstance: the first Gerrit of the namespace when no name is given. */
  function GerritInstance(gerrits: seq<GerritRef>, ownerName: string): Option<GerritRef> {
    if ownerName != "" then Named(gerrits, Lower(ownerName))
    else if gerrits == [] then None
    else Some(gerrits[0])
  }

  function GerritOwner(owners: seq<Owner>): Option<Owner> {
    if owners == [] then None else if owners[0].kind == "Gerrit" then Some(owners[0]) else GerritOwner(owners[1..])
  }

  /** GetInstanceOwner and GetRestClient. */
  function ResolveOwner(s: St): Try {
    var owner := GerritOwner(s.me.owners);
    if owner.None? then Err(s)
    else
      var s :- Calling(s);
      if Named(s.w.gerrits, owner.value.name).None? then Err(s) else Calling(s)
  }

  /** GetGerritClient. */
  function EnsureOwner(s: St): Try {
    if s.me.owners != [] then ResolveOwner(s)
    else
      var s :- Calling(s);
      var g := GerritInstance(s.w.gerrits, OwnerName(s.me.spec));
      if g.None? then Err(s)
      else
        var s :- Updating(s.(me := s.me.(owners := [Owner("Gerrit", g.value.name, g.value.uid)])));
        ResolveOwner(s)
  }

  // ---------- Cleanup functions of the four reconcilers ----------

  function WithBackend(w: World, b: Backend): World {
    w.(backend := b)
  }

  function Serving(s: St, b: Backend): Try {
    Ok(s.(w := WithBackend(s.w, b)))
  }

  /** ChangeAbandon needs a change that is known; abandoning leaves it ABANDONED. */
  function AbandonIfNew(s: St): Try {
    var s :- Calling(s);
    var id := s.me.status.changeId;
    if id == "" || id !in s.w.backend.changes then Err(s)
    else if s.w.backend.changes[id] != CHANGE_NEW then Ok(s)
    else
      var s :- Calling(s);
      Serving(s, s.w.backend.(changes := s.w.backend.changes[id := CHANGE_ABANDONED]))
  }

  /** DeleteUserFromGroup, DeleteProject and DeleteAccessRights; Gerrit answers an error when there is nothing to delete. */
  function AfterRemoval(spec: Spec, b: Backend): Option<Backend> {
    match spec
    case MemberSpec(g, a, _) => if (g, a) in b.members then Some(b.(members := b.members - {(g, a)})) else None
    case ProjectSpec(n, _, _, _) => if n in b.projects then Some(b.(projects := b.projects - {n})) else None
    case AccessSpec(p, _, l, _) =>
      if p in b.access then Some(b.(access := b.access[p := AccessRights.AfterDelete(b.access[p], l)])) else None
    case _ => None
  }

  /** The function given to TryToDelete. */
  function Cleanup(s: St): Try {
    if s.me.spec.MergeRequestSpec? then
      var s :- EnsureOwner(s);
      AbandonIfNew(s)
    else
      var s :- Calling(s);
      var b := AfterRemoval(s.me.spec, s.w.backend);
      if b.None? then Err(s) else Serving(s, b.value)
  }

  function TryToDelete(s: St): Try {
    var f := FinalizerOf(s.me.spec);
    if !s.me.deleting then
      if f in s.me.finalizers then Ok(s)
      else Updating(s.(me := s.me.(finalizers := s.me.finalizers + [f])))
    else
      var s :- Cleanup(s);
      var s := s.(w := Logged(s.w, Cleaned));
      Updating(s.(me := s.me.(finalizers := Without(s.me.finalizers, f))))
  }

  // ---------- What a copy remembers ----------

  predicate SameFacts(a: Obj, b: Obj) {
    a.uid == b.uid && a.spec == b.spec && a.status == b.status && a.deleting == b.deleting
  }

  /**
   The caller's copy stems from the server copy `origin`: the state that its version names differs from the
   origin in finalizers, owners and annotations only, and the copy has an owner if that state had one. The status
   in the copy may have been changed locally.
   */
  ghost predicate Of(w: World, me: Obj, origin: Obj) {
    && me.uid == origin.uid && me.spec == origin.spec && me.deleting == origin.deleting
    && Stems(w, me, origin)
    && Seen(w, origin)
  }

  ghost predicate Stems(w: World, me: Obj, origin: Obj) {
    exists b :: b in w.history && b.version == me.version && SameFacts(b, origin) && KeepsOwner(b, me)
  }

  /** The object once was as the origin is, also as to whether it has an owner. */
  ghost predicate Seen(w: World, origin: Obj) {
    exists b :: b in w.history && SameFacts(b, origin) && KeepsOwner(b, origin)
  }

  /** The operator sets owner references but never takes the last one away. */
  predicate KeepsOwner(before: Obj, after: Obj) {
    before.owners != [] ==> after.owners != []
  }

  /** The copy stems from the state that its version names. */
  ghost predicate Derived(w: World, me: Obj) {
    exists b :: b in w.history && b.version == me.version && KeepsOwner(b, me)
  }

  /** If a copy of this kind is current, the stored object has the facts of the origin. */
  lemma CurrentFacts(w: World, me: Obj, origin: Obj)
    requires WellFormed(w) && Of(w, me, origin)
    requires w.stored.Some? && w.stored.value.version == me.version
    ensures SameFacts(w.stored.value, origin)
  {
  }

  lemma OfGrows(w: World, v: World, me: Obj, origin: Obj)
    requires Of(w, me, origin) && w.history <= v.history
    ensures Of(v, me, origin)
  {
  }

  /** A main-resource update never changes the status, whatever the caller's copy says. */
  lemma UpdateFacts(w: World, me: Obj, origin: Obj)
    requires WellFormed(w) && Of(w, me, origin)
    ensures var (v, r) := ApiUpdate(w, me);
            WellFormed(v) && w.history <= v.history
            && (r.Answer? ==> Of(v, r.obj, origin) && r.obj.status == origin.status)
            && Of(v, me, origin)
  {
    CallKeeps(w);
    var v := Call(w).0;
    OfGrows(w, v, me, origin);
    hide Call, Of;
    if v.stored.Some? && v.stored.value.version == me.version {
      var cur := v.stored.value;
      var after := Overwritten(cur, me);
      if cur.deleting && after.finalizers == [] {
        GoneFacts(v, me, origin);
      } else {
        PutFacts(v, me, origin);
      }
    }
    hide WellFormed, Put, Gone;
  }

  lemma PutFacts(v: World, me: Obj, origin: Obj)
    requires WellFormed(v) && Of(v, me, origin) && v.stored.Some? && v.stored.value.version == me.version
    requires v.stored.value.deleting ==> me.finalizers != []
    ensures var x := Put(v, v.stored.value, Overwritten(v.stored.value, me));
            WellFormed(x) && v.history <= x.history && x.stored.Some?
            && Of(x, x.stored.value, origin) && Of(x, me, origin) && x.stored.value.status == origin.status
  {
    CurrentFacts(v, me, origin);
    var cur := v.stored.value;
    var x := Put(v, cur, Overwritten(cur, me));
    PutWellFormed(v, cur, Overwritten(cur, me));
    OfGrows(v, x, me, origin);
    assert x.stored.value in x.history && SameFacts(x.stored.value, origin);
    hide WellFormed, Noted;
  }

  lemma GoneFacts(v: World, me: Obj, origin: Obj)
    requires WellFormed(v) && Of(v, me, origin) && v.stored.Some? && v.stored.value.version == me.version
    ensures var cur := v.stored.value;
            var after := Overwritten(cur, me);
            WellFormed(Gone(v, cur)) && Of(Gone(v, cur), after, origin) && Of(Gone(v, cur), me, origin) && after.status == origin.status
            && v.history <= Gone(v, cur).history
  {
    CurrentFacts(v, me, origin);
    hide Tidy;
  }
}
