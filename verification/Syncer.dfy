/**
 The project syncer (controllers/gerritproject/syncer.go): one pass lists the projects of a Gerrit server, creates
 a custom resource for every project that none of its own resources stands for, and writes the branches of every
 project into the status of its resource.

 Every call consumes a turn: before it, the project reconciler may have set owner references, and the call may
 fail. A pass that runs out of turns is an operator that is killed.
 */
module Syncer {
  import opened Common
  import opened Cluster
  import opened Helper

  datatype Instance = Instance(kind: string, name: string, uid: nat)

  /** A GerritProject resource. */
  datatype Cr = Cr(
    name: string, spec: string, parent: string, description: string, ownerName: string,
    owners: seq<Owner>, branches: seq<string>)

  /** A project on the Gerrit server with its branches. */
  datatype Listed = Listed(name: string, parent: string, description: string, refs: seq<string>)

  datatype Tick = Tick(works: bool, adopted: seq<(string, Owner)>)

  /** `created` counts the resources created so far. */
  datatype Shop = Shop(crs: seq<Cr>, turns: seq<Tick>, created: nat)

  datatype Out = Synced(s: Shop) | Broken(s: Shop) {
    predicate IsFailure() { Broken? }
    function PropagateFailure(): Out requires Broken? { this }
    function Extract(): Shop requires Synced? { s }
  }

  // ---------- The server ----------

  /** SetOwnerReference of the project reconciler leaves existing owners alone. */
  function Adopted(crs: seq<Cr>, name: string, owner: Owner): (r: seq<Cr>)
    ensures |r| == |crs|
  {
    if crs == [] then []
    else [if crs[0].name == name && crs[0].owners == [] then crs[0].(owners := [owner]) else crs[0]] + Adopted(crs[1..], name, owner)
  }

  function AllAdopted(crs: seq<Cr>, adopted: seq<(string, Owner)>): seq<Cr>
    decreases |adopted|
  {
    if adopted == [] then crs else AllAdopted(Adopted(crs, adopted[0].0, adopted[0].1), adopted[1..])
  }

  function Asking(s: Shop): Out {
    if s.turns == [] then Broken(s)
    else
      var t := s.(crs := AllAdopted(s.crs, s.turns[0].adopted), turns := s.turns[1..]);
      if s.turns[0].works then Synced(t) else Broken(t)
  }

  function CrNamed(crs: seq<Cr>, name: string): Option<Cr> {
    if crs == [] then None else if crs[0].name == name then Some(crs[0]) else CrNamed(crs[1..], name)
  }

  function WithBranches(crs: seq<Cr>, name: string, refs: seq<string>): (r: seq<Cr>)
    ensures |r| == |crs|
    ensures forall i | 0 <= i < |crs| :: r[i] == if crs[i].name == name then crs[i].(branches := refs) else crs[i]
  {
    seq(|crs|, i requires 0 <= i < |crs| => if crs[i].name == name then crs[i].(branches := refs) else crs[i])
  }

  function RefsOf(all: seq<Listed>, name: string): Option<seq<string>> {
    if all == [] then None else if all[0].name == name then Some(all[0].refs) else RefsOf(all[1..], name)
  }

  /** ListProjects drops the two projects that Gerrit keeps for itself. */
  function Visible(all: seq<Listed>): seq<Listed> {
    if all == [] then []
    else (if Internal(all[0]) then [] else [all[0]]) + Visible(all[1..])
  }

  predicate Internal(p: Listed) {
    p.name == "All-Projects" || p.name == "All-Users"
  }

  // ---------- One pass ----------

  predicate Owns(g: Instance, c: Cr) {
    exists o :: o in c.owners && o.uid == g.uid && o.kind == g.kind
  }

  /** The last resource of the instance that stands for this project. */
  function Indexed(g: Instance, snapshot: seq<Cr>, name: string): Option<Cr> {
    if snapshot == [] then None
    else
      var c := snapshot[|snapshot| - 1];
      if Owns(g, c) && c.spec == name then Some(c) else Indexed(g, snapshot[..|snapshot| - 1], name)
  }

  function NameFor(g: Instance, slug: string -> string, p: Listed): string {
    Lower(g.name + "-" + slug(p.name))
  }

  function CreateProject(s: Shop, g: Instance, slug: string -> string, p: Listed): Out {
    var s :- Asking(s);
    if CrNamed(s.crs, NameFor(g, slug, p)).Some? then Broken(s)
    else
      var c := Cr(NameFor(g, slug, p), p.name, p.parent, p.description, g.name, [], []);
      Synced(s.(crs := s.crs + [c], created := s.created + 1))
  }

  /** The status write conflicts when the resource changed since it was read. */
  function SyncBranches(s: Shop, all: seq<Listed>, name: string, spec: string): Out {
    var s :- Asking(s);
    var refs := RefsOf(all, spec);
    if refs.None? then Broken(s)
    else
      var s :- Asking(s);
      var read := CrNamed(s.crs, name);
      if read.None? then Broken(s)
      else
        var s :- Asking(s);
        if CrNamed(s.crs, name) != read then Broken(s)
        else Synced(s.(crs := WithBranches(s.crs, name, refs.value)))
  }

  function SyncProject(s: Shop, g: Instance, slug: string -> string, all: seq<Listed>, snapshot: seq<Cr>, p: Listed): Out {
    var found := Indexed(g, snapshot, p.name);
    if found.Some? then SyncBranches(s, all, found.value.name, found.value.spec)
    else
      var s :- CreateProject(s, g, slug, p);
      SyncBranches(s, all, NameFor(g, slug, p), p.name)
  }

  function SyncEach(s: Shop, g: Instance, slug: string -> string, all: seq<Listed>, snapshot: seq<Cr>, todo: seq<Listed>): Out
    decreases |todo|
  {
    if todo == [] then Synced(s)
    else
      var s :- SyncProject(s, g, slug, all, snapshot, todo[0]);
      SyncEach(s, g, slug, all, snapshot, todo[1..])
  }

  /** List the Gerrits and the resources, connect, list the projects, sync each of them. */
  function SyncTick(s: Shop, g: Instance, slug: string -> string, all: seq<Listed>): Out {
    var s :- Asking(s);
    var s :- Asking(s);
    var snapshot := s.crs;
    var s :- Asking(s);
    var s :- Asking(s);
    SyncEach(s, g, slug, all, snapshot, Visible(all))
  }

  // ---------- What the server keeps ----------

  ghost predicate Unique(crs: seq<Cr>) {
    forall i, j | 0 <= i < j < |crs| :: crs[i].name != crs[j].name
  }

  /** Resources are only added, and what identifies them stays; owners are set once. */
  ghost predicate Grows(before: seq<Cr>, after: seq<Cr>) {
    && |before| <= |after|
    && forall i | 0 <= i < |before| ::
         && after[i].name == before[i].name && after[i].spec == before[i].spec
         && (before[i].owners != [] ==> after[i].owners == before[i].owners)
  }

  /** Only branches of resources of this project were written. */
  ghost predicate BranchesOnly(before: seq<Cr>, after: seq<Cr>, project: string) {
    forall i | 0 <= i < |before| && i < |after| :: before[i].spec != project ==> after[i].branches == before[i].branches
  }

  ghost predicate Reflects(crs: seq<Cr>, p: Listed) {
    exists c :: c in crs && c.spec == p.name && c.branches == p.refs
  }

  lemma GrowsTransitive(a: seq<Cr>, b: seq<Cr>, c: seq<Cr>, q: string)
    requires Grows(a, b) && Grows(b, c) && BranchesOnly(a, b, q) && BranchesOnly(b, c, q)
    ensures Grows(a, c) && BranchesOnly(a, c, q)
  {
  }

  lemma GrowsChain(a: seq<Cr>, b: seq<Cr>, c: seq<Cr>)
    requires Grows(a, b) && Grows(b, c)
    ensures Grows(a, c)
  {
  }

  lemma {:induction false} AdoptedFacts(crs: seq<Cr>, name: string, owner: Owner)
    ensures var r := Adopted(crs, name, owner);
            |r| == |crs|
            && forall i | 0 <= i < |crs| :: r[i].(owners := crs[i].owners) == crs[i]
                 && (crs[i].owners != [] ==> r[i].owners == crs[i].owners)
  {
    if crs != [] {
      AdoptedFacts(crs[1..], name, owner);
    }
  }

  /** Adoption changes owners of resources that have none, and nothing else. */
  lemma {:induction false} AllAdoptedFacts(crs: seq<Cr>, adopted: seq<(string, Owner)>)
    ensures var r := AllAdopted(crs, adopted);
            |r| == |crs|
            && forall i | 0 <= i < |crs| :: r[i].(owners := crs[i].owners) == crs[i]
                 && (crs[i].owners != [] ==> r[i].owners == crs[i].owners)
    decreases |adopted|
  {
    if adopted != [] {
      AdoptedFacts(crs, adopted[0].0, adopted[0].1);
      AllAdoptedFacts(Adopted(crs, adopted[0].0, adopted[0].1), adopted[1..]);
      hide Adopted;
    }
  }

  lemma AskingFacts(s: Shop)
    ensures var t := Asking(s).s;
            |t.crs| == |s.crs| && t.created == s.created && Grows(s.crs, t.crs)
            && (forall i | 0 <= i < |s.crs| :: t.crs[i].branches == s.crs[i].branches)
            && (Unique(s.crs) ==> Unique(t.crs))
  {
    if s.turns != [] {
      AllAdoptedFacts(s.crs, s.turns[0].adopted);
      hide AllAdopted;
    }
  }

  lemma {:induction false} NamedAt(crs: seq<Cr>, name: string)
    ensures match CrNamed(crs, name)
            case Some(c) => c in crs && c.name == name
            case None => forall c | c in crs :: c.name != name
  {
    if crs != [] {
      NamedAt(crs[1..], name);
      assert crs == [crs[0]] + crs[1..];
    }
  }

  lemma {:induction false} IndexedIsLastOwned(g: Instance, snapshot: seq<Cr>, name: string)
    ensures match Indexed(g, snapshot, name)
            case Some(c) =>
              exists i :: 0 <= i < |snapshot| && snapshot[i] == c && Owns(g, c) && c.spec == name
                && forall k | i < k < |snapshot| :: !(Owns(g, snapshot[k]) && snapshot[k].spec == name)
            case None => forall c | c in snapshot :: !(Owns(g, c) && c.spec == name)
  {
    hide Owns;
    if snapshot != [] {
      var rest := snapshot[..|snapshot| - 1];
      IndexedIsLastOwned(g, rest, name);
      var last := snapshot[|snapshot| - 1];
      assert snapshot == rest + [last];
      if !(Owns(g, last) && last.spec == name) && Indexed(g, rest, name).Some? {
        var c := Indexed(g, rest, name).value;
        var i :| 0 <= i < |rest| && rest[i] == c && Owns(g, c) && c.spec == name
                 && forall k | i < k < |rest| :: !(Owns(g, rest[k]) && rest[k].spec == name);
        assert snapshot[i] == c;
      }
    }
  }

  // ---------- One project ----------

  ghost predicate DistinctNames(all: seq<Listed>) {
    forall i, j | 0 <= i < j < |all| :: all[i].name != all[j].name
  }

  lemma {:induction false} RefsOfListed(all: seq<Listed>, p: Listed)
    requires DistinctNames(all) && p in all
    ensures RefsOf(all, p.name) == Some(p.refs)
  {
    if all[0] != p {
      assert p in all[1..];
      RefsOfListed(all[1..], p);
    }
  }

  /** Writing the branches of the resource `name`, which stands for p, makes it reflect p. */
  lemma SyncBranchesFacts(s: Shop, all: seq<Listed>, name: string, p: Listed)
    requires Unique(s.crs) && DistinctNames(all) && p in all
    requires exists i :: 0 <= i < |s.crs| && s.crs[i].name == name && s.crs[i].spec == p.name
    ensures var r := SyncBranches(s, all, name, p.name);
            |r.s.crs| == |s.crs| && r.s.created == s.created
            && Unique(r.s.crs) && Grows(s.crs, r.s.crs) && BranchesOnly(s.crs, r.s.crs, p.name)
            && (r.Synced? ==> Reflects(r.s.crs, p))
  {
    hide Asking, CrNamed;
    AskingFacts(s);
    var s1 := Asking(s).s;
    AskingFacts(s1);
    var s2 := Asking(s1).s;
    AskingFacts(s2);
    var s3 := Asking(s2).s;
    GrowsTransitive(s.crs, s1.crs, s2.crs, p.name);
    GrowsTransitive(s.crs, s2.crs, s3.crs, p.name);
    RefsOfListed(all, p);
    hide Grows, BranchesOnly;
    WriteReflects(s, s3, name, p);
  }

  lemma WriteReflects(s: Shop, t: Shop, name: string, p: Listed)
    requires Unique(t.crs) && |t.crs| == |s.crs| && Unique(s.crs) && Grows(s.crs, t.crs) && BranchesOnly(s.crs, t.crs, p.name)
    requires exists i :: 0 <= i < |s.crs| && s.crs[i].name == name && s.crs[i].spec == p.name
    ensures var crs := WithBranches(t.crs, name, p.refs);
            Unique(crs) && Grows(s.crs, crs) && BranchesOnly(s.crs, crs, p.name) && Reflects(crs, p)
  {
    var crs := WithBranches(t.crs, name, p.refs);
    var i :| 0 <= i < |s.crs| && s.crs[i].name == name && s.crs[i].spec == p.name;
    assert crs[i] in crs;
    forall k | 0 <= k < |s.crs| && s.crs[k].spec != p.name ensures crs[k].branches == s.crs[k].branches {
      assert t.crs[k].name != name;
    }
  }

  lemma ReflectsStays(before: seq<Cr>, after: seq<Cr>, project: string, q: Listed)
    requires Grows(before, after) && BranchesOnly(before, after, project) && q.name != project && Reflects(before, q)
    ensures Reflects(after, q)
  {
    var c :| c in before && c.spec == q.name && c.branches == q.refs;
    var i :| 0 <= i < |before| && before[i] == c;
    assert after[i] in after;
  }

  /** The name that a resource for p would get is in use. */
  predicate Taken(crs: seq<Cr>, g: Instance, slug: string -> string, p: Listed) {
    CrNamed(crs, NameFor(g, slug, p)).Some?
  }

  lemma {:induction false} TakenStays(before: seq<Cr>, after: seq<Cr>, name: string)
    requires Grows(before, after) && CrNamed(before, name).Some?
    ensures CrNamed(after, name).Some?
  {
    NamedAt(before, name);
    NamedAt(after, name);
    var c := CrNamed(before, name).value;
    var i :| 0 <= i < |before| && before[i] == c;
    assert after[i] in after;
  }

  lemma CreateFacts(s: Shop, g: Instance, slug: string -> string, p: Listed)
    requires Unique(s.crs)
    ensures var r := CreateProject(s, g, slug, p);
            Unique(r.s.crs) && Grows(s.crs, r.s.crs) && BranchesOnly(s.crs, r.s.crs, p.name) && r.s.created >= s.created
            && (r.Synced? ==> r.s.created > s.created)
            && (r.Synced? ==> exists i :: 0 <= i < |r.s.crs| && r.s.crs[i].name == NameFor(g, slug, p) && r.s.crs[i].spec == p.name)
            && (Taken(s.crs, g, slug, p) ==> r.Broken? && r.s.created == s.created)
  {
    hide NameFor;
    AskingFacts(s);
    var t := Asking(s).s;
    NamedAt(t.crs, NameFor(g, slug, p));
    if Taken(s.crs, g, slug, p) {
      TakenStays(s.crs, t.crs, NameFor(g, slug, p));
    }
    hide Asking, CrNamed;
    var c := Cr(NameFor(g, slug, p), p.name, p.parent, p.description, g.name, [], []);
    assert (t.crs + [c])[|t.crs|] == c;
  }

  ghost predicate ProjectSynced(s: Shop, r: Out, g: Instance, slug: string -> string, snapshot: seq<Cr>, p: Listed) {
    && Unique(r.s.crs) && Grows(s.crs, r.s.crs) && BranchesOnly(s.crs, r.s.crs, p.name) && r.s.created >= s.created
    && (r.Synced? ==> Reflects(r.s.crs, p) && (Indexed(g, snapshot, p.name).Some? || Taken(r.s.crs, g, slug, p)))
    && (r.Synced? ==> (r.s.created == s.created <==> Indexed(g, snapshot, p.name).Some?))
    && (Indexed(g, snapshot, p.name).Some? || Taken(s.crs, g, slug, p) ==> r.s.created == s.created)
    && (r.Synced? ==> Indexed(g, snapshot, p.name).Some? || !Taken(s.crs, g, slug, p))
  }

  lemma SyncProjectFacts(s: Shop, g: Instance, slug: string -> string, all: seq<Listed>, snapshot: seq<Cr>, p: Listed)
    requires Unique(s.crs) && Grows(snapshot, s.crs) && DistinctNames(all) && p in all
    ensures ProjectSynced(s, SyncProject(s, g, slug, all, snapshot, p), g, slug, snapshot, p)
  {
    hide Indexed, CreateProject, SyncBranches, NameFor;
    IndexedIsLastOwned(g, snapshot, p.name);
    if Indexed(g, snapshot, p.name).Some? {
      var c := Indexed(g, snapshot, p.name).value;
      SyncBranchesFacts(s, all, c.name, p);
    } else {
      CreateFacts(s, g, slug, p);
      var t := CreateProject(s, g, slug, p);
      if t.Synced? {
        SyncBranchesFacts(t.s, all, NameFor(g, slug, p), p);
        var u := SyncBranches(t.s, all, NameFor(g, slug, p), p.name);
        NamesTaken(u.s.crs, t.s.crs, NameFor(g, slug, p));
        GrowsTransitive(s.crs, t.s.crs, u.s.crs, p.name);
      }
    }
    hide Grows, BranchesOnly, Unique, Reflects, CrNamed;
  }

  lemma NamesTaken(after: seq<Cr>, before: seq<Cr>, name: string)
    requires Grows(before, after) && exists i :: 0 <= i < |before| && before[i].name == name
    ensures CrNamed(after, name).Some?
  {
    var i :| 0 <= i < |before| && before[i].name == name;
    NamedAt(after, name);
    assert after[i] in after;
  }

  // ---------- A whole pass ----------

  ghost predicate AllReflected(crs: seq<Cr>, todo: seq<Listed>) {
    forall p | p in todo :: Reflects(crs, p)
  }

  ghost predicate AllIndexed(g: Instance, snapshot: seq<Cr>, todo: seq<Listed>) {
    forall p | p in todo :: Indexed(g, snapshot, p.name).Some?
  }

  ghost predicate IndexedOrTaken(g: Instance, slug: string -> string, snapshot: seq<Cr>, crs: seq<Cr>, todo: seq<Listed>) {
    forall p | p in todo :: Indexed(g, snapshot, p.name).Some? || Taken(crs, g, slug, p)
  }

  ghost predicate Subset(todo: seq<Listed>, all: seq<Listed>) {
    forall p | p in todo :: p in all
  }

  /** A project that is not on the list keeps its resource as it is. */
  lemma {:induction false} SyncEachLeavesOthers(s: Shop, g: Instance, slug: string -> string, all: seq<Listed>, snapshot: seq<Cr>, todo: seq<Listed>, q: Listed)
    requires Unique(s.crs) && Grows(snapshot, s.crs) && DistinctNames(all) && Subset(todo, all)
    requires (forall p | p in todo :: p.name != q.name) && Reflects(s.crs, q)
    ensures Reflects(SyncEach(s, g, slug, all, snapshot, todo).s.crs, q)
    decreases |todo|
  {
    hide SyncProject, Indexed, Reflects, Taken, Unique, DistinctNames;
    if todo != [] {
      var p := todo[0];
      assert p in todo && todo == [p] + todo[1..];
      SyncProjectFacts(s, g, slug, all, snapshot, p);
      var t := SyncProject(s, g, slug, all, snapshot, p).s;
      ReflectsStays(s.crs, t.crs, p.name, q);
      GrowsChain(snapshot, s.crs, t.crs);
      hide Grows, BranchesOnly;
      SyncEachLeavesOthers(t, g, slug, all, snapshot, todo[1..], q);
    }
  }

  /**
   A pass that succeeds leaves every project reflected by a resource, and that resource is either in the index or
   carries the name the syncer gives. It creates nothing exactly when every project is in the index.
   */
  lemma {:induction false} SyncEachFacts(s: Shop, g: Instance, slug: string -> string, all: seq<Listed>, snapshot: seq<Cr>, todo: seq<Listed>)
    requires Unique(s.crs) && Grows(snapshot, s.crs) && DistinctNames(all) && DistinctNames(todo) && Subset(todo, all)
    ensures var r := SyncEach(s, g, slug, all, snapshot, todo);
            Unique(r.s.crs) && Grows(s.crs, r.s.crs) && r.s.created >= s.created
    ensures var r := SyncEach(s, g, slug, all, snapshot, todo);
            r.Synced? ==>
              AllReflected(r.s.crs, todo) && IndexedOrTaken(g, slug, snapshot, r.s.crs, todo)
              && (r.s.created == s.created <==> AllIndexed(g, snapshot, todo))
    decreases |todo|
  {
    hide SyncProject, Indexed, Reflects, Taken, Unique;
    if todo != [] {
      var p := todo[0];
      assert p in todo && todo == [p] + todo[1..];
      SyncProjectFacts(s, g, slug, all, snapshot, p);
      var t := SyncProject(s, g, slug, all, snapshot, p);
      if t.Synced? {
        GrowsChain(snapshot, s.crs, t.s.crs);
        SyncEachFacts(t.s, g, slug, all, snapshot, todo[1..]);
        SyncEachLeavesOthers(t.s, g, slug, all, snapshot, todo[1..], p);
        var r := SyncEach(t.s, g, slug, all, snapshot, todo[1..]);
        GrowsChain(s.crs, t.s.crs, r.s.crs);
        if Taken(t.s.crs, g, slug, p) {
          TakenLater(t.s.crs, r.s.crs, g, slug, p);
        }
        hide Grows, BranchesOnly, DistinctNames;
      }
    }
  }

  lemma TakenLater(before: seq<Cr>, after: seq<Cr>, g: Instance, slug: string -> string, p: Listed)
    requires Grows(before, after) && Taken(before, g, slug, p)
    ensures Taken(after, g, slug, p)
  {
    TakenStays(before, after, NameFor(g, slug, p));
  }

  lemma {:induction false} VisibleFacts(all: seq<Listed>)
    ensures Subset(Visible(all), all)
    ensures forall p | p in all && !Internal(p) :: p in Visible(all)
    ensures DistinctNames(all) ==> DistinctNames(Visible(all))
  {
    if all != [] {
      VisibleFacts(all[1..]);
      assert all == [all[0]] + all[1..];
      hide Internal;
      if DistinctNames(all) {
        assert forall i | 0 <= i < |all[1..]| :: all[1..][i] == all[i + 1];
        var v, rest := Visible(all), Visible(all[1..]);
        forall i, j | 0 <= i < j < |v| ensures v[i].name != v[j].name {
          if !Internal(all[0]) {
            assert v[j] == rest[j - 1] && rest[j - 1] in all[1..];
          }
        }
      }
    }
  }

  /** The passes' common start: the snapshot of the resources and where the loop begins. */
  lemma TickStart(s: Shop)
    requires Unique(s.crs)
    ensures var s2 := Asking(Asking(s).s).s;
            var s4 := Asking(Asking(s2).s).s;
            Unique(s4.crs) && Grows(s.crs, s2.crs) && Grows(s2.crs, s4.crs) && s4.created == s.created && s2.created == s.created
            && Unique(s2.crs) && Asking(s2).s.created == s.created && Asking(s).s.created == s.created
  {
    hide Asking;
    AskingFacts(s);
    AskingFacts(Asking(s).s);
    var s2 := Asking(Asking(s).s).s;
    AskingFacts(s2);
    AskingFacts(Asking(s2).s);
  }

  /** A successful pass: every project has a resource of its own that lists exactly its branches. */
  lemma SuccessfulTickReflects(s: Shop, g: Instance, slug: string -> string, all: seq<Listed>)
    requires Unique(s.crs) && DistinctNames(all)
    ensures var r := SyncTick(s, g, slug, all);
            r.Synced? ==>
              Unique(r.s.crs) && AllReflected(r.s.crs, Visible(all))
              && (exists snapshot :: Grows(s.crs, snapshot) && Grows(snapshot, r.s.crs)
                    && IndexedOrTaken(g, slug, snapshot, r.s.crs, Visible(all))
                    && (r.s.created == s.created <==> AllIndexed(g, snapshot, Visible(all))))
  {
    hide Asking, SyncEach, AllReflected, IndexedOrTaken, AllIndexed, Unique;
    TickStart(s);
    VisibleFacts(all);
    var snapshot := Asking(Asking(s).s).s.crs;
    var s4 := Asking(Asking(Asking(Asking(s).s).s).s).s;
    SyncEachFacts(s4, g, slug, all, snapshot, Visible(all));
    var r := SyncEach(s4, g, slug, all, snapshot, Visible(all));
    GrowsChain(snapshot, s4.crs, r.s.crs);
    hide Grows, DistinctNames, Visible;
  }

  /** An owned resource stays in the index. */
  lemma IndexedStays(g: Instance, before: seq<Cr>, after: seq<Cr>, name: string)
    requires Grows(before, after) && Indexed(g, before, name).Some?
    ensures Indexed(g, after, name).Some?
  {
    hide Indexed;
    IndexedIsLastOwned(g, before, name);
    IndexedIsLastOwned(g, after, name);
    var c := Indexed(g, before, name).value;
    var i :| 0 <= i < |before| && before[i] == c && Owns(g, c);
    assert after[i] in after && Owns(g, after[i]);
  }

  lemma IndexedOrTakenStays(g: Instance, slug: string -> string, snapshot: seq<Cr>, crs: seq<Cr>, later: seq<Cr>, now: seq<Cr>, todo: seq<Listed>)
    requires IndexedOrTaken(g, slug, snapshot, crs, todo) && Grows(snapshot, later) && Grows(crs, now)
    ensures IndexedOrTaken(g, slug, later, now, todo)
  {
    forall p | p in todo ensures Indexed(g, later, p.name).Some? || Taken(now, g, slug, p) {
      if Indexed(g, snapshot, p.name).Some? {
        IndexedStays(g, snapshot, later, p.name);
      } else {
        TakenLater(crs, now, g, slug, p);
      }
    }
  }

  /** When every project is in the index or its name is in use, nothing is created, and success means all are indexed. */
  lemma {:induction false} NothingToCreate(s: Shop, g: Instance, slug: string -> string, all: seq<Listed>, snapshot: seq<Cr>, todo: seq<Listed>)
    requires Unique(s.crs) && Grows(snapshot, s.crs) && DistinctNames(all) && Subset(todo, all)
    requires IndexedOrTaken(g, slug, snapshot, s.crs, todo)
    ensures var r := SyncEach(s, g, slug, all, snapshot, todo);
            r.s.created == s.created && (r.Synced? ==> AllIndexed(g, snapshot, todo))
    decreases |todo|
  {
    hide SyncProject, Indexed, Reflects, Taken, Unique, BranchesOnly;
    if todo != [] {
      var p := todo[0];
      assert p in todo && todo == [p] + todo[1..];
      SyncProjectFacts(s, g, slug, all, snapshot, p);
      var t := SyncProject(s, g, slug, all, snapshot, p);
      if t.Synced? {
        forall q | q in todo[1..] ensures Indexed(g, snapshot, q.name).Some? || Taken(t.s.crs, g, slug, q) {
          assert q in todo;
          if Taken(s.crs, g, slug, q) {
            TakenLater(s.crs, t.s.crs, g, slug, q);
          }
        }
        NothingToCreate(t.s, g, slug, all, snapshot, todo[1..]);
      }
    }
  }

  // ---------- When every call works ----------

  ghost predicate CalmTurns(s: Shop, n: nat) {
    |s.turns| >= n && forall t | t in s.turns :: t.works && t.adopted == []
  }

  lemma CalmAsk(s: Shop, n: nat)
    requires CalmTurns(s, n) && n > 0
    ensures Asking(s).Synced? && Asking(s).s == s.(turns := s.turns[1..]) && CalmTurns(Asking(s).s, n - 1)
  {
    assert s.turns[0] in s.turns;
  }

  lemma CalmBranches(s: Shop, all: seq<Listed>, name: string, p: Listed, n: nat)
    requires CalmTurns(s, n) && n >= 3 && DistinctNames(all) && p in all && CrNamed(s.crs, name).Some?
    ensures var r := SyncBranches(s, all, name, p.name);
            r.Synced? && CalmTurns(r.s, n - 3)
  {
    hide Asking;
    RefsOfListed(all, p);
    CalmAsk(s, n);
    var s1 := Asking(s).s;
    CalmAsk(s1, n - 1);
    CalmAsk(Asking(s1).s, n - 2);
  }

  lemma {:induction false} CalmEach(s: Shop, g: Instance, slug: string -> string, all: seq<Listed>, snapshot: seq<Cr>, todo: seq<Listed>, n: nat)
    requires CalmTurns(s, n) && n >= 3 * |todo|
    requires Unique(s.crs) && Grows(snapshot, s.crs) && DistinctNames(all) && Subset(todo, all) && AllIndexed(g, snapshot, todo)
    ensures SyncEach(s, g, slug, all, snapshot, todo).Synced?
    decreases |todo|
  {
    hide SyncBranches, Indexed, CrNamed, Unique, DistinctNames;
    if todo != [] {
      var p := todo[0];
      assert p in todo && todo == [p] + todo[1..];
      IndexedIsLastOwned(g, snapshot, p.name);
      var c := Indexed(g, snapshot, p.name).value;
      NamesTaken(s.crs, snapshot, c.name);
      CalmBranches(s, all, c.name, p, n);
      SyncProjectFacts(s, g, slug, all, snapshot, p);
      var t := SyncBranches(s, all, c.name, p.name);
      GrowsChain(snapshot, s.crs, t.s.crs);
      hide Grows, BranchesOnly, Reflects, Taken, CalmTurns;
      CalmEach(t.s, g, slug, all, snapshot, todo[1..], n - 3);
    }
  }

  /**
   After a pass that succeeded, whatever was added since, a further pass on the same projects creates nothing,
   whatever fails in it. It can only succeed once every project has an owned resource, that is once the project
   reconciler has set the owner references; and then, when all calls work, it does.
   */
  lemma SecondTickCreatesNothing(first: Shop, second: Shop, g: Instance, slug: string -> string, all: seq<Listed>)
    requires Unique(first.crs) && DistinctNames(all) && SyncTick(first, g, slug, all).Synced?
    requires Unique(second.crs) && Grows(SyncTick(first, g, slug, all).s.crs, second.crs)
    ensures SyncTick(second, g, slug, all).s.created == second.created
    ensures CalmTurns(second, 4 + 3 * |Visible(all)|) ==>
              (SyncTick(second, g, slug, all).Synced? <==> AllIndexed(g, second.crs, Visible(all)))
  {
    hide SyncEach, AllReflected, IndexedOrTaken, AllIndexed, Unique, DistinctNames, Asking;
    SuccessfulTickReflects(first, g, slug, all);
    var r := SyncTick(first, g, slug, all);
    var old1 :| Grows(old1, r.s.crs) && IndexedOrTaken(g, slug, old1, r.s.crs, Visible(all));
    TickStart(second);
    VisibleFacts(all);
    SecondLoop(old1, r.s.crs, second, g, slug, all);
    if CalmTurns(second, 4 + 3 * |Visible(all)|) {
      CalmSecond(second, g, slug, all);
    }
    hide Grows, Visible, CalmTurns;
  }

  lemma SecondLoop(snapshot: seq<Cr>, crs: seq<Cr>, second: Shop, g: Instance, slug: string -> string, all: seq<Listed>)
    requires Grows(snapshot, crs) && IndexedOrTaken(g, slug, snapshot, crs, Visible(all))
    requires Unique(second.crs) && Grows(crs, second.crs) && DistinctNames(all)
    ensures var s2 := Asking(Asking(second).s).s;
            var s4 := Asking(Asking(s2).s).s;
            var r := SyncEach(s4, g, slug, all, s2.crs, Visible(all));
            r.s.created == second.created && (r.Synced? ==> AllIndexed(g, s2.crs, Visible(all)))
  {
    hide SyncEach, IndexedOrTaken, AllIndexed, Unique, DistinctNames, Asking;
    TickStart(second);
    VisibleFacts(all);
    var s2 := Asking(Asking(second).s).s;
    var s4 := Asking(Asking(s2).s).s;
    GrowsChain(crs, second.crs, s2.crs);
    GrowsChain(snapshot, crs, s2.crs);
    GrowsChain(crs, s2.crs, s4.crs);
    hide Grows, Visible;
    IndexedOrTakenStays(g, slug, snapshot, crs, s2.crs, s4.crs, Visible(all));
    NothingToCreate(s4, g, slug, all, s2.crs, Visible(all));
  }

  lemma CalmSecond(s: Shop, g: Instance, slug: string -> string, all: seq<Listed>)
    requires Unique(s.crs) && DistinctNames(all) && CalmTurns(s, 4 + 3 * |Visible(all)|)
    ensures var s2 := Asking(Asking(s).s).s;
            s2.crs == s.crs && (AllIndexed(g, s.crs, Visible(all)) ==> SyncTick(s, g, slug, all).Synced?)
            && Asking(s).Synced? && Asking(Asking(s).s).Synced? && Asking(s2).Synced? && Asking(Asking(s2).s).Synced?
  {
    hide SyncEach, AllIndexed, Unique, DistinctNames, Asking;
    VisibleFacts(all);
    var n := 4 + 3 * |Visible(all)|;
    CalmAsk(s, n);
    var s1 := Asking(s).s;
    CalmAsk(s1, n - 1);
    var s2 := Asking(s1).s;
    CalmAsk(s2, n - 2);
    var s3 := Asking(s2).s;
    CalmAsk(s3, n - 3);
    if AllIndexed(g, s.crs, Visible(all)) {
      hide CalmTurns, Visible;
      CalmEach(Asking(s3).s, g, slug, all, s.crs, Visible(all), n - 4);
    }
  }
}
