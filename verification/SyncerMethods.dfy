/**
 The project syncer in the form of the source (controllers/gerritproject/syncer.go): loops that fill the index,
 create resources and rebuild branch lists. Each method does exactly what its function in module Syncer says.
 */
module SyncerMethods {
  import opened Common
  import opened Syncer

  method OwnedBy(g: Instance, c: Cr) returns (owned: bool)
    ensures owned <==> Owns(g, c)
  {
    for i := 0 to |c.owners|
      invariant forall k | 0 <= k < i :: !(c.owners[k].uid == g.uid && c.owners[k].kind == g.kind)
    {
      if c.owners[i].uid == g.uid && c.owners[i].kind == g.kind {
        return true;
      }
    }
    return false;
  }

  lemma IndexedStep(g: Instance, projects: seq<Cr>, i: nat, name: string)
    requires i < |projects|
    ensures Indexed(g, projects[..i + 1], name)
         == if Owns(g, projects[i]) && projects[i].spec == name then Some(projects[i]) else Indexed(g, projects[..i], name)
  {
    assert projects[..i + 1][..i] == projects[..i] && projects[..i + 1][i] == projects[i];
  }

  /** A later resource of the same project overwrites an earlier one. */
  method FilterGerritProjectsByGerrit(g: Instance, projects: seq<Cr>) returns (result: map<string, Cr>)
    ensures forall name :: name in result <==> Indexed(g, projects, name).Some?
    ensures forall name | name in result :: Indexed(g, projects, name) == Some(result[name])
  {
    hide Owns;
    result := map[];
    for i := 0 to |projects|
      invariant forall name :: name in result <==> Indexed(g, projects[..i], name).Some?
      invariant forall name | name in result :: Indexed(g, projects[..i], name) == Some(result[name])
    {
      var owned := OwnedBy(g, projects[i]);
      forall name {
        IndexedStep(g, projects, i, name);
      }
      hide Indexed;
      if owned {
        result := result[projects[i].spec := projects[i]];
      }
    }
    assert projects[..|projects|] == projects;
  }

  lemma {:induction false} VisibleStep(all: seq<Listed>, i: nat)
    requires i < |all|
    ensures Visible(all[..i + 1]) == if Internal(all[i]) then Visible(all[..i]) else Visible(all[..i]) + [all[i]]
  {
    hide Internal;
    if i == 0 {
      assert all[..1] == [all[0]];
    } else {
      VisibleStep(all[1..], i - 1);
      assert all[..i + 1][1..] == all[1..][..i] && all[..i][1..] == all[1..][..i - 1];
    }
  }

  /** ListProjects, without the two that Gerrit keeps for itself. */
  method KeepVisible(all: seq<Listed>) returns (projects: seq<Listed>)
    ensures projects == Visible(all)
  {
    projects := [];
    for i := 0 to |all|
      invariant projects == Visible(all[..i])
    {
      hide Visible;
      VisibleStep(all, i);
      if !Internal(all[i]) {
        projects := projects + [all[i]];
      }
    }
    assert all[..|all|] == all;
  }

  class ProjectSyncer {
    var crs: seq<Cr>
    var turns: seq<Tick>
    var created: nat

    constructor (s: Shop)
      ensures View() == s
    {
      crs, turns, created := s.crs, s.turns, s.created;
    }

    ghost function View(): Shop
      reads this
    {
      Shop(crs, turns, created)
    }

    ghost function Leaving(ok: bool): Out
      reads this
    {
      if ok then Synced(View()) else Broken(View())
    }

    method Ask() returns (works: bool)
      modifies this
      ensures Leaving(works) == Asking(old(View()))
    {
      if turns == [] {
        return false;
      }
      crs := AllAdopted(crs, turns[0].adopted);
      works := turns[0].works;
      turns := turns[1..];
    }

    method Find(name: string) returns (c: Option<Cr>)
      ensures c == CrNamed(crs, name)
    {
      for i := 0 to |crs|
        invariant CrNamed(crs, name) == CrNamed(crs[i..], name)
      {
        assert crs[i..][1..] == crs[i + 1..];
        if crs[i].name == name {
          return Some(crs[i]);
        }
      }
      return None;
    }

    method CreateGerritProject(g: Instance, slug: string -> string, p: Listed) returns (ok: bool)
      modifies this
      ensures Leaving(ok) == CreateProject(old(View()), g, slug, p)
    {
      hide Asking, NameFor;
      var works := Ask();
      if !works {
        return false;
      }
      var name := NameFor(g, slug, p);
      var taken := Find(name);
      if taken.Some? {
        return false;
      }
      crs := crs + [Cr(name, p.name, p.parent, p.description, g.name, [], [])];
      created := created + 1;
      return true;
    }

    method ListProjectBranches(all: seq<Listed>, spec: string) returns (refs: Option<seq<string>>)
      modifies this
      ensures var r := Asking(old(View()));
              View() == r.s && refs == if r.Synced? then RefsOf(all, spec) else None
    {
      hide Asking;
      var works := Ask();
      if !works {
        return None;
      }
      for i := 0 to |all|
        invariant RefsOf(all, spec) == RefsOf(all[i..], spec)
      {
        assert all[i..][1..] == all[i + 1..];
        if all[i].name == spec {
          return Some(all[i].refs);
        }
      }
      return None;
    }

    /** The branch list is rebuilt by appending ref after ref. */
    method SyncProjectBranches(all: seq<Listed>, name: string, spec: string) returns (ok: bool)
      modifies this
      ensures Leaving(ok) == SyncBranches(old(View()), all, name, spec)
    {
      hide Asking, CrNamed, RefsOf;
      var refs := ListProjectBranches(all, spec);
      if refs.None? {
        return false;
      }
      var works := Ask();
      if !works {
        return false;
      }
      var read := Find(name);
      if read.None? {
        return false;
      }
      var branches: seq<string> := [];
      for i := 0 to |refs.value|
        invariant branches == refs.value[..i]
      {
        branches := branches + [refs.value[i]];
      }
      assert branches == refs.value;
      works := Ask();
      if !works {
        return false;
      }
      var current := Find(name);
      if current != read {
        return false;
      }
      crs := WithBranches(crs, name, branches);
      return true;
    }

    method SyncGerritInstance(g: Instance, slug: string -> string, all: seq<Listed>, snapshot: seq<Cr>) returns (ok: bool)
      modifies this
      ensures Leaving(ok) == (
                var s :- Asking(old(View()));
                var s :- Asking(s);
                SyncEach(s, g, slug, all, snapshot, Visible(all)))
    {
      hide Asking, CreateProject, SyncBranches, Indexed;
      var connected := Ask();
      if !connected {
        return false;
      }
      var listed := Ask();
      if !listed {
        return false;
      }
      var backendProjects := KeepVisible(all);
      var k8sProjects := FilterGerritProjectsByGerrit(g, snapshot);
      ghost var start := View();
      for i := 0 to |backendProjects|
        invariant SyncEach(start, g, slug, all, snapshot, backendProjects) == SyncEach(View(), g, slug, all, snapshot, backendProjects[i..])
      {
        var p := backendProjects[i];
        assert backendProjects[i..][0] == p && backendProjects[i..][1..] == backendProjects[i + 1..];
        var name, spec := NameFor(g, slug, p), p.name;
        if p.name in k8sProjects {
          name, spec := k8sProjects[p.name].name, k8sProjects[p.name].spec;
        } else {
          var made := CreateGerritProject(g, slug, p);
          if !made {
            return false;
          }
        }
        var synced := SyncProjectBranches(all, name, spec);
        if !synced {
          return false;
        }
      }
      return true;
    }

    method SyncBackendProjectsTick(g: Instance, slug: string -> string, all: seq<Listed>) returns (ok: bool)
      modifies this
      ensures Leaving(ok) == SyncTick(old(View()), g, slug, all)
    {
      hide Asking, SyncEach;
      ok := Ask();
      if !ok {
        return;
      }
      ok := Ask();
      if !ok {
        return;
      }
      ok := SyncGerritInstance(g, slug, all, crs);
    }
  }
}
