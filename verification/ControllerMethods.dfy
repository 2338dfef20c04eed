/**
 The four finalizer reconcilers in the form of the source (controllers/gerritgroupmember, gerritproject,
 gerritprojectaccess and merge_request): each reads the object into memory, works on that copy, and writes its
 status at the end. Each does exactly what its function in module Controllers says, so every property of runs
 proved of those functions holds of these methods.
 */
module ControllerMethods {
  import opened Common
  import opened AccessRights
  import opened BackOff
  import opened Cluster
  import opened Helper
  import opened Controllers
  import opened Runtime
  import opened HelperMethods

  // ---------- Shared ----------

  const BLANK := Obj(0, 0, GerritSpec(false), EMPTY_STATUS, [], [], map[], false)

  /** controllers/helper/status.go: the delay is computed from the count before it is raised. */
  method SetFailureCount(me: Instance, e: real, overflow: int64) returns (timeout: int)
    requires IsE(e) && IsOverflowValue(overflow)
    modifies me
    ensures timeout == GetTimeout(old(me.status.failureCount), e, overflow)
    ensures me.View() == old(me.View()).(status := old(me.status).(failureCount := Increment(old(me.status.failureCount))))
  {
    var failures := me.status.failureCount;
    timeout := GetTimeout(failures, e, overflow);
    failures := Increment(failures);
    me.status := me.status.(failureCount := failures);
  }

  method SetSuccessStatus(me: Instance)
    modifies me
    ensures me.View() == old(me.View()).(status := old(me.status).(value := STATUS_OK, failureCount := 0))
  {
    me.status := me.status.(value := STATUS_OK);
    me.status := me.status.(failureCount := 0);
  }

  method SetValue(me: Instance, value: string)
    modifies me
    ensures me.View() == old(me.View()).(status := old(me.status).(value := value))
  {
    me.status := me.status.(value := value);
  }

  /** The deferred status write; its error is only logged. Before its status was set, the copy was `attempted`. */
  method WriteStatus(c: Client, me: Instance, ghost attempted: Obj)
    requires me.View() == attempted.(status := me.status)
    modifies c, me
    ensures c.w == Finish(old(c.w), attempted, old(me.status))
  {
    hide Call;
    var status := me.status;
    var err := c.UpdateStatus(me);
    if err == NoFault {
      c.Record(c.w.book.(lastValue := status.value));
    } else {
      c.Record(c.w.book.(statusLost := c.w.book.statusLost + 1));
    }
  }

  method Count(c: Client, ok: bool)
    modifies c
    ensures c.w == Counted(old(c.w), ok)
  {
    c.Record(c.w.book.(streak := if ok then 0 else c.w.book.streak + 1));
  }

  /** Begin, and read the object; it is not there, cannot be read, or is of another kind. */
  method Fetch(c: Client, me: Instance, k: Kind) returns (found: bool)
    modifies c, me
    ensures var (w, r) := ApiGet(Logged(old(c.w), Begin));
            c.w == w && found == (r.Answer? && IsKind(r.obj.spec, k)) && (found ==> me.View() == r.obj)
  {
    hide Call;
    c.Log(Begin);
    var err := c.Get(me);
    if err != NoFault {
      return false;
    }
    return IsKind(me.spec, k);
  }

  // ---------- Group member ----------

  method TryToReconcileMember(c: Client, me: Instance) returns (ok: bool)
    modifies c, me
    ensures Outcome(ok, c, me) == MemberTry(old(State(c, me)))
  {
    hide Call, EnsureOwner, Helper.TryToDelete;
    if !me.spec.MemberSpec? {
      return false;
    }
    var g, a := me.spec.groupId, me.spec.accountId;
    var connected := GetGerritClient(c, me);
    if !connected {
      return false;
    }
    var works := c.Ask();
    if !works {
      return false;
    }
    c.Serve(c.w.backend.(members := c.w.backend.members + {(g, a)}));
    ok := HelperMethods.TryToDelete(c, me);
  }

  method ReconcileMember(c: Client, e: real, overflow: int64) returns (requeueAfter: int)
    requires IsE(e) && IsOverflowValue(overflow)
    modifies c
    ensures c.w == Reconcile(old(c.w), Member)
  {
    hide MemberTry, ApiGet, Finish, GetTimeout, Logged, IsE, IsOverflowValue;
    var me := new Instance(BLANK);
    var found := Fetch(c, me, Member);
    if !found {
      return 0;
    }
    var ok := TryToReconcileMember(c, me);
    ghost var attempted := me.View();
    if ok {
      SetSuccessStatus(me);
      requeueAfter := 0;
    } else {
      SetValue(me, ERROR_TEXT);
      requeueAfter := SetFailureCount(me, e, overflow);
    }
    WriteStatus(c, me, attempted);
    Count(c, ok);
  }

  // ---------- Project ----------

  method CreateOrUpdateProject(c: Client, me: Instance, n: string, description: string, parent: string) returns (ok: bool)
    modifies c
    ensures Outcome(ok, c, me) == EnsureProject(old(State(c, me)), n, description, parent)
  {
    hide Call;
    var works := c.Ask();
    if !works {
      return false;
    }
    if n !in c.w.backend.projects {
      works := c.Ask();
      if works {
        c.Serve(c.w.backend.(projects := c.w.backend.projects[n := ProjectInfo(description, parent)]));
      }
      return works;
    }
    works := c.Ask();
    if !works {
      return false;
    }
    var kept := if n in c.w.backend.projects then c.w.backend.projects[n].parent else "";
    c.Serve(c.w.backend.(projects := c.w.backend.projects[n := ProjectInfo(description, kept)]));
    works := c.Ask();
    if works {
      c.Serve(c.w.backend.(projects := c.w.backend.projects[n := ProjectInfo(description, parent)]));
    }
    return works;
  }

  method TryToReconcileProject(c: Client, me: Instance) returns (ok: bool)
    modifies c, me
    ensures Outcome(ok, c, me) == ProjectTry(old(State(c, me)))
  {
    hide EnsureOwner, EnsureProject, Helper.TryToDelete;
    if !me.spec.ProjectSpec? {
      return false;
    }
    var n, description, parent := me.spec.name, me.spec.description, me.spec.parent;
    var connected := GetGerritClient(c, me);
    if !connected {
      return false;
    }
    var ensured := CreateOrUpdateProject(c, me, n, description, parent);
    if !ensured {
      return false;
    }
    ok := HelperMethods.TryToDelete(c, me);
  }

  method ReconcileProject(c: Client)
    modifies c
    ensures c.w == Reconcile(old(c.w), Project)
  {
    hide ProjectTry, ApiGet, Finish, Logged;
    var me := new Instance(BLANK);
    var found := Fetch(c, me, Project);
    if !found {
      return;
    }
    var ok := TryToReconcileProject(c, me);
    ghost var attempted := me.View();
    SetValue(me, if ok then STATUS_OK else ERROR_TEXT);
    WriteStatus(c, me, attempted);
    Count(c, ok);
  }

  // ---------- Project access ----------

  /** Entry by entry, in order. */
  method PrepareAccessInfo(references: seq<AccessInfo>) returns (ai: seq<AccessInfo>)
    ensures ai == references
  {
    ai := [];
    for i := 0 to |references|
      invariant ai == references[..i]
    {
      ai := ai + [references[i]];
    }
    assert references[..|references|] == references;
  }

  method AddOrUpdateRights(c: Client, me: Instance, p: string, l: seq<AccessInfo>) returns (ok: bool)
    modifies c
    ensures Outcome(ok, c, me) == GrantRights(old(State(c, me)), p, l)
  {
    hide Call, AfterUpdate, AfterAdd;
    if |l| == 0 {
      return true;
    }
    var ai := PrepareAccessInfo(l);
    var works := c.Ask();
    if !works || p !in c.w.backend.access {
      return false;
    }
    var b := c.w.backend.access[p];
    if !me.status.created {
      c.Serve(c.w.backend.(access := c.w.backend.access[p := AfterAdd(b, ai)]));
    } else {
      c.Serve(c.w.backend.(access := c.w.backend.access[p := AfterUpdate(b, ai)]));
    }
    return true;
  }

  method SetProjectParent(c: Client, me: Instance, p: string, parent: string) returns (ok: bool)
    modifies c
    ensures Outcome(ok, c, me) == SetParent(old(State(c, me)), p, parent)
  {
    hide Call;
    if parent == "" {
      return true;
    }
    ok := c.Ask();
    if ok && p !in c.w.backend.access {
      return false;
    }
    if ok {
      c.Serve(c.w.backend.(parents := c.w.backend.parents[p := parent]));
    }
  }

  method TryToReconcileAccess(c: Client, me: Instance) returns (ok: bool)
    modifies c, me
    ensures Outcome(ok, c, me) == AccessTry(old(State(c, me)))
  {
    hide EnsureOwner, GrantRights, SetParent, Helper.TryToDelete;
    if !me.spec.AccessSpec? {
      return false;
    }
    var p, parent, l := me.spec.projectName, me.spec.accessParent, me.spec.references;
    var connected := GetGerritClient(c, me);
    if !connected {
      return false;
    }
    var granted := AddOrUpdateRights(c, me, p, l);
    if !granted {
      return false;
    }
    var set_ := SetProjectParent(c, me, p, parent);
    if !set_ {
      return false;
    }
    ok := HelperMethods.TryToDelete(c, me);
  }

  method ReconcileAccess(c: Client)
    modifies c
    ensures c.w == Reconcile(old(c.w), Access)
  {
    hide AccessTry, ApiGet, Finish, Logged;
    var me := new Instance(BLANK);
    var found := Fetch(c, me, Access);
    if !found {
      return;
    }
    var ok := TryToReconcileAccess(c, me);
    ghost var attempted := me.View();
    if ok {
      SetValue(me, STATUS_OK);
      me.status := me.status.(created := true);
    } else {
      SetValue(me, ERROR_TEXT);
    }
    WriteStatus(c, me, attempted);
    Count(c, ok);
  }

  // ---------- Merge request ----------

  method GetGitClient(c: Client, me: Instance) returns (ok: bool)
    modifies c
    ensures Outcome(ok, c, me) == GitClient(old(State(c, me)))
  {
    hide Call, Named;
    var works := c.Ask();
    if !works {
      return false;
    }
    var g := FindGerrit(c.w.gerrits, OwnerName(me.spec));
    if g.None? {
      return false;
    }
    ok := c.Ask();
  }

  method MergeBranchesOrCommitFiles(c: Client, me: Instance) returns (ok: bool)
    modifies c
    ensures Outcome(ok, c, me) == PrepareCommit(old(State(c, me)))
  {
    hide Call;
    var works := c.Ask();
    if !works {
      return false;
    }
    works := c.Ask();
    if !works {
      return false;
    }
    if me.spec.MergeRequestSpec? && me.spec.sourceBranch != "" {
      return true;
    }
    ok := c.Ask();
  }

  /** Change id, commit or merge, push. The status of the new change is returned, not yet assigned. */
  method PushForReview(c: Client, me: Instance) returns (status: Option<Status>)
    modifies c
    ensures var t := PushChange(old(State(c, me)));
            c.w == t.st.w && status == (if t.Ok? then Some(t.st.me.status) else None)
            && (t.Ok? ==> t.st.me == old(me.View()).(status := t.st.me.status)) && (t.Err? ==> t.st.me == old(me.View()))
  {
    hide Call, PrepareCommit;
    var turn := c.Call();
    if !turn.works {
      return None;
    }
    var prepared := MergeBranchesOrCommitFiles(c, me);
    if !prepared {
      PrepareKeepsMe(old(State(c, me)).(w := Cluster.Call(old(c.w)).0));
      return None;
    }
    var works := c.Ask();
    PrepareKeepsMe(old(State(c, me)).(w := Cluster.Call(old(c.w)).0));
    if !works {
      return None;
    }
    var id := "I" + turn.text;
    c.Serve(c.w.backend.(changes := c.w.backend.changes[id := CHANGE_NEW]));
    c.Record(c.w.book.(pushes := c.w.book.pushes + 1));
    return Some(EMPTY_STATUS.(value := CHANGE_NEW, changeId := id));
  }

  lemma PrepareKeepsMe(s: St)
    ensures PrepareCommit(s).st.me == s.me
  {
  }

  /** createChange, with the deferred removal of the clone that may replace a success by an error. */
  method CreateNewChange(c: Client, me: Instance) returns (status: Option<Status>)
    modifies c
    ensures var t := CreateChange(old(State(c, me)));
            c.w == t.st.w && status == (if t.Ok? then Some(t.st.me.status) else None)
            && (t.Ok? ==> t.st.me == old(me.View()).(status := t.st.me.status)) && (t.Err? ==> t.st.me == old(me.View()))
  {
    hide Call, GitClient, PushChange;
    GitClientKeepsMe(old(State(c, me)));
    var connected := GetGitClient(c, me);
    if !connected {
      return None;
    }
    var cloned := c.Ask();
    if !cloned {
      return None;
    }
    status := PushForReview(c, me);
    var removed := c.Ask();
    if !removed {
      c.Record(c.w.book.(dirsLost := c.w.book.dirsLost + 1));
      status := None;
    }
  }

  lemma GitClientKeepsMe(s: St)
    ensures GitClient(s).st.me == s.me
  {
  }

  method GetChangeStatus(c: Client, me: Instance) returns (value: Option<string>)
    modifies c, me
    ensures var t := EnsureOwner(old(State(c, me)));
            if t.Err? then value == None && State(c, me) == t.st
            else State(c, me) == Calling(t.st).st
                 && value == (if Calling(t.st).Ok? && me.status.changeId in c.w.backend.changes
                              then Some(c.w.backend.changes[me.status.changeId]) else None)
  {
    hide Call, EnsureOwner;
    var connected := GetGerritClient(c, me);
    if !connected {
      return None;
    }
    var works := c.Ask();
    if !works || me.status.changeId !in c.w.backend.changes {
      return None;
    }
    return Some(c.w.backend.changes[me.status.changeId]);
  }

  method TryReconcileMerge(c: Client, me: Instance) returns (ok: bool)
    modifies c, me
    ensures Outcome(ok, c, me) == MergeTry(old(State(c, me)))
  {
    hide Calling, EnsureOwner, CreateChange, Helper.TryToDelete;
    if !me.spec.MergeRequestSpec? {
      return false;
    }
    if me.status.changeId == "" {
      if me.spec.sourceBranch == "" && me.spec.changesConfigMap == "" {
        return false;
      }
      var status := CreateNewChange(c, me);
      if status.None? {
        return false;
      }
      me.status := status.value;
    } else {
      var value := GetChangeStatus(c, me);
      if value.None? {
        return false;
      }
      me.status := me.status.(value := value.value);
    }
    var snapshot := me.status;
    var deleted := HelperMethods.TryToDelete(c, me);
    if !deleted {
      return false;
    }
    me.status := snapshot;
    return true;
  }

  method ReconcileMergeRequest(c: Client)
    modifies c
    ensures c.w == Reconcile(old(c.w), MergeRequest)
  {
    hide MergeTry, ApiGet, Finish, Logged;
    var me := new Instance(BLANK);
    var found := Fetch(c, me, MergeRequest);
    if !found {
      return;
    }
    var ok := TryReconcileMerge(c, me);
    ghost var attempted := me.View();
    if !ok {
      SetValue(me, ERROR_TEXT);
    }
    WriteStatus(c, me, attempted);
    Count(c, ok);
  }
}
