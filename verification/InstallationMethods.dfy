/**
 The Gerrit reconciler in the form of the source (controllers/gerrit/gerrit_controller.go): it advances the status
 of its copy step by step, with a retry loop around every status write. Each method does exactly what its
 function in StatusRetry or Installation says.
 */
module InstallationMethods {
  import opened Cluster
  import opened StatusRetry
  import opened Bootstrap
  import opened Exposure
  import opened Installation
  import opened Runtime
  import opened ServiceMethods

  method Mutate(me: Instance, m: Mutation)
    modifies me
    ensures me.View() == old(me.View()).(status := Mutated(m, old(me.status)))
  {
    match m
    case SetPhase(p) => me.status := me.status.(phase := p);
    case SetAvailable(v) => me.status := me.status.(available := v);
  }

  /** retry.RetryOnConflict around one status write. */
  method UpdateWithRetry(c: Client, me: Instance, m: Mutation) returns (ok: bool)
    modifies c, me
    ensures Outcome(ok, c, me) == UpdateStatusWithRetry(old(State(c, me)), m)
  {
    hide ApiStatusUpdate, ApiGet, Mutated;
    for i := 0 to RETRY_STEPS
      invariant Attempts(old(State(c, me)), m, RETRY_STEPS) == Attempts(State(c, me), m, RETRY_STEPS - i)
    {
      Mutate(me, m);
      var err := c.UpdateStatus(me);
      if err == NoFault {
        return true;
      }
      if err != ConflictFault {
        return false;
      }
      var getErr := c.Get(me);
      if getErr != NoFault {
        return false;
      }
    }
    return false;
  }

  // ---------- State ----------

  ghost function Here(c: Client, me: Instance, svc: ComponentService): Site
    reads c, me, svc
  {
    Site(c.w, me.View(), svc.View())
  }

  ghost function Passing(more: bool, c: Client, me: Instance, svc: ComponentService): Pass
    reads c, me, svc
  {
    if more then More(Here(c, me, svc)) else Done(Here(c, me, svc))
  }

  /** The service works on the script of the same world. */
  method Enter(c: Client, svc: ComponentService)
    modifies svc
    ensures svc.At() == Desk(old(svc.View()), c.w.script)
  {
    svc.turns := c.w.script;
  }

  /** Platform calls used up turns of the world `from` started in. */
  method Leave(c: Client, svc: ComponentService, ghost from: Site)
    requires from.w == c.w
    modifies c
    ensures Site(c.w, from.me, svc.View()) == Back(from, svc.At())
  {
    hide Call;
    var n: nat := if |c.w.script| <= |svc.turns| then 0 else |c.w.script| - |svc.turns|;
    var k: nat := n;
    while k > 0
      invariant Spend(from.w, n) == Spend(c.w, k)
    {
      var t := c.Call();
      k := k - 1;
    }
  }

  // ---------- Steps ----------

  method SetStatus(c: Client, me: Instance, svc: ComponentService, m: Mutation) returns (more: bool)
    modifies c, me
    ensures Passing(more, c, me, svc) == WriteStatus(old(Here(c, me, svc)), m)
  {
    hide UpdateStatusWithRetry;
    more := UpdateWithRetry(c, me, m);
  }

  method AdvancePhase(c: Client, me: Instance, svc: ComponentService, from: seq<string>, to: string) returns (more: bool)
    modifies c, me
    ensures Passing(more, c, me, svc) == Advance(old(Here(c, me, svc)), from, to)
  {
    hide WriteStatus;
    if me.status.phase in from {
      more := SetStatus(c, me, svc, SetPhase(to));
    } else {
      more := true;
    }
  }

  method FinishInstall(c: Client, me: Instance, svc: ComponentService) returns (more: bool)
    modifies c, me
    ensures Passing(more, c, me, svc) == Install(old(Here(c, me, svc)))
  {
    hide WriteStatus;
    if me.status.phase == INSTALLING {
      var written := SetStatus(c, me, svc, SetPhase(CREATED));
      return false;
    }
    return true;
  }

  method IsDeploymentReady(c: Client, me: Instance, svc: ComponentService) returns (more: bool)
    modifies c, svc
    ensures Passing(more, c, me, svc) == CheckReady(old(Here(c, me, svc)))
  {
    hide Back;
    ghost var from := Here(c, me, svc);
    Enter(c, svc);
    var t := svc.TakeTurn();
    Leave(c, svc, from);
    more := t.works && svc.ready && !t.down;
  }

  method ConfigureGerrit(c: Client, me: Instance, svc: ComponentService) returns (more: bool)
    modifies c, svc
    ensures Passing(more, c, me, svc) == ConfigureStep(old(Here(c, me, svc)))
  {
    hide Bootstrap.Configure, Back;
    ghost var from := Here(c, me, svc);
    Enter(c, svc);
    var x := svc.Configure();
    Leave(c, svc, from);
    more := x == Proceed || x == Silent;
  }

  method SetAnnotation(me: Instance, key: string, value: string)
    modifies me
    ensures me.View() == WithAnnotation(old(me.View()), key, value)
  {
    me.annotations := me.annotations["edp.epam.com/" + key := value];
  }

  method PushObject(c: Client, me: Instance, svc: ComponentService, ghost before: Obj) returns (more: bool)
    modifies c, me
    ensures Passing(more, c, me, svc) == UpdateObject(Site(old(c.w), before, svc.View()), old(me.View()))
  {
    hide ApiUpdate;
    var err := c.Update(me);
    more := err == NoFault;
  }

  method ExposeKeycloakCredentials(c: Client, me: Instance, svc: ComponentService) returns (more: bool)
    modifies c, me, svc
    ensures Passing(more, c, me, svc) == KeycloakStep(old(Here(c, me, svc)))
  {
    hide ExposeKeycloak, Back, UpdateObject;
    if me.spec != GerritSpec(true) {
      return true;
    }
    ghost var from := Here(c, me, svc);
    Enter(c, svc);
    var x := svc.ExposeKeycloakSecret();
    Leave(c, svc, from);
    if x != Proceed {
      return false;
    }
    ghost var before := me.View();
    SetAnnotation(me, "is-credentials", svc.name + KEYCLOAK_SECRET);
    more := PushObject(c, me, svc, before);
  }

  method ExposeConfiguration(c: Client, me: Instance, svc: ComponentService) returns (more: bool)
    modifies c, me, svc
    ensures Passing(more, c, me, svc) == ExposeStep(old(Here(c, me, svc)))
  {
    hide ExposeAccounts, Back, UpdateObject, KeycloakStep;
    ghost var from := Here(c, me, svc);
    Enter(c, svc);
    var x := svc.ExposeAllAccounts();
    Leave(c, svc, from);
    if x != Proceed {
      return false;
    }
    ghost var before := me.View();
    SetAnnotation(me, "ci-credentials", svc.name + CI_PASSWORD);
    SetAnnotation(me, "ci-sshkey", svc.name + CI_KEY);
    SetAnnotation(me, "argocd-credentials", svc.name + ARGO_PASSWORD);
    SetAnnotation(me, "argocd-sshkey", svc.name + ARGO_KEY);
    more := PushObject(c, me, svc, before);
    if more {
      more := ExposeKeycloakCredentials(c, me, svc);
    }
  }

  method UpdateAvailableStatus(c: Client, me: Instance, svc: ComponentService) returns (more: bool)
    modifies c, me
    ensures Passing(more, c, me, svc) == MakeAvailable(old(Here(c, me, svc)))
  {
    hide WriteStatus;
    if me.status.available {
      return true;
    }
    more := SetStatus(c, me, svc, SetAvailable(true));
  }

  method FirstHalf(c: Client, me: Instance, svc: ComponentService) returns (more: bool)
    modifies c, me, svc
    ensures Passing(more, c, me, svc) == Configuration(old(Here(c, me, svc)))
  {
    hide CheckReady, Advance, ConfigureStep;
    more := IsDeploymentReady(c, me, svc);
    if !more {
      return;
    }
    more := AdvancePhase(c, me, svc, [CREATED, ""], CONFIGURING);
    if !more {
      return;
    }
    more := ConfigureGerrit(c, me, svc);
    if !more {
      return;
    }
    more := IsDeploymentReady(c, me, svc);
  }

  method SecondHalf(c: Client, me: Instance, svc: ComponentService) returns (more: bool)
    modifies c, me, svc
    ensures Passing(more, c, me, svc) == Completion(old(Here(c, me, svc)))
  {
    hide Advance, ExposeStep, MakeAvailable;
    more := AdvancePhase(c, me, svc, [CONFIGURING], CONFIGURED);
    if !more {
      return;
    }
    more := AdvancePhase(c, me, svc, [CONFIGURED], EXPOSING);
    if !more {
      return;
    }
    more := ExposeConfiguration(c, me, svc);
    if !more {
      return;
    }
    more := AdvancePhase(c, me, svc, [EXPOSING], EXPOSED);
    if !more {
      return;
    }
    more := AdvancePhase(c, me, svc, [EXPOSED, INTEGRATION], READY);
    if !more {
      return;
    }
    more := UpdateAvailableStatus(c, me, svc);
  }

  const BLANK := Obj(0, 0, GerritSpec(false), EMPTY_STATUS, [], [], map[], false)

  method ReconcileGerrit(c: Client, svc: ComponentService)
    modifies c, svc
    ensures Scene(c.w, svc.View()) == Reconcile(old(Scene(c.w, svc.View())))
  {
    hide ApiGet, Advance, Install, Configuration, Completion;
    var me := new Instance(BLANK);
    var err := c.Get(me);
    if err != NoFault {
      return;
    }
    var more := AdvancePhase(c, me, svc, ["", FAILED], INSTALLING);
    if !more {
      return;
    }
    more := FinishInstall(c, me, svc);
    if !more {
      return;
    }
    more := FirstHalf(c, me, svc);
    if !more {
      return;
    }
    more := SecondHalf(c, me, svc);
  }
}
