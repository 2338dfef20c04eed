/**
 The installation of a Gerrit instance (controllers/gerrit/gerrit_controller.go, Reconcile): the phases in its
 status, advanced step by step around Configure and ExposeConfiguration.
 */
module Installation {
  import opened Cluster
  import opened Helper
  import opened StatusRetry
  import opened Bootstrap
  import opened Exposure

  const FAILED := "failed"
  const INSTALLING := "installing"
  const CREATED := "created"
  const CONFIGURING := "configuring"
  const CONFIGURED := "configured"
  const EXPOSING := "exposing config"
  const EXPOSED := "config exposed"
  const INTEGRATION := "integration started"  // legacy
  const READY := "ready"

  /** The world, the reconciler's copy of the Gerrit object, and the platform. */
  datatype Site = Site(w: World, me: Obj, p: Platform)

  /** Go on with the reconcile, or return from it. */
  datatype Pass = More(s: Site) | Done(s: Site) {
    predicate IsFailure() { Done? }
    function PropagateFailure(): Pass requires Done? { this }
    function Extract(): Site requires More? { s }
  }

  // ---------- Platform calls use up turns of the same script ----------

  function Spend(w: World, n: nat): World
    decreases n
  {
    if n == 0 then w else Spend(Call(w).0, n - 1)
  }

  function AtDesk(s: Site): Desk {
    Desk(s.p, s.w.script)
  }

  function Back(s: Site, d: Desk): Site {
    Site(Spend(s.w, if |s.w.script| <= |d.turns| then 0 else |s.w.script| - |d.turns|), s.me, d.p)
  }

  // ---------- The steps of Reconcile ----------

  function WriteStatus(s: Site, m: Mutation): Pass {
    var t := UpdateStatusWithRetry(St(s.w, s.me), m);
    var s := Site(t.st.w, t.st.me, s.p);
    if t.Ok? then More(s) else Done(s)
  }

  function Advance(s: Site, from: seq<string>, to: string): Pass {
    if s.me.status.phase in from then WriteStatus(s, SetPhase(to)) else More(s)
  }

  /** A fresh installation is only marked as created; the rest follows in the next reconcile. */
  function Install(s: Site): Pass {
    if s.me.status.phase == INSTALLING then Done(WriteStatus(s, SetPhase(CREATED)).s) else More(s)
  }

  /** Whether the deployment is ready at the next call: it comes and goes also while a reconcile runs. */
  predicate Up(s: Site) {
    s.p.ready && s.w.script != [] && !s.w.script[0].down
  }

  function CheckReady(s: Site): Pass {
    var r := Asking(AtDesk(s));
    if r.Go? && Up(s) then More(Back(s, r.d)) else Done(Back(s, r.d))
  }

  /** A silent give-up of Configure goes on like a success. */
  function ConfigureStep(s: Site): Pass {
    var r := Configure(AtDesk(s));
    var s := Back(s, r.d);
    if r.Stop? && (r.patched || r.failed) then Done(s) else More(s)
  }

  function WithAnnotation(me: Obj, key: string, value: string): Obj {
    me.(annotations := me.annotations["edp.epam.com/" + key := value])
  }

  function WithCredentials(me: Obj, name: string): Obj {
    WithAnnotation(WithAnnotation(WithAnnotation(WithAnnotation(me,
      "ci-credentials", name + CI_PASSWORD), "ci-sshkey", name + CI_KEY),
      "argocd-credentials", name + ARGO_PASSWORD), "argocd-sshkey", name + ARGO_KEY)
  }

  function UpdateObject(s: Site, me: Obj): Pass {
    var t := Updating(St(s.w, me));
    var s := Site(t.st.w, t.st.me, s.p);
    if t.Ok? then More(s) else Done(s)
  }

  function KeycloakStep(s: Site): Pass {
    if s.me.spec != GerritSpec(true) then More(s)
    else
      var r := ExposeKeycloak(AtDesk(s));
      var s := Back(s, r.d);
      if r.Stop? then Done(s)
      else UpdateObject(s, WithAnnotation(s.me, "is-credentials", s.p.name + KEYCLOAK_SECRET))
  }

  function ExposeStep(s: Site): Pass {
    var r := ExposeAccounts(AtDesk(s));
    var s := Back(s, r.d);
    if r.Stop? then Done(s)
    else
      var s :- UpdateObject(s, WithCredentials(s.me, s.p.name));
      KeycloakStep(s)
  }

  function MakeAvailable(s: Site): Pass {
    if s.me.status.available then More(s) else WriteStatus(s, SetAvailable(true))
  }

  function Configuration(s: Site): Pass {
    var s :- CheckReady(s);
    var s :- Advance(s, [CREATED, ""], CONFIGURING);
    var s :- ConfigureStep(s);
    CheckReady(s)
  }

  function Completion(s: Site): Pass {
    var s :- Advance(s, [CONFIGURING], CONFIGURED);
    var s :- Advance(s, [CONFIGURED], EXPOSING);
    var s :- ExposeStep(s);
    var s :- Advance(s, [EXPOSING], EXPOSED);
    var s :- Advance(s, [EXPOSED, INTEGRATION], READY);
    MakeAvailable(s)
  }

  function Body(s: Site): Pass {
    var s :- Advance(s, ["", FAILED], INSTALLING);
    var s :- Install(s);
    var s :- Configuration(s);
    Completion(s)
  }

  datatype Scene = Scene(w: World, p: Platform)

  function Reconcile(c: Scene): Scene {
    var (w, r) := ApiGet(c.w);
    if !r.Answer? then Scene(w, c.p)
    else
      var t := Body(Site(w, r.obj, c.p));
      Scene(t.s.w, t.s.p)
  }

  /** Between reconciles others act on the object, and the deployment and its pods come and go. */
  datatype Visit = Work | Others(steps: seq<Step>) | Weather(ready: bool, pods: nat)

  function Visited(c: Scene, v: Visit): Scene {
    match v
    case Work => Reconcile(c)
    case Others(steps) => c.(w := Act(c.w, steps))
    case Weather(ready, pods) => c.(p := c.p.(ready := ready, pods := pods))
  }

  function Visits(c: Scene, visits: seq<Visit>): Scene
    decreases |visits|
  {
    if visits == [] then c else Visits(Visited(c, visits[0]), visits[1..])
  }
}
