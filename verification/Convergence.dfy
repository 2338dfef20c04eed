/**
 The installation converges: when calls work and nobody interferes, with exactly one ready pod and a fixed
 positive ssh node port, three reconciles complete it from every recognised phase.
 */
module Convergence {
  import opened Common
  import opened SshPort
  import opened Cluster
  import opened Helper
  import opened StatusRetry
  import opened Bootstrap
  import opened Exposure
  import opened Installation
  import opened PhaseSafety

  /** At least n calls work, reads are current, nobody acts in between, and the deployment does not go down. */
  ghost predicate Undisturbed(script: seq<Turn>, n: nat) {
    Working(script, n) && forall t | t in script :: t.steps == [] && t.stale.None? && !t.down
  }

  /** Besides, Gerrit answers for itself. */
  ghost predicate Quiet(script: seq<Turn>, n: nat) {
    Undisturbed(script, n) && NoBadCodes(script)
  }

  /** The copy is the stored object, which is not about to vanish. */
  predicate InStep(s: Site) {
    s.w.stored == Some(s.me) && (s.me.deleting ==> s.me.finalizers != [])
  }

  /** What is left of a script after k calls. */
  ghost predicate Onward(script: seq<Turn>, later: seq<Turn>, n: nat) {
    Undisturbed(later, n) && (NoBadCodes(script) ==> NoBadCodes(later))
  }

  lemma QuietCall(w: World, n: nat)
    requires Undisturbed(w.script, n) && n > 0
    ensures Call(w).0 == w.(script := w.script[1..]) && Call(w).1.works && Call(w).1.stale.None?
    ensures Onward(w.script, Call(w).0.script, n - 1)
  {
    assert w.script[0] in w.script;
  }

  lemma {:induction false} QuietSpend(w: World, k: nat, n: nat)
    requires Undisturbed(w.script, n) && k <= n
    ensures Spend(w, k) == w.(script := w.script[k..]) && Onward(w.script, w.script[k..], n - k)
    decreases k
  {
    hide Call;
    if k == 0 {
      assert w.script[0..] == w.script;
    } else {
      QuietCall(w, n);
      QuietSpend(Call(w).0, k - 1, n - 1);
      assert w.script[1..][k - 1..] == w.script[k..];
    }
  }

  /** Platform calls leave the object alone and leave at least n - k turns. */
  lemma QuietBack(s: Site, d: Desk, n: nat, k: nat)
    requires Undisturbed(s.w.script, n) && k <= n && |d.turns| >= |s.w.script| - k && |d.turns| <= |s.w.script|
    ensures var t := Back(s, d);
            t.me == s.me && t.p == d.p && t.w == s.w.(script := s.w.script[|s.w.script| - |d.turns|..])
            && Onward(s.w.script, t.w.script, n - k)
  {
    hide Spend, Working, NoBadCodes;
    var spent := |s.w.script| - |d.turns|;
    QuietSpend(s.w, spent, n);
    QuietFewer(s.w.script[spent..], n - spent, n - k);
  }

  lemma QuietFewer(script: seq<Turn>, n: nat, k: nat)
    requires Undisturbed(script, n) && k <= n
    ensures Undisturbed(script, k)
  {
  }

  /** Spec and annotations are the same. */
  predicate Alike(a: Obj, b: Obj) {
    b.spec == a.spec && b.annotations == a.annotations
  }

  /** Without interference the first attempt commits the mutation. */
  lemma QuietWrite(s: Site, m: Mutation, n: nat)
    requires InStep(s) && Undisturbed(s.w.script, n) && n > 0
    ensures var t := WriteStatus(s, m);
            t.More? && InStep(t.s) && t.s.p == s.p && Onward(s.w.script, t.s.w.script, n - 1)
            && t.s.w.script == s.w.script[1..]
            && t.s.me.status == Mutated(m, s.me.status) && Alike(s.me, t.s.me)
  {
    QuietCall(s.w, n);
    hide Call, Undisturbed, NoBadCodes, Mutated;
    assert Attempt(St(s.w, s.me), m).Settled?;
  }

  lemma QuietUpdate(s: Site, me: Obj, n: nat)
    requires InStep(s) && Quiet(s.w.script, n) && n > 0
    requires me == s.me.(annotations := me.annotations)
    ensures var t := UpdateObject(s, me);
            t.More? && InStep(t.s) && t.s.p == s.p && Quiet(t.s.w.script, n - 1)
            && t.s.me.status == s.me.status && Alike(me, t.s.me)
  {
    QuietCall(s.w, n);
    hide Call, Undisturbed, NoBadCodes;
  }

  lemma QuietAdvance(s: Site, from: seq<string>, to: string, n: nat)
    requires InStep(s) && Undisturbed(s.w.script, n) && n > 0
    ensures var t := Advance(s, from, to);
            t.More? && InStep(t.s) && t.s.p == s.p && Onward(s.w.script, t.s.w.script, n - 1)
            && t.s.w.script == (if s.me.status.phase in from then s.w.script[1..] else s.w.script)
            && t.s.me.status == s.me.status.(phase := PhaseThen(s.me.status.phase, from, to)) && Alike(s.me, t.s.me)
  {
    hide WriteStatus;
    QuietFewer(s.w.script, n, n - 1);
    hide Undisturbed, NoBadCodes;
    if s.me.status.phase in from {
      QuietWrite(s, SetPhase(to), n);
    }
  }

  /** The world but for the script, and the copy. */
  predicate SameObject(s: Site, t: Site) {
    t.me == s.me && t.w == s.w.(script := t.w.script) && (InStep(s) ==> InStep(t))
  }

  lemma QuietReady(s: Site, n: nat)
    requires Undisturbed(s.w.script, n) && n > 0 && s.p.ready
    ensures var t := CheckReady(s);
            t.More? && SameObject(s, t.s) && t.s.p == s.p && Onward(s.w.script, t.s.w.script, n - 1)
            && t.s.w.script == s.w.script[1..]
  {
    hide Back;
    assert s.w.script[0] in s.w.script;
    QuietBack(s, Asking(AtDesk(s)).d, n, 1);
    hide Undisturbed, NoBadCodes;
  }

  /** What stays true of the platform throughout. */
  ghost predicate Suitable(p: Platform) {
    p.ready && p.pods == 1 && Configurable(p) && NoneOrAllGroups(p) && CiSound(p)
  }

  lemma QuietConfigure(s: Site, n: nat)
    requires Quiet(s.w.script, n) && n >= CONFIGURE_CALLS && Suitable(s.p)
    ensures var t := ConfigureStep(s);
            SameObject(s, t.s) && Suitable(t.s.p) && PortSettled(t.s.p) && Quiet(t.s.w.script, n - CONFIGURE_CALLS)
            && (if PortSettled(s.p) then t.More? && Bootstrapped(t.s.p) else t.Done?)
  {
    hide Back, Configure, CiSound, Configurable, NoneOrAllGroups, PortSettled, Bootstrapped;
    var d := AtDesk(s);
    CalmFewer(s.w.script, n, CONFIGURE_CALLS);
    CalmConfigure(d);
    ConfigureFacts(d);
    GroupsDependOn(s.p, s.p);
    NoneOrAllStays(s.p, Configure(d).d.p);
    KeptIsLawful(d, Configure(d).d);
    QuietBack(s, Configure(d).d, n, CONFIGURE_CALLS);
    hide Undisturbed, NoBadCodes, GroupsAfter;
  }

  lemma QuietKeycloak(s: Site, n: nat)
    requires InStep(s) && Quiet(s.w.script, n) && n >= 3
    ensures var t := KeycloakStep(s);
            t.More? && InStep(t.s) && t.s.me.status == s.me.status && Quiet(t.s.w.script, n - 3)
            && t.s.p == s.p.(secrets := t.s.p.secrets) && SecretsKept(s.p, t.s.p)
            && t.s.me.spec == s.me.spec
            && t.s.me.annotations == (if s.me.spec == GerritSpec(true)
                 then s.me.annotations["edp.epam.com/" + "is-credentials" := s.p.name + "-is-credentials"] else s.me.annotations)
            && t.s.p.secrets.Keys == s.p.secrets.Keys + (if s.me.spec == GerritSpec(true) then {"-is-credentials"} else {})
  {
    hide Back, ExposeKeycloak, UpdateObject;
    QuietFewer(s.w.script, n, n - 3);
    KeycloakDesk(AtDesk(s), n);
    var r := ExposeKeycloak(AtDesk(s));
    QuietBack(s, r.d, n, 2);
    var s1 := Back(s, r.d);
    QuietUpdate(s1, WithAnnotation(s1.me, "is-credentials", s1.p.name + KEYCLOAK_SECRET), n - 2);
    hide Undisturbed, NoBadCodes;
  }

  lemma KeycloakDesk(d: Desk, n: nat)
    requires Calm(d.turns, n) && n >= 2
    ensures var r := ExposeKeycloak(d);
            r.Go? && |r.d.turns| >= |d.turns| - 2 && |r.d.turns| <= |d.turns|
            && r.d.p == d.p.(secrets := r.d.p.secrets) && SecretsKept(d.p, r.d.p)
            && r.d.p.secrets.Keys == d.p.secrets.Keys + {"-is-credentials"}
  {
    hide CreateSecret;
    CalmSecret(d, KEYCLOAK_SECRET, FreshText(d), n);
    CreateSecretFacts(d, KEYCLOAK_SECRET, FreshText(d));
    CreateSecretIsLawful(d, KEYCLOAK_SECRET, FreshText(d));
    hide CiSound, Calm;
  }

  /** Installed, configured and exposed: both service accounts exist, each in its groups, with their secrets. */
  ghost predicate Finished(p: Platform) {
    && Suitable(p) && PortSettled(p) && AllGroups(p)
    && CI_USER in p.accounts && ARGO_USER in p.accounts && Joined(p)
    && "-ciuser-password" in p.secrets && "-ciuser-sshkey" in p.secrets
    && "-argocd-password" in p.secrets && "-argocd-sshkey" in p.secrets
  }

  predicate Annotated(o: Obj, key: string, value: string) {
    "edp.epam.com/" + key in o.annotations && o.annotations["edp.epam.com/" + key] == value
  }

  /** The annotations point to the secrets; Keycloak's is there when it is enabled. */
  predicate Advertised(o: Obj, p: Platform) {
    && Annotated(o, "ci-credentials", p.name + "-ciuser-password") && Annotated(o, "ci-sshkey", p.name + "-ciuser-sshkey")
    && Annotated(o, "argocd-credentials", p.name + "-argocd-password") && Annotated(o, "argocd-sshkey", p.name + "-argocd-sshkey")
    && (o.spec == GerritSpec(true) ==> Annotated(o, "is-credentials", p.name + "-is-credentials") && "-is-credentials" in p.secrets)
  }

  /** Only these fields matter to the platform's fitness. */
  lemma SuitableStays(p: Platform, q: Platform)
    requires Suitable(p) && q == p.(secrets := q.secrets, accounts := q.accounts, members := q.members, client := q.client, issued := q.issued)
    requires CiSound(q)
    ensures Suitable(q) && PortSettled(q) == PortSettled(p) && AllGroups(q) == AllGroups(p)
  {
    SettledAndConfigurable(p, q);
    GroupsDependOn(p, q);
    hide PortSettled, Configurable, NoneOrAllGroups, AllGroups;
  }

  /** Exposing works whenever the node port is known and the admin's key pair is stored. */
  predicate Exposable(p: Platform) {
    ServiceNodePort(p.ports).Some? && ADMIN_KEY in p.secrets
  }

  lemma BootstrappedIsExposable(p: Platform)
    requires Bootstrapped(p)
    ensures Exposable(p)
  {
  }

  lemma KeycloakSecretIsAnother()
    ensures "-is-credentials" !in {CI_PASSWORD, CI_KEY, ARGO_PASSWORD, ARGO_KEY}
  {
    assert |"-is-credentials"| == 15 && |CI_PASSWORD| == 16 && |CI_KEY| == 14 && |ARGO_PASSWORD| == 16 && |ARGO_KEY| == 14;
  }

  lemma ExposeDesk(d: Desk)
    requires Calm(d.turns, EXPOSE_CALLS) && Exposable(d.p)
    ensures var r := ExposeAccounts(d);
            r.Go? && |r.d.turns| >= |d.turns| - EXPOSE_CALLS && |r.d.turns| <= |d.turns|
            && r.d.p.groups == d.p.groups && r.d.p.name == d.p.name
            && ("-is-credentials" in r.d.p.secrets <==> "-is-credentials" in d.p.secrets) && (Suitable(d.p) && Bootstrapped(d.p) ==> Finished(r.d.p))
  {
    hide ExposeAccounts, NoBadCodes, Authorised, AllGroups, CiSound;
    CalmExposeAccounts(d);
    ExposeAccountsFacts(d);
    KeycloakSecretIsAnother();
    if Suitable(d.p) && Bootstrapped(d.p) {
      assert WithClient(d, SecretOf(d.p, ADMIN_PASSWORD)) == d;
      SuitableStays(d.p, ExposeAccounts(d).d.p);
    }
    hide PortSettled;
  }

  lemma KeycloakKeepsFinished(p: Platform, q: Platform)
    requires Finished(p) && q == p.(secrets := q.secrets) && SecretsKept(p, q)
    ensures Finished(q)
  {
    SuitableStays(p, q);
  }

  const EXPOSE_STEP_CALLS := 29

  lemma SamePrefix(p: string, a: string, b: string)
    requires a != b
    ensures p + a != p + b
  {
    assert (p + a)[|p|..] == a;
    assert (p + b)[|p|..] == b;
  }

  /** The four annotations, and the fifth one if Keycloak is enabled. */
  lemma CredentialsAdvertise(was: Obj, exposed: Obj, now: Obj, p: Platform)
    requires Alike(WithCredentials(was, p.name), exposed) && now.spec == exposed.spec
    requires now.annotations == (if now.spec == GerritSpec(true)
               then exposed.annotations["edp.epam.com/" + "is-credentials" := p.name + "-is-credentials"] else exposed.annotations)
    requires now.spec == GerritSpec(true) ==> "-is-credentials" in p.secrets
    ensures Advertised(now, p)
  {
    var prefix := "edp.epam.com/";
    assert |"ci-sshkey"| == 9 && |"argocd-sshkey"| == 13 && |"ci-credentials"| == 14 && |"argocd-credentials"| == 18;
    assert "ci-credentials"[0] == 'c' && "is-credentials"[0] == 'i' && |"is-credentials"| == 14;
    SamePrefix(prefix, "ci-credentials", "ci-sshkey");
    SamePrefix(prefix, "ci-credentials", "argocd-credentials");
    SamePrefix(prefix, "ci-credentials", "argocd-sshkey");
    SamePrefix(prefix, "ci-credentials", "is-credentials");
    SamePrefix(prefix, "ci-sshkey", "argocd-credentials");
    SamePrefix(prefix, "ci-sshkey", "argocd-sshkey");
    SamePrefix(prefix, "ci-sshkey", "is-credentials");
    SamePrefix(prefix, "argocd-credentials", "argocd-sshkey");
    SamePrefix(prefix, "argocd-credentials", "is-credentials");
    SamePrefix(prefix, "argocd-sshkey", "is-credentials");
  }

  lemma QuietExpose(s: Site, n: nat)
    requires InStep(s) && Quiet(s.w.script, n) && n >= EXPOSE_STEP_CALLS && Exposable(s.p)
    ensures var t := ExposeStep(s);
            t.More? && InStep(t.s) && t.s.me.status == s.me.status && Quiet(t.s.w.script, n - EXPOSE_STEP_CALLS)
            && t.s.me.spec == s.me.spec && Advertised(t.s.me, t.s.p)
            && ("-is-credentials" in t.s.p.secrets <==> s.me.spec == GerritSpec(true) || "-is-credentials" in s.p.secrets)
            && t.s.p.groups == s.p.groups && (Suitable(s.p) && Bootstrapped(s.p) ==> Finished(t.s.p))
  {
    hide Back, ExposeAccounts, UpdateObject, KeycloakStep, Finished, Suitable, Bootstrapped;
    CalmFewer(s.w.script, n, EXPOSE_CALLS);
    ExposeDesk(AtDesk(s));
    var r := ExposeAccounts(AtDesk(s));
    QuietBack(s, r.d, n, EXPOSE_CALLS);
    var s1 := Back(s, r.d);
    QuietUpdate(s1, WithCredentials(s1.me, s1.p.name), n - EXPOSE_CALLS);
    var s2 := UpdateObject(s1, WithCredentials(s1.me, s1.p.name)).s;
    QuietKeycloak(s2, n - EXPOSE_CALLS - 1);
    if Finished(s2.p) {
      KeycloakKeepsFinished(s2.p, KeycloakStep(s2).s.p);
    }
    CredentialsAdvertise(s1.me, s2.me, KeycloakStep(s2).s.me, KeycloakStep(s2).s.p);
    hide Undisturbed, NoBadCodes, Exposable;
  }

  // ---------- A whole reconcile ----------

  predicate Early(phase: string) {
    phase in ["", FAILED, INSTALLING]
  }

  /** What follows the step to configuring. */
  function FromConfiguring(s: Site): Pass {
    var s :- ConfigureStep(s);
    var s :- CheckReady(s);
    Completion(s)
  }

  lemma QuietConfiguration(s: Site, n: nat)
    requires InStep(s) && Quiet(s.w.script, n) && n >= CONFIGURE_CALLS + 3 && Suitable(s.p)
    requires Recognised(s.me.status.phase) && !Early(s.me.status.phase)
    ensures var t := Configuration(s);
            InStep(t.s) && Suitable(t.s.p) && PortSettled(t.s.p) && Quiet(t.s.w.script, n - CONFIGURE_CALLS - 3)
            && t.s.me.status == s.me.status.(phase := PhaseThen(s.me.status.phase, [CREATED, ""], CONFIGURING))
            && (if PortSettled(s.p) then t.More? && Bootstrapped(t.s.p) else t.Done?)
  {
    hide CheckReady, Advance, ConfigureStep, Configurable, CiSound, NoneOrAllGroups, PortSettled, Bootstrapped, Recognised;
    QuietReady(s, n);
    var s1 := CheckReady(s).s;
    QuietAdvance(s1, [CREATED, ""], CONFIGURING, n - 1);
    var s2 := Advance(s1, [CREATED, ""], CONFIGURING).s;
    QuietConfigure(s2, n - 2);
    var t := ConfigureStep(s2);
    if t.More? {
      QuietReady(t.s, n - 2 - CONFIGURE_CALLS);
    }
    QuietFewer(t.s.w.script, n - 2 - CONFIGURE_CALLS, n - 3 - CONFIGURE_CALLS);
    hide Undisturbed, NoBadCodes, InStep;
  }

  lemma QuietCompletion(s: Site, n: nat)
    requires InStep(s) && Quiet(s.w.script, n) && n >= EXPOSE_STEP_CALLS + 5 && Exposable(s.p)
    requires Configuring(s.me.status.phase)
    ensures var t := Completion(s);
            t.More? && InStep(t.s) && Quiet(t.s.w.script, n - EXPOSE_STEP_CALLS - 5)
            && t.s.me.status.phase == READY && t.s.me.status.available && Advertised(t.s.me, t.s.p)
            && t.s.p.groups == s.p.groups && (Suitable(s.p) && Bootstrapped(s.p) ==> Finished(t.s.p))
  {
    hide Advance, ExposeStep, WriteStatus, Finished, Suitable, Bootstrapped, Exposable, Advertised;
    QuietAdvance(s, [CONFIGURING], CONFIGURED, n);
    var s1 := Advance(s, [CONFIGURING], CONFIGURED).s;
    QuietAdvance(s1, [CONFIGURED], EXPOSING, n - 1);
    var s2 := Advance(s1, [CONFIGURED], EXPOSING).s;
    QuietExpose(s2, n - 2);
    var s3 := ExposeStep(s2).s;
    var k := n - 2 - EXPOSE_STEP_CALLS;
    QuietAdvance(s3, [EXPOSING], EXPOSED, k);
    var s4 := Advance(s3, [EXPOSING], EXPOSED).s;
    QuietAdvance(s4, [EXPOSED, INTEGRATION], READY, k - 1);
    var s5 := Advance(s4, [EXPOSED, INTEGRATION], READY).s;
    QuietFewer(s5.w.script, k - 2, k - 3);
    QuietWrite(s5, SetAvailable(true), k - 2);
    StillAdvertised(s3.me, s5.me, s5.p);
    StillAdvertised(s3.me, WriteStatus(s5, SetAvailable(true)).s.me, s5.p);
    EndsReady(s.me.status.phase);
    hide Undisturbed, NoBadCodes, InStep;
  }

  lemma StillAdvertised(a: Obj, b: Obj, p: Platform)
    requires Advertised(a, p) && Alike(a, b)
    ensures Advertised(b, p)
  {
  }

  /** The phase after the four writes of the second half. */
  lemma EndsReady(ph: string)
    requires Configuring(ph)
    ensures var ph1 := PhaseThen(PhaseThen(ph, [CONFIGURING], CONFIGURED), [CONFIGURED], EXPOSING);
            PhaseThen(PhaseThen(ph1, [EXPOSING], EXPOSED), [EXPOSED, INTEGRATION], READY) == READY
  {
  }

  /** What a scene needs to converge: an object in a recognised phase, a suitable platform, and quiet for n calls. */
  ghost predicate Converging(c: Scene, n: nat) {
    && c.w.stored.Some? && Recognised(c.w.stored.value.status.phase)
    && (c.w.stored.value.deleting ==> c.w.stored.value.finalizers != [])
    && Suitable(c.p) && Quiet(c.w.script, n)
  }

  /**
   Ready and available, the port settled, all groups present, the CI bot on its stored password, both service accounts
   in their groups, and their secrets announced on the object.
   */
  ghost predicate Complete(c: Scene) {
    && c.w.stored.Some? && c.w.stored.value.status.phase == READY && c.w.stored.value.status.available
    && Finished(c.p) && Advertised(c.w.stored.value, c.p)
  }

  function Phase(c: Scene): string
    requires c.w.stored.Some?
  {
    c.w.stored.value.status.phase
  }

  /** The termination measure: phases left in units of one reconcile, plus one pending port patch. */
  ghost function Left(c: Scene): nat
    requires c.w.stored.Some?
  {
    if Complete(c) then 0 else 1 + (if Early(Phase(c)) then 1 else 0) + (if PortSettled(c.p) then 0 else 1)
  }

  const RECONCILE_CALLS := 80

  /** Ready and available, with nothing left to do. */
  ghost predicate Fulfilled(s: Site) {
    s.me.status.phase == READY && s.me.status.available && Finished(s.p) && Advertised(s.me, s.p)
  }

  lemma QuietBody(s: Site, n: nat)
    requires InStep(s) && Quiet(s.w.script, n) && n >= RECONCILE_CALLS - 1 && Suitable(s.p) && Recognised(s.me.status.phase)
    ensures var t := Body(s);
            InStep(t.s) && Suitable(t.s.p) && Recognised(t.s.me.status.phase) && Quiet(t.s.w.script, n - RECONCILE_CALLS + 1)
            && !Early(t.s.me.status.phase)
            && (if Early(s.me.status.phase) then PortSettled(t.s.p) == PortSettled(s.p)
                else PortSettled(t.s.p)
                     && (PortSettled(s.p) ==> Fulfilled(t.s)))
  {
    hide Advance, WriteStatus, Configuration, Completion, Bootstrapped, PortSettled, Configurable, CiSound, NoneOrAllGroups, AllGroups, Advertised;
    QuietAdvance(s, ["", FAILED], INSTALLING, n);
    var s1 := Advance(s, ["", FAILED], INSTALLING).s;
    if Early(s.me.status.phase) {
      QuietWrite(s1, SetPhase(CREATED), n - 1);
      var s2 := WriteStatus(s1, SetPhase(CREATED)).s;
      QuietFewer(s2.w.script, n - 2, n - RECONCILE_CALLS + 1);
    } else {
      QuietConfiguration(s1, n - 1);
      var t := Configuration(s1);
      var k := n - CONFIGURE_CALLS - 4;
      if t.More? {
        BootstrappedIsExposable(t.s.p);
        QuietCompletion(t.s, k);
        QuietFewer(Completion(t.s).s.w.script, k - EXPOSE_STEP_CALLS - 5, n - RECONCILE_CALLS + 1);
      }
      QuietFewer(t.s.w.script, k, n - RECONCILE_CALLS + 1);
    }
    hide Undisturbed, NoBadCodes, InStep;
  }

  /** Every reconcile uses up one unit of the measure. */
  lemma ReconcileConverges(c: Scene, n: nat)
    requires Converging(c, n) && n >= RECONCILE_CALLS
    ensures Converging(Reconcile(c), n - RECONCILE_CALLS)
    ensures Left(Reconcile(c)) == 0 || Left(Reconcile(c)) < Left(c)
  {
    QuietCall(c.w, n);
    hide Call, Quiet, Body, Suitable, Finished, PortSettled, Recognised, Advertised;
    var s := Site(Call(c.w).0, c.w.stored.value, c.p);
    assert ApiGet(c.w) == (Call(c.w).0, Answer(c.w.stored.value));
    QuietBody(s, n - 1);
    FinishedIsSettled(c.p);
    FinishedIsSettled(Body(s).s.p);
  }

  lemma FinishedIsSettled(p: Platform)
    ensures Finished(p) ==> PortSettled(p)
  {
  }

  function Works(k: nat): seq<Visit> {
    seq(k, _ => Work)
  }

  lemma {:induction false} WorksConverge(c: Scene, k: nat, n: nat)
    requires Converging(c, n) && n >= k * RECONCILE_CALLS && k >= Left(c) && k > 0
    ensures Complete(Visits(c, Works(k))) && Converging(Visits(c, Works(k)), n - k * RECONCILE_CALLS)
    decreases k
  {
    hide Reconcile, Converging;
    ReconcileConverges(c, n);
    assert Works(k)[1..] == Works(k - 1);
    if k > 1 {
      WorksConverge(Reconcile(c), k - 1, n - RECONCILE_CALLS);
    }
  }

  /** From every recognised phase, pending patch or not, three reconciles complete the installation. */
  lemma ThreeReconcilesComplete(c: Scene)
    requires Converging(c, 3 * RECONCILE_CALLS)
    ensures Complete(Visits(c, [Work, Work, Work]))
  {
    hide Reconcile, Converging, Complete;
    assert Works(3) == [Work, Work, Work];
    LeftBounded(c);
    WorksConverge(c, 3, 3 * RECONCILE_CALLS);
  }

  lemma LeftBounded(c: Scene)
    requires Converging(c, 0) || Converging(c, 3 * RECONCILE_CALLS)
    ensures c.w.stored.Some? && Left(c) <= 3
  {
  }
}
