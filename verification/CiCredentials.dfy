/**
 Credentials and memberships over whole runs of the installation, with failing calls, kills and interference: stored
 secrets never change once created, whenever the CI bot's account exists its password is the stored one, and nobody but
 the two service accounts joins a group, each its own.
 */
module CiCredentials {
  import opened Cluster
  import opened Bootstrap
  import opened Exposure
  import opened Installation

  /** What the installation does to the platform. */
  ghost predicate Safe(p: Platform, q: Platform) {
    SecretsKept(p, q) && (CiSound(p) ==> CiSound(q)) && OnlyGrants(p, q)
  }

  lemma SafeTransitive(p: Platform, q: Platform, r: Platform)
    requires Safe(p, q) && Safe(q, r)
    ensures Safe(p, r)
  {
  }

  lemma LawfulIsSafe(d: Desk, e: Desk)
    requires Lawful(d, e) && OnlyGrants(d.p, e.p)
    ensures Safe(d.p, e.p)
  {
  }

  lemma CheckReadySafe(s: Site)
    ensures CheckReady(s).s.p == s.p
  {
    hide Spend;
  }

  lemma ConfigureSafe(s: Site)
    ensures Safe(s.p, ConfigureStep(s).s.p)
  {
    hide Spend, Configure;
    var d := AtDesk(s);
    ConfigureFacts(d);
    KeptIsLawful(d, Configure(d).d);
    LawfulIsSafe(d, Configure(d).d);
    hide Kept, Lawful, Safe;
  }

  lemma KeycloakSafe(s: Site)
    ensures Safe(s.p, KeycloakStep(s).s.p)
  {
    hide Spend, UpdateObject, CreateSecret;
    var d := AtDesk(s);
    CreateSecretIsLawful(d, KEYCLOAK_SECRET, FreshText(d));
    LawfulIsSafe(d, ExposeKeycloak(d).d);
    UpdateKeepsPlatform(Back(s, ExposeKeycloak(d).d));
    hide Lawful;
  }

  lemma UpdateKeepsPlatform(s: Site)
    ensures forall me {:trigger UpdateObject(s, me)} :: UpdateObject(s, me).s.p == s.p
  {
  }

  lemma ExposeSafe(s: Site)
    ensures Safe(s.p, ExposeStep(s).s.p)
  {
    hide Spend, UpdateObject, KeycloakStep, ExposeAccounts;
    var d := AtDesk(s);
    ExposeAccountsFacts(d);
    LawfulIsSafe(d, ExposeAccounts(d).d);
    var s1 := Back(s, ExposeAccounts(d).d);
    UpdateKeepsPlatform(s1);
    var s2 := UpdateObject(s1, WithCredentials(s1.me, s1.p.name)).s;
    KeycloakSafe(s2);
    SafeTransitive(s.p, s1.p, KeycloakStep(s2).s.p);
    hide Lawful;
  }

  lemma ConfigurationSafe(s: Site)
    ensures Safe(s.p, Configuration(s).s.p)
  {
    hide CheckReady, WriteStatus, ConfigureStep, Safe;
    CheckReadySafe(s);
    var s1 := CheckReady(s).s;
    WritesKeepPlatform();
    var s2 := Advance(s1, [CREATED, ""], CONFIGURING).s;
    ConfigureSafe(s2);
    CheckReadySafe(ConfigureStep(s2).s);
    SafeReflexive(s.p);
  }

  lemma SafeReflexive(p: Platform)
    ensures Safe(p, p)
  {
  }

  lemma WritesKeepPlatform()
    ensures forall s, m {:trigger WriteStatus(s, m)} :: WriteStatus(s, m).s.p == s.p
  {
  }

  lemma CompletionSafe(s: Site)
    ensures Safe(s.p, Completion(s).s.p)
  {
    hide WriteStatus, ExposeStep, Safe;
    WritesKeepPlatform();
    var s1 := Advance(s, [CONFIGURING], CONFIGURED).s;
    var s2 := Advance(s1, [CONFIGURED], EXPOSING).s;
    ExposeSafe(s2);
    SafeReflexive(s.p);
  }

  lemma ReconcileSafe(c: Scene)
    ensures Safe(c.p, Reconcile(c).p)
  {
    hide WriteStatus, Configuration, Completion, ApiGet, Safe;
    SafeReflexive(c.p);
    WritesKeepPlatform();
    var (w, r) := ApiGet(c.w);
    if r.Answer? {
      var s1 := Advance(Site(w, r.obj, c.p), ["", FAILED], INSTALLING).s;
      var s2 := Install(s1).s;
      ConfigurationSafe(s2);
      var s3 := Configuration(s2).s;
      CompletionSafe(s3);
      SafeTransitive(s2.p, s3.p, Completion(s3).s.p);
    }
  }

  /** Over every run: no stored secret ever changes, and the CI account never gets away from its secret. */
  lemma {:induction false} CredentialsStayConsistent(c: Scene, visits: seq<Visit>)
    ensures SecretsKept(c.p, Visits(c, visits).p)
    ensures CiSound(c.p) ==> CiSound(Visits(c, visits).p)
    ensures OnlyGrants(c.p, Visits(c, visits).p)
    decreases |visits|
  {
    hide Reconcile;
    if visits != [] {
      ReconcileSafe(c);
      CredentialsStayConsistent(Visited(c, visits[0]), visits[1..]);
      OnlyGrantsTransitive(c.p, Visited(c, visits[0]).p, Visits(c, visits).p);
    }
  }

  /** In particular from a Gerrit without a CI account, whatever secrets are there already. */
  lemma CiAccountMatchesSecret(c: Scene, visits: seq<Visit>)
    requires CI_USER !in c.p.accounts
    ensures var p := Visits(c, visits).p;
            CI_USER in p.accounts ==> CI_PASSWORD in p.secrets && p.accounts[CI_USER] == p.secrets[CI_PASSWORD]
  {
    CredentialsStayConsistent(c, visits);
  }

  /** Over every run: who joins which group. */
  lemma OnlyServiceAccountsJoin(c: Scene, visits: seq<Visit>)
    ensures var q := Visits(c, visits).p;
            c.p.members <= q.members
            && forall m | m in q.members && m !in c.p.members ::
                 m == ("edp-ci", "Project Bootstrappers") || m == ("edp-ci", "Administrators") || m == ("argocd", "ReadOnly")
  {
    CredentialsStayConsistent(c, visits);
    var q := Visits(c, visits).p;
    assert forall m | m in q.members && m !in c.p.members :: m in q.members - c.p.members;
    hide Visits;
  }
}
