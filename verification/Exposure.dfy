/**
 Exposing the configuration (pkg/service/gerrit/gerrit.go, ExposeConfiguration): the accounts of the CI bot and
 of ArgoCD with their secrets. Fresh keys and passwords are drawn in every run, and CreateSecret keeps what is
 already stored.
 */
module Exposure {
  import opened SshPort
  import opened Bootstrap

  const CI_USER := "edp-ci"
  const CI_PASSWORD := "-ciuser-password"
  const CI_KEY := "-ciuser-sshkey"
  const ARGO_USER := "argocd"
  const ARGO_PASSWORD := "-argocd-password"
  const ARGO_KEY := "-argocd-sshkey"
  const KEYCLOAK_SECRET := "-is-credentials"
  const ADMINISTRATORS := "Administrators"

  /** An account is only created when Gerrit answers that there is none; creating it twice is refused. */
  function CreateUser(d: Desk, user: string, password: string): Res {
    var (d, t) := Next(d);
    if !t.works then Failing(d)
    else if Http(d.p, t, user in d.p.accounts) != NOT_FOUND then Go(d)
    else
      var d :- Commanding(d, UserCreated(user));
      if user in d.p.accounts then Failing(d)
      else Go(d.(p := d.p.(accounts := d.p.accounts[user := password])))
  }

  function AddUserToGroups(d: Desk, user: string, groups: seq<string>): Res
    decreases |groups|
  {
    if groups == [] then Go(d)
    else
      var (r, status) := CheckGroup(d, groups[0]);
      var d :- r;
      if status == NOT_FOUND then AddUserToGroups(d, user, groups[1..])
      else
        var d :- Asking(d);
        AddUserToGroups(d.(p := d.p.(members := d.p.members + {(user, groups[0])})), user, groups[1..])
  }

  /** initRestClient and initSSHClient. */
  function OpenClients(d: Desk): Res {
    var d :- Asking(d);
    var d := WithClient(d, SecretOf(d.p, ADMIN_PASSWORD));
    var d :- Asking(d);
    if ServiceNodePort(d.p.ports).None? then Failing(d)
    else
      var d :- Asking(d);
      OpenSsh(d)
  }

  /** The CI bot gets the stored password, which may be older than this run. */
  function ExposeCi(d: Desk): Res {
    var d :- CreateSecret(d, CI_PASSWORD, FreshText(d));
    var d :- Asking(d);
    var password := SecretOf(d.p, CI_PASSWORD);
    var d :- CreateSecret(d, CI_KEY, FreshText(d));
    var d :- CreateUser(d, CI_USER, password);
    AddUserToGroups(d, CI_USER, [BOOTSTRAPPERS, ADMINISTRATORS])
  }

  /** ArgoCD gets the password drawn in this run, whatever is stored. */
  function ExposeArgo(d: Desk): Res {
    var password := FreshText(d);
    var d :- CreateSecret(d, ARGO_PASSWORD, password);
    var d :- CreateSecret(d, ARGO_KEY, FreshText(d));
    var d :- CreateUser(d, ARGO_USER, password);
    AddUserToGroups(d, ARGO_USER, [READ_ONLY])
  }

  function ExposeAccounts(d: Desk): Res {
    var d :- OpenClients(d);
    var d :- ExposeCi(d);
    ExposeArgo(d)
  }

  function ExposeKeycloak(d: Desk): Res {
    CreateSecret(d, KEYCLOAK_SECRET, FreshText(d))
  }

  // ---------- Credentials of the CI bot ----------

  /** Whenever the CI account exists, its password is the stored one. */
  predicate CiSound(p: Platform) {
    CI_USER in p.accounts ==> CI_PASSWORD in p.secrets && p.accounts[CI_USER] == p.secrets[CI_PASSWORD]
  }

  /** What every step of the operator keeps. */
  ghost predicate Lawful(d: Desk, e: Desk) {
    && SecretsKept(d.p, e.p)
    && (CiSound(d.p) ==> CiSound(e.p))
    && e.p.name == d.p.name && e.p.pods == d.p.pods && e.p.ready == d.p.ready
    && |e.turns| <= |d.turns| && (forall t | t in e.turns :: t in d.turns)
  }

  /** The memberships that the two accounts get. */
  predicate IsGrant(m: (string, string)) {
    m == ("edp-ci", "Project Bootstrappers") || m == ("edp-ci", "Administrators") || m == ("argocd", "ReadOnly")
  }

  /** Only such memberships were added, and none was taken away. */
  predicate OnlyGrants(p: Platform, q: Platform) {
    p.members <= q.members && forall m | m in q.members - p.members :: IsGrant(m)
  }

  /** Each of them is there if its group exists. */
  ghost predicate Joined(p: Platform) {
    forall m | IsGrant(m) && m.1 in p.groups :: m in p.members
  }

  lemma OnlyGrantsTransitive(p: Platform, q: Platform, r: Platform)
    requires OnlyGrants(p, q) && OnlyGrants(q, r)
    ensures OnlyGrants(p, r)
  {
  }

  /** What exposing leaves alone. */
  predicate ExposureFrame(p: Platform, q: Platform) {
    q == p.(secrets := q.secrets, accounts := q.accounts, members := q.members, client := q.client, issued := q.issued)
  }

  lemma LawfulTransitive(a: Desk, b: Desk, c: Desk)
    requires Lawful(a, b) && Lawful(b, c)
    ensures Lawful(a, c)
  {
  }

  lemma KeptIsLawful(d: Desk, e: Desk)
    requires Kept(d, e)
    ensures Lawful(d, e)
  {
  }

  lemma CreateSecretIsLawful(d: Desk, key: string, data: string)
    ensures var r := CreateSecret(d, key, data);
            Lawful(d, r.d) && r.d.p == d.p.(secrets := r.d.p.secrets)
            && (r.Go? ==> key in r.d.p.secrets)
  {
    CreateSecretFacts(d, key, data);
    KeptIsLawful(d, CreateSecret(d, key, data).d);
    hide CreateSecret, Lawful, Kept;
  }

  /** The one creation that matters: the CI account with the stored password. */
  lemma CreateUserIsLawful(d: Desk, user: string, password: string)
    requires user == CI_USER ==> CI_PASSWORD in d.p.secrets && password == d.p.secrets[CI_PASSWORD]
    ensures var r := CreateUser(d, user, password);
            Lawful(d, r.d) && r.d.p == d.p.(accounts := r.d.p.accounts, issued := r.d.p.issued)
  {
    hide Authorised;
  }

  lemma CreateUserFacts(d: Desk, user: string, password: string)
    ensures var r := CreateUser(d, user, password);
            && (r.Go? && NoBadCodes(d.turns) && Authorised(d.p) ==> user in r.d.p.accounts)
            && (r.Go? && user !in d.p.accounts && user in r.d.p.accounts ==> r.d.p.accounts[user] == password)
            && (forall u | u in d.p.accounts :: u in r.d.p.accounts && r.d.p.accounts[u] == d.p.accounts[u])
            && (forall u | u in r.d.p.accounts && u !in d.p.accounts :: u == user)
  {
  }

  lemma {:induction false} AddUserFacts(d: Desk, user: string, groups: seq<string>)
    ensures var r := AddUserToGroups(d, user, groups);
            Kept(d, r.d) && r.d.p == d.p.(members := r.d.p.members) && d.p.members <= r.d.p.members
            && (forall m | m in r.d.p.members - d.p.members :: m.0 == user && m.1 in groups)
            && (r.Go? && NoBadCodes(d.turns) ==> forall g | g in groups && g in d.p.groups :: (user, g) in r.d.p.members)
    decreases |groups|
  {
    hide CheckGroup;
    if groups != [] {
      CheckGroupFacts(d, groups[0]);
      var (r, status) := CheckGroup(d, groups[0]);
      assert groups == [groups[0]] + groups[1..];
      var e := Asking(r.d).d;
      var f := e.(p := e.p.(members := e.p.members + {(user, groups[0])}));
      assert Kept(r.d, e) && Kept(r.d, f);
      KeptTransitive(d, r.d, e);
      KeptTransitive(d, r.d, f);
      AddUserFacts(r.d, user, groups[1..]);
      AddUserFacts(f, user, groups[1..]);
      KeptTransitive(d, r.d, AddUserToGroups(r.d, user, groups[1..]).d);
      KeptTransitive(d, f, AddUserToGroups(f, user, groups[1..]).d);
      hide Asking, NoBadCodes;
      if NoBadCodes(d.turns) {
        NoBadCodesLater(d, r.d);
        NoBadCodesLater(d, f);
      }
      hide Kept;
    }
  }

  lemma OpenClientsFacts(d: Desk)
    ensures var r := OpenClients(d);
            Kept(d, r.d) && r.d.p == d.p.(client := r.d.p.client)
            && (r.Go? ==> r.d.p.client == SecretOf(d.p, ADMIN_PASSWORD))
  {
    hide ServiceNodePort;
  }

  /** The CI account after a run that went through: it exists (when Gerrit answers for itself) with the stored password. */
  lemma ExposeCiFacts(d: Desk)
    ensures var r := ExposeCi(d);
            Lawful(d, r.d) && ExposureFrame(d.p, r.d.p) && r.d.p.client == d.p.client
            && (r.Go? && NoBadCodes(d.turns) && Authorised(d.p) ==> CI_USER in r.d.p.accounts)
            && (ARGO_USER in r.d.p.accounts <==> ARGO_USER in d.p.accounts)
            && (ARGO_PASSWORD in r.d.p.secrets <==> ARGO_PASSWORD in d.p.secrets)
  {
    hide CreateSecret, CreateUser, AddUserToGroups, Authorised;
    var d1 := CreateSecret(d, CI_PASSWORD, FreshText(d)).d;
    CreateSecretIsLawful(d, CI_PASSWORD, FreshText(d));
    OnlyThisSecret(d, CI_PASSWORD, FreshText(d));
    var d2 := Asking(d1).d;
    assert Kept(d1, d2);
    KeptIsLawful(d1, d2);
    var d3 := CreateSecret(d2, CI_KEY, FreshText(d2)).d;
    CreateSecretIsLawful(d2, CI_KEY, FreshText(d2));
    OnlyThisSecret(d2, CI_KEY, FreshText(d2));
    LawfulTransitive(d, d1, d2);
    LawfulTransitive(d, d2, d3);
    if CI_PASSWORD in d1.p.secrets {
      var password := SecretOf(d2.p, CI_PASSWORD);
      CreateUserIsLawful(d3, CI_USER, password);
      CreateUserFacts(d3, CI_USER, password);
      var d4 := CreateUser(d3, CI_USER, password).d;
      AddUserFacts(d4, CI_USER, [BOOTSTRAPPERS, ADMINISTRATORS]);
      var d5 := AddUserToGroups(d4, CI_USER, [BOOTSTRAPPERS, ADMINISTRATORS]).d;
      KeptIsLawful(d4, d5);
      LawfulTransitive(d, d3, d4);
      LawfulTransitive(d, d4, d5);
      AuthorisedDependsOn(d.p, d3.p);
      LawfulKeepsCodes(d, d3);
    }
    hide Lawful, Kept, NoBadCodes;
  }

  lemma OnlyThisSecret(d: Desk, key: string, data: string)
    ensures forall k | k != key :: k in CreateSecret(d, key, data).d.p.secrets <==> k in d.p.secrets
    ensures key !in d.p.secrets && CreateSecret(d, key, data).Go? ==> CreateSecret(d, key, data).d.p.secrets[key] == data
  {
  }

  lemma LawfulKeepsCodes(d: Desk, e: Desk)
    requires Lawful(d, e)
    ensures NoBadCodes(d.turns) ==> NoBadCodes(e.turns)
  {
  }

  /**
   ArgoCD's account, when it was created in this run, has the stored password exactly if nothing was stored before
   (or the draw happened to repeat it): a run that failed between the two leaves them apart for good.
   */
  lemma ExposeArgoFacts(d: Desk)
    ensures var r := ExposeArgo(d);
            Lawful(d, r.d) && ExposureFrame(d.p, r.d.p) && r.d.p.client == d.p.client
            && (r.Go? && ARGO_USER !in d.p.accounts && ARGO_USER in r.d.p.accounts ==>
                  ARGO_PASSWORD in r.d.p.secrets
                  && (r.d.p.accounts[ARGO_USER] == r.d.p.secrets[ARGO_PASSWORD] <==>
                        ARGO_PASSWORD !in d.p.secrets || d.p.secrets[ARGO_PASSWORD] == FreshText(d)))
  {
    hide CreateSecret, CreateUser, AddUserToGroups;
    var password := FreshText(d);
    var d1 := CreateSecret(d, ARGO_PASSWORD, password).d;
    CreateSecretIsLawful(d, ARGO_PASSWORD, password);
    OnlyThisSecret(d, ARGO_PASSWORD, password);
    var d2 := CreateSecret(d1, ARGO_KEY, FreshText(d1)).d;
    CreateSecretIsLawful(d1, ARGO_KEY, FreshText(d1));
    LawfulTransitive(d, d1, d2);
    CreateUserIsLawful(d2, ARGO_USER, password);
    CreateUserFacts(d2, ARGO_USER, password);
    var d3 := CreateUser(d2, ARGO_USER, password).d;
    AddUserFacts(d3, ARGO_USER, [READ_ONLY]);
    var d4 := AddUserToGroups(d3, ARGO_USER, [READ_ONLY]).d;
    KeptIsLawful(d3, d4);
    LawfulTransitive(d, d2, d3);
    LawfulTransitive(d, d3, d4);
    assert SecretsKept(d.p, d1.p) && SecretsKept(d1.p, d4.p);
    hide Lawful, Kept, Authorised, NoBadCodes;
  }

  predicate AccountsKept(p: Platform, q: Platform) {
    forall u | u in p.accounts :: u in q.accounts && q.accounts[u] == p.accounts[u]
  }

  lemma CreateUserFrame(d: Desk, user: string, password: string)
    ensures var r := CreateUser(d, user, password);
            r.d.p == d.p.(accounts := r.d.p.accounts, issued := r.d.p.issued) && AccountsKept(d.p, r.d.p)
            && (NoBadCodes(d.turns) ==> NoBadCodes(r.d.turns))
  {
  }

  /** An account, and the groups that it joins. */
  function JoinAs(d: Desk, user: string, password: string, groups: seq<string>): Res {
    var d :- CreateUser(d, user, password);
    AddUserToGroups(d, user, groups)
  }

  lemma JoinAsGrants(d: Desk, user: string, password: string, groups: seq<string>)
    ensures var r := JoinAs(d, user, password, groups);
            AccountsKept(d.p, r.d.p) && r.d.p.secrets == d.p.secrets && r.d.p.groups == d.p.groups
            && d.p.members <= r.d.p.members && (forall m | m in r.d.p.members - d.p.members :: m.0 == user && m.1 in groups)
            && (r.Go? && NoBadCodes(d.turns) ==>
                  (Authorised(d.p) ==> user in r.d.p.accounts)
                  && forall g | g in groups && g in d.p.groups :: (user, g) in r.d.p.members)
  {
    hide CreateUser, AddUserToGroups, Authorised, NoBadCodes;
    CreateUserFrame(d, user, password);
    CreateUserFacts(d, user, password);
    AddUserFacts(CreateUser(d, user, password).d, user, groups);
    hide Kept;
  }

  lemma SecretsAndCodes(d: Desk, key: string, data: string)
    ensures var r := CreateSecret(d, key, data);
            r.d.p == d.p.(secrets := r.d.p.secrets) && SecretsKept(d.p, r.d.p) && r.d.p.secrets.Keys <= d.p.secrets.Keys + {key}
            && (r.Go? ==> key in r.d.p.secrets) && (NoBadCodes(d.turns) ==> NoBadCodes(r.d.turns))
  {
    CreateSecretFacts(d, key, data);
    hide CreateSecret;
  }

  /** What the CI part grants and stores. */
  lemma ExposeCiGrants(d: Desk)
    ensures var r := ExposeCi(d);
            AccountsKept(d.p, r.d.p) && OnlyGrants(d.p, r.d.p) && r.d.p.secrets.Keys <= d.p.secrets.Keys + {CI_PASSWORD, CI_KEY}
            && (r.Go? ==> CI_PASSWORD in r.d.p.secrets && CI_KEY in r.d.p.secrets)
            && (r.Go? && NoBadCodes(d.turns) ==>
                  (BOOTSTRAPPERS in d.p.groups ==> (CI_USER, BOOTSTRAPPERS) in r.d.p.members)
                  && (ADMINISTRATORS in d.p.groups ==> (CI_USER, ADMINISTRATORS) in r.d.p.members))
  {
    SecretsAndCodes(d, CI_PASSWORD, FreshText(d));
    var d1 := CreateSecret(d, CI_PASSWORD, FreshText(d)).d;
    var d2 := Asking(d1).d;
    assert d2.p == d1.p && (NoBadCodes(d1.turns) ==> NoBadCodes(d2.turns));
    hide CreateSecret, CreateUser, AddUserToGroups, Authorised, NoBadCodes, Asking;
    SecretsAndCodes(d2, CI_KEY, FreshText(d2));
    JoinAsGrants(CreateSecret(d2, CI_KEY, FreshText(d2)).d, CI_USER, SecretOf(d2.p, CI_PASSWORD), [BOOTSTRAPPERS, ADMINISTRATORS]);
  }

  /** What the ArgoCD part grants and stores. */
  lemma ExposeArgoGrants(d: Desk)
    ensures var r := ExposeArgo(d);
            AccountsKept(d.p, r.d.p) && OnlyGrants(d.p, r.d.p) && r.d.p.secrets.Keys <= d.p.secrets.Keys + {ARGO_PASSWORD, ARGO_KEY}
            && (r.Go? ==> ARGO_PASSWORD in r.d.p.secrets && ARGO_KEY in r.d.p.secrets)
            && (r.Go? && NoBadCodes(d.turns) ==>
                  (Authorised(d.p) ==> ARGO_USER in r.d.p.accounts)
                  && (READ_ONLY in d.p.groups ==> (ARGO_USER, READ_ONLY) in r.d.p.members))
  {
    SecretsAndCodes(d, ARGO_PASSWORD, FreshText(d));
    var d1 := CreateSecret(d, ARGO_PASSWORD, FreshText(d)).d;
    SecretsAndCodes(d1, ARGO_KEY, FreshText(d1));
    var d2 := CreateSecret(d1, ARGO_KEY, FreshText(d1)).d;
    AuthorisedDependsOn(d.p, d2.p);
    hide CreateSecret, CreateUser, AddUserToGroups, Authorised, NoBadCodes;
    JoinAsGrants(d2, ARGO_USER, FreshText(d), [READ_ONLY]);
  }

  /** Both parts one after the other. */
  lemma ExposeBothGrants(d: Desk)
    ensures var r := ExposeArgo(ExposeCi(d).d);
            OnlyGrants(d.p, r.d.p)
            && r.d.p.secrets.Keys <= d.p.secrets.Keys + {CI_PASSWORD, CI_KEY, ARGO_PASSWORD, ARGO_KEY}
            && (ExposeCi(d).Go? && r.Go? ==>
                  && (forall k | k in [CI_PASSWORD, CI_KEY, ARGO_PASSWORD, ARGO_KEY] :: k in r.d.p.secrets)
                  && (NoBadCodes(d.turns) ==> Joined(r.d.p) && (Authorised(d.p) ==> ARGO_USER in r.d.p.accounts)))
  {
    var e := ExposeCi(d).d;
    ExposeCiFacts(d);
    ExposeCiGrants(d);
    LawfulKeepsCodes(d, e);
    assert Authorised(d.p) ==> Authorised(e.p);
    ExposeArgoFacts(e);
    ExposeArgoGrants(e);
    hide ExposeCi, ExposeArgo, Authorised, NoBadCodes;
    OnlyGrantsTransitive(d.p, e.p, ExposeArgo(e).d.p);
    assert SecretsKept(e.p, ExposeArgo(e).d.p);
    hide Lawful;
  }

  lemma ExposeAccountsFacts(d: Desk)
    ensures var r := ExposeAccounts(d);
            Lawful(d, r.d) && ExposureFrame(d.p, r.d.p)
            && (r.Go? && NoBadCodes(d.turns) && Authorised(WithClient(d, SecretOf(d.p, ADMIN_PASSWORD)).p) ==>
                  CI_USER in r.d.p.accounts && ARGO_USER in r.d.p.accounts)
            && OnlyGrants(d.p, r.d.p) && (r.Go? && NoBadCodes(d.turns) ==> Joined(r.d.p))
            && (r.Go? ==> forall k | k in [CI_PASSWORD, CI_KEY, ARGO_PASSWORD, ARGO_KEY] :: k in r.d.p.secrets)
            && r.d.p.secrets.Keys <= d.p.secrets.Keys + {CI_PASSWORD, CI_KEY, ARGO_PASSWORD, ARGO_KEY}
  {
    hide OpenClients, ExposeCi, ExposeArgo;
    OpenClientsFacts(d);
    var d1 := OpenClients(d).d;
    KeptIsLawful(d, d1);
    ExposeCiFacts(d1);
    var d2 := ExposeCi(d1).d;
    ExposeArgoFacts(d2);
    var d3 := ExposeArgo(d2).d;
    LawfulTransitive(d, d1, d2);
    LawfulTransitive(d, d2, d3);
    ExposeBothGrants(d1);
    ExposeCiGrants(d1);
    AccountsStay(d2);
    LawfulKeepsCodes(d, d1);
    hide Lawful, Kept, Authorised, NoBadCodes;
  }

  lemma AccountsStay(d: Desk)
    ensures forall u | u in d.p.accounts :: u in ExposeArgo(d).d.p.accounts
  {
    hide CreateSecret, CreateUser, AddUserToGroups;
    var d1 := CreateSecret(d, ARGO_PASSWORD, FreshText(d)).d;
    CreateSecretIsLawful(d, ARGO_PASSWORD, FreshText(d));
    var d2 := CreateSecret(d1, ARGO_KEY, FreshText(d1)).d;
    CreateSecretIsLawful(d1, ARGO_KEY, FreshText(d1));
    CreateUserFacts(d2, ARGO_USER, FreshText(d));
    AddUserFacts(CreateUser(d2, ARGO_USER, FreshText(d)).d, ARGO_USER, [READ_ONLY]);
    hide Lawful, Kept;
  }

  // ---------- When every call works ----------

  lemma CalmSecret(d: Desk, key: string, data: string, n: nat)
    requires Calm(d.turns, n) && n >= 2
    ensures var r := CreateSecret(d, key, data);
            r.Go? && |r.d.turns| >= |d.turns| - 2 && Calm(r.d.turns, n - 2) && r.d.p == d.p.(secrets := r.d.p.secrets)
  {
    hide CreateSecret;
    CalmFewer(d.turns, n, 2);
    WorkingCreateSecret(d, key, data);
    CreateSecretFacts(d, key, data);
    CalmLater(d, CreateSecret(d, key, data).d, n, 2);
  }

  lemma CalmCreateUser(d: Desk, user: string, password: string, n: nat)
    requires Calm(d.turns, n) && n >= 2
    ensures var r := CreateUser(d, user, password);
            r.Go? && |r.d.turns| >= |d.turns| - 2 && Calm(r.d.turns, n - 2)
  {
    CalmNext(d, n);
    var e := Noting(Next(d).0, UserCreated(user));
    CalmNext(e, n - 1);
    hide NoBadCodes, Next, Authorised;
  }

  lemma {:induction false} CalmAddUser(d: Desk, user: string, groups: seq<string>, n: nat)
    requires Calm(d.turns, n) && n >= 3 * |groups|
    ensures var r := AddUserToGroups(d, user, groups);
            r.Go? && |r.d.turns| >= |d.turns| - 3 * |groups| && Calm(r.d.turns, n - 3 * |groups|)
    decreases |groups|
  {
    hide CheckGroup, Next;
    if groups != [] {
      CalmCheckGroup(d, groups[0], n);
      var (r, status) := CheckGroup(d, groups[0]);
      CalmNext(r.d, n - 2);
      var e := Asking(r.d).d;
      CalmFewer(r.d.turns, n - 2, n - 3);
      hide Calm;
      CalmAddUser(r.d, user, groups[1..], n - 3);
      CalmAddUser(e.(p := e.p.(members := e.p.members + {(user, groups[0])})), user, groups[1..], n - 3);
    }
  }

  lemma CalmOpenClients(d: Desk, n: nat)
    requires Calm(d.turns, n) && n >= 3 && ServiceNodePort(d.p.ports).Some? && ADMIN_KEY in d.p.secrets
    ensures var r := OpenClients(d);
            r.Go? && |r.d.turns| >= |d.turns| - 3 && Calm(r.d.turns, n - 3)
  {
    hide ServiceNodePort;
    CalmNext(d, n);
    var d1 := WithClient(Asking(d).d, SecretOf(d.p, ADMIN_PASSWORD));
    CalmNext(d1, n - 1);
    var d2 := Asking(d1).d;
    CalmNext(d2, n - 2);
    hide Calm, Next;
  }

  lemma CalmExposeCi(d: Desk, n: nat)
    requires Calm(d.turns, n) && n >= 13
    ensures var r := ExposeCi(d);
            r.Go? && |r.d.turns| >= |d.turns| - 13 && Calm(r.d.turns, n - 13)
  {
    hide CreateSecret, CreateUser, AddUserToGroups;
    CalmSecret(d, CI_PASSWORD, FreshText(d), n);
    var d1 := CreateSecret(d, CI_PASSWORD, FreshText(d)).d;
    CalmNext(d1, n - 2);
    var d2 := Asking(d1).d;
    CalmSecret(d2, CI_KEY, FreshText(d2), n - 3);
    var d3 := CreateSecret(d2, CI_KEY, FreshText(d2)).d;
    CalmCreateUser(d3, CI_USER, SecretOf(d2.p, CI_PASSWORD), n - 5);
    CalmAddUser(CreateUser(d3, CI_USER, SecretOf(d2.p, CI_PASSWORD)).d, CI_USER, [BOOTSTRAPPERS, ADMINISTRATORS], n - 7);
    hide Calm, Next;
  }

  lemma CalmExposeArgo(d: Desk, n: nat)
    requires Calm(d.turns, n) && n >= 9
    ensures var r := ExposeArgo(d);
            r.Go? && |r.d.turns| >= |d.turns| - 9 && Calm(r.d.turns, n - 9)
  {
    hide CreateSecret, CreateUser, AddUserToGroups;
    CalmSecret(d, ARGO_PASSWORD, FreshText(d), n);
    var d1 := CreateSecret(d, ARGO_PASSWORD, FreshText(d)).d;
    CalmSecret(d1, ARGO_KEY, FreshText(d1), n - 2);
    var d2 := CreateSecret(d1, ARGO_KEY, FreshText(d1)).d;
    CalmCreateUser(d2, ARGO_USER, FreshText(d), n - 4);
    CalmAddUser(CreateUser(d2, ARGO_USER, FreshText(d)).d, ARGO_USER, [READ_ONLY], n - 6);
    hide Calm;
  }

  const EXPOSE_CALLS := 25

  lemma CalmExposeAccounts(d: Desk)
    requires Calm(d.turns, EXPOSE_CALLS) && ServiceNodePort(d.p.ports).Some? && ADMIN_KEY in d.p.secrets
    ensures ExposeAccounts(d).Go? && |ExposeAccounts(d).d.turns| >= |d.turns| - EXPOSE_CALLS
  {
    hide OpenClients, ExposeCi, ExposeArgo, Calm;
    CalmOpenClients(d, EXPOSE_CALLS);
    CalmExposeCi(OpenClients(d).d, 22);
    CalmExposeArgo(ExposeCi(OpenClients(d).d).d, 9);
  }
}
