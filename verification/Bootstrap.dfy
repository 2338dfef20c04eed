/**
 Configuring a freshly installed Gerrit (pkg/service/gerrit/gerrit.go, Configure, with the parts of
 pkg/service/platform/k8s/k8s.go it uses): admin secret, ssh port, admin login, groups.

 What the operator's calls act on is the platform: the secrets of the namespace, the deployment, the service,
 and Gerrit's accounts and groups. Every call consumes a turn of the script.
 */
module Bootstrap {
  import opened EnvMerge
  import opened SshPort
  import opened Cluster

  /** A pod template has at least one container. */
  type Containers = c: seq<Container> | |c| > 0 witness [Container("", [])]

  /** Commands that change something, in the order the operator sent them, whether they worked or not. */
  datatype Issued =
    | EnvPatch(port: int32)
    | AdminInit
    | PasswordSet(user: string, password: string)
    | GroupCreated(group: string)
    | UserCreated(user: string)

  /** Secrets are keyed by what follows the instance's name in their own, and reduced to one payload. */
  datatype Platform = Platform(
    name: string, secrets: map<string, string>, containers: Containers, ports: seq<ServicePort>,
    ready: bool, pods: nat,
    accounts: map<string, string>, groups: set<string>, members: set<(string, string)>, client: string,
    issued: seq<Issued>)

  const ADMIN := "admin"
  const DEFAULT_PASSWORD := "secret"
  const ADMIN_PASSWORD := "-admin-password"
  const ADMIN_KEY := "-admin"

  const CI_TOOLS := "Continuous Integration Tools"
  const BOOTSTRAPPERS := "Project Bootstrappers"
  const DEVELOPERS := "Developers"
  const READ_ONLY := "ReadOnly"
  const FOUR_GROUPS := [CI_TOOLS, BOOTSTRAPPERS, DEVELOPERS, READ_ONLY]

  const OK := 200
  const UNAUTHORIZED := 401
  const NOT_FOUND := 404

  // ---------- Calls ----------

  datatype Desk = Desk(p: Platform, turns: seq<Turn>)

  /** Go on, or return: with or without having patched the deployment, with or without an error. */
  datatype Res = Go(d: Desk) | Stop(d: Desk, patched: bool, failed: bool) {
    predicate IsFailure() { Stop? }
    function PropagateFailure(): Res requires Stop? { this }
    function Extract(): Desk requires Go? { d }
  }

  function Next(d: Desk): (Desk, Turn) {
    if d.turns == [] then (d, DEAD) else (d.(turns := d.turns[1..]), d.turns[0])
  }

  function Failing(d: Desk): Res {
    Stop(d, false, true)
  }

  /** errors.Wrap(nil, ...) is nil. */
  function GivingUpSilently(d: Desk): Res {
    Stop(d, false, false)
  }

  function Asking(d: Desk): Res {
    var (d, t) := Next(d);
    if t.works then Go(d) else Failing(d)
  }

  function Asks(d: Desk, n: nat): Res
    decreases n
  {
    if n == 0 then Go(d)
    else
      var d :- Asking(d);
      Asks(d, n - 1)
  }

  function Noting(d: Desk, c: Issued): Desk {
    d.(p := d.p.(issued := d.p.issued + [c]))
  }

  function Commanding(d: Desk, c: Issued): Res {
    Asking(Noting(d, c))
  }

  /** The codes that make Configure give up: 400 to 505 except 401. */
  predicate BadCode(c: nat) {
    400 <= c <= 505 && c != UNAUTHORIZED
  }

  predicate Authorised(p: Platform) {
    ADMIN in p.accounts && p.accounts[ADMIN] == p.client
  }

  /** What a REST request is answered; the turn may replace Gerrit's own answer by a bad code. */
  function Http(p: Platform, t: Turn, found: bool): nat {
    if BadCode(t.code) then t.code
    else if !Authorised(p) then UNAUTHORIZED
    else if found then OK
    else NOT_FOUND
  }

  /** Random text drawn before a call. */
  function FreshText(d: Desk): string {
    if d.turns == [] then "" else d.turns[0].text
  }

  function SecretOf(p: Platform, key: string): string {
    if key in p.secrets then p.secrets[key] else ""
  }

  // ---------- Steps of Configure ----------

  /** CreateSecret leaves an existing secret alone. */
  function CreateSecret(d: Desk, key: string, data: string): Res {
    var d :- Asking(d);
    if key in d.p.secrets then Go(d)
    else
      var d :- Asking(d);
      Go(d.(p := d.p.(secrets := d.p.secrets[key := data])))
  }

  function PatchListener(d: Desk, port: int32): Res {
    var d :- Asking(d);
    if !HasContainer(d.p.containers, d.p.name) then Failing(d)
    else
      var d :- Commanding(d, EnvPatch(port));
      Stop(d.(p := d.p.(containers := PatchedContainers(d.p.containers, d.p.name, ListenerEnv(port)))), true, false)
  }

  /** GetServicePort, GetDeploymentSSHPort, GetService, UpdateService, updateDeploymentConfigPort. */
  function SyncPort(d: Desk): Res {
    var d :- Asking(d);
    var port := ServiceNodePort(d.p.ports);
    if port.None? then Failing(d)
    else
      var d :- Asking(d);
      var deployed := DeploymentPort(d.p.containers[0].env);
      if deployed.BadPort? then Failing(d)
      else
        var d :- Asks(d, 2);
        var d := d.(p := d.p.(ports := UpdatedPorts(d.p.ports, SSH_PORT_NAME, port.value)));
        if PortPending(deployed, port.value) then PatchListener(d, port.value) else Go(d)
  }

  function CreateKeyPair(d: Desk): Res {
    var d :- Asking(d);
    if ADMIN_KEY in d.p.secrets then Go(d) else CreateSecret(d, ADMIN_KEY, FreshText(d))
  }

  function WithClient(d: Desk, password: string): Desk {
    d.(p := d.p.(client := password))
  }

  function WithAdmin(d: Desk, password: string): Desk {
    d.(p := d.p.(accounts := d.p.accounts[ADMIN := password]))
  }

  /** InitNewSshClient parses the key; without a secret there is none. */
  function OpenSsh(d: Desk): Res {
    if ADMIN_KEY in d.p.secrets then Go(d) else Failing(d)
  }

  /** The script gives the admin account the default password. */
  function InitAdminUser(d: Desk): Res {
    var d :- Asks(d, 2);
    var d :- Commanding(d, AdminInit);
    Go(WithAdmin(d, DEFAULT_PASSWORD))
  }

  function SetAdminPassword(d: Desk, password: string): Res {
    var d :- Asking(d);
    var d :- OpenSsh(d);
    var d :- Commanding(d, PasswordSet(ADMIN, password));
    Go(WithClient(WithAdmin(d, password), password))
  }

  function RecoverLogin(d: Desk, password: string): Res {
    var (d, t) := Next(WithClient(d, DEFAULT_PASSWORD));
    if !t.works then Failing(d)
    else if BadCode(Http(d.p, t, true)) then GivingUpSilently(d)
    else
      var d :- if Http(d.p, t, true) == UNAUTHORIZED then InitAdminUser(d) else Go(d);
      SetAdminPassword(d, password)
  }

  function CheckLogin(d: Desk, password: string): Res {
    var (d, t) := Next(WithClient(d, password));
    if !t.works then Failing(d)
    else if BadCode(Http(d.p, t, true)) then GivingUpSilently(d)
    else if Http(d.p, t, true) == UNAUTHORIZED then RecoverLogin(d, password)
    else Go(d)
  }

  function Login(d: Desk): Res {
    var d :- Asking(d);
    var password := SecretOf(d.p, ADMIN_PASSWORD);
    var d :- Asking(d);
    if d.p.pods != 1 then GivingUpSilently(d)
    else
      var d :- CreateKeyPair(d);
      CheckLogin(d, password)
  }

  /** The list of groups over ssh, then the group itself over REST. */
  function CheckGroup(d: Desk, group: string): (Res, nat) {
    var r := Asking(d);
    if r.Stop? || group !in r.d.p.groups then (r, NOT_FOUND)
    else
      var (d, t) := Next(r.d);
      (if t.works then Go(d) else Failing(d), Http(d.p, t, true))
  }

  function CreateGroup(d: Desk, group: string): Res {
    var (d, t) := Next(Noting(d, GroupCreated(group)));
    if !t.works || Http(d.p, t, true) != OK || group in d.p.groups then Failing(d)
    else Go(d.(p := d.p.(groups := d.p.groups + {group})))
  }

  function CreateGroups(d: Desk, groups: seq<string>): Res
    decreases |groups|
  {
    if groups == [] then Go(d)
    else
      var d :- CreateGroup(d, groups[0]);
      CreateGroups(d, groups[1..])
  }

  /** Only the first two groups are looked up; when one is missing all four are created. */
  function EnsureGroups(d: Desk): Res {
    var d :- Asks(d, 2);
    var d :- OpenSsh(d);
    var (first, tools) := CheckGroup(d, CI_TOOLS);
    var d :- first;
    var (second, bootstrappers) := CheckGroup(d, BOOTSTRAPPERS);
    var d :- second;
    if tools != NOT_FOUND && bootstrappers != NOT_FOUND then Go(d)
    else
      var d :- CreateGroups(d, FOUR_GROUPS);
      Asks(d, 8)
  }

  function Configure(d: Desk): Res {
    var d :- CreateSecret(d, ADMIN_PASSWORD, FreshText(d));
    var d :- SyncPort(d);
    var d :- Login(d);
    EnsureGroups(d)
  }

  // ---------- What every step keeps ----------

  predicate SecretsKept(p: Platform, q: Platform) {
    forall k | k in p.secrets :: k in q.secrets && q.secrets[k] == p.secrets[k]
  }

  predicate OtherAccountsKept(p: Platform, q: Platform) {
    && (forall u | u in p.accounts && u != ADMIN :: u in q.accounts && q.accounts[u] == p.accounts[u])
    && (forall u | u in q.accounts && u != ADMIN :: u in p.accounts)
  }

  ghost predicate Kept(d: Desk, e: Desk) {
    && e.p.name == d.p.name && e.p.pods == d.p.pods && e.p.ready == d.p.ready
    && SecretsKept(d.p, e.p) && OtherAccountsKept(d.p, e.p)
    && d.p.issued <= e.p.issued
    && |e.turns| <= |d.turns| && (forall t | t in e.turns :: t in d.turns)
  }

  ghost predicate NoBadCodes(turns: seq<Turn>) {
    forall t | t in turns :: !BadCode(t.code)
  }

  lemma {:induction false} AsksFacts(d: Desk, n: nat)
    ensures Asks(d, n).d.p == d.p && Kept(d, Asks(d, n).d)
    ensures Asks(d, n).Stop? ==> Asks(d, n).failed && !Asks(d, n).patched
    decreases n
  {
    if n > 0 {
      AsksFacts(Asking(d).d, n - 1);
    }
  }

  lemma CreateSecretFacts(d: Desk, key: string, data: string)
    ensures var r := CreateSecret(d, key, data);
            Kept(d, r.d) && r.d.p == d.p.(secrets := r.d.p.secrets)
            && (r.Go? ==> key in r.d.p.secrets)
            && (r.Stop? ==> r.failed && !r.patched)
            && (key in d.p.secrets ==> r.d.p == d.p)
            && r.d.p.secrets.Keys <= d.p.secrets.Keys + {key}
  {
  }

  predicate PortSettled(p: Platform) {
    var port := ServiceNodePort(p.ports);
    var deployed := DeploymentPort(p.containers[0].env);
    port.Some? && deployed.Port? && !PortPending(deployed, port.value)
  }

  lemma KeptTransitive(a: Desk, b: Desk, c: Desk)
    requires Kept(a, b) && Kept(b, c)
    ensures Kept(a, c)
  {
  }

  lemma PatchListenerFacts(d: Desk, port: int32)
    ensures var r := PatchListener(d, port);
            Kept(d, r.d) && r.Stop? && r.failed != r.patched
            && r.d.p == d.p.(containers := r.d.p.containers, issued := r.d.p.issued)
            && r.d.p.containers == (if r.patched then PatchedContainers(d.p.containers, d.p.name, ListenerEnv(port)) else d.p.containers)
  {
    hide HasContainer, PatchedContainers, ListenerEnv;
  }

  lemma SyncPortFacts(d: Desk)
    ensures var r := SyncPort(d);
            Kept(d, r.d)
            && r.d.p == d.p.(ports := r.d.p.ports, containers := r.d.p.containers, issued := r.d.p.issued)
            && ServiceNodePort(r.d.p.ports) == ServiceNodePort(d.p.ports)
            && (r.Go? ==> PortSettled(r.d.p) && r.d.p == d.p.(ports := r.d.p.ports))
            && (r.Stop? ==> r.failed != r.patched)
            && (PortSettled(d.p) ==> (r.Stop? ==> !r.patched) && r.d.p == d.p.(ports := r.d.p.ports))
  {
    hide ServiceNodePort, UpdatedPorts, DeploymentPort, PatchListener, Asks;
    var port := ServiceNodePort(d.p.ports);
    var d1 := Asking(d).d;
    var d2 := Asking(d1).d;
    AsksFacts(d2, 2);
    var d3 := Asks(d2, 2).d;
    assert Kept(d, d2);
    KeptTransitive(d, d2, d3);
    if port.Some? {
      UpdateKeepsServicePort(d.p.ports, SSH_PORT_NAME, port.value);
      var d4 := d3.(p := d3.p.(ports := UpdatedPorts(d3.p.ports, SSH_PORT_NAME, port.value)));
      PatchListenerFacts(d4, port.value);
      assert Kept(d3, d4);
      hide Kept;
      KeptTransitive(d, d3, d4);
      KeptTransitive(d, d4, PatchListener(d4, port.value).d);
    }
  }

  lemma CreateKeyPairFacts(d: Desk)
    ensures var r := CreateKeyPair(d);
            Kept(d, r.d) && r.d.p == d.p.(secrets := r.d.p.secrets)
            && (r.Go? ==> ADMIN_KEY in r.d.p.secrets)
            && (r.Stop? ==> r.failed && !r.patched)
            && (ADMIN_KEY in d.p.secrets ==> r.d.p == d.p)
  {
  }

  /** Which fields the login touches. */
  ghost predicate LoginFrame(p: Platform, q: Platform) {
    q == p.(secrets := q.secrets, accounts := q.accounts, client := q.client, issued := q.issued)
  }

  lemma SetAdminPasswordFacts(d: Desk, password: string)
    ensures var r := SetAdminPassword(d, password);
            Kept(d, r.d) && LoginFrame(d.p, r.d.p) && r.d.p.secrets == d.p.secrets
            && (r.Go? ==> Authorised(r.d.p) && r.d.p.client == password)
            && (r.Stop? ==> r.failed && !r.patched)
  {
  }

  lemma InitAdminUserFacts(d: Desk)
    ensures var r := InitAdminUser(d);
            Kept(d, r.d) && LoginFrame(d.p, r.d.p) && r.d.p.secrets == d.p.secrets
            && (r.Stop? ==> r.failed && !r.patched)
            && (r.Go? ==> ADMIN in r.d.p.accounts && r.d.p.accounts[ADMIN] == "secret")
  {
    AsksFacts(d, 2);
    hide Asks;
  }

  lemma RecoverLoginFacts(d: Desk, password: string)
    ensures var r := RecoverLogin(d, password);
            Kept(d, r.d) && LoginFrame(d.p, r.d.p) && r.d.p.secrets == d.p.secrets
            && (r.Go? ==> Authorised(r.d.p) && r.d.p.client == password)
            && (r.Stop? ==> !r.patched && (!r.failed ==> !NoBadCodes(d.turns)))
  {
    hide InitAdminUser, SetAdminPassword;
    var e := Next(WithClient(d, DEFAULT_PASSWORD)).0;
    assert Kept(d, e);
    InitAdminUserFacts(e);
    var f := InitAdminUser(e).d;
    SetAdminPasswordFacts(e, password);
    SetAdminPasswordFacts(f, password);
    hide Kept;
    KeptTransitive(d, e, f);
    KeptTransitive(d, e, SetAdminPassword(e, password).d);
    KeptTransitive(d, f, SetAdminPassword(f, password).d);
  }

  lemma CheckLoginFacts(d: Desk, password: string)
    ensures var r := CheckLogin(d, password);
            Kept(d, r.d) && LoginFrame(d.p, r.d.p) && r.d.p.secrets == d.p.secrets
            && (r.Go? ==> Authorised(r.d.p) && r.d.p.client == password)
            && (r.Stop? ==> !r.patched && (!r.failed ==> !NoBadCodes(d.turns)))
            && (Authorised(WithClient(d, password).p) ==> r.d.p == d.p.(client := password))
  {
    hide RecoverLogin;
    var e := Next(WithClient(d, password)).0;
    RecoverLoginFacts(e, password);
  }

  /** The commands sent since. */
  function NewlyIssued(p: Platform, q: Platform): seq<Issued> {
    if p.issued <= q.issued then q.issued[|p.issued|..] else []
  }

  /** The admin's password is only set when the stored one is refused, and the account set up anew when the default is too. */
  lemma AdminIsTouchedLast(d: Desk, password: string)
    ensures var sent := NewlyIssued(d.p, CheckLogin(d, password).d.p);
            (AdminInit in sent ==>
              !Authorised(WithClient(d, password).p) && !Authorised(WithClient(d, DEFAULT_PASSWORD).p))
            && (sent != [] ==> !Authorised(WithClient(d, password).p))
  {
    hide SetAdminPassword, InitAdminUser;
    CheckLoginFacts(d, password);
    var e := Next(WithClient(d, password)).0;
    var f := Next(WithClient(e, DEFAULT_PASSWORD)).0;
    SetAdminPasswordSends(f, password);
    hide Kept, LoginFrame;
  }

  lemma SetAdminPasswordSends(d: Desk, password: string)
    ensures AdminInit !in NewlyIssued(d.p, SetAdminPassword(d, password).d.p)
  {
  }

  lemma LoginFacts(d: Desk)
    ensures var r := Login(d);
            Kept(d, r.d) && LoginFrame(d.p, r.d.p)
            && (r.Go? ==> d.p.pods == 1 && Authorised(r.d.p) && r.d.p.client == SecretOf(d.p, ADMIN_PASSWORD)
                          && ADMIN_KEY in r.d.p.secrets)
            && (r.Stop? ==> !r.patched && (!r.failed ==> d.p.pods != 1 || !NoBadCodes(d.turns)))
  {
    hide CheckLogin, CreateKeyPair, Asks;
    var d2 := Asking(Asking(d).d).d;
    assert Kept(d, d2);
    CreateKeyPairFacts(d2);
    var d3 := CreateKeyPair(d2).d;
    CheckLoginFacts(d3, SecretOf(d.p, ADMIN_PASSWORD));
    hide Authorised;
    KeptTransitive(d, d2, d3);
    KeptTransitive(d, d3, CheckLogin(d3, SecretOf(d.p, ADMIN_PASSWORD)).d);
  }

  // ---------- Groups ----------

  predicate AllGroups(p: Platform) {
    forall g | g in FOUR_GROUPS :: g in p.groups
  }

  predicate NoneOrAllGroups(p: Platform) {
    AllGroups(p) || forall g | g in FOUR_GROUPS :: g !in p.groups
  }

  /** The two groups that Configure looks up. */
  predicate LookedUp(groups: set<string>) {
    CI_TOOLS in groups && BOOTSTRAPPERS in groups
  }

  /** Configure creates what is missing only when one of these two is missing. */
  predicate Repairable(p: Platform) {
    LookedUp(p.groups) ==> AllGroups(p)
  }

  lemma CheckGroupFacts(d: Desk, group: string)
    ensures var (r, status) := CheckGroup(d, group);
            Kept(d, r.d) && r.d.p == d.p
            && (r.Stop? ==> r.failed && !r.patched)
            && (r.Go? && group !in d.p.groups ==> status == NOT_FOUND)
            && (r.Go? && group in d.p.groups && NoBadCodes(d.turns) ==> status != NOT_FOUND)
  {
  }

  lemma {:induction false} CreateGroupsFacts(d: Desk, groups: seq<string>)
    ensures var r := CreateGroups(d, groups);
            Kept(d, r.d) && r.d.p == d.p.(groups := r.d.p.groups, issued := r.d.p.issued)
            && (r.Stop? ==> r.failed && !r.patched)
            && (r.Go? ==> forall g | g in groups :: g in r.d.p.groups)
            && d.p.groups <= r.d.p.groups
    decreases |groups|
  {
    if groups != [] {
      var e := CreateGroup(d, groups[0]).d;
      assert Kept(d, e);
      CreateGroupsFacts(e, groups[1..]);
      KeptTransitive(d, e, CreateGroups(e, groups[1..]).d);
      hide Kept;
      assert groups == [groups[0]] + groups[1..];
    }
  }

  lemma EnsureGroupsFacts(d: Desk)
    ensures var r := EnsureGroups(d);
            Kept(d, r.d) && r.d.p == d.p.(groups := r.d.p.groups, issued := r.d.p.issued)
            && (r.Stop? ==> r.failed && !r.patched)
            && (r.Go? && NoBadCodes(d.turns) ==> LookedUp(r.d.p.groups) && (AllGroups(r.d.p) <==> Repairable(d.p)))
            && (LookedUp(d.p.groups) && NoBadCodes(d.turns) ==> r.d.p == d.p)
            && d.p.groups <= r.d.p.groups
  {
    hide Asks, CheckGroup, CreateGroups;
    AsksFacts(d, 2);
    var d1 := Asks(d, 2).d;
    CheckGroupFacts(d1, CI_TOOLS);
    var d2 := CheckGroup(d1, CI_TOOLS).0.d;
    CheckGroupFacts(d2, BOOTSTRAPPERS);
    var d3 := CheckGroup(d2, BOOTSTRAPPERS).0.d;
    CreateGroupsFacts(d3, FOUR_GROUPS);
    var d4 := CreateGroups(d3, FOUR_GROUPS).d;
    AsksFacts(d4, 8);
    assert CI_TOOLS in FOUR_GROUPS && BOOTSTRAPPERS in FOUR_GROUPS;
    assert NoBadCodes(d.turns) ==> NoBadCodes(d1.turns) && NoBadCodes(d2.turns);
    hide NoBadCodes, Kept;
    KeptTransitive(d, d1, d2);
    KeptTransitive(d, d2, d3);
    KeptTransitive(d, d3, d4);
    KeptTransitive(d, d4, Asks(d4, 8).d);
  }

  // ---------- Configure as a whole ----------

  lemma NoBadCodesLater(d: Desk, e: Desk)
    requires Kept(d, e) && NoBadCodes(d.turns)
    ensures NoBadCodes(e.turns)
  {
  }

  /** What a configured installation looks like. */
  predicate Bootstrapped(p: Platform) {
    && ADMIN_PASSWORD in p.secrets && ADMIN_KEY in p.secrets
    && p.client == p.secrets[ADMIN_PASSWORD] && Authorised(p)
    && AllGroups(p) && PortSettled(p) && p.pods == 1
  }

  /**
   Every return of Configure. Without an error and without a patch it either went through or it gave up silently,
   because of the number of pods or because of a bad code. If it went through the two groups it looks up exist, and
   the installation is bootstrapped with all four unless one of the other two was missing beside them.
   */
  lemma ConfigureFacts(d: Desk)
    ensures var r := Configure(d);
            Kept(d, r.d)
            && (r.Go? && NoBadCodes(d.turns) ==>
                  LookedUp(r.d.p.groups) && (AllGroups(r.d.p) <==> Repairable(d.p)) && (Repairable(d.p) ==> Bootstrapped(r.d.p)))
            && d.p.groups <= r.d.p.groups && r.d.p.members == d.p.members
            && (LookedUp(d.p.groups) && NoBadCodes(d.turns) ==> r.d.p.groups == d.p.groups)
            && (r.Go? || !(r.patched || r.failed) ==> PortSettled(r.d.p))
            && (r.Stop? && !r.patched && !r.failed ==> d.p.pods != 1 || !NoBadCodes(d.turns))
            && (r.Go? ==> d.p.pods == 1 && r.d.p.client == SecretOf(r.d.p, ADMIN_PASSWORD))
  {
    hide CreateSecret, SyncPort, Login, EnsureGroups, AllGroups, PortSettled, Authorised;
    CreateSecretFacts(d, ADMIN_PASSWORD, FreshText(d));
    var d1 := CreateSecret(d, ADMIN_PASSWORD, FreshText(d)).d;
    SyncPortFacts(d1);
    var d2 := SyncPort(d1).d;
    LoginFacts(d2);
    var d3 := Login(d2).d;
    EnsureGroupsFacts(d3);
    var d4 := EnsureGroups(d3).d;
    KeptTransitive(d, d1, d2);
    KeptTransitive(d, d2, d3);
    KeptTransitive(d, d3, d4);
    if NoBadCodes(d.turns) {
      NoBadCodesLater(d, d2);
      NoBadCodesLater(d, d3);
    }
    SettledDependsOn(d2.p, d3.p);
    SettledDependsOn(d2.p, d4.p);
    AuthorisedDependsOn(d3.p, d4.p);
    GroupsDependOn(d.p, d3.p);
    assert SecretsKept(d1.p, d4.p) && SecretsKept(d3.p, d4.p) && SecretsKept(d2.p, d4.p);
    hide Kept, NoBadCodes, Repairable, LookedUp;
  }

  lemma SettledDependsOn(p: Platform, q: Platform)
    requires p.ports == q.ports && p.containers == q.containers
    ensures PortSettled(p) == PortSettled(q)
  {
  }

  lemma AuthorisedDependsOn(p: Platform, q: Platform)
    requires p.accounts == q.accounts && p.client == q.client
    ensures Authorised(p) == Authorised(q)
  {
  }

  lemma GroupsDependOn(p: Platform, q: Platform)
    requires p.groups == q.groups
    ensures NoneOrAllGroups(p) == NoneOrAllGroups(q) && AllGroups(p) == AllGroups(q) && Repairable(p) == Repairable(q)
    ensures NoneOrAllGroups(p) ==> Repairable(p)
    ensures AllGroups(p) ==> LookedUp(p.groups)
  {
    assert CI_TOOLS in FOUR_GROUPS && BOOTSTRAPPERS in FOUR_GROUPS;
  }

  /** On a configured installation Configure sends no command and changes nothing, whatever calls fail. */
  lemma ConfiguredStaysPut(d: Desk)
    requires Bootstrapped(d.p) && NoBadCodes(d.turns)
    ensures var r := Configure(d);
            r.d.p == d.p.(ports := r.d.p.ports) && Bootstrapped(r.d.p) && (r.Stop? ==> !r.patched)
  {
    hide CreateSecret, SyncPort, Login, EnsureGroups, AllGroups, PortSettled;
    CreateSecretFacts(d, ADMIN_PASSWORD, FreshText(d));
    var d1 := CreateSecret(d, ADMIN_PASSWORD, FreshText(d)).d;
    SyncPortFacts(d1);
    var d2 := SyncPort(d1).d;
    LoginStaysPut(d2);
    LoginFacts(d2);
    var d3 := Login(d2).d;
    EnsureGroupsFacts(d3);
    var d4 := EnsureGroups(d3).d;
    KeptTransitive(d, d1, d2);
    KeptTransitive(d, d2, d3);
    NoBadCodesLater(d, d2);
    NoBadCodesLater(d, d3);
    hide Kept, NoBadCodes, LoginFrame;
    GroupsDependOn(d.p, d3.p);
    GroupsDependOn(d.p, d2.p);
    assert d2.p == d.p.(ports := d2.p.ports) && d3.p == d2.p && (AllGroups(d3.p) ==> d4.p == d3.p);
    PortsStaySettled(d1.p, d2.p);
  }

  lemma PortsStaySettled(p: Platform, q: Platform)
    requires ServiceNodePort(p.ports) == ServiceNodePort(q.ports) && p.containers == q.containers
    ensures PortSettled(p) == PortSettled(q)
  {
    hide ServiceNodePort, DeploymentPort;
  }

  lemma LoginStaysPut(d: Desk)
    requires ADMIN_KEY in d.p.secrets && ADMIN_PASSWORD in d.p.secrets
    requires d.p.client == d.p.secrets[ADMIN_PASSWORD] && Authorised(d.p)
    ensures Login(d).d.p == d.p
  {
    hide CheckLogin, CreateKeyPair;
    var d2 := Asking(Asking(d).d).d;
    CreateKeyPairFacts(d2);
    var d3 := CreateKeyPair(d2).d;
    CheckLoginFacts(d3, SecretOf(d.p, ADMIN_PASSWORD));
    hide Kept, LoginFrame;
  }

  /**
   Bootstrapping is idempotent: when Configure returns unpatched and without an error (one pod, credential checks
   answering success or 401, no group missing beside the two looked up), the REST client is on the stored admin password, all
   four groups exist, and a second run sends no command at all, whatever fails in it.
   */
  lemma BootstrapIsIdempotent(d: Desk, later: seq<Turn>)
    requires d.p.pods == 1 && Repairable(d.p) && NoBadCodes(d.turns) && NoBadCodes(later)
    ensures var r := Configure(d);
            r.Go? || r.patched || r.failed
    ensures var r := Configure(d);
            r.Go? ==>
              Bootstrapped(r.d.p)
              && Configure(Desk(r.d.p, later)).d.p == r.d.p.(ports := Configure(Desk(r.d.p, later)).d.p.ports)
  {
    ConfigureFacts(d);
    hide Configure, Bootstrapped, Kept;
    var r := Configure(d);
    if r.Go? {
      ConfiguredStaysPut(Desk(r.d.p, later));
    }
  }

  // ---------- When every call works ----------

  /** At least n turns, in which calls work. */
  ghost predicate Working(turns: seq<Turn>, n: nat) {
    |turns| >= n && forall t | t in turns :: t.works
  }

  /** Besides, Gerrit answers for itself. */
  ghost predicate Calm(turns: seq<Turn>, n: nat) {
    Working(turns, n) && NoBadCodes(turns)
  }

  lemma WorkingLater(d: Desk, e: Desk, n: nat, k: nat)
    requires Working(d.turns, n) && Kept(d, e) && |e.turns| >= |d.turns| - k && k <= n
    ensures Working(e.turns, n - k)
  {
  }

  lemma CalmLater(d: Desk, e: Desk, n: nat, k: nat)
    requires Calm(d.turns, n) && Kept(d, e) && |e.turns| >= |d.turns| - k && k <= n
    ensures Calm(e.turns, n - k)
  {
  }

  lemma CalmFewer(turns: seq<Turn>, n: nat, k: nat)
    requires Calm(turns, n) && k <= n
    ensures Calm(turns, k) && Working(turns, k)
  {
  }

  lemma {:induction false} WorkingAsks(d: Desk, n: nat)
    requires Working(d.turns, n)
    ensures Asks(d, n).Go? && |Asks(d, n).d.turns| == |d.turns| - n
    decreases n
  {
    if n > 0 {
      assert d.turns[0] in d.turns;
      WorkingAsks(Asking(d).d, n - 1);
    }
  }

  lemma WorkingAsking(d: Desk)
    requires Working(d.turns, 1)
    ensures Asking(d).Go? && |Asking(d).d.turns| == |d.turns| - 1 && Kept(d, Asking(d).d) && Asking(d).d.p == d.p
  {
    assert d.turns[0] in d.turns;
  }

  lemma WorkingCreateSecret(d: Desk, key: string, data: string)
    requires Working(d.turns, 2)
    ensures var r := CreateSecret(d, key, data); r.Go? && |r.d.turns| >= |d.turns| - 2
  {
    WorkingAsking(d);
    var e := Asking(d).d;
    WorkingLater(d, e, 2, 1);
    WorkingAsking(e);
    hide Working, Kept, Asking;
  }

  predicate Configurable(p: Platform) {
    && p.containers[0].name == p.name
    && ServiceNodePort(p.ports).Some? && ServiceNodePort(p.ports).value > 0
    && DeploymentPort(p.containers[0].env).Port?
  }

  lemma WorkingPatchListener(d: Desk, port: int32)
    requires Working(d.turns, 2) && HasContainer(d.p.containers, d.p.name)
    ensures var r := PatchListener(d, port);
            r.Stop? && r.patched && !r.failed && |r.d.turns| >= |d.turns| - 2
            && r.d.p == d.p.(containers := PatchedContainers(d.p.containers, d.p.name, ListenerEnv(port)),
                             issued := d.p.issued + [EnvPatch(port)])
  {
    hide HasContainer, PatchedContainers, ListenerEnv;
    WorkingAsking(d);
    var e := Noting(Asking(d).d, EnvPatch(port));
    WorkingLater(d, e, 2, 1);
    WorkingAsking(e);
    hide Working, Kept, Asking;
  }

  lemma WorkingSyncPort(d: Desk)
    requires Working(d.turns, 6) && Configurable(d.p)
    ensures var r := SyncPort(d);
            |r.d.turns| >= |d.turns| - 6 && PortSettled(r.d.p) && Configurable(r.d.p)
            && (if PortSettled(d.p) then r.Go? else r.Stop? && r.patched && !r.failed)
  {
    hide ServiceNodePort, UpdatedPorts, DeploymentPort, PatchListener, Asks, PatchedContainers, ListenerEnv;
    var port := ServiceNodePort(d.p.ports).value;
    WorkingAsking(d);
    var d1 := Asking(d).d;
    WorkingLater(d, d1, 6, 1);
    WorkingAsking(d1);
    var d2 := Asking(d1).d;
    WorkingLater(d1, d2, 5, 1);
    WorkingAsks(d2, 2);
    AsksFacts(d2, 2);
    var d3 := Asks(d2, 2).d;
    WorkingLater(d2, d3, 4, 2);
    hide Asking, Kept;
    UpdateKeepsServicePort(d.p.ports, SSH_PORT_NAME, port);
    var d4 := d3.(p := d3.p.(ports := UpdatedPorts(d3.p.ports, SSH_PORT_NAME, port)));
    assert d.p.containers[0] in d.p.containers;
    WorkingPatchListener(d4, port);
    hide Working;
    OnePatchSettles(d.p.containers, d.p.name, port);
  }

  lemma WorkingKeyPair(d: Desk)
    requires Working(d.turns, 3)
    ensures CreateKeyPair(d).Go? && |CreateKeyPair(d).d.turns| >= |d.turns| - 3
  {
    hide CreateSecret;
    WorkingAsking(d);
    var e := Asking(d).d;
    WorkingLater(d, e, 3, 1);
    WorkingCreateSecret(e, ADMIN_KEY, FreshText(e));
    hide Working, Kept, Asking;
  }

  lemma CalmSetPassword(d: Desk, password: string)
    requires Calm(d.turns, 2) && ADMIN_KEY in d.p.secrets
    ensures SetAdminPassword(d, password).Go? && |SetAdminPassword(d, password).d.turns| >= |d.turns| - 2
  {
    WorkingAsking(d);
    var e := Noting(Asking(d).d, PasswordSet(ADMIN, password));
    CalmLater(d, e, 2, 1);
    WorkingAsking(e);
    hide Calm, Kept, Asking;
  }

  lemma CalmInitAdmin(d: Desk)
    requires Calm(d.turns, 3)
    ensures InitAdminUser(d).Go? && |InitAdminUser(d).d.turns| >= |d.turns| - 3
  {
    CalmAsksSteps(d, 2, 3);
    var e := Noting(Asks(d, 2).d, AdminInit);
    WorkingAsking(e);
    hide Calm, Kept, Asking, Asks;
  }

  lemma CalmAsksSteps(d: Desk, k: nat, n: nat)
    requires Calm(d.turns, n) && k <= n
    ensures var r := Asks(d, k);
            r.Go? && |r.d.turns| == |d.turns| - k && r.d.p == d.p && Kept(d, r.d) && Calm(r.d.turns, n - k)
  {
    WorkingAsks(d, k);
    AsksFacts(d, k);
    CalmLater(d, Asks(d, k).d, n, k);
    hide Asks;
  }

  lemma CalmNext(d: Desk, n: nat)
    requires Calm(d.turns, n) && n > 0
    ensures var (e, t) := Next(d);
            e.p == d.p && t.works && !BadCode(t.code) && |e.turns| == |d.turns| - 1 && Calm(e.turns, n - 1)
  {
    assert d.turns[0] in d.turns;
  }

  lemma CalmCheckLogin(d: Desk, password: string)
    requires Calm(d.turns, 7) && ADMIN_KEY in d.p.secrets
    ensures CheckLogin(d, password).Go? && |CheckLogin(d, password).d.turns| >= |d.turns| - 7
  {
    hide InitAdminUser, SetAdminPassword;
    var (e, t) := Next(WithClient(d, password));
    CalmNext(WithClient(d, password), 7);
    var (f, u) := Next(WithClient(e, DEFAULT_PASSWORD));
    CalmNext(WithClient(e, DEFAULT_PASSWORD), 6);
    CalmInitAdmin(f);
    InitAdminUserFacts(f);
    var g := InitAdminUser(f).d;
    CalmLater(f, g, 5, 3);
    CalmSetPassword(g, password);
    CalmSetPassword(f, password);
    hide Calm, Kept, Next;
  }

  lemma CalmLogin(d: Desk)
    requires Calm(d.turns, 12)
    ensures if d.p.pods == 1 then Login(d).Go? else Login(d).Stop? && !Login(d).patched && !Login(d).failed && Login(d).d.p == d.p
    ensures |Login(d).d.turns| >= |d.turns| - 12
  {
    hide CreateKeyPair, CheckLogin;
    CalmNext(d, 12);
    var d1 := Asking(d).d;
    CalmNext(d1, 11);
    var d2 := Asking(d1).d;
    WorkingKeyPair(d2);
    CreateKeyPairFacts(d2);
    var d3 := CreateKeyPair(d2).d;
    CalmLater(d2, d3, 10, 3);
    CalmCheckLogin(d3, SecretOf(d.p, ADMIN_PASSWORD));
    hide Calm, Kept, Next;
  }

  /** What creating groups one by one gets done: the list up to the first group that exists already. */
  function Creatable(groups: set<string>, list: seq<string>): set<string> {
    if list == [] || list[0] in groups then {} else {list[0]} + Creatable(groups, list[1..])
  }

  predicate Distinct(list: seq<string>) {
    forall i, j | 0 <= i < j < |list| :: list[i] != list[j]
  }

  lemma {:induction false} CreatableElsewhere(groups: set<string>, list: seq<string>, g: string)
    requires g !in list
    ensures Creatable(groups + {g}, list) == Creatable(groups, list)
    decreases |list|
  {
    if list != [] {
      assert list[0] in list && list == [list[0]] + list[1..];
      CreatableElsewhere(groups, list[1..], g);
    }
  }

  lemma {:induction false} CalmCreateGroups(d: Desk, list: seq<string>)
    requires Calm(d.turns, |list|) && Authorised(d.p) && Distinct(list)
    ensures var r := CreateGroups(d, list);
            (r.Go? <==> forall g | g in list :: g !in d.p.groups)
            && r.d.p.groups == d.p.groups + Creatable(d.p.groups, list)
            && |r.d.turns| >= |d.turns| - |list| && (r.Go? ==> |r.d.turns| == |d.turns| - |list|)
    decreases |list|
  {
    if list != [] {
      var g := list[0];
      assert g in list && list == [g] + list[1..];
      CalmNext(Noting(d, GroupCreated(g)), |list|);
      var e := CreateGroup(d, g).d;
      assert g !in list[1..];
      hide Calm, Next;
      if g !in d.p.groups {
        CreatableElsewhere(d.p.groups, list[1..], g);
        CalmCreateGroups(e, list[1..]);
      }
    }
  }

  lemma CalmCheckGroup(d: Desk, group: string, n: nat)
    requires Calm(d.turns, n) && n >= 2
    ensures var (r, status) := CheckGroup(d, group);
            r.Go? && |r.d.turns| == |d.turns| - (if group in d.p.groups then 2 else 1) && Calm(r.d.turns, n - 2) && r.d.p == d.p
            && (status == NOT_FOUND <==> group !in d.p.groups)
  {
    CalmNext(d, n);
    var e := Asking(d).d;
    CalmNext(e, n - 1);
    hide NoBadCodes, Next, Authorised;
  }

  /** The states of the groups that Configure can deal with in one go. */
  predicate SetsUp(groups: set<string>) {
    LookedUp(groups) || forall g | g in FOUR_GROUPS :: g !in groups
  }

  function GroupsAfter(groups: set<string>): set<string> {
    if LookedUp(groups) then groups else groups + Creatable(groups, FOUR_GROUPS)
  }

  /**
   When calls work the groups are set up if and only if the two looked-up ones are there or none of the four is. That
   takes six calls for looking, or else sixteen: looking, creating the four, and the eight that set up All-Projects.
   */
  lemma CalmEnsureGroups(d: Desk)
    requires Calm(d.turns, 18) && ADMIN_KEY in d.p.secrets && Authorised(d.p)
    ensures var r := EnsureGroups(d);
            (r.Go? <==> SetsUp(d.p.groups)) && r.d.p.groups == GroupsAfter(d.p.groups) && |r.d.turns| >= |d.turns| - 18
            && (r.Go? ==> |r.d.turns| == |d.turns| - (if LookedUp(d.p.groups) then 6 else 16))
  {
    hide Asks, CheckGroup, CreateGroups;
    CalmAsksSteps(d, 2, 18);
    var d1 := Asks(d, 2).d;
    CalmCheckGroup(d1, CI_TOOLS, 16);
    var d2 := CheckGroup(d1, CI_TOOLS).0.d;
    CalmCheckGroup(d2, BOOTSTRAPPERS, 14);
    var d3 := CheckGroup(d2, BOOTSTRAPPERS).0.d;
    assert CI_TOOLS in FOUR_GROUPS && BOOTSTRAPPERS in FOUR_GROUPS;
    if !LookedUp(d.p.groups) {
      CalmFour(d3);
      var r := CreateGroups(d3, FOUR_GROUPS);
      if r.Go? {
        CalmAsksSteps(r.d, 8, 8);
      }
    }
    hide Calm, Kept, Creatable;
  }

  lemma CalmFour(d: Desk)
    requires Calm(d.turns, 12) && Authorised(d.p)
    ensures var r := CreateGroups(d, FOUR_GROUPS);
            (r.Go? <==> forall g | g in FOUR_GROUPS :: g !in d.p.groups)
            && r.d.p.groups == d.p.groups + Creatable(d.p.groups, FOUR_GROUPS)
            && |r.d.turns| >= |d.turns| - 4 && (r.Go? ==> |r.d.turns| == |d.turns| - 4) && Calm(r.d.turns, 8)
  {
    assert |CI_TOOLS| == 28 && |BOOTSTRAPPERS| == 21 && |DEVELOPERS| == 10 && |READ_ONLY| == 8;
    CalmCreateGroups(d, FOUR_GROUPS);
    CreateGroupsFacts(d, FOUR_GROUPS);
    hide CreateGroups;
    CalmLater(d, CreateGroups(d, FOUR_GROUPS).d, 12, 4);
  }

  /** Calls a whole Configure may take. */
  const CONFIGURE_CALLS := 38

  /**
   When every call works, Configure patches exactly when the port is pending, and once. Otherwise with one pod it
   goes through exactly when it can set up the groups, and with another number of pods it gives up without saying so.
   */
  lemma CalmConfigure(d: Desk)
    requires Calm(d.turns, CONFIGURE_CALLS) && Configurable(d.p)
    ensures var r := Configure(d);
            |r.d.turns| >= |d.turns| - CONFIGURE_CALLS
            && PortSettled(r.d.p) && Configurable(r.d.p)
            && (if !PortSettled(d.p) then r.Stop? && r.patched && !r.failed && r.d.p.groups == d.p.groups
                else if d.p.pods == 1 then
                  (r.Go? <==> SetsUp(d.p.groups)) && (r.Stop? ==> r.failed) && r.d.p.groups == GroupsAfter(d.p.groups)
                  && ADMIN_KEY in r.d.p.secrets
                else r.Stop? && !r.patched && !r.failed && r.d.p == d.p.(secrets := r.d.p.secrets, ports := r.d.p.ports)
                     && (ADMIN_KEY in r.d.p.secrets <==> ADMIN_KEY in d.p.secrets))
  {
    hide CreateSecret, SyncPort, Login, EnsureGroups, PortSettled, Configurable, Authorised, Calm, SetsUp, GroupsAfter;
    CreateSecretFacts(d, ADMIN_PASSWORD, FreshText(d));
    assert ADMIN_KEY != ADMIN_PASSWORD by { assert |ADMIN_KEY| != |ADMIN_PASSWORD|; }
    CalmCreateSecretSteps(d);
    var d1 := CreateSecret(d, ADMIN_PASSWORD, FreshText(d)).d;
    CalmFewer(d1.turns, 36, 6);
    WorkingSyncPort(d1);
    SyncPortFacts(d1);
    var d2 := SyncPort(d1).d;
    SettledDependsOn(d.p, d1.p);
    hide NoBadCodes;
    if PortSettled(d.p) {
      CalmLater(d1, d2, 36, 6);
      CalmFewer(d2.turns, 30, 12);
      CalmLogin(d2);
      LoginFacts(d2);
      var d3 := Login(d2).d;
      SettledAndConfigurable(d2.p, d3.p);
      if d.p.pods == 1 {
        CalmLater(d2, d3, 30, 12);
        CalmEnsureGroups(d3);
        EnsureGroupsFacts(d3);
        SettledAndConfigurable(d3.p, EnsureGroups(d3).d.p);
      }
    }
    hide Kept;
  }

  /** Setting up none of the groups leaves all four. */
  lemma NoneOrAllStays(p: Platform, q: Platform)
    requires NoneOrAllGroups(p) && (q.groups == p.groups || q.groups == GroupsAfter(p.groups))
    ensures NoneOrAllGroups(q) && SetsUp(p.groups)
  {
    assert FOUR_GROUPS[0] in FOUR_GROUPS && FOUR_GROUPS[1] in FOUR_GROUPS;
    assert FOUR_GROUPS[1..] == [BOOTSTRAPPERS, DEVELOPERS, READ_ONLY];
    if !AllGroups(p) {
      AllCreatable(p.groups, FOUR_GROUPS);
    }
  }

  lemma {:induction false} AllCreatable(groups: set<string>, list: seq<string>)
    requires forall g | g in list :: g !in groups
    ensures forall g | g in list :: g in Creatable(groups, list)
    decreases |list|
  {
    if list != [] {
      assert list[0] in list && list == [list[0]] + list[1..];
      AllCreatable(groups, list[1..]);
    }
  }

  lemma CalmCreateSecretSteps(d: Desk)
    requires Calm(d.turns, CONFIGURE_CALLS)
    ensures var r := CreateSecret(d, ADMIN_PASSWORD, FreshText(d));
            r.Go? && |r.d.turns| >= |d.turns| - 2 && Calm(r.d.turns, CONFIGURE_CALLS - 2)
            && (Configurable(d.p) ==> Configurable(r.d.p))
  {
    hide CreateSecret;
    CreateSecretFacts(d, ADMIN_PASSWORD, FreshText(d));
    WorkingCreateSecret(d, ADMIN_PASSWORD, FreshText(d));
    CalmLater(d, CreateSecret(d, ADMIN_PASSWORD, FreshText(d)).d, CONFIGURE_CALLS, 2);
    SettledAndConfigurable(d.p, CreateSecret(d, ADMIN_PASSWORD, FreshText(d)).d.p);
  }

  lemma SettledAndConfigurable(p: Platform, q: Platform)
    requires p.ports == q.ports && p.containers == q.containers && p.name == q.name
    ensures PortSettled(p) == PortSettled(q) && Configurable(p) == Configurable(q)
  {
  }

  // ---------- One patch for a fixed node port ----------

  /** Whatever fails: a patch settles the port, and a configurable deployment stays configurable. */
  lemma PatchSettles(d: Desk)
    requires Configurable(d.p)
    ensures var r := SyncPort(d);
            Configurable(r.d.p) && (r.Stop? && r.patched ==> !PortSettled(d.p) && PortSettled(r.d.p))
  {
    hide ServiceNodePort, UpdatedPorts, DeploymentPort, PatchListener, Asks, PatchedContainers, ListenerEnv;
    var port := ServiceNodePort(d.p.ports).value;
    var d2 := Asking(Asking(d).d).d;
    AsksFacts(d2, 2);
    var d3 := Asks(d2, 2).d;
    hide Asking, Kept;
    UpdateKeepsServicePort(d.p.ports, SSH_PORT_NAME, port);
    PatchListenerFacts(d3.(p := d3.p.(ports := UpdatedPorts(d3.p.ports, SSH_PORT_NAME, port))), port);
    OnePatchSettles(d.p.containers, d.p.name, port);
  }

  lemma ConfigurePatches(d: Desk)
    requires Configurable(d.p)
    ensures var r := Configure(d);
            Configurable(r.d.p) && (PortSettled(d.p) ==> PortSettled(r.d.p))
            && (r.Stop? && r.patched ==> !PortSettled(d.p) && PortSettled(r.d.p))
  {
    hide CreateSecret, SyncPort, Login, EnsureGroups, PortSettled, Configurable;
    CreateSecretFacts(d, ADMIN_PASSWORD, FreshText(d));
    var d1 := CreateSecret(d, ADMIN_PASSWORD, FreshText(d)).d;
    SettledAndConfigurable(d.p, d1.p);
    PatchSettles(d1);
    SyncPortFacts(d1);
    var d2 := SyncPort(d1).d;
    PortsStaySettledIfSettled(d1.p, d2.p);
    LoginFacts(d2);
    var d3 := Login(d2).d;
    SettledAndConfigurable(d2.p, d3.p);
    EnsureGroupsFacts(d3);
    SettledAndConfigurable(d3.p, EnsureGroups(d3).d.p);
    hide Kept;
  }

  lemma PortsStaySettledIfSettled(p: Platform, q: Platform)
    requires PortSettled(p) ==> ServiceNodePort(p.ports) == ServiceNodePort(q.ports) && p.containers == q.containers
    ensures PortSettled(p) ==> PortSettled(q)
  {
    hide ServiceNodePort, DeploymentPort;
  }

  /** The patches that repeated runs of Configure get through, each with its own script of failures. */
  function Patches(p: Platform, scripts: seq<seq<Turn>>): nat
    decreases |scripts|
  {
    if scripts == [] then 0
    else
      var r := Configure(Desk(p, scripts[0]));
      (if r.Stop? && r.patched then 1 else 0) + Patches(r.d.p, scripts[1..])
  }

  /** For a fixed positive node port the deployment is patched at most once, however often Configure runs or fails. */
  lemma {:induction false} PatchedAtMostOnce(p: Platform, scripts: seq<seq<Turn>>)
    requires Configurable(p)
    ensures Patches(p, scripts) <= if PortSettled(p) then 0 else 1
    decreases |scripts|
  {
    hide Configure, PortSettled, Configurable;
    if scripts != [] {
      var d := Desk(p, scripts[0]);
      ConfigurePatches(d);
      PatchedAtMostOnce(Configure(d).d.p, scripts[1..]);
    }
  }
}
