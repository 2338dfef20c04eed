/**
 The component service in the form of the source (pkg/service/gerrit/gerrit.go and, for the platform,
 pkg/service/platform/k8s/k8s.go): one object that acts on secrets, deployment, service and Gerrit step by step.
 Each method does exactly what its function in Bootstrap or Exposure says.
 */
module ServiceMethods {
  import opened Common
  import opened EnvMerge
  import opened SshPort
  import opened Cluster
  import opened Bootstrap
  import opened Exposure

  /** How a method returns: ready to go on, after a patch, giving up without an error, or with one. */
  datatype Exit = Proceed | Patched | Silent | Error

  class ComponentService {
    const name: string
    var secrets: map<string, string>
    var containers: Containers
    var ports: seq<ServicePort>
    var ready: bool
    var pods: nat
    var accounts: map<string, string>
    var groups: set<string>
    var members: set<(string, string)>
    var client: string
    var issued: seq<Issued>
    var turns: seq<Turn>

    constructor (p: Platform, turns: seq<Turn>)
      ensures View() == p && this.turns == turns
    {
      name, secrets, containers, ports := p.name, p.secrets, p.containers, p.ports;
      ready, pods, accounts, groups := p.ready, p.pods, p.accounts, p.groups;
      members, client, issued := p.members, p.client, p.issued;
      this.turns := turns;
    }

    ghost function View(): Platform
      reads this
    {
      Platform(name, secrets, containers, ports, ready, pods, accounts, groups, members, client, issued)
    }

    ghost function At(): Desk
      reads this
    {
      Desk(View(), turns)
    }

    ghost function Leaving(x: Exit): Res
      reads this
    {
      match x
      case Proceed => Go(At())
      case Patched => Stop(At(), true, false)
      case Silent => GivingUpSilently(At())
      case Error => Failing(At())
    }

    // ---------- Calls ----------

    method TakeTurn() returns (t: Turn)
      modifies this
      ensures (At(), t) == Next(old(At()))
    {
      if turns == [] {
        return DEAD;
      }
      t := turns[0];
      turns := turns[1..];
    }

    method Ask() returns (x: Exit)
      modifies this
      ensures Leaving(x) == Asking(old(At())) && (x == Proceed || x == Error)
    {
      var t := TakeTurn();
      return if t.works then Proceed else Error;
    }

    method AskTimes(n: nat) returns (x: Exit)
      modifies this
      ensures Leaving(x) == Asks(old(At()), n)
    {
      var k := n;
      while k > 0
        invariant Asks(old(At()), n) == Asks(At(), k)
      {
        x := Ask();
        if x != Proceed {
          return;
        }
        k := k - 1;
      }
      return Proceed;
    }

    method Command(c: Issued) returns (x: Exit)
      modifies this
      ensures Leaving(x) == Commanding(old(At()), c) && (x == Proceed || x == Error)
      ensures View() == old(View()).(issued := old(issued) + [c])
    {
      issued := issued + [c];
      x := Ask();
    }

    method Draw() returns (text: string)
      ensures text == FreshText(At())
    {
      return if turns == [] then "" else turns[0].text;
    }

    // ---------- Kubernetes ----------

    method CreateSecret(key: string, data: string) returns (x: Exit)
      modifies this
      ensures Leaving(x) == Bootstrap.CreateSecret(old(At()), key, data)
    {
      hide Asking;
      x := Ask();
      if x != Proceed || key in secrets {
        return;
      }
      x := Ask();
      if x == Proceed {
        secrets := secrets[key := data];
      }
    }

    method GetSecretData(key: string) returns (x: Exit, data: string)
      modifies this
      ensures Leaving(x) == Asking(old(At())) && data == SecretOf(View(), key)
    {
      x := Ask();
      data := if key in secrets then secrets[key] else "";
    }

    method PatchDeploymentEnv(port: int32) returns (x: Exit)
      modifies this
      ensures Leaving(x) == PatchListener(old(At()), port)
    {
      hide Asking, PatchedContainers, HasContainer, ListenerEnv;
      x := Ask();
      if x != Proceed {
        return;
      }
      var patched := MergeIntoContainer(containers, name, ListenerEnv(port));
      if patched.None? {
        return Error;
      }
      x := Command(EnvPatch(port));
      if x == Proceed {
        containers := patched.value;
        x := Patched;
      }
    }

    method GetServicePort() returns (x: Exit, port: int32)
      modifies this
      ensures var r := Asking(old(At()));
              Leaving(x) == (if r.Go? && ServiceNodePort(r.d.p.ports).None? then Failing(r.d) else r)
              && (x == Proceed ==> ServiceNodePort(ports) == Some(port))
    {
      hide Asking;
      port := 0;
      x := Ask();
      if x != Proceed {
        return;
      }
      var found := SshPort.GetServicePort(ports);
      if found.None? {
        x := Error;
      } else {
        port := found.value;
      }
    }

    method GetDeploymentSSHPort() returns (x: Exit, port: int32)
      modifies this
      ensures var r := Asking(old(At()));
              Leaving(x) == (if r.Go? && DeploymentPort(r.d.p.containers[0].env).BadPort? then Failing(r.d) else r)
              && (x == Proceed ==> DeploymentPort(containers[0].env) == Port(port))
    {
      hide Asking;
      port := 0;
      x := Ask();
      if x != Proceed {
        return;
      }
      var reply := GetDeploymentSshPort(containers);
      if reply.BadPort? {
        x := Error;
      } else {
        port := reply.number;
      }
    }

    /** updatePort runs on an array of its own. */
    method UpdateService(nodePort: int32) returns (x: Exit)
      modifies this
      ensures var r := Asks(old(At()), 2);
              Leaving(x) == if r.Stop? then r
                            else Go(r.d.(p := r.d.p.(ports := UpdatedPorts(r.d.p.ports, SSH_PORT_NAME, nodePort))))
    {
      hide Asking, UpdatedPorts;
      x := AskTimes(2);
      if x != Proceed {
        return;
      }
      var old_ := ports;
      var slice := new ServicePort[|old_|](i requires 0 <= i < |old_| => old_[i]);
      assert slice[..] == old_;
      UpdatePort(slice, SSH_PORT_NAME, nodePort);
      ports := slice[..];
    }

    method SyncPorts() returns (x: Exit)
      modifies this
      ensures Leaving(x) == SyncPort(old(At()))
    {
      hide Asking, Asks, UpdatedPorts, ServiceNodePort, DeploymentPort, PatchListener;
      var servicePort, port;
      x, servicePort := GetServicePort();
      if x != Proceed {
        return;
      }
      x, port := GetDeploymentSSHPort();
      if x != Proceed {
        return;
      }
      x := UpdateService(servicePort);
      if x == Proceed && (port != servicePort || port == 0) {
        x := PatchDeploymentEnv(servicePort);
      }
    }

    // ---------- Login ----------

    method CreateSSHKeyPairs() returns (x: Exit)
      modifies this
      ensures Leaving(x) == CreateKeyPair(old(At()))
    {
      hide Asking, Bootstrap.CreateSecret;
      var data;
      x, data := GetSecretData(ADMIN_KEY);
      if x != Proceed || ADMIN_KEY in secrets {
        return;
      }
      var text := Draw();
      x := CreateSecret(ADMIN_KEY, text);
    }

    method InitNewSshClient() returns (x: Exit)
      ensures Leaving(x) == OpenSsh(At())
    {
      return if ADMIN_KEY in secrets then Proceed else Error;
    }

    method InitAdmin() returns (x: Exit)
      modifies this
      ensures Leaving(x) == InitAdminUser(old(At()))
    {
      hide Asks, Asking;
      x := AskTimes(2);
      if x != Proceed {
        return;
      }
      x := Command(AdminInit);
      if x == Proceed {
        accounts := accounts[ADMIN := DEFAULT_PASSWORD];
      }
    }

    method SetGerritAdminUserPassword(password: string) returns (x: Exit)
      modifies this
      ensures Leaving(x) == SetAdminPassword(old(At()), password)
    {
      hide Asking;
      x := Ask();
      if x != Proceed {
        return;
      }
      x := InitNewSshClient();
      if x != Proceed {
        return;
      }
      x := Command(PasswordSet(ADMIN, password));
      if x == Proceed {
        accounts := accounts[ADMIN := password];
        client := password;
      }
    }

    /** An exit, or the HTTP status of a check that is neither an error nor bad. */
    method CheckCredentials() returns (x: Exit, status: nat)
      modifies this
      ensures var (d, t) := Next(old(At()));
              At() == d && (x == Error <==> !t.works)
              && (t.works ==> status == Http(d.p, t, true) && x == if BadCode(status) then Silent else Proceed)
    {
      var t := TakeTurn();
      status := 0;
      if !t.works {
        return Error, status;
      }
      status := Respond(t, true);
      x := if BadCode(status) then Silent else Proceed;
    }

    method Respond(t: Turn, found: bool) returns (status: nat)
      ensures status == Http(View(), t, found)
    {
      if BadCode(t.code) {
        return t.code;
      }
      if !(ADMIN in accounts && accounts[ADMIN] == client) {
        return UNAUTHORIZED;
      }
      return if found then OK else NOT_FOUND;
    }

    method TryDefaultPassword(password: string) returns (x: Exit)
      modifies this
      ensures Leaving(x) == RecoverLogin(old(At()), password)
    {
      hide Http, InitAdminUser, SetAdminPassword, Next;
      client := DEFAULT_PASSWORD;
      assert At() == WithClient(old(At()), DEFAULT_PASSWORD);
      var status;
      x, status := CheckCredentials();
      if x != Proceed {
        return;
      }
      if status == UNAUTHORIZED {
        x := InitAdmin();
        if x != Proceed {
          return;
        }
      }
      x := SetGerritAdminUserPassword(password);
    }

    method LogIn() returns (x: Exit)
      modifies this
      ensures Leaving(x) == Login(old(At()))
    {
      hide Http, Asking, CreateKeyPair, RecoverLogin, Next;
      var password;
      x, password := GetSecretData(ADMIN_PASSWORD);
      if x != Proceed {
        return;
      }
      x := Ask();
      if x != Proceed {
        return;
      }
      if pods != 1 {
        return Silent;
      }
      x := CreateSSHKeyPairs();
      if x != Proceed {
        return;
      }
      ghost var before := At();
      client := password;
      assert At() == WithClient(before, password);
      var status;
      x, status := CheckCredentials();
      if x == Proceed && status == UNAUTHORIZED {
        x := TryDefaultPassword(password);
      }
    }

    // ---------- Groups ----------

    method LookUpGroup(group: string) returns (x: Exit, status: nat)
      modifies this
      ensures Leaving(x) == CheckGroup(old(At()), group).0
      ensures x == Proceed ==> status == CheckGroup(old(At()), group).1
    {
      status := NOT_FOUND;
      x := Ask();
      if x != Proceed || group !in groups {
        return;
      }
      var t := TakeTurn();
      status := Respond(t, true);
      x := if t.works then Proceed else Error;
    }

    method AddGroup(group: string) returns (x: Exit)
      modifies this
      ensures Leaving(x) == CreateGroup(old(At()), group)
    {
      issued := issued + [GroupCreated(group)];
      var t := TakeTurn();
      var status := Respond(t, true);
      if !t.works || status != OK || group in groups {
        return Error;
      }
      groups := groups + {group};
      return Proceed;
    }

    method CreateFourGroups() returns (x: Exit)
      modifies this
      ensures Leaving(x) == CreateGroups(old(At()), FOUR_GROUPS)
    {
      hide CreateGroup;
      assert FOUR_GROUPS[1..] == [BOOTSTRAPPERS, DEVELOPERS, READ_ONLY];
      assert FOUR_GROUPS[1..][1..] == [DEVELOPERS, READ_ONLY];
      assert FOUR_GROUPS[1..][1..][1..] == [READ_ONLY] && [READ_ONLY][1..] == [];
      x := AddGroup(CI_TOOLS);
      if x != Proceed {
        return;
      }
      assert CreateGroups(old(At()), FOUR_GROUPS) == CreateGroups(At(), [BOOTSTRAPPERS, DEVELOPERS, READ_ONLY]);
      x := AddGroup(BOOTSTRAPPERS);
      if x != Proceed {
        return;
      }
      assert CreateGroups(old(At()), FOUR_GROUPS) == CreateGroups(At(), [DEVELOPERS, READ_ONLY]);
      x := AddGroup(DEVELOPERS);
      if x != Proceed {
        return;
      }
      assert CreateGroups(old(At()), FOUR_GROUPS) == CreateGroups(At(), [READ_ONLY]);
      x := AddGroup(READ_ONLY);
    }

    method SetUpGroups() returns (x: Exit)
      modifies this
      ensures Leaving(x) == EnsureGroups(old(At()))
    {
      hide Asks, CheckGroup, CreateGroups;
      x := AskTimes(2);
      if x != Proceed {
        return;
      }
      x := InitNewSshClient();
      if x != Proceed {
        return;
      }
      var tools, bootstrappers;
      x, tools := LookUpGroup(CI_TOOLS);
      if x != Proceed {
        return;
      }
      x, bootstrappers := LookUpGroup(BOOTSTRAPPERS);
      if x != Proceed {
        return;
      }
      if tools == NOT_FOUND || bootstrappers == NOT_FOUND {
        x := CreateFourGroups();
        if x == Proceed {
          x := AskTimes(8);
        }
      }
    }

    method Configure() returns (x: Exit)
      modifies this
      ensures Leaving(x) == Bootstrap.Configure(old(At()))
    {
      hide Bootstrap.CreateSecret, SyncPort, Login, EnsureGroups;
      var text := Draw();
      x := CreateSecret(ADMIN_PASSWORD, text);
      if x != Proceed {
        return;
      }
      x := SyncPorts();
      if x != Proceed {
        return;
      }
      x := LogIn();
      if x != Proceed {
        return;
      }
      x := SetUpGroups();
    }

    // ---------- Exposing ----------

    method CreateUser(user: string, password: string) returns (x: Exit)
      modifies this
      ensures Leaving(x) == Exposure.CreateUser(old(At()), user, password)
    {
      var t := TakeTurn();
      if !t.works {
        return Error;
      }
      var status := Respond(t, user in accounts);
      if status != NOT_FOUND {
        return Proceed;
      }
      x := Command(UserCreated(user));
      if x == Proceed {
        if user in accounts {
          x := Error;
        } else {
          accounts := accounts[user := password];
        }
      }
    }

    method AddUserToGroups(user: string, names: seq<string>) returns (x: Exit)
      modifies this
      ensures Leaving(x) == Exposure.AddUserToGroups(old(At()), user, names)
    {
      hide CheckGroup, Asking;
      for i := 0 to |names|
        invariant Exposure.AddUserToGroups(old(At()), user, names) == Exposure.AddUserToGroups(At(), user, names[i..])
      {
        assert names[i..][0] == names[i] && names[i..][1..] == names[i + 1..];
        var status;
        x, status := LookUpGroup(names[i]);
        if x != Proceed {
          return;
        }
        if status != NOT_FOUND {
          x := Ask();
          if x != Proceed {
            return;
          }
          members := members + {(user, names[i])};
        }
      }
      return Proceed;
    }

    method InitClients() returns (x: Exit)
      modifies this
      ensures Leaving(x) == OpenClients(old(At()))
    {
      hide Asking, ServiceNodePort;
      var password, port;
      x, password := GetSecretData(ADMIN_PASSWORD);
      if x != Proceed {
        return;
      }
      client := password;
      x, port := GetServicePort();
      if x != Proceed {
        return;
      }
      x := Ask();
      if x == Proceed {
        x := InitNewSshClient();
      }
    }

    method ExposeCiUser() returns (x: Exit)
      modifies this
      ensures Leaving(x) == ExposeCi(old(At()))
    {
      hide Asking, Bootstrap.CreateSecret, Exposure.CreateUser, Exposure.AddUserToGroups;
      var text := Draw();
      x := CreateSecret(CI_PASSWORD, text);
      if x != Proceed {
        return;
      }
      var password;
      x, password := GetSecretData(CI_PASSWORD);
      if x != Proceed {
        return;
      }
      text := Draw();
      x := CreateSecret(CI_KEY, text);
      if x != Proceed {
        return;
      }
      x := CreateUser(CI_USER, password);
      if x != Proceed {
        return;
      }
      x := AddUserToGroups(CI_USER, [BOOTSTRAPPERS, ADMINISTRATORS]);
    }

    method ExposeArgoCD() returns (x: Exit)
      modifies this
      ensures Leaving(x) == ExposeArgo(old(At()))
    {
      hide Bootstrap.CreateSecret, Exposure.CreateUser, Exposure.AddUserToGroups;
      var password := Draw();
      x := CreateSecret(ARGO_PASSWORD, password);
      if x != Proceed {
        return;
      }
      var text := Draw();
      x := CreateSecret(ARGO_KEY, text);
      if x != Proceed {
        return;
      }
      x := CreateUser(ARGO_USER, password);
      if x != Proceed {
        return;
      }
      x := AddUserToGroups(ARGO_USER, [READ_ONLY]);
    }

    method ExposeAllAccounts() returns (x: Exit)
      modifies this
      ensures Leaving(x) == ExposeAccounts(old(At()))
    {
      hide OpenClients, ExposeCi, ExposeArgo;
      x := InitClients();
      if x != Proceed {
        return;
      }
      x := ExposeCiUser();
      if x != Proceed {
        return;
      }
      x := ExposeArgoCD();
    }

    method ExposeKeycloakSecret() returns (x: Exit)
      modifies this
      ensures Leaving(x) == ExposeKeycloak(old(At()))
    {
      hide Bootstrap.CreateSecret;
      var text := Draw();
      x := CreateSecret(KEYCLOAK_SECRET, text);
    }
  }

  /** Where SelectContainer found its container. */
  method IndexOf(containers: seq<Container>, name: string) returns (i: nat)
    requires HasContainer(containers, name)
    ensures IsFirst(containers, (c: Container) => c.name == name, i)
  {
    i := 0;
    while i < |containers| && containers[i].name != name
      invariant i <= |containers|
      invariant forall k | 0 <= k < i :: containers[k].name != name
    {
      i := i + 1;
    }
  }

  /** The merged environment goes into the first container of the name. */
  method MergeIntoContainer(containers: Containers, name: string, env: seq<EnvVar>) returns (r: Option<Containers>)
    ensures r.Some? <==> HasContainer(containers, name)
    ensures r.Some? ==> r.value == PatchedContainers(containers, name, env)
  {
    hide Merged;
    var selected := SelectContainer(containers, name);
    if selected.None? {
      return None;
    }
    var i := IndexOf(containers, name);
    var merged := UpdateEnv(selected.value.env, env);
    PatchedAt(containers, name, env, i);
    return Some(containers[i := containers[i].(env := merged)]);
  }
}
