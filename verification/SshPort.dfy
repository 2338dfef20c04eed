/**
 The ssh port feedback loop: the nodePort of the service is written into the deployment as the text
 `*:<port>`, read back with a regular expression and compared (pkg/service/gerrit/gerrit.go and
 pkg/service/platform/k8s/k8s.go).
 */
module SshPort {
  import opened Common
  import opened EnvMerge

  const SSH_PORT_NAME := "ssh"
  const SSH_LISTENER := "LISTEN_ADDR"
  const MAX_INT32 := 0x7fff_ffff

  type int32 = x: int | -0x8000_0000 <= x <= 0x7fff_ffff

  datatype ServicePort = ServicePort(name: string, port: int32, targetPort: int32, nodePort: int32)

  /** What GetDeploymentSSHPort answers: a number (0 when nothing is configured) or a parse error. */
  datatype PortReply = Port(number: int32) | BadPort

  // ---------- Decimal text ----------

  function Digit(d: nat): (c: char)
    requires d < 10
  {
    (d + '0' as int) as char
  }

  predicate IsDigit(c: char) {
    '0' <= c <= '9'
  }

  function Decimal(n: nat): string {
    if n < 10 then [Digit(n)] else Decimal(n / 10) + [Digit(n % 10)]
  }

  /** The verb %d. */
  function Render(n: int): string {
    if n < 0 then "-" + Decimal(-n) else Decimal(n)
  }

  function ListenAddress(port: int32): string {
    "*:" + Render(port)
  }

  function LeadingDigits(s: string): string {
    if s == "" || !IsDigit(s[0]) then "" else [s[0]] + LeadingDigits(s[1..])
  }

  /** The leftmost match of \d+, empty when there is none. */
  function DigitRun(s: string): string {
    if s == "" then "" else if IsDigit(s[0]) then LeadingDigits(s) else DigitRun(s[1..])
  }

  function DigitValue(c: char): nat
    requires IsDigit(c)
  {
    c as int - '0' as int
  }

  function Value(digits: string): nat
    requires forall c | c in digits :: IsDigit(c)
  {
    if digits == "" then 0
    else 10 * Value(digits[..|digits| - 1]) + DigitValue(digits[|digits| - 1])
  }

  lemma {:induction false} LeadingDigitsAreDigits(s: string)
    ensures forall c | c in LeadingDigits(s) :: IsDigit(c)
  {
    if s != "" && IsDigit(s[0]) {
      LeadingDigitsAreDigits(s[1..]);
    }
  }

  lemma {:induction false} DigitRunIsDigits(s: string)
    ensures forall c | c in DigitRun(s) :: IsDigit(c)
  {
    if s != "" {
      LeadingDigitsAreDigits(s);
      DigitRunIsDigits(s[1..]);
    }
  }

  /** One variable's contribution: the port it names, or None when its text has no digits. */
  function ParseAddress(text: string): Option<PortReply> {
    var run := DigitRun(text);
    DigitRunIsDigits(text);
    if run == "" then None
    else if Value(run) > MAX_INT32 then Some(BadPort)
    else Some(Port(Value(run)))
  }

  function DeploymentPort(env: seq<EnvVar>): PortReply {
    if env == [] then Port(0)
    else if env[0].name == SSH_LISTENER && ParseAddress(env[0].value).Some? then ParseAddress(env[0].value).value
    else DeploymentPort(env[1..])
  }

  // ---------- Reading back what was written ----------

  lemma {:induction false} DecimalDigits(n: nat)
    ensures Decimal(n) != ""
    ensures forall c | c in Decimal(n) :: IsDigit(c)
    ensures Value(Decimal(n)) == n
  {
    if n >= 10 {
      DecimalDigits(n / 10);
      var d := Decimal(n);
      assert d[..|d| - 1] == Decimal(n / 10);
      assert d[|d| - 1] == Digit(n % 10);
    } else {
      assert Decimal(n)[..0] == "";
    }
  }

  lemma {:induction false} LeadingDigitsOfDigits(s: string)
    requires forall c | c in s :: IsDigit(c)
    ensures LeadingDigits(s) == s
  {
    if s != "" {
      assert forall c | c in s[1..] :: c in s;
      LeadingDigitsOfDigits(s[1..]);
    }
  }

  /** The sign is not part of the digit run, so a negative number is read back as its magnitude. */
  lemma {:induction false} ListenAddressReadBack(port: int32)
    ensures ParseAddress(ListenAddress(port))
         == Some(if port == -0x8000_0000 then BadPort else Port(if port < 0 then -port else port))
  {
    var n: nat := if port < 0 then -(port as int) else port;
    DecimalDigits(n);
    LeadingDigitsOfDigits(Decimal(n));
    var text := ListenAddress(port);
    assert text[1..] == ":" + Render(port);
    assert text[2..] == Render(port) && text[1..][1..] == text[2..];
    assert !IsDigit('*') && !IsDigit(':') && !IsDigit('-');
    if port < 0 {
      assert text[2..][1..] == Decimal(n);
    }
    assert DigitRun(Decimal(n)) == Decimal(n);
    assert DigitRun(text) == DigitRun(text[2..]);
  }

  // ---------- The loop that patches the deployment ----------

  function ListenerEnv(port: int32): seq<EnvVar> {
    [EnvVar(SSH_LISTENER, ListenAddress(port))]
  }

  predicate PortPending(deployed: PortReply, servicePort: int32) {
    deployed.Port? && (deployed.number != servicePort || deployed.number == 0)
  }

  /** PatchDeploymentEnv: the first container of that name gets the merged environment. */
  function PatchedContainers(containers: seq<Container>, name: string, env: seq<EnvVar>): (r: seq<Container>)
    ensures |r| == |containers|
  {
    if containers == [] then []
    else if containers[0].name == name then [containers[0].(env := Merged(containers[0].env, env))] + containers[1..]
    else [containers[0]] + PatchedContainers(containers[1..], name, env)
  }

  predicate HasContainer(containers: seq<Container>, name: string) {
    exists c :: c in containers && c.name == name
  }

  lemma {:induction false} PatchedAt(containers: seq<Container>, name: string, env: seq<EnvVar>, i: nat)
    requires IsFirst(containers, (c: Container) => c.name == name, i)
    ensures PatchedContainers(containers, name, env) == containers[i := containers[i].(env := Merged(containers[i].env, env))]
  {
    if i > 0 {
      var tail := containers[1..];
      assert IsFirst(tail, (c: Container) => c.name == name, i - 1);
      PatchedAt(tail, name, env, i - 1);
    }
  }

  lemma {:induction false} ListenerWins(existing: seq<EnvVar>, entry: EnvVar)
    requires entry.name == SSH_LISTENER && ParseAddress(entry.value).Some?
    ensures DeploymentPort(Merged(existing, [entry])) == ParseAddress(entry.value).value
  {
    assert [entry][1..] == [];
    if existing == [] {
      MissingOne(entry, Names(existing));
      assert Merged(existing, [entry]) == [entry];
    } else {
      var tail := existing[1..];
      if existing[0].name == SSH_LISTENER {
        assert Merged(existing, [entry])[0] == entry;
      } else {
        ListenerWins(tail, entry);
        NamesOfConcat([existing[0]], tail);
        assert existing == [existing[0]] + tail;
        assert Names([existing[0]]) == {existing[0].name};
        MissingOne(entry, Names(existing));
        MissingOne(entry, Names(tail));
        assert Lookup([entry], existing[0].name) == Lookup([], existing[0].name);
        assert Newer(existing[0], [entry]) == existing[0];
        assert Merged(existing, [entry]) == [existing[0]] + Merged(tail, [entry]);
        assert ([existing[0]] + Merged(tail, [entry]))[1..] == Merged(tail, [entry]);
      }
    }
  }

  /**
   When the named container is the one that is read back (container 0), one patch settles the loop
   exactly for positive node ports: otherwise the very next reconcile patches again, or fails to parse.
   */
  lemma {:induction false} OnePatchSettles(containers: seq<Container>, name: string, port: int32)
    requires |containers| > 0 && containers[0].name == name
    ensures var after := PatchedContainers(containers, name, ListenerEnv(port));
            |after| == |containers| && after[0].name == name
            && (DeploymentPort(after[0].env) == Port(port) && !PortPending(DeploymentPort(after[0].env), port) <==> port > 0)
            && (!(port > 0) && port != -0x8000_0000 ==> PortPending(DeploymentPort(after[0].env), port))
  {
    ListenAddressReadBack(port);
    ListenerWins(containers[0].env, ListenerEnv(port)[0]);
  }

  /** When the named container is not container 0 the patch is never read back: a pending port stays pending. */
  lemma {:induction false} PatchElsewhereIsNeverSeen(containers: seq<Container>, name: string, env: seq<EnvVar>)
    requires |containers| > 0 && containers[0].name != name
    ensures var after := PatchedContainers(containers, name, env);
            |after| > 0 && DeploymentPort(after[0].env) == DeploymentPort(containers[0].env)
  {
    assert PatchedContainers(containers, name, env)[0] == containers[0];
  }

  method GetDeploymentSshPort(containers: seq<Container>) returns (r: PortReply)
    requires |containers| > 0
    ensures r == DeploymentPort(containers[0].env)
  {
    var env := containers[0].env;
    for i := 0 to |env|
      invariant DeploymentPort(env) == DeploymentPort(env[i..])
    {
      assert env[i..][1..] == env[i + 1..];
      if env[i].name == SSH_LISTENER {
        var port := ParseAddress(env[i].value);
        if port.Some? {
          return port.value;
        }
      }
    }
    return Port(0);
  }

  // ---------- Service ports ----------

  function ServiceNodePort(ports: seq<ServicePort>): Option<int32> {
    if ports == [] then None
    else if ports[0].name == SSH_PORT_NAME then Some(ports[0].nodePort)
    else ServiceNodePort(ports[1..])
  }

  function UpdatedPort(p: ServicePort, name: string, nodePort: int32): ServicePort {
    if p.name == name then p.(port := nodePort, targetPort := nodePort) else p
  }

  function UpdatedPorts(ports: seq<ServicePort>, name: string, nodePort: int32): (r: seq<ServicePort>)
    ensures |r| == |ports|
    ensures forall i | 0 <= i < |ports| :: r[i] == UpdatedPort(ports[i], name, nodePort)
  {
    seq(|ports|, i requires 0 <= i < |ports| => UpdatedPort(ports[i], name, nodePort))
  }

  method GetServicePort(ports: seq<ServicePort>) returns (r: Option<int32>)
    ensures r == ServiceNodePort(ports)
  {
    for i := 0 to |ports|
      invariant ServiceNodePort(ports) == ServiceNodePort(ports[i..])
    {
      assert ports[i..][1..] == ports[i + 1..];
      if ports[i].name == SSH_PORT_NAME {
        return Some(ports[i].nodePort);
      }
    }
    return None;
  }

  /** updatePort overwrites the slice in place. */
  method UpdatePort(ports: array<ServicePort>, name: string, nodePort: int32)
    modifies ports
    ensures ports[..] == UpdatedPorts(old(ports[..]), name, nodePort)
  {
    for i := 0 to ports.Length
      invariant forall k | 0 <= k < i :: ports[k] == UpdatedPort(old(ports[k]), name, nodePort)
      invariant forall k | i <= k < ports.Length :: ports[k] == old(ports[k])
    {
      var p := ports[i];
      if p.name == name {
        p := p.(port := nodePort);
        p := p.(targetPort := nodePort);
      }
      ports[i] := p;
    }
  }

  /** Whatever name and number are written, the node port that GetServicePort answers stays the same. */
  lemma {:induction false} UpdateKeepsServicePort(ports: seq<ServicePort>, name: string, nodePort: int32)
    ensures ServiceNodePort(UpdatedPorts(ports, name, nodePort)) == ServiceNodePort(ports)
  {
    if ports != [] {
      UpdateKeepsServicePort(ports[1..], name, nodePort);
      assert UpdatedPorts(ports, name, nodePort)[1..] == UpdatedPorts(ports[1..], name, nodePort);
    }
  }

  /** Writing the same port again changes nothing, and only the named ports are ever touched. */
  lemma {:induction false} UpdatedPortsSettled(ports: seq<ServicePort>, name: string, nodePort: int32)
    ensures UpdatedPorts(UpdatedPorts(ports, name, nodePort), name, nodePort) == UpdatedPorts(ports, name, nodePort)
    ensures forall i | 0 <= i < |ports| && ports[i].name != name :: UpdatedPorts(ports, name, nodePort)[i] == ports[i]
  {
    var once := UpdatedPorts(ports, name, nodePort);
    var twice := UpdatedPorts(once, name, nodePort);
    assert forall i | 0 <= i < |ports| :: twice[i] == once[i];
  }
}
