/**
 What ready means for the groups. Configure wraps an error that is nil when the number of pods is not one, or when a
 credential check answers with a bad status code; the reconcile then goes on as if Configure had succeeded.
 Here is what one undisturbed reconcile does in every case.
 */
module SilentGiveUp {
  import opened SshPort
  import opened Cluster
  import opened Bootstrap
  import opened Exposure
  import opened Installation
  import opened PhaseSafety
  import opened Convergence

  predicate ReadyAndAvailable(st: Status) {
    st.phase == READY && st.available
  }

  /** Without the admin's key pair exposing fails, and the instance is no more ready than it was. */
  lemma CompletionWithoutKey(s: Site, n: nat)
    requires InStep(s) && Quiet(s.w.script, n) && n >= 5 && ADMIN_KEY !in s.p.secrets && ServiceNodePort(s.p.ports).Some?
    requires Configuring(s.me.status.phase)
    ensures var t := Completion(s);
            t.Done? && InStep(t.s) && t.s.p.groups == s.p.groups
            && (ReadyAndAvailable(t.s.me.status) <==> ReadyAndAvailable(s.me.status))
  {
    hide Advance, ExposeStep, WriteStatus;
    QuietAdvance(s, [CONFIGURING], CONFIGURED, n);
    var s1 := Advance(s, [CONFIGURING], CONFIGURED).s;
    QuietAdvance(s1, [CONFIGURED], EXPOSING, n - 1);
    var s2 := Advance(s1, [CONFIGURED], EXPOSING).s;
    ExposeWithoutKey(s2, n - 2);
    hide Undisturbed, NoBadCodes, InStep;
  }

  lemma ExposeWithoutKey(s: Site, n: nat)
    requires InStep(s) && Quiet(s.w.script, n) && n >= 3 && ADMIN_KEY !in s.p.secrets && ServiceNodePort(s.p.ports).Some?
    ensures var t := ExposeStep(s);
            t.Done? && InStep(t.s) && t.s.p.groups == s.p.groups && t.s.me == s.me
  {
    hide Back, ExposeCi, ExposeArgo, ServiceNodePort;
    var d := AtDesk(s);
    CalmNext(d, n);
    var d1 := WithClient(Asking(d).d, SecretOf(d.p, ADMIN_PASSWORD));
    CalmNext(d1, n - 1);
    var d2 := Asking(d1).d;
    CalmNext(d2, n - 2);
    assert ExposeAccounts(d) == OpenClients(d) == Failing(Asking(d2).d);
    QuietBack(s, Asking(d2).d, n, 3);
    hide Undisturbed, NoBadCodes, Next;
  }

  /** Either way: the second half makes the instance ready and available if and only if the key pair is stored. */
  lemma CompletionReady(s: Site, n: nat)
    requires InStep(s) && Quiet(s.w.script, n) && n >= EXPOSE_STEP_CALLS + 5 && ServiceNodePort(s.p.ports).Some?
    requires Configuring(s.me.status.phase)
    ensures var t := Completion(s);
            InStep(t.s) && t.s.p.groups == s.p.groups
            && (ReadyAndAvailable(t.s.me.status) <==> ADMIN_KEY in s.p.secrets || ReadyAndAvailable(s.me.status))
  {
    if ADMIN_KEY in s.p.secrets {
      QuietCompletion(s, n);
    } else {
      CompletionWithoutKey(s, n);
    }
    hide Completion, InStep, Undisturbed, NoBadCodes, Finished;
  }

  /** How many calls precede Configure: the read, the readiness check, and a status write from created. */
  function CallsBefore(ph: string): nat {
    if ph == CREATED then 3 else 2
  }

  function BeforeConfigure(s: Site): Site {
    Advance(CheckReady(s).s, [CREATED, ""], CONFIGURING).s
  }

  lemma QuietStart(s: Site, n: nat)
    requires InStep(s) && Undisturbed(s.w.script, n) && n >= 2 && s.p.ready
    requires Recognised(s.me.status.phase) && !Early(s.me.status.phase)
    ensures var t := BeforeConfigure(s);
            Body(s) == FromConfiguring(t) && InStep(t) && t.p == s.p && Onward(s.w.script, t.w.script, n - 2)
            && t.w.script == s.w.script[CallsBefore(s.me.status.phase) - 1..]
            && t.me.status == s.me.status.(phase := PhaseThen(s.me.status.phase, [CREATED, ""], CONFIGURING))
            && Configuring(t.me.status.phase)
  {
    hide Advance, WriteStatus, CheckReady, ConfigureStep, Completion;
    assert Advance(s, ["", FAILED], INSTALLING) == More(s) by { NotEarly(s); }
    QuietReady(s, n);
    var s1 := CheckReady(s).s;
    QuietAdvance(s1, [CREATED, ""], CONFIGURING, n - 1);
    ReachesConfiguring(s.me.status.phase, false, 0);
    hide Undisturbed, NoBadCodes, InStep;
  }

  lemma NotEarly(s: Site)
    requires !Early(s.me.status.phase)
    ensures Advance(s, ["", FAILED], INSTALLING) == More(s)
  {
  }

  /** Configure went through, or gave up silently. */
  predicate GoesOn(r: Res) {
    r.Go? || !(r.patched || r.failed)
  }

  const REST_CALLS := EXPOSE_STEP_CALLS + 6

  /** The turns that are left when these are, at the end of the script. */
  function Last(script: seq<Turn>, turns: seq<Turn>): seq<Turn> {
    if |turns| <= |script| then script[|script| - |turns|..] else script
  }

  lemma FromConfiguringReady(s: Site)
    requires InStep(s) && Undisturbed(s.w.script, 0) && s.p.ready && Configuring(s.me.status.phase)
    requires var r := Configure(AtDesk(s)); |r.d.turns| >= REST_CALLS && NoBadCodes(Last(s.w.script, r.d.turns))
    ensures var t := FromConfiguring(s);
            var r := Configure(AtDesk(s));
            InStep(t.s) && t.s.p.groups == r.d.p.groups
            && (ReadyAndAvailable(t.s.me.status) <==>
                  (GoesOn(r) && ADMIN_KEY in r.d.p.secrets) || ReadyAndAvailable(s.me.status))
  {
    hide Back, Configure, Completion, CheckReady, PortSettled, Bootstrapped;
    var d := AtDesk(s);
    var r := Configure(d);
    ConfigureFacts(d);
    QuietBack(s, r.d, |s.w.script|, |s.w.script| - |r.d.turns|);
    var s1 := Back(s, r.d);
    if GoesOn(r) {
      QuietFewer(s1.w.script, |r.d.turns|, REST_CALLS);
      QuietReady(s1, REST_CALLS);
      SettledHasPort(r.d.p);
      CompletionReady(CheckReady(s1).s, REST_CALLS - 1);
    }
    hide Undisturbed, NoBadCodes, InStep, Kept;
  }

  lemma SettledHasPort(p: Platform)
    ensures PortSettled(p) ==> ServiceNodePort(p.ports).Some?
  {
  }

  lemma LastOfRest(script: seq<Turn>, k: nat, turns: seq<Turn>)
    requires k <= |script| && |turns| <= |script| - k
    ensures Last(script[k..], turns) == Last(script, turns)
  {
  }

  /** An undisturbed reconcile of an instance that is installed and whose deployment is ready. */
  ghost predicate Installed(c: Scene) {
    && c.w.stored.Some? && InStep(Site(c.w, c.w.stored.value, c.p)) && c.p.ready
    && Recognised(Phase(c)) && !Early(Phase(c))
    && Undisturbed(c.w.script, 3)
  }

  /** Where Configure finds the platform and the script in such a reconcile. */
  function ConfigureDesk(c: Scene): Desk
    requires c.w.stored.Some? && |c.w.script| >= 3
  {
    Desk(c.p, c.w.script[CallsBefore(Phase(c))..])
  }

  predicate ReadyNow(c: Scene) {
    c.w.stored.Some? && ReadyAndAvailable(c.w.stored.value.status)
  }

  /** Such a reconcile is the rest that follows Configure. */
  lemma QuietApproach(c: Scene) returns (t: Site)
    requires Installed(c)
    ensures InStep(t) && AtDesk(t) == ConfigureDesk(c) && Undisturbed(t.w.script, 0) && Configuring(t.me.status.phase)
    ensures ReadyAndAvailable(t.me.status) == ReadyNow(c)
    ensures Reconcile(c) == Scene(FromConfiguring(t).s.w, FromConfiguring(t).s.p)
  {
    hide Call, Body, FromConfiguring, Recognised, BeforeConfigure, Early;
    QuietCall(c.w, 3);
    var s := Site(Call(c.w).0, c.w.stored.value, c.p);
    assert ApiGet(c.w) == (Call(c.w).0, Answer(c.w.stored.value));
    QuietStart(s, 2);
    t := BeforeConfigure(s);
    hide NoBadCodes;
  }

  /**
   What ready stands for: however Configure ends, the instance is ready and available afterwards if and only if it
   was before, or Configure did not stop with a patch or an error and the admin's key pair is stored.
   */
  lemma ReadyIff(c: Scene)
    requires Installed(c)
    requires var r := Configure(ConfigureDesk(c)); |r.d.turns| >= REST_CALLS && NoBadCodes(Last(c.w.script, r.d.turns))
    ensures var d := Reconcile(c);
            var r := Configure(ConfigureDesk(c));
            d.w.stored.Some? && d.p.groups == r.d.p.groups
            && (ReadyNow(d) <==> (GoesOn(r) && ADMIN_KEY in r.d.p.secrets) || ReadyNow(c))
  {
    hide Reconcile, FromConfiguring, Configure, NoBadCodes, Recognised, Early, ReadyAndAvailable, LookedUp, Repairable;
    var t := QuietApproach(c);
    ConfigureFacts(AtDesk(t));
    LastOfRest(c.w.script, CallsBefore(Phase(c)), Configure(AtDesk(t)).d.turns);
    FromConfiguringReady(t);
    hide Kept, Last;
  }

  /** With Gerrit answering for itself: what becomes of the instance and of its groups, from any state of both. */
  lemma QuietReadyIff(c: Scene, n: nat)
    requires Installed(c) && Quiet(c.w.script, n) && n >= RECONCILE_CALLS && Configurable(c.p) && PortSettled(c.p)
    ensures var d := Reconcile(c);
            d.w.stored.Some?
            && (ReadyNow(d) <==> (if c.p.pods == 1 then SetsUp(c.p.groups) else ADMIN_KEY in c.p.secrets) || ReadyNow(c))
            && d.p.groups == if c.p.pods == 1 then GroupsAfter(c.p.groups) else c.p.groups
  {
    var d := ConfigureDesk(c);
    var r := Configure(d);
    DropsQuietly(c.w.script, CallsBefore(Phase(c)), n);
    CalmFewer(d.turns, n - 3, CONFIGURE_CALLS);
    CalmConfigure(d);
    ConfigureFacts(d);
    LastOfRest(c.w.script, CallsBefore(Phase(c)), r.d.turns);
    DropsQuietly(d.turns, |d.turns| - |r.d.turns|, |d.turns|);
    ReadyIff(c);
    hide Reconcile, Configure, Undisturbed, NoBadCodes, SetsUp, GroupsAfter, Installed, Kept, Bootstrapped;
  }

  lemma DropsQuietly(script: seq<Turn>, k: nat, n: nat)
    requires Working(script, n) && NoBadCodes(script) && k <= n
    ensures Calm(script[k..], n - k)
  {
  }

  /** From no groups at all the instance can become ready without any, and does so with more or fewer pods than one. */
  lemma ReadyWithoutGroups(c: Scene, n: nat)
    requires Installed(c) && Quiet(c.w.script, n) && n >= RECONCILE_CALLS && Configurable(c.p) && PortSettled(c.p)
    requires forall g | g in FOUR_GROUPS :: g !in c.p.groups
    ensures var d := Reconcile(c);
            (ReadyNow(d) <==> c.p.pods == 1 || ADMIN_KEY in c.p.secrets || ReadyNow(c))
            && (AllGroups(d.p) <==> c.p.pods == 1)
            && (c.p.pods != 1 ==> forall g | g in FOUR_GROUPS :: g !in d.p.groups)
  {
    QuietReadyIff(c, n);
    assert CI_TOOLS in FOUR_GROUPS;
    AllCreatable(c.p.groups, FOUR_GROUPS);
    hide Reconcile, Undisturbed, NoBadCodes, Installed, Configurable, PortSettled;
  }

  // ---------- Bad answers to the credential check ----------

  /** Configure as far as the pods have been listed. */
  function UpToPods(d: Desk): Res {
    var d :- CreateSecret(d, ADMIN_PASSWORD, FreshText(d));
    var d :- SyncPort(d);
    Asks(d, 2)
  }

  /** With one pod, as far as the credential check. */
  function UpToCheck(d: Desk): Res {
    var d :- UpToPods(d);
    CreateKeyPair(d)
  }

  /** The stored password, or after a 401 the default one, is answered by a bad code. */
  predicate BadAnswer(d: Desk)
    requires |d.turns| > 1
  {
    BadCode(d.turns[0].code)
    || (!Authorised(WithClient(d, SecretOf(d.p, ADMIN_PASSWORD)).p) && BadCode(d.turns[1].code))
  }

  lemma CheckSilentIff(d: Desk)
    requires Working(d.turns, 2)
    ensures var r := CheckLogin(d, SecretOf(d.p, ADMIN_PASSWORD));
            (r.Stop? && GoesOn(r) <==> BadAnswer(d))
            && (BadAnswer(d) ==> r.d.p.groups == d.p.groups && r.d.p.secrets == d.p.secrets && |r.d.turns| >= |d.turns| - 2)
            && (BadCode(d.turns[0].code) ==> BadAnswer(d) && |r.d.turns| == |d.turns| - 1)
  {
    hide InitAdminUser, SetAdminPassword;
    assert d.turns[0] in d.turns && d.turns[1] in d.turns;
    var password := SecretOf(d.p, ADMIN_PASSWORD);
    var e := Next(WithClient(Next(WithClient(d, password)).0, DEFAULT_PASSWORD)).0;
    InitAdminUserFacts(e);
    SetAdminPasswordFacts(e, password);
    SetAdminPasswordFacts(InitAdminUser(e).d, password);
    hide Kept;
  }

  lemma WorkingUpToPods(d: Desk)
    requires Working(d.turns, 10) && Configurable(d.p) && PortSettled(d.p)
    ensures var r := UpToPods(d);
            r.Go? && Working(r.d.turns, |d.turns| - 10) && Kept(d, r.d)
            && r.d.p == d.p.(secrets := r.d.p.secrets, ports := r.d.p.ports) && ADMIN_PASSWORD in r.d.p.secrets
  {
    hide CreateSecret, SyncPort, Asks, PortSettled, Configurable;
    var n := |d.turns|;
    WorkingCreateSecret(d, ADMIN_PASSWORD, FreshText(d));
    CreateSecretFacts(d, ADMIN_PASSWORD, FreshText(d));
    var d1 := CreateSecret(d, ADMIN_PASSWORD, FreshText(d)).d;
    WorkingLater(d, d1, n, 2);
    SettledAndConfigurable(d.p, d1.p);
    WorkingSyncPort(d1);
    SyncPortFacts(d1);
    var d2 := SyncPort(d1).d;
    WorkingLater(d1, d2, n - 2, 6);
    WorkingAsks(d2, 2);
    AsksFacts(d2, 2);
    WorkingLater(d2, Asks(d2, 2).d, n - 8, 2);
    KeptTransitive(d, d1, d2);
    KeptTransitive(d, d2, Asks(d2, 2).d);
    hide Kept, Working;
  }

  /** When every call works, Configure gets to the check with the key pair stored and the groups untouched. */
  lemma WorkingUpToCheck(d: Desk)
    requires Working(d.turns, 13) && Configurable(d.p) && PortSettled(d.p)
    ensures var r := UpToCheck(d);
            r.Go? && Working(r.d.turns, |d.turns| - 13)
            && r.d.p.groups == d.p.groups && ADMIN_KEY in r.d.p.secrets
            && SecretOf(r.d.p, ADMIN_PASSWORD) == SecretOf(UpToPods(d).d.p, ADMIN_PASSWORD)
  {
    hide UpToPods, CreateKeyPair, PortSettled, Configurable;
    WorkingUpToPods(d);
    var e := UpToPods(d).d;
    WorkingKeyPair(e);
    CreateKeyPairFacts(e);
    WorkingLater(e, CreateKeyPair(e).d, |d.turns| - 10, 3);
    hide Working;
  }

  /** Configure in terms of these two, when the calls before work. */
  lemma ConfigureFromCheck(d: Desk)
    requires UpToPods(d).Go?
    ensures UpToPods(d).d.p.pods != 1 ==> Configure(d) == GivingUpSilently(UpToPods(d).d)
    ensures UpToPods(d).d.p.pods == 1 && UpToCheck(d).Go? ==>
      var r := CheckLogin(UpToCheck(d).d, SecretOf(UpToPods(d).d.p, ADMIN_PASSWORD));
      Configure(d) == if r.Stop? then r else EnsureGroups(r.d)
  {
    hide CreateSecret, SyncPort, CreateKeyPair, CheckLogin, EnsureGroups;
    var d2 := SyncPort(CreateSecret(d, ADMIN_PASSWORD, FreshText(d)).d).d;
    assert Asks(d2, 2) == (var r := Asking(d2); if r.Stop? then r else Asking(r.d)) by {
      assert Asks(Asking(d2).d, 1) == Asking(Asking(d2).d);
    }
  }

  /**
   When every call works and no patch is due: Configure gives up without saying so if and only if there is another
   number of pods than one, or the credential check gets a bad answer. The groups are then as they were.
   */
  lemma SilentIff(d: Desk)
    requires Working(d.turns, 15) && Configurable(d.p) && PortSettled(d.p)
    ensures var r := Configure(d);
            var checked := UpToCheck(d).d;
            |checked.turns| > 1
            && (r.Stop? && GoesOn(r) <==> d.p.pods != 1 || BadAnswer(checked))
            && (r.Stop? && GoesOn(r) ==> r.d.p.groups == d.p.groups && |r.d.turns| >= |d.turns| - 15)
            && (d.p.pods == 1 && BadAnswer(checked) ==> ADMIN_KEY in r.d.p.secrets)
            && (d.p.pods == 1 && BadCode(checked.turns[0].code) ==> BadAnswer(checked) && |r.d.turns| == |checked.turns| - 1)
  {
    hide UpToPods, UpToCheck, Configure, CheckLogin, EnsureGroups, BadAnswer, PortSettled, Configurable, LookedUp, Repairable;
    WorkingUpToPods(d);
    WorkingUpToCheck(d);
    ConfigureFromCheck(d);
    var e := UpToCheck(d).d;
    CheckSilentIff(e);
    EnsureGroupsFacts(CheckLogin(e, SecretOf(e.p, ADMIN_PASSWORD)).d);
  }

  /** Gerrit answers the credential check badly, say with 500: the instance becomes ready and available all the same. */
  lemma ReadyDespiteBadAnswer(c: Scene)
    requires Installed(c) && |c.w.script| >= RECONCILE_CALLS && Configurable(c.p) && PortSettled(c.p) && c.p.pods == 1
    requires var e := UpToCheck(ConfigureDesk(c)).d; |e.turns| > 1 && BadAnswer(e)
    requires NoBadCodes(Last(c.w.script, Configure(ConfigureDesk(c)).d.turns))
    ensures var d := Reconcile(c); ReadyNow(d) && d.p.groups == c.p.groups
  {
    hide Reconcile, Configure, UpToCheck, BadAnswer, Configurable, PortSettled, NoBadCodes, Recognised, Early;
    var d := ConfigureDesk(c);
    assert Working(d.turns, 15);
    SilentIff(d);
    ReadyIff(c);
  }

  lemma {:induction false} AsksTurns(d: Desk, n: nat)
    requires Working(d.turns, n)
    ensures Asks(d, n) == Go(Desk(d.p, d.turns[n..]))
    decreases n
  {
    if n > 0 {
      assert d.turns[0] in d.turns;
      AsksTurns(Asking(d).d, n - 1);
      assert d.turns[1..][n - 1..] == d.turns[n..];
    }
  }

  /** With both secrets stored the check is the ninth call of Configure. */
  const CHECK_CALL := 8

  lemma CheckIsNinth(d: Desk)
    requires Working(d.turns, CHECK_CALL) && Configurable(d.p) && PortSettled(d.p)
    requires ADMIN_PASSWORD in d.p.secrets && ADMIN_KEY in d.p.secrets
    ensures UpToCheck(d).Go? && UpToCheck(d).d.turns == d.turns[CHECK_CALL..]
  {
    hide Asks, ServiceNodePort, DeploymentPort, UpdatedPorts;
    AsksTurns(d, 1);
    var d1 := Desk(d.p, d.turns[1..]);
    AsksTurns(d1, 2);
    var d3 := Desk(d.p, d1.turns[2..]);
    AsksTurns(d3, 2);
    AskingIsAsks(d);
    AskingTwice(d1);
    var d5 := Desk(d.p.(ports := UpdatedPorts(d.p.ports, SSH_PORT_NAME, ServiceNodePort(d.p.ports).value)), d3.turns[2..]);
    assert SyncPort(d1) == Go(d5);
    AsksTurns(d5, 2);
    var d7 := Desk(d5.p, d5.turns[2..]);
    AsksTurns(d7, 1);
    AskingIsAsks(d7);
    hide Working, Asking;
  }

  lemma AskingIsAsks(d: Desk)
    ensures Asks(d, 1) == Asking(d)
  {
    assert Asks(Asking(d).d, 0) == Go(Asking(d).d);
  }

  lemma AskingTwice(d: Desk)
    ensures Asks(d, 2) == (var r := Asking(d); if r.Stop? then r else Asking(r.d))
  {
    AskingIsAsks(Asking(d).d);
  }

  /**
   The second silent exit, read off the platform and the script alone: both secrets are stored, every call works, and
   the one answer to the credential check has a status code from 400 to 505 other than 401.
   */
  lemma ReadyDespiteServerError(c: Scene)
    requires c.w.stored.Some? && InStep(Site(c.w, c.w.stored.value, c.p)) && Recognised(Phase(c)) && !Early(Phase(c))
    requires Undisturbed(c.w.script, RECONCILE_CALLS)
    requires c.p.ready && c.p.pods == 1 && Configurable(c.p) && PortSettled(c.p)
    requires ADMIN_PASSWORD in c.p.secrets && ADMIN_KEY in c.p.secrets
    requires var k := CallsBefore(Phase(c)) + CHECK_CALL;
             400 <= c.w.script[k].code <= 505 && c.w.script[k].code != 401 && NoBadCodes(c.w.script[k + 1..])
    ensures var d := Reconcile(c); ReadyNow(d) && d.p.groups == c.p.groups
  {
    hide Reconcile, Configure, UpToCheck, Configurable, PortSettled, NoBadCodes, Recognised, Early;
    var d := ConfigureDesk(c);
    var k := CallsBefore(Phase(c));
    assert Working(d.turns, 15);
    CheckIsNinth(d);
    SilentIff(d);
    assert d.turns[CHECK_CALL..][0] == c.w.script[k + CHECK_CALL];
    assert Last(c.w.script, Configure(d).d.turns) == c.w.script[k + CHECK_CALL + 1..];
    ReadyDespiteBadAnswer(c);
  }
}
