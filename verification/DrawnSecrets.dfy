/**
 Where secrets come from: over every run, with any failures, each secret that the operator creates holds a text drawn in
 that run, never a fixed or an empty one.
 */
module DrawnSecrets {
  import opened Cluster
  import opened Helper
  import opened StatusRetry
  import opened Bootstrap
  import opened Exposure
  import opened Installation

  /** What is new among the secrets was drawn in one of these turns. */
  ghost predicate Drawn(p: Platform, q: Platform, turns: seq<Turn>) {
    SecretsKept(p, q) && forall k | k in q.secrets && k !in p.secrets :: exists t :: t in turns && q.secrets[k] == t.text
  }

  predicate PartOf(rest: seq<Turn>, all: seq<Turn>) {
    forall t | t in rest :: t in all
  }

  lemma DrawnTransitive(p: Platform, q: Platform, r: Platform, all: seq<Turn>, rest: seq<Turn>)
    requires Drawn(p, q, all) && Drawn(q, r, rest) && PartOf(rest, all)
    ensures Drawn(p, r, all)
  {
  }

  lemma NothingDrawn(p: Platform, q: Platform, turns: seq<Turn>)
    requires q.secrets == p.secrets
    ensures Drawn(p, q, turns)
  {
  }

  // ---------- On the platform ----------

  ghost predicate Draws(d: Desk, e: Desk) {
    Drawn(d.p, e.p, d.turns) && PartOf(e.turns, d.turns)
  }

  lemma DrawsTransitive(d: Desk, e: Desk, f: Desk)
    requires Draws(d, e) && Draws(e, f)
    ensures Draws(d, f)
  {
    DrawnTransitive(d.p, e.p, f.p, d.turns, e.turns);
    hide Drawn;
  }

  lemma KeptDraws(d: Desk, e: Desk)
    requires Kept(d, e) && e.p.secrets == d.p.secrets
    ensures Draws(d, e)
  {
  }

  lemma CreatingDraws(d: Desk, key: string)
    ensures Draws(d, CreateSecret(d, key, FreshText(d)).d)
  {
  }

  lemma AskingDraws(d: Desk)
    ensures Draws(d, Asking(d).d)
  {
  }

  lemma KeyPairDraws(d: Desk)
    ensures Draws(d, CreateKeyPair(d).d)
  {
    hide CreateSecret, Asking, Draws;
    AskingDraws(d);
    var e := Asking(d).d;
    CreatingDraws(e, ADMIN_KEY);
    DrawsTransitive(d, e, CreateSecret(e, ADMIN_KEY, FreshText(e)).d);
  }

  lemma LoginDraws(d: Desk)
    ensures Draws(d, Login(d).d)
  {
    hide CheckLogin, CreateKeyPair, Asking, Draws;
    AskingDraws(d);
    var d1 := Asking(d).d;
    AskingDraws(d1);
    var d2 := Asking(d1).d;
    DrawsTransitive(d, d1, d2);
    KeyPairDraws(d2);
    var d3 := CreateKeyPair(d2).d;
    DrawsTransitive(d, d2, d3);
    var password := SecretOf(d1.p, ADMIN_PASSWORD);
    CheckLoginFacts(d3, password);
    KeptDraws(d3, CheckLogin(d3, password).d);
    DrawsTransitive(d, d3, CheckLogin(d3, password).d);
    hide Kept, LoginFrame;
  }

  lemma ConfigureDraws(d: Desk)
    ensures Draws(d, Configure(d).d)
  {
    hide CreateSecret, SyncPort, Login, EnsureGroups, Draws;
    CreatingDraws(d, ADMIN_PASSWORD);
    var d1 := CreateSecret(d, ADMIN_PASSWORD, FreshText(d)).d;
    SyncPortFacts(d1);
    var d2 := SyncPort(d1).d;
    KeptDraws(d1, d2);
    DrawsTransitive(d, d1, d2);
    LoginDraws(d2);
    var d3 := Login(d2).d;
    DrawsTransitive(d, d2, d3);
    EnsureGroupsFacts(d3);
    var d4 := EnsureGroups(d3).d;
    KeptDraws(d3, d4);
    DrawsTransitive(d, d3, d4);
    hide Kept, PortSettled, LookedUp, Repairable, AllGroups;
  }

  lemma UserDraws(d: Desk, user: string, password: string)
    ensures Draws(d, CreateUser(d, user, password).d)
  {
    hide Authorised;
  }

  lemma JoiningDraws(d: Desk, user: string, password: string, groups: seq<string>)
    ensures Draws(d, JoinAs(d, user, password, groups).d)
  {
    UserDraws(d, user, password);
    var e := CreateUser(d, user, password).d;
    AddUserFacts(e, user, groups);
    var f := AddUserToGroups(e, user, groups).d;
    KeptDraws(e, f);
    DrawsTransitive(d, e, f);
    hide CreateUser, AddUserToGroups, Draws, Kept;
  }

  lemma CiDraws(d: Desk)
    ensures Draws(d, ExposeCi(d).d)
  {
    hide CreateSecret, Asking, CreateUser, AddUserToGroups, Draws;
    CreatingDraws(d, CI_PASSWORD);
    var d1 := CreateSecret(d, CI_PASSWORD, FreshText(d)).d;
    AskingDraws(d1);
    var d2 := Asking(d1).d;
    DrawsTransitive(d, d1, d2);
    CreatingDraws(d2, CI_KEY);
    var d3 := CreateSecret(d2, CI_KEY, FreshText(d2)).d;
    DrawsTransitive(d, d2, d3);
    var password := SecretOf(d2.p, CI_PASSWORD);
    JoiningDraws(d3, CI_USER, password, [BOOTSTRAPPERS, ADMINISTRATORS]);
    DrawsTransitive(d, d3, JoinAs(d3, CI_USER, password, [BOOTSTRAPPERS, ADMINISTRATORS]).d);
  }

  lemma ArgoDraws(d: Desk)
    ensures Draws(d, ExposeArgo(d).d)
  {
    hide CreateSecret, CreateUser, AddUserToGroups, Draws;
    CreatingDraws(d, ARGO_PASSWORD);
    var d1 := CreateSecret(d, ARGO_PASSWORD, FreshText(d)).d;
    CreatingDraws(d1, ARGO_KEY);
    var d2 := CreateSecret(d1, ARGO_KEY, FreshText(d1)).d;
    DrawsTransitive(d, d1, d2);
    JoiningDraws(d2, ARGO_USER, FreshText(d), [READ_ONLY]);
    DrawsTransitive(d, d2, JoinAs(d2, ARGO_USER, FreshText(d), [READ_ONLY]).d);
  }

  lemma ExposeDraws(d: Desk)
    ensures Draws(d, ExposeAccounts(d).d)
  {
    hide OpenClients, ExposeCi, ExposeArgo, Draws;
    OpenClientsFacts(d);
    var d1 := OpenClients(d).d;
    KeptDraws(d, d1);
    CiDraws(d1);
    var d2 := ExposeCi(d1).d;
    DrawsTransitive(d, d1, d2);
    ArgoDraws(d2);
    DrawsTransitive(d, d2, ExposeArgo(d2).d);
    hide Kept;
  }

  // ---------- Through a reconcile ----------

  ghost predicate Frame(s: Site, t: Site) {
    Drawn(s.p, t.p, s.w.script) && PartOf(t.w.script, s.w.script)
  }

  lemma FrameTransitive(s: Site, t: Site, u: Site)
    requires Frame(s, t) && Frame(t, u)
    ensures Frame(s, u)
  {
    DrawnTransitive(s.p, t.p, u.p, s.w.script, t.w.script);
    hide Drawn;
  }

  lemma CallPart(w: World)
    ensures PartOf(Call(w).0.script, w.script)
  {
    CallSpends(w);
    hide Call;
  }

  lemma {:induction false} SpendPart(w: World, k: nat)
    ensures PartOf(Spend(w, k).script, w.script)
    decreases k
  {
    hide Call;
    if k > 0 {
      CallPart(w);
      SpendPart(Call(w).0, k - 1);
    }
  }

  lemma AttemptPart(s: St, m: Mutation)
    ensures match Attempt(s, m)
            case Settled(t) => PartOf(t.st.w.script, s.w.script)
            case Again(v) => PartOf(v.w.script, s.w.script)
  {
    CallPart(s.w);
    CallPart(ApiStatusUpdate(s.w, s.me.(status := Mutated(m, s.me.status))).0);
    hide Call, Mutated, Tidy;
  }

  lemma {:induction false} AttemptsPart(s: St, m: Mutation, n: nat)
    ensures PartOf(Attempts(s, m, n).st.w.script, s.w.script)
    decreases n
  {
    hide Attempt;
    if n > 0 {
      AttemptPart(s, m);
      if Attempt(s, m).Again? {
        AttemptsPart(Attempt(s, m).refreshed, m, n - 1);
      }
    }
  }

  lemma WriteFrame(s: Site, m: Mutation)
    ensures Frame(s, WriteStatus(s, m).s)
  {
    AttemptsPart(St(s.w, s.me), m, RETRY_STEPS);
    NothingDrawn(s.p, s.p, s.w.script);
    hide Attempts, Drawn, PartOf;
  }

  lemma AdvanceFrame(s: Site, from: seq<string>, to: string)
    ensures Frame(s, Advance(s, from, to).s)
  {
    WriteFrame(s, SetPhase(to));
    StillFrame(s);
    hide WriteStatus, Frame;
  }

  lemma StillFrame(s: Site)
    ensures Frame(s, s)
  {
  }

  lemma BackFrame(s: Site, d: Desk)
    requires Draws(AtDesk(s), d)
    ensures Frame(s, Back(s, d))
  {
    SpendPart(s.w, if |s.w.script| <= |d.turns| then 0 else |s.w.script| - |d.turns|);
    hide Spend, Drawn, PartOf;
  }

  lemma UpdateFrame(s: Site, me: Obj)
    ensures Frame(s, UpdateObject(s, me).s)
  {
    CallPart(s.w);
    NothingDrawn(s.p, s.p, s.w.script);
    hide Call, Drawn, PartOf, Tidy;
  }

  lemma CheckFrame(s: Site)
    ensures Frame(s, CheckReady(s).s)
  {
    AskingDraws(AtDesk(s));
    BackFrame(s, Asking(AtDesk(s)).d);
    hide Back, Frame;
  }

  lemma ConfigureFrame(s: Site)
    ensures Frame(s, ConfigureStep(s).s)
  {
    hide Back, Configure, Frame, Draws;
    ConfigureDraws(AtDesk(s));
    BackFrame(s, Configure(AtDesk(s)).d);
  }

  lemma KeycloakFrame(s: Site)
    ensures Frame(s, KeycloakStep(s).s)
  {
    hide Back, UpdateObject, CreateSecret, Frame, Draws, WithAnnotation;
    StillFrame(s);
    CreatingDraws(AtDesk(s), KEYCLOAK_SECRET);
    var d := ExposeKeycloak(AtDesk(s)).d;
    BackFrame(s, d);
    var t := Back(s, d);
    var me := WithAnnotation(t.me, "is-credentials", t.p.name + KEYCLOAK_SECRET);
    UpdateFrame(t, me);
    FrameTransitive(s, t, UpdateObject(t, me).s);
  }

  lemma ExposeFrame(s: Site)
    ensures Frame(s, ExposeStep(s).s)
  {
    hide Back, ExposeAccounts, UpdateObject, KeycloakStep, WithCredentials, Frame, Draws;
    ExposeDraws(AtDesk(s));
    var d := ExposeAccounts(AtDesk(s)).d;
    BackFrame(s, d);
    var t := Back(s, d);
    var me := WithCredentials(t.me, t.p.name);
    UpdateFrame(t, me);
    var u := UpdateObject(t, me).s;
    FrameTransitive(s, t, u);
    KeycloakFrame(u);
    FrameTransitive(s, u, KeycloakStep(u).s);
  }

  lemma ConfigurationFrame(s: Site)
    ensures Frame(s, Configuration(s).s)
  {
    hide CheckReady, Advance, ConfigureStep, Frame;
    CheckFrame(s);
    var s1 := CheckReady(s).s;
    AdvanceFrame(s1, [CREATED, ""], CONFIGURING);
    var s2 := Advance(s1, [CREATED, ""], CONFIGURING).s;
    FrameTransitive(s, s1, s2);
    ConfigureFrame(s2);
    var s3 := ConfigureStep(s2).s;
    FrameTransitive(s, s2, s3);
    CheckFrame(s3);
    FrameTransitive(s, s3, CheckReady(s3).s);
  }

  lemma CompletionFrame(s: Site)
    ensures Frame(s, Completion(s).s)
  {
    hide Advance, ExposeStep, WriteStatus, Frame;
    AdvanceFrame(s, [CONFIGURING], CONFIGURED);
    var s1 := Advance(s, [CONFIGURING], CONFIGURED).s;
    AdvanceFrame(s1, [CONFIGURED], EXPOSING);
    var s2 := Advance(s1, [CONFIGURED], EXPOSING).s;
    FrameTransitive(s, s1, s2);
    ExposeFrame(s2);
    var s3 := ExposeStep(s2).s;
    FrameTransitive(s, s2, s3);
    AdvanceFrame(s3, [EXPOSING], EXPOSED);
    var s4 := Advance(s3, [EXPOSING], EXPOSED).s;
    FrameTransitive(s, s3, s4);
    AdvanceFrame(s4, [EXPOSED, INTEGRATION], READY);
    var s5 := Advance(s4, [EXPOSED, INTEGRATION], READY).s;
    FrameTransitive(s, s4, s5);
    WriteFrame(s5, SetAvailable(true));
    FrameTransitive(s, s5, WriteStatus(s5, SetAvailable(true)).s);
  }

  lemma BodyFrame(s: Site)
    ensures Frame(s, Body(s).s)
  {
    hide Advance, WriteStatus, Configuration, Completion, Frame;
    AdvanceFrame(s, ["", FAILED], INSTALLING);
    var s1 := Advance(s, ["", FAILED], INSTALLING).s;
    WriteFrame(s1, SetPhase(CREATED));
    FrameTransitive(s, s1, WriteStatus(s1, SetPhase(CREATED)).s);
    ConfigurationFrame(s1);
    var s2 := Configuration(s1).s;
    FrameTransitive(s, s1, s2);
    CompletionFrame(s2);
    FrameTransitive(s, s2, Completion(s2).s);
  }

  lemma VisitDraws(c: Scene, v: Visit)
    ensures Drawn(c.p, Visited(c, v).p, c.w.script) && PartOf(Visited(c, v).w.script, c.w.script)
  {
    match v {
      case Work =>
        CallPart(c.w);
        var (w, r) := ApiGet(c.w);
        hide Call, Body, Drawn;
        NothingDrawn(c.p, c.p, c.w.script);
        if r.Answer? {
          var s := Site(w, r.obj, c.p);
          BodyFrame(s);
          NothingDrawn(c.p, s.p, c.w.script);
          DrawnTransitive(c.p, s.p, Body(s).s.p, c.w.script, w.script);
        }
      case Others(steps) =>
        ActSpends(c.w, steps);
      case Weather(_, _) =>
    }
    hide Act;
  }

  /** Over every run of the installation, with any failures, kills, stale reads and interference. */
  lemma {:induction false} SecretsAreDrawn(c: Scene, visits: seq<Visit>)
    ensures Drawn(c.p, Visits(c, visits).p, c.w.script)
    decreases |visits|
  {
    hide Visited, Drawn;
    if visits == [] {
      NothingDrawn(c.p, c.p, c.w.script);
    } else {
      VisitDraws(c, visits[0]);
      var d := Visited(c, visits[0]);
      SecretsAreDrawn(d, visits[1..]);
      DrawnTransitive(c.p, d.p, Visits(d, visits[1..]).p, c.w.script, d.w.script);
    }
  }
}
