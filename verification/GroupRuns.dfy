/**
 Groups over whole runs of the installation, with failing calls, kills, stale reads and interference, while there is
 one pod and no bad status codes: once this operator moves the phase past configuring, the two groups that Configure
 looks up exist, and the other two exist if and only if no reconcile found one of them missing beside those.
 */
module GroupRuns {
  import opened Cluster
  import opened Helper
  import opened StatusRetry
  import opened Bootstrap
  import opened Exposure
  import opened Installation
  import opened PhaseSafety
  import opened RetryRuns

  /** This status write moves the phase, to one that follows configuring. */
  predicate MovesPast(before: Obj, after: Obj) {
    after.status.phase != before.status.phase && Rank(after.status.phase) > Rank(CONFIGURING)
  }

  predicate NoneMoves(commits: Commits, n: nat) {
    forall i | n <= i < |commits| :: !MovesPast(commits[i].0, commits[i].1)
  }

  /** No write since the n-th moved the phase past configuring, or these groups exist. */
  predicate Earned(s: Site, n: nat, want: set<string>) {
    NoneMoves(s.w.book.commits, n) || want <= s.p.groups
  }

  // ---------- What every step does to the platform and the script ----------

  ghost predicate Frame(s: Site, t: Site) {
    && s.p.groups <= t.p.groups && t.p.pods == s.p.pods
    && (NoBadCodes(s.w.script) ==> NoBadCodes(t.w.script))
    && (NoBadCodes(s.w.script) && LookedUp(s.p.groups) ==> t.p.groups == s.p.groups)
  }

  lemma FrameTransitive(s: Site, t: Site, u: Site)
    requires Frame(s, t) && Frame(t, u)
    ensures Frame(s, u)
  {
    hide NoBadCodes;
  }

  lemma CallFrame(w: World)
    ensures NoBadCodes(w.script) ==> NoBadCodes(Call(w).0.script)
  {
    CallSpends(w);
    hide Call;
  }

  lemma {:induction false} SpendFrame(w: World, k: nat)
    ensures NoBadCodes(w.script) ==> NoBadCodes(Spend(w, k).script)
    decreases k
  {
    hide Call, NoBadCodes;
    if k > 0 {
      CallFrame(w);
      SpendFrame(Call(w).0, k - 1);
    }
  }

  lemma {:induction false} AttemptsFrame(s: St, m: Mutation, n: nat)
    ensures NoBadCodes(s.w.script) ==> NoBadCodes(Attempts(s, m, n).st.w.script)
    decreases n
  {
    hide NoBadCodes, Mutated;
    if n > 0 {
      CallFrame(s.w);
      CallFrame(ApiStatusUpdate(s.w, s.me.(status := Mutated(m, s.me.status))).0);
      if Attempt(s, m).Again? {
        AttemptsFrame(Attempt(s, m).refreshed, m, n - 1);
      }
    }
    hide Call;
  }

  lemma WriteFrame(s: Site, m: Mutation)
    ensures Frame(s, WriteStatus(s, m).s) && WriteStatus(s, m).s.p == s.p
  {
    AttemptsFrame(St(s.w, s.me), m, RETRY_STEPS);
    hide Attempts, NoBadCodes;
  }

  /** A step that works on the platform. */
  lemma BackFrame(s: Site, d: Desk)
    requires s.p.groups <= d.p.groups && d.p.pods == s.p.pods
    requires NoBadCodes(s.w.script) && LookedUp(s.p.groups) ==> d.p.groups == s.p.groups
    ensures Frame(s, Back(s, d))
  {
    SpendFrame(s.w, if |s.w.script| <= |d.turns| then 0 else |s.w.script| - |d.turns|);
    hide Spend, NoBadCodes;
  }

  lemma ReadyFrame(s: Site)
    ensures Frame(s, CheckReady(s).s) && CheckReady(s).s.p == s.p
  {
    BackFrame(s, Asking(AtDesk(s)).d);
    hide Spend, Frame;
  }

  lemma ConfigureFrame(s: Site)
    ensures Frame(s, ConfigureStep(s).s)
    ensures s.p.pods == 1 && NoBadCodes(s.w.script) && ConfigureStep(s).More? ==>
      var q := ConfigureStep(s).s.p; LookedUp(q.groups) && (Repairable(s.p) ==> AllGroups(q))
  {
    hide Configure, Back, Repairable, AllGroups, Bootstrapped;
    ConfigureFacts(AtDesk(s));
    BackFrame(s, Configure(AtDesk(s)).d);
    assert Back(s, Configure(AtDesk(s)).d).p == Configure(AtDesk(s)).d.p by { BackPlatform(s, Configure(AtDesk(s)).d); }
    hide NoBadCodes, LookedUp;
  }

  lemma BackPlatform(s: Site, d: Desk)
    ensures Back(s, d).p == d.p
  {
  }

  lemma UpdateFrame(s: Site, me: Obj)
    ensures Frame(s, UpdateObject(s, me).s) && UpdateObject(s, me).s.p == s.p
  {
    CallFrame(s.w);
    hide Call, NoBadCodes;
  }

  lemma ExposeFrame(s: Site)
    ensures Frame(s, ExposeStep(s).s)
  {
    hide Back, ExposeAccounts, UpdateObject, KeycloakStep, WithCredentials, Frame;
    var d := ExposeAccounts(AtDesk(s)).d;
    ExposeAccountsFacts(AtDesk(s));
    BackFrame(s, d);
    var s1 := Back(s, d);
    UpdateFrame(s1, WithCredentials(s1.me, s1.p.name));
    var s2 := UpdateObject(s1, WithCredentials(s1.me, s1.p.name)).s;
    KeycloakFrame(s2);
    FrameTransitive(s, s1, s2);
    FrameTransitive(s, s2, KeycloakStep(s2).s);
    hide NoBadCodes, CiSound;
  }

  lemma KeycloakFrame(s: Site)
    ensures Frame(s, KeycloakStep(s).s)
  {
    hide Back, ExposeKeycloak, UpdateObject, WithAnnotation;
    assert Frame(s, s);
    hide Frame;
    KeycloakGroups(AtDesk(s));
    var d := ExposeKeycloak(AtDesk(s)).d;
    BackFrame(s, d);
    var s1 := Back(s, d);
    var me := WithAnnotation(s1.me, "is-credentials", s1.p.name + KEYCLOAK_SECRET);
    UpdateFrame(s1, me);
    FrameTransitive(s, s1, UpdateObject(s1, me).s);
    hide NoBadCodes;
  }

  lemma KeycloakGroups(d: Desk)
    ensures var e := ExposeKeycloak(d).d; e.p.groups == d.p.groups && e.p.pods == d.p.pods
  {
    CreateSecretFacts(d, KEYCLOAK_SECRET, FreshText(d));
    hide CreateSecret, Kept;
  }

  lemma AdvanceFrame(s: Site, from: seq<string>, to: string)
    ensures Frame(s, Advance(s, from, to).s) && Advance(s, from, to).s.p == s.p
  {
    WriteFrame(s, SetPhase(to));
    hide WriteStatus, NoBadCodes;
  }

  lemma ConfigurationFrame(s: Site)
    ensures Frame(s, Configuration(s).s)
  {
    hide CheckReady, Advance, ConfigureStep, Frame;
    ReadyFrame(s);
    var s1 := CheckReady(s).s;
    AdvanceFrame(s1, [CREATED, ""], CONFIGURING);
    var s2 := Advance(s1, [CREATED, ""], CONFIGURING).s;
    ConfigureFrame(s2);
    var s3 := ConfigureStep(s2).s;
    ReadyFrame(s3);
    FrameTransitive(s, s1, s2);
    FrameTransitive(s, s2, s3);
    FrameTransitive(s, s3, CheckReady(s3).s);
    hide NoBadCodes, LookedUp, Repairable, AllGroups;
  }

  lemma CompletionFrame(s: Site)
    ensures Frame(s, Completion(s).s)
  {
    hide Advance, ExposeStep, WriteStatus, Frame;
    AdvanceFrame(s, [CONFIGURING], CONFIGURED);
    var s1 := Advance(s, [CONFIGURING], CONFIGURED).s;
    AdvanceFrame(s1, [CONFIGURED], EXPOSING);
    var s2 := Advance(s1, [CONFIGURED], EXPOSING).s;
    ExposeFrame(s2);
    var s3 := ExposeStep(s2).s;
    AdvanceFrame(s3, [EXPOSING], EXPOSED);
    var s4 := Advance(s3, [EXPOSING], EXPOSED).s;
    AdvanceFrame(s4, [EXPOSED, INTEGRATION], READY);
    var s5 := Advance(s4, [EXPOSED, INTEGRATION], READY).s;
    WriteFrame(s5, SetAvailable(true));
    FrameTransitive(s, s1, s2);
    FrameTransitive(s, s2, s3);
    FrameTransitive(s, s3, s4);
    FrameTransitive(s, s4, s5);
    FrameTransitive(s, s5, WriteStatus(s5, SetAvailable(true)).s);
    hide NoBadCodes, LookedUp;
  }

  lemma StartFrame(s: Site)
    ensures var t := Advance(s, ["", FAILED], INSTALLING);
            Frame(s, t.s) && t.s.p == s.p && Frame(s, Install(t.s).s) && Install(t.s).s.p == s.p
  {
    hide Advance, WriteStatus, Frame;
    AdvanceFrame(s, ["", FAILED], INSTALLING);
    var t := Advance(s, ["", FAILED], INSTALLING).s;
    WriteFrame(t, SetPhase(CREATED));
    FrameTransitive(s, t, WriteStatus(t, SetPhase(CREATED)).s);
    hide NoBadCodes, LookedUp;
  }

  lemma BodyFrame(s: Site)
    ensures Frame(s, Body(s).s)
  {
    hide Advance, Install, Configuration, Completion, Frame;
    StartFrame(s);
    var s1 := Install(Advance(s, ["", FAILED], INSTALLING).s).s;
    ConfigurationFrame(s1);
    var s2 := Configuration(s1).s;
    CompletionFrame(s2);
    FrameTransitive(s, s1, s2);
    FrameTransitive(s, s2, Completion(s2).s);
    hide NoBadCodes, LookedUp;
  }

  // ---------- Moving past configuring is earned ----------

  /** Groups that a Configure that goes through is sure to leave, given the platform it starts from. */
  predicate Wanted(p: Platform, want: set<string>) {
    want <= {CI_TOOLS, BOOTSTRAPPERS} || (Repairable(p) && forall g | g in want :: g in FOUR_GROUPS)
  }

  ghost predicate Steady(s: Site, earlier: Commits, want: set<string>) {
    Faithfully(s, earlier) && NoBadCodes(s.w.script) && s.p.pods == 1 && Earned(s, |earlier|, want)
  }

  predicate UpToConfiguring(m: Mutation) {
    m.SetPhase? ==> Rank(m.phase) <= Rank(CONFIGURING)
  }

  lemma EarlyIsNoMove(before: Obj, after: Obj, m: Mutation)
    requires UpToConfiguring(m) && after.status == Mutated(m, before.status)
    ensures !MovesPast(before, after)
  {
  }

  lemma NoneMovesGrows(was: Commits, now: Commits, n: nat)
    requires NoneMoves(was, n) && was < now && now[..|was| + 1] == now && !MovesPast(now[|was|].0, now[|was|].1)
    ensures NoneMoves(now, n)
  {
    hide MovesPast;
    assert now == was + [now[|was|]];
  }

  /** A write that sets a phase up to configuring, or Available, is no move past it. */
  lemma EarlyWriteEarns(s: Site, m: Mutation, earlier: Commits, want: set<string>)
    requires Faithfully(s, earlier) && Earned(s, |earlier|, want) && UpToConfiguring(m)
    ensures Earned(WriteStatus(s, m).s, |earlier|, want)
  {
    WriteAppends(s, m, earlier);
    WriteFrame(s, m);
    hide WriteStatus, Clean, Genuine, OnlyStatusDiffers, Mutated, Frame, UpToConfiguring, MovesPast, NoneMoves;
    var was, now := s.w.book.commits, WriteStatus(s, m).s.w.book.commits;
    if WriteStatus(s, m).More? && NoneMoves(was, |earlier|) {
      EarlyIsNoMove(now[|was|].0, now[|was|].1, m);
      NoneMovesGrows(was, now, |earlier|);
    }
  }

  lemma EarlyAdvanceEarns(s: Site, from: seq<string>, to: string, earlier: Commits, want: set<string>)
    requires Faithfully(s, earlier) && Earned(s, |earlier|, want) && UpToConfiguring(SetPhase(to))
    ensures Earned(Advance(s, from, to).s, |earlier|, want)
  {
    hide WriteStatus, Faithfully, Earned, UpToConfiguring;
    if s.me.status.phase in from {
      EarlyWriteEarns(s, SetPhase(to), earlier, want);
    }
  }

  /** Steps on the platform commit nothing, and groups only grow. */
  lemma BackEarns(s: Site, d: Desk, n: nat, want: set<string>)
    requires WellFormed(s.w) && Earned(s, n, want) && s.p.groups <= d.p.groups
    ensures Earned(Back(s, d), n, want) && Back(s, d).p == d.p
  {
    SpendIsIdle(s.w, if |s.w.script| <= |d.turns| then 0 else |s.w.script| - |d.turns|);
    hide Spend, WellFormed, NoneMoves;
  }

  lemma ReadyEarns(s: Site, n: nat, want: set<string>)
    requires WellFormed(s.w) && Earned(s, n, want)
    ensures Earned(CheckReady(s).s, n, want)
  {
    BackEarns(s, Asking(AtDesk(s)).d, n, want);
    hide Back, WellFormed, Earned;
  }

  /** When Configure goes through, or seems to, the wanted groups exist. */
  lemma ConfigureEarns(s: Site, n: nat, want: set<string>)
    requires WellFormed(s.w) && Earned(s, n, want) && NoBadCodes(s.w.script) && s.p.pods == 1 && Wanted(s.p, want)
    ensures var t := ConfigureStep(s);
            Earned(t.s, n, want) && (t.More? ==> want <= t.s.p.groups)
  {
    ConfigureFrame(s);
    ConfigureFacts(AtDesk(s));
    BackEarns(s, Configure(AtDesk(s)).d, n, want);
    hide Configure, Back, WellFormed, Earned, NoBadCodes, Kept, Bootstrapped;
  }

  lemma ConfigureThenReadyEarns(s: Site, earlier: Commits, want: set<string>)
    requires Steady(s, earlier, want) && Wanted(s.p, want)
    ensures var u := ConfigureStep(s);
            var t := if u.More? then CheckReady(u.s) else u;
            Earned(t.s, |earlier|, want) && (t.More? ==> want <= t.s.p.groups)
  {
    hide CheckReady, Configure, Back, Frame, NoBadCodes, MutationsFrom, WellFormed, Genuine, Earned, Wanted;
    ConfigureEarns(s, |earlier|, want);
    var u := ConfigureStep(s);
    if u.More? {
      BackKeeps(s, Configure(AtDesk(s)).d, earlier);
      ReadyFrame(u.s);
      ReadyEarns(u.s, |earlier|, want);
    }
  }

  lemma ReadySteady(s: Site, earlier: Commits, want: set<string>)
    requires Steady(s, earlier, want)
    ensures Earned(CheckReady(s).s, |earlier|, want) && (CheckReady(s).More? ==> Steady(CheckReady(s).s, earlier, want))
    ensures CheckReady(s).s.p == s.p
  {
    ReadyEarns(s, |earlier|, want);
    ReadyKeeps(s, earlier);
    ReadyFrame(s);
    hide CheckReady, NoBadCodes, MutationsFrom, WellFormed, Genuine, Earned, LookedUp;
  }

  lemma AdvanceSteady(s: Site, from: seq<string>, to: string, earlier: Commits, want: set<string>)
    requires Steady(s, earlier, want) && UpToConfiguring(SetPhase(to))
    ensures var t := Advance(s, from, to);
            Earned(t.s, |earlier|, want) && (t.More? ==> Steady(t.s, earlier, want)) && t.s.p == s.p
  {
    EarlyAdvanceEarns(s, from, to, earlier, want);
    AdvanceKeeps(s, from, to, earlier);
    AdvanceFrame(s, from, to);
    hide Advance, NoBadCodes, MutationsFrom, WellFormed, Genuine, Earned, LookedUp, UpToConfiguring;
  }

  lemma InstallSteady(s: Site, earlier: Commits, want: set<string>)
    requires Steady(s, earlier, want)
    ensures Earned(Install(s).s, |earlier|, want) && (Install(s).More? ==> Install(s).s == s)
  {
    StepsUpToConfiguring();
    EarlyWriteEarns(s, SetPhase(CREATED), earlier, want);
    hide WriteStatus, NoBadCodes, MutationsFrom, WellFormed, Genuine, Earned, UpToConfiguring;
  }

  lemma StepsUpToConfiguring()
    ensures UpToConfiguring(SetPhase(INSTALLING)) && UpToConfiguring(SetPhase(CREATED)) && UpToConfiguring(SetPhase(CONFIGURING))
  {
  }

  /** The first half moves no phase past configuring, and when it is passed the wanted groups exist. */
  lemma FirstHalfEarns(s: Site, earlier: Commits, want: set<string>)
    requires Steady(s, earlier, want) && Wanted(s.p, want)
    ensures var t := Configuration(s);
            Earned(t.s, |earlier|, want) && (t.More? ==> want <= t.s.p.groups)
  {
    hide CheckReady, Advance, ConfigureStep, Steady, Earned, Wanted, UpToConfiguring;
    StepsUpToConfiguring();
    ReadySteady(s, earlier, want);
    if CheckReady(s).More? {
      var s1 := CheckReady(s).s;
      AdvanceSteady(s1, [CREATED, ""], CONFIGURING, earlier, want);
      var t := Advance(s1, [CREATED, ""], CONFIGURING);
      if t.More? {
        ConfigureThenReadyEarns(t.s, earlier, want);
      }
    }
  }

  lemma BodyEarns(s: Site, earlier: Commits, want: set<string>)
    requires Steady(s, earlier, want) && Wanted(s.p, want)
    ensures Earned(Body(s).s, |earlier|, want)
  {
    hide Advance, Install, Configuration, Completion, Steady, Wanted, UpToConfiguring, NoneMoves, Frame;
    StepsUpToConfiguring();
    AdvanceSteady(s, ["", FAILED], INSTALLING, earlier, want);
    var t := Advance(s, ["", FAILED], INSTALLING);
    if t.More? {
      InstallSteady(t.s, earlier, want);
      if Install(t.s).More? {
        FirstHalfEarns(t.s, earlier, want);
        var u := Configuration(t.s);
        if u.More? {
          CompletionFrame(u.s);
          FrameMeans(u.s, Completion(u.s).s);
        }
      }
    }
  }

  lemma FrameMeans(s: Site, t: Site)
    requires Frame(s, t)
    ensures (NoBadCodes(s.w.script) ==> NoBadCodes(t.w.script)) && t.p.pods == s.p.pods && s.p.groups <= t.p.groups
    ensures NoBadCodes(s.w.script) && LookedUp(s.p.groups) ==> t.p.groups == s.p.groups
  {
    hide NoBadCodes, LookedUp;
  }

  // ---------- Whole runs ----------

  /** Between reconciles. */
  ghost predicate Level(c: Scene, earlier: Commits, want: set<string>) {
    Clean(c.w, earlier) && NoBadCodes(c.w.script) && c.p.pods == 1
    && (NoneMoves(c.w.book.commits, |earlier|) || want <= c.p.groups)
  }

  lemma ReconcileEarns(c: Scene, earlier: Commits, want: set<string>)
    requires Level(c, earlier, want) && Wanted(c.p, want)
    ensures Level(Reconcile(c), earlier, want)
  {
    hide Body, Clean, Genuine, NoBadCodes, Wanted, LookedUp;
    ReconcileKeeps(c, earlier);
    GetClean(c.w, earlier);
    var (w, r) := ApiGet(c.w);
    hide ApiGet;
    if r.Answer? {
      var s := Site(w, r.obj, c.p);
      BodyEarns(s, earlier, want);
      BodyFrame(s);
    }
    hide NoneMoves;
  }

  lemma GetClean(w: World, earlier: Commits)
    requires Clean(w, earlier)
    ensures var (v, r) := ApiGet(w);
            Clean(v, earlier) && v.book.commits == w.book.commits && (r.Answer? ==> Genuine(v, r.obj))
            && (NoBadCodes(w.script) ==> NoBadCodes(v.script))
  {
    ReadFacts(w);
    CallFrame(w);
    hide Call, WellFormed, MutationsFrom, NoBadCodes, Genuine;
  }

  /** What a run must not bring: another number of pods. */
  predicate OnePod(visits: seq<Visit>) {
    forall v | v in visits :: v.Weather? ==> v.pods == 1
  }

  /** In this run every reconcile starts from groups that Configure would complete. */
  predicate AlwaysRepairable(c: Scene, visits: seq<Visit>)
    decreases |visits|
  {
    visits == []
    || ((visits[0].Work? ==> Repairable(c.p)) && AlwaysRepairable(Visited(c, visits[0]), visits[1..]))
  }

  lemma VisitEarns(c: Scene, v: Visit, earlier: Commits, want: set<string>)
    requires Level(c, earlier, want) && (v.Work? ==> Wanted(c.p, want)) && (v.Weather? ==> v.pods == 1)
    ensures Level(Visited(c, v), earlier, want)
  {
    hide Reconcile, WellFormed, MutationsFrom, Wanted, NoBadCodes, NoneMoves;
    match v {
      case Work => ReconcileEarns(c, earlier, want);
      case Others(steps) =>
        ActClean(c.w, steps, earlier);
        ActKeepsBook(c.w, steps);
      case Weather(_, _) =>
    }
  }

  lemma ActKeepsBook(w: World, steps: seq<Step>)
    requires WellFormed(w)
    ensures Act(w, steps).book.commits == w.book.commits && Act(w, steps).script == w.script
  {
    ActKeeps(w, steps);
    hide Act, WellFormed;
  }

  lemma {:induction false} RunEarns(c: Scene, visits: seq<Visit>, earlier: Commits, want: set<string>)
    requires Level(c, earlier, want) && OnePod(visits)
    requires want <= {CI_TOOLS, BOOTSTRAPPERS} || (AlwaysRepairable(c, visits) && forall g | g in want :: g in FOUR_GROUPS)
    ensures Level(Visits(c, visits), earlier, want)
    decreases |visits|
  {
    hide Visited, Level, Repairable;
    if visits != [] {
      assert visits[0] in visits && forall v | v in visits[1..] :: v in visits;
      VisitEarns(c, visits[0], earlier, want);
      RunEarns(Visited(c, visits[0]), visits[1..], earlier, want);
    }
  }

  lemma ReconcileFrame(c: Scene)
    requires NoBadCodes(c.w.script)
    ensures var d := Reconcile(c);
            NoBadCodes(d.w.script) && (LookedUp(c.p.groups) ==> d.p.groups == c.p.groups)
  {
    CallFrame(c.w);
    var (w, r) := ApiGet(c.w);
    hide Call, Body, NoBadCodes;
    if r.Answer? {
      BodyFrame(Site(w, r.obj, c.p));
    }
  }

  lemma VisitFrame(c: Scene, v: Visit)
    requires NoBadCodes(c.w.script)
    ensures var d := Visited(c, v);
            NoBadCodes(d.w.script) && (LookedUp(c.p.groups) ==> d.p.groups == c.p.groups)
  {
    hide Reconcile, Act, NoBadCodes;
    match v {
      case Work => ReconcileFrame(c);
      case Others(steps) => ActSpends(c.w, steps);
      case Weather(_, _) =>
    }
  }

  /** Whatever fails: once the two looked-up groups exist, no run creates another one. */
  lemma {:induction false} GroupsFrozen(c: Scene, visits: seq<Visit>)
    requires NoBadCodes(c.w.script) && LookedUp(c.p.groups)
    ensures Visits(c, visits).p.groups == c.p.groups
    decreases |visits|
  {
    hide Visited, NoBadCodes;
    if visits != [] {
      VisitFrame(c, visits[0]);
      GroupsFrozen(Visited(c, visits[0]), visits[1..]);
    }
  }

  lemma {:induction false} NeverCompleted(c: Scene, visits: seq<Visit>)
    requires NoBadCodes(c.w.script) && !AlwaysRepairable(c, visits)
    ensures !AllGroups(Visits(c, visits).p)
    decreases |visits|
  {
    hide Visited, NoBadCodes, LookedUp;
    VisitFrame(c, visits[0]);
    if visits[0].Work? && !Repairable(c.p) {
      GroupsFrozen(c, visits);
    } else {
      NeverCompleted(Visited(c, visits[0]), visits[1..]);
    }
  }

  /** In this run the operator moved the phase past configuring. */
  predicate MovedPast(c: Scene, d: Scene) {
    !NoneMoves(d.w.book.commits, |c.w.book.commits|)
  }

  /**
   What a phase past configuring stands for, over every run with any failures, kills, stale reads and interference,
   while there is one pod and no answer with a bad code: the two looked-up groups exist, and all four exist if and
   only if every reconcile of the run started from groups that Configure completes.
   */
  lemma PastConfiguring(c: Scene, visits: seq<Visit>)
    requires WellFormed(c.w) && NoBadCodes(c.w.script) && c.p.pods == 1 && OnePod(visits)
    ensures var d := Visits(c, visits);
            MovedPast(c, d) ==> LookedUp(d.p.groups) && (AllGroups(d.p) <==> AlwaysRepairable(c, visits))
  {
    hide Visits, AlwaysRepairable, WellFormed, NoBadCodes, OnePod;
    var earlier := c.w.book.commits;
    RunEarns(c, visits, earlier, {CI_TOOLS, BOOTSTRAPPERS});
    if AlwaysRepairable(c, visits) {
      RunEarns(c, visits, earlier, set g | g in FOUR_GROUPS);
    } else {
      NeverCompleted(c, visits);
    }
    hide MutationsFrom;
  }

  // ---------- How groups come to be missing ----------

  /** Creation that works k times and then fails leaves just the first k groups. */
  lemma {:induction false} InterruptedCreation(d: Desk, list: seq<string>, k: nat)
    requires k < |list| && k < |d.turns| && !d.turns[k].works && Authorised(d.p) && Distinct(list)
    requires forall i | 0 <= i < k :: d.turns[i].works && !BadCode(d.turns[i].code)
    requires forall g | g in list :: g !in d.p.groups
    ensures var r := CreateGroups(d, list); r.Stop? && r.d.p.groups == d.p.groups + set g | g in list[..k]
    decreases k
  {
    assert list[0] in list && list == [list[0]] + list[1..];
    if k > 0 {
      var e := CreateGroup(d, list[0]).d;
      assert e == Desk(e.p, d.turns[1..]) && e.p.groups == d.p.groups + {list[0]};
      assert list[0] !in list[1..];
      InterruptedCreation(e, list[1..], k - 1);
      assert list[..k] == [list[0]] + list[1..][..k - 1];
    }
  }

  /** From no groups, one failing call is enough: when it is the third or fourth creation, no run makes up for it. */
  lemma InterruptedSetup(d: Desk, k: nat, c: Scene, visits: seq<Visit>)
    requires k < 4 && k < |d.turns| && !d.turns[k].works && Authorised(d.p)
    requires forall i | 0 <= i < k :: d.turns[i].works && !BadCode(d.turns[i].code)
    requires forall g | g in FOUR_GROUPS :: g !in d.p.groups
    requires c.p == CreateGroups(d, FOUR_GROUPS).d.p && NoBadCodes(c.w.script)
    ensures Repairable(c.p) <==> k < 2
    ensures k >= 2 ==> !AllGroups(Visits(c, visits).p)
  {
    assert |CI_TOOLS| == 28 && |BOOTSTRAPPERS| == 21 && |DEVELOPERS| == 10 && |READ_ONLY| == 8;
    InterruptedCreation(d, FOUR_GROUPS, k);
    assert forall g | g in FOUR_GROUPS :: g in [CI_TOOLS, BOOTSTRAPPERS, DEVELOPERS, READ_ONLY];
    hide Visits, NoBadCodes, CreateGroups;
    assert READ_ONLY !in c.p.groups && READ_ONLY in FOUR_GROUPS;
    if k >= 2 {
      assert FOUR_GROUPS[..k][0] == CI_TOOLS && FOUR_GROUPS[..k][1] == BOOTSTRAPPERS;
      GroupsFrozen(c, visits);
    } else {
      assert BOOTSTRAPPERS !in c.p.groups;
    }
  }
}
