/**
 The installation waits for the deployment: while it is not found ready nothing is configured, and as long as it has
 not been found ready twice in one reconcile the phase does not get past configuring.
 */
module Waiting {
  import opened Common
  import opened Cluster
  import opened Helper
  import opened Invariants
  import opened StatusRetry
  import opened Bootstrap
  import opened Installation
  import opened PhaseSafety
  import opened Convergence
  import opened RetryRuns

  /** The calls at which the deployment would be found ready. */
  function Ups(script: seq<Turn>): nat {
    if script == [] then 0 else (if script[0].down then 0 else 1) + Ups(script[1..])
  }

  /** How often a reconcile of this scene can find the deployment ready. */
  function Chances(s: Site): nat {
    if s.p.ready then Ups(s.w.script) else 0
  }

  /** The write sets the phase, to one of these, and nothing else. */
  predicate SetsPhase(before: Obj, after: Obj, phases: set<string>) {
    && OnlyStatusDiffers(before, after)
    && after.status == before.status.(phase := after.status.phase) && after.status.phase in phases
  }

  /** All writes since the n-th are of that kind. */
  predicate OnlyPhases(commits: Commits, n: nat, phases: set<string>) {
    n <= |commits| && forall i | n <= i < |commits| :: SetsPhase(commits[i].0, commits[i].1, phases)
  }

  const WAITING := {INSTALLING, CREATED}

  // ---------- The script is used up from the front ----------

  lemma CallUps(w: World)
    ensures Ups(Call(w).0.script) <= Ups(w.script)
  {
    CallSpends(w);
    hide Call;
  }

  lemma {:induction false} SpendUps(w: World, k: nat)
    ensures Ups(Spend(w, k).script) <= Ups(w.script)
    ensures k > 0 && w.script != [] && !w.script[0].down ==> Ups(Spend(w, k).script) < Ups(w.script)
    decreases k
  {
    hide Call;
    if k > 0 {
      CallUps(w);
      CallSpends(w);
      SpendUps(Call(w).0, k - 1);
    }
  }

  lemma {:induction false} AttemptsUps(s: St, m: Mutation, n: nat)
    ensures Ups(Attempts(s, m, n).st.w.script) <= Ups(s.w.script)
    decreases n
  {
    hide Attempt, Ups;
    if n > 0 {
      AttemptUps(s, m);
      if Attempt(s, m).Again? {
        AttemptsUps(Attempt(s, m).refreshed, m, n - 1);
      }
    }
  }

  lemma AttemptUps(s: St, m: Mutation)
    ensures match Attempt(s, m)
            case Settled(t) => Ups(t.st.w.script) <= Ups(s.w.script)
            case Again(v) => Ups(v.w.script) <= Ups(s.w.script)
  {
    CallUps(s.w);
    var w := ApiStatusUpdate(s.w, s.me.(status := Mutated(m, s.me.status))).0;
    CallUps(w);
    hide Call, Mutated, Ups, Tidy;
  }

  // ---------- Single steps ----------

  /** Worlds in which only such phases were written, with copies that are genuine. */
  ghost predicate Held(s: Site, earlier: Commits, phases: set<string>) {
    Faithfully(s, earlier) && OnlyPhases(s.w.book.commits, |earlier|, phases)
  }

  /** The step wrote no more than that, and leaves no more chances. */
  ghost predicate Holds(s: Site, t: Pass, earlier: Commits, phases: set<string>) {
    && Clean(t.s.w, earlier) && OnlyPhases(t.s.w.book.commits, |earlier|, phases)
    && Chances(t.s) <= Chances(s)
    && (t.More? ==> Genuine(t.s.w, t.s.me))
  }

  lemma OneMore(was: Commits, now: Commits, n: nat, phases: set<string>)
    requires OnlyPhases(was, n, phases) && was < now && now[..|was| + 1] == now && SetsPhase(now[|was|].0, now[|was|].1, phases)
    ensures OnlyPhases(now, n, phases)
  {
    hide SetsPhase;
    assert now == was + [now[|was|]];
  }

  lemma WriteHolds(s: Site, to: string, earlier: Commits, phases: set<string>)
    requires Held(s, earlier, phases) && to in phases
    ensures Holds(s, WriteStatus(s, SetPhase(to)), earlier, phases) && WriteStatus(s, SetPhase(to)).s.p == s.p
  {
    WriteAppends(s, SetPhase(to), earlier);
    AttemptsUps(St(s.w, s.me), SetPhase(to), RETRY_STEPS);
    hide Attempts, Ups, WellFormed, MutationsFrom, Genuine, OnlyStatusDiffers;
    var was, now := s.w.book.commits, WriteStatus(s, SetPhase(to)).s.w.book.commits;
    if WriteStatus(s, SetPhase(to)).More? {
      assert SetsPhase(now[|was|].0, now[|was|].1, phases);
      OneMore(was, now, |earlier|, phases);
    }
    hide OnlyPhases;
  }

  lemma AdvanceHolds(s: Site, from: seq<string>, to: string, earlier: Commits, phases: set<string>)
    requires Held(s, earlier, phases) && to in phases
    ensures Holds(s, Advance(s, from, to), earlier, phases) && Advance(s, from, to).s.p == s.p
  {
    hide WriteStatus, OnlyPhases, Clean, Genuine, Ups;
    WriteHolds(s, to, earlier, phases);
  }

  /** A step on the platform; finding the deployment ready takes one of the chances. */
  lemma BackHolds(s: Site, d: Desk, earlier: Commits, phases: set<string>)
    requires Held(s, earlier, phases) && d.p.ready == s.p.ready
    ensures Holds(s, More(Back(s, d)), earlier, phases) && Held(Back(s, d), earlier, phases)
    ensures Up(s) && |d.turns| < |s.w.script| ==> Chances(Back(s, d)) < Chances(s)
  {
    var k := if |s.w.script| <= |d.turns| then 0 else |s.w.script| - |d.turns|;
    SpendUps(s.w, k);
    SpendIsIdle(s.w, k);
    BackKeeps(s, d, earlier);
    hide Spend, Ups, OnlyPhases, Clean, Genuine;
  }

  lemma CheckHolds(s: Site, earlier: Commits, phases: set<string>)
    requires Held(s, earlier, phases)
    ensures var t := CheckReady(s);
            Holds(s, t, earlier, phases) && t.s.p == s.p
            && (t.More? ==> Chances(t.s) < Chances(s) && Held(t.s, earlier, phases))
  {
    BackHolds(s, Asking(AtDesk(s)).d, earlier, phases);
    hide Spend, Ups, OnlyPhases, Clean, Genuine;
  }

  lemma ConfigureHolds(s: Site, earlier: Commits, phases: set<string>)
    requires Held(s, earlier, phases)
    ensures Holds(s, ConfigureStep(s), earlier, phases) && Held(ConfigureStep(s).s, earlier, phases)
  {
    ConfigureFacts(AtDesk(s));
    BackHolds(s, Configure(AtDesk(s)).d, earlier, phases);
    hide Back, Configure, OnlyPhases, Clean, Genuine, Chances, Bootstrapped;
  }

  // ---------- A whole reconcile ----------

  lemma ChancesFade(s: Site, t: Pass, u: Pass, earlier: Commits, phases: set<string>)
    requires Holds(s, t, earlier, phases) && Holds(t.s, u, earlier, phases)
    ensures Holds(s, u, earlier, phases)
  {
    hide Clean, OnlyPhases, Chances, Genuine;
  }

  /** The first two writes, which do not wait. */
  lemma StartHolds(s: Site, earlier: Commits, phases: set<string>)
    requires Held(s, earlier, phases) && WAITING <= phases
    ensures var t := Advance(s, ["", FAILED], INSTALLING);
            Holds(s, t, earlier, phases) && t.s.p == s.p
            && (t.More? ==> Holds(s, Install(t.s), earlier, phases) && Install(t.s).s.p == s.p)
  {
    hide Advance, WriteStatus, Clean, OnlyPhases, Chances, Genuine;
    AdvanceHolds(s, ["", FAILED], INSTALLING, earlier, phases);
    var t := Advance(s, ["", FAILED], INSTALLING);
    if t.More? {
      WriteHolds(t.s, CREATED, earlier, phases);
      ChancesFade(s, t, WriteStatus(t.s, SetPhase(CREATED)), earlier, phases);
    }
  }

  /** With less than two chances the first half is not passed. */
  lemma ConfigurationWaits(s: Site, earlier: Commits, phases: set<string>)
    requires Held(s, earlier, phases) && Chances(s) <= 1 && (Chances(s) == 1 ==> CONFIGURING in phases)
    ensures var t := Configuration(s);
            t.Done? && Holds(s, t, earlier, phases)
            && OtherAccountsKept(s.p, t.s.p) && (Chances(s) == 0 ==> t.s.p == s.p)
  {
    hide CheckReady, Advance, ConfigureStep, Clean, OnlyPhases, Chances, Genuine;
    CheckHolds(s, earlier, phases);
    if CheckReady(s).More? {
      var s1 := CheckReady(s).s;
      AdvanceHolds(s1, [CREATED, ""], CONFIGURING, earlier, phases);
      var t := Advance(s1, [CREATED, ""], CONFIGURING);
      if t.More? {
        ConfigureHolds(t.s, earlier, phases);
        ConfigureKeepsAccounts(t.s);
        CheckHolds(ConfigureStep(t.s).s, earlier, phases);
      }
    }
  }

  lemma ConfigureKeepsAccounts(s: Site)
    ensures OtherAccountsKept(s.p, ConfigureStep(s).s.p)
  {
    ConfigureFacts(AtDesk(s));
    hide Configure, Spend;
  }

  lemma BodyWaits(s: Site, earlier: Commits, phases: set<string>)
    requires Held(s, earlier, phases) && WAITING <= phases && Chances(s) <= 1 && (Chances(s) == 1 ==> CONFIGURING in phases)
    ensures var t := Body(s);
            Holds(s, t, earlier, phases) && OtherAccountsKept(s.p, t.s.p) && (Chances(s) == 0 ==> t.s.p == s.p)
  {
    hide Advance, Install, Configuration, Clean, OnlyPhases, Chances, Genuine;
    StartHolds(s, earlier, phases);
    var t := Advance(s, ["", FAILED], INSTALLING);
    if t.More? && Install(t.s).More? {
      assert Install(t.s).s == t.s by { InstallPasses(t.s); }
      ConfigurationWaits(t.s, earlier, phases);
      ChancesFade(s, t, Configuration(t.s), earlier, phases);
    }
  }

  lemma InstallPasses(s: Site)
    ensures Install(s).More? ==> Install(s).s == s
  {
    hide WriteStatus;
  }

  /** How often a reconcile of this scene can find the deployment ready, whatever else happens. */
  function Openings(c: Scene): nat {
    if c.p.ready then Ups(c.w.script) else 0
  }

  /**
   Whatever the script and the read: a reconcile that cannot find the deployment ready leaves the platform alone and
   writes nothing but the phases up to created. One that can find it ready only once writes nothing past configuring
   and creates no account.
   */
  lemma ReconcileWaits(c: Scene)
    requires WellFormed(c.w)
    ensures var d := Reconcile(c);
            var n := |c.w.book.commits|;
            && c.w.book.commits <= d.w.book.commits
            && (Openings(c) == 0 ==> d.p == c.p && OnlyPhases(d.w.book.commits, n, WAITING))
            && (Openings(c) <= 1 ==>
                  OtherAccountsKept(c.p, d.p) && OnlyPhases(d.w.book.commits, n, WAITING + {CONFIGURING}))
  {
    var earlier := c.w.book.commits;
    ReconcileKeeps(c, earlier);
    ReadFacts(c.w);
    CallUps(c.w);
    var (w, r) := ApiGet(c.w);
    hide Body, WellFormed, Genuine, Ups;
    if r.Answer? {
      var s := Site(w, r.obj, c.p);
      if Openings(c) == 0 {
        BodyWaits(s, earlier, WAITING);
      }
      if Openings(c) <= 1 {
        BodyWaits(s, earlier, WAITING + {CONFIGURING});
      }
    }
    hide Call, SetsPhase;
  }

  /** Likewise, ready or not, when the copy that was read is not installed yet. */
  lemma EarlyCopyWaits(c: Scene)
    requires WellFormed(c.w) && ApiGet(c.w).1.Answer? && Early(ApiGet(c.w).1.obj.status.phase)
    ensures var d := Reconcile(c);
            d.p == c.p && c.w.book.commits <= d.w.book.commits && OnlyPhases(d.w.book.commits, |c.w.book.commits|, WAITING)
  {
    var earlier := c.w.book.commits;
    ReconcileKeeps(c, earlier);
    ReadFacts(c.w);
    var (w, r) := ApiGet(c.w);
    var s := Site(w, r.obj, c.p);
    hide ApiGet, WellFormed, Genuine, Configuration, Completion, WriteStatus, SetsPhase, Chances;
    StartHolds(s, earlier, WAITING);
    WrittenPhase(s, INSTALLING);
  }

  lemma WrittenPhase(s: Site, to: string)
    requires WellFormed(s.w) && Genuine(s.w, s.me)
    ensures var t := WriteStatus(s, SetPhase(to)); t.More? ==> t.s.me.status.phase == to
  {
    RetryLosesNothing(St(s.w, s.me), SetPhase(to), RETRY_STEPS);
    hide Attempts, WellFormed, Genuine, OnlyStatusDiffers;
  }

  /** When calls work such a reconcile ends with the instance created, ready deployment or not. */
  lemma QuietEarlyReconcile(c: Scene, n: nat)
    requires c.w.stored.Some? && InStep(Site(c.w, c.w.stored.value, c.p)) && Early(Phase(c)) && Undisturbed(c.w.script, n) && n >= 3
    ensures var d := Reconcile(c); d.w.stored.Some? && Phase(d) == CREATED && d.p == c.p
  {
    QuietCall(c.w, n);
    var s := Site(Call(c.w).0, c.w.stored.value, c.p);
    assert ApiGet(c.w) == (Call(c.w).0, Answer(c.w.stored.value));
    hide Call, WriteStatus, Configuration, Completion, NoBadCodes;
    QuietAdvance(s, ["", FAILED], INSTALLING, n - 1);
    var s1 := Advance(s, ["", FAILED], INSTALLING).s;
    QuietWrite(s1, SetPhase(CREATED), n - 2);
    hide Undisturbed;
  }

  // ---------- Whole runs ----------

  /** Some reconcile of the run can find the deployment ready. */
  predicate FoundUp(c: Scene, visits: seq<Visit>)
    decreases |visits|
  {
    visits != [] && ((visits[0].Work? && Openings(c) > 0) || FoundUp(Visited(c, visits[0]), visits[1..]))
  }

  /** The stored object still shows this phase and availability, but for the first two phases. */
  predicate Shows(w: World, ph: string, av: bool) {
    w.stored.Some? ==> w.stored.value.status.available == av && (w.stored.value.status.phase in WAITING + {ph})
  }

  ghost predicate Waits(w: World, ph: string, av: bool) {
    WellFormed(w) && Shows(w, ph, av)
  }

  ghost function WaitsFor(ph: string, av: bool): World -> bool {
    w => Waits(w, ph, av)
  }

  ghost function Patient(ph: string, av: bool): World -> bool {
    Promised(WaitsFor(ph, av), SoleWriter)
  }

  lemma TakeWaits(w: World, s: Step, ph: string, av: bool)
    requires Waits(w, ph, av) && SoleWriter(s)
    ensures Waits(Take(w, s), ph, av)
  {
    TakeKeeps(w, s);
    hide WellFormed, Without;
  }

  lemma WaitsIsClosed(ph: string, av: bool)
    ensures Closed(WaitsFor(ph, av), SoleWriter)
  {
    hide Take, Put, Gone, Waits, SoleWriter, PlainWrite;
    var core := WaitsFor(ph, av);
    forall w, s | core(w) && SoleWriter(s) ensures core(Take(w, s)) { TakeWaits(w, s, ph, av); }
    forall w, a, b | core(w) && w.stored == Some(a) && PlainWrite(a, b) ensures core(Put(w, a, b)) { PutWaits(w, a, b, ph, av); }
    forall w, a | core(w) && w.stored == Some(a) ensures core(Gone(w, a)) { GoneWaits(w, a, ph, av); }
    forall w, v | core(w) && SameStore(w, v) ensures core(v) { StoreWaits(w, v, ph, av); }
    assert forall w, b: Backend {:trigger WithBackend(w, b)} :: SameStore(w, WithBackend(w, b));
    assert forall w, e {:trigger Logged(w, e)} :: SameStore(w, Logged(w, e));
    assert forall w {:trigger Misread(w)} :: SameStore(w, Misread(w));
    assert forall w, sc {:trigger WithScript(w, sc)} :: SameStore(w, WithScript(w, sc));
    forall w | core(w) ensures WellFormed(w) { StoreWaits(w, w, ph, av); }
  }

  predicate SameStore(w: World, v: World) {
    v.stored == w.stored && v.peer == w.peer && v.history == w.history && v.clock == w.clock
  }

  lemma StoreWaits(w: World, v: World, ph: string, av: bool)
    requires Waits(w, ph, av) && SameStore(w, v)
    ensures Waits(v, ph, av) && WellFormed(w)
  {
  }

  lemma PutWaits(w: World, a: Obj, b: Obj, ph: string, av: bool)
    requires Waits(w, ph, av) && w.stored == Some(a) && PlainWrite(a, b)
    ensures Waits(Put(w, a, b), ph, av)
  {
    PutWellFormed(w, a, b);
    hide WellFormed;
  }

  lemma GoneWaits(w: World, a: Obj, ph: string, av: bool)
    requires Waits(w, ph, av) && w.stored == Some(a)
    ensures Waits(Gone(w, a), ph, av)
  {
    hide Tidy;
  }

  lemma CallWaits(w: World, ph: string, av: bool)
    requires Patient(ph, av)(w)
    ensures Patient(ph, av)(Call(w).0) && w.history <= Call(w).0.history
  {
    WaitsIsClosed(ph, av);
    CallPromised(WaitsFor(ph, av), SoleWriter, w);
    CallKeeps(w);
    hide Call, WellFormed, Closed;
  }

  lemma CommitWaits(x: World, m: Mutation, ph: string, av: bool)
    requires Waits(x, ph, av) && x.stored.Some? && m.SetPhase? && m.phase in WAITING
    ensures var cur := x.stored.value;
            var v := Put(x, cur, cur.(status := Mutated(m, cur.status)));
            forall b :: Waits(v.(book := b), ph, av)
  {
    var cur := x.stored.value;
    StoreFacts(x, m);
    BookIsNoFact(Put(x, cur, cur.(status := Mutated(m, cur.status))));
    hide Put, WellFormed;
  }

  /** Any attempt to write one of the two phases. */
  lemma StatusUpdateWaits(w: World, me: Obj, m: Mutation, ph: string, av: bool)
    requires Patient(ph, av)(w) && Genuine(w, me) && m.SetPhase? && m.phase in WAITING
    ensures var (v, r) := ApiStatusUpdate(w, me.(status := Mutated(m, me.status)));
            Patient(ph, av)(v) && (r.Answer? ==> Genuine(v, r.obj))
  {
    CallWaits(w, ph, av);
    WriteFacts(w, me, m);
    var x := Call(w).0;
    if Call(w).1.works && x.stored.Some? && x.stored.value.version == me.version {
      hide Call;
      assert x.stored.value.status == me.status;
      CommitWaits(x, m, ph, av);
      StoreFacts(x, m);
    }
    hide Call, Put, WellFormed, Mutated, OnlyStatusDiffers;
  }

  lemma ReadWaits(w: World, ph: string, av: bool)
    requires Patient(ph, av)(w)
    ensures var (v, r) := ApiGet(w); Patient(ph, av)(v) && (r.Answer? ==> Genuine(v, r.obj))
  {
    CallWaits(w, ph, av);
    ReadFacts(w);
    var x := Call(w).0;
    hide Call;
    assert Patient(ph, av)(Misread(x)) by { StoreWaits(x, Misread(x), ph, av); }
    hide Waits, Genuine, WellFormed;
  }

  lemma {:induction false} AttemptsWait(s: St, m: Mutation, k: nat, ph: string, av: bool)
    requires Patient(ph, av)(s.w) && Genuine(s.w, s.me) && m.SetPhase? && m.phase in WAITING
    ensures var t := Attempts(s, m, k).st; Patient(ph, av)(t.w) && (Attempts(s, m, k).Ok? ==> Genuine(t.w, t.me))
    decreases k
  {
    hide ApiStatusUpdate, ApiGet, Mutated, Patient, Genuine;
    if k > 0 {
      StatusUpdateWaits(s.w, s.me, m, ph, av);
      ReadWaits(ApiStatusUpdate(s.w, s.me.(status := Mutated(m, s.me.status))).0, ph, av);
      if Attempt(s, m).Again? {
        AttemptsWait(Attempt(s, m).refreshed, m, k - 1, ph, av);
      }
    }
  }

  lemma {:induction false} SpendWaits(w: World, k: nat, ph: string, av: bool)
    requires Patient(ph, av)(w)
    ensures Patient(ph, av)(Spend(w, k))
    decreases k
  {
    hide Call, Patient;
    if k > 0 {
      CallWaits(w, ph, av);
      SpendWaits(Call(w).0, k - 1, ph, av);
    }
  }

  lemma WriteWaits(s: Site, to: string, ph: string, av: bool)
    requires Patient(ph, av)(s.w) && Genuine(s.w, s.me) && to in WAITING
    ensures var t := WriteStatus(s, SetPhase(to)); Patient(ph, av)(t.s.w) && (t.More? ==> Genuine(t.s.w, t.s.me))
  {
    hide Attempts, Patient, Genuine;
    AttemptsWait(St(s.w, s.me), SetPhase(to), RETRY_STEPS, ph, av);
  }

  /** Without a chance to find the deployment ready the body ends at the first check. */
  lemma BodyIsPatient(s: Site, ph: string, av: bool)
    requires Patient(ph, av)(s.w) && Genuine(s.w, s.me) && Chances(s) == 0
    ensures Patient(ph, av)(Body(s).s.w)
  {
    hide WriteStatus, Patient, Genuine, Ups, Install, Configuration, Completion;
    WriteWaits(s, INSTALLING, ph, av);
    AdvanceUps(s);
    var t := Advance(s, ["", FAILED], INSTALLING);
    if t.More? {
      InstallIsPatient(t.s, ph, av);
    }
  }

  /** After the first write: the second one, or the check that is not passed. */
  lemma InstallIsPatient(s: Site, ph: string, av: bool)
    requires Patient(ph, av)(s.w) && Genuine(s.w, s.me) && Chances(s) == 0
    ensures Patient(ph, av)(Install(s).s.w)
    ensures Install(s).More? ==> Configuration(Install(s).s).Done? && Patient(ph, av)(Configuration(Install(s).s).s.w)
  {
    WriteWaits(s, CREATED, ph, av);
    CheckStops(s);
    CheckIsPatient(s, ph, av);
    hide WriteStatus, Patient, CheckReady, Advance, ConfigureStep;
  }

  lemma CheckIsPatient(s: Site, ph: string, av: bool)
    requires Patient(ph, av)(s.w)
    ensures Patient(ph, av)(CheckReady(s).s.w)
  {
    var d := Asking(AtDesk(s)).d;
    SpendWaits(s.w, if |s.w.script| <= |d.turns| then 0 else |s.w.script| - |d.turns|, ph, av);
    hide Spend, Patient, Asking;
  }

  lemma AdvanceUps(s: Site)
    ensures var t := Advance(s, ["", FAILED], INSTALLING); t.s.p == s.p && Ups(t.s.w.script) <= Ups(s.w.script)
  {
    AttemptsUps(St(s.w, s.me), SetPhase(INSTALLING), RETRY_STEPS);
    hide Attempts, Ups;
  }

  lemma CheckStops(s: Site)
    requires Chances(s) == 0
    ensures CheckReady(s).Done?
  {
    hide Back;
  }

  lemma ReconcileIsPatient(c: Scene, ph: string, av: bool)
    requires Patient(ph, av)(c.w) && Openings(c) == 0
    ensures Patient(ph, av)(Reconcile(c).w)
  {
    ReadWaits(c.w, ph, av);
    CallUps(c.w);
    var (w, r) := ApiGet(c.w);
    hide Body, Patient, Genuine, Ups, Call;
    if r.Answer? {
      BodyIsPatient(Site(w, r.obj, c.p), ph, av);
    }
  }

  lemma {:induction false} RunIsPatient(c: Scene, visits: seq<Visit>, ph: string, av: bool)
    requires Patient(ph, av)(c.w) && Tolerated(visits) && !FoundUp(c, visits)
    ensures Patient(ph, av)(Visits(c, visits).w)
    decreases |visits|
  {
    hide Reconcile, Patient, Act;
    if visits != [] {
      var v := visits[0];
      assert v in visits && forall u | u in visits[1..] :: u in visits;
      match v {
        case Work => ReconcileIsPatient(c, ph, av);
        case Others(steps) =>
          WaitsIsClosed(ph, av);
          PatientActs(c.w, steps, ph, av);
        case Weather(_, _) =>
      }
      RunIsPatient(Visited(c, v), visits[1..], ph, av);
    }
  }

  lemma PatientActs(w: World, steps: seq<Step>, ph: string, av: bool)
    requires Patient(ph, av)(w) && forall s | s in steps :: SoleWriter(s)
    ensures Patient(ph, av)(Act(w, steps))
  {
    WaitsIsClosed(ph, av);
    hide Act, Closed;
    ActPromised(WaitsFor(ph, av), SoleWriter, w, steps);
  }

  /**
   Over every run in which nobody else writes the status, with any failures, kills and stale reads: a phase past
   created that was not there at the start, or Available that was not set, means that some reconcile of the run could
   find the deployment ready.
   */
  lemma AdvancedMeansFoundUp(c: Scene, visits: seq<Visit>)
    requires WellFormed(c.w) && c.w.stored.Some? && Only(c.w.script, SoleWriter) && Tolerated(visits)
    ensures var d := Visits(c, visits);
            d.w.stored.Some?
            && ((Rank(Phase(d)) > Rank(CREATED) && Phase(d) != Phase(c))
                || (d.w.stored.value.status.available && !c.w.stored.value.status.available)) ==>
              FoundUp(c, visits)
  {
    var ph, av := Phase(c), c.w.stored.value.status.available;
    if !FoundUp(c, visits) {
      RunIsPatient(c, visits, ph, av);
    }
    hide Visits, FoundUp, WellFormed;
  }
}
