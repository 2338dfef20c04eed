/**
 Phase safety of the installation: with this controller as the only writer of the status, and as long as no read
 is answered by a state whose phase or availability the server no longer shows, every status write of every run
 moves the phase one step forward, and Available comes with ready.
 */
module PhaseSafety {
  import opened Common
  import opened Cluster
  import opened Helper
  import opened Invariants
  import opened StatusRetry
  import opened Bootstrap
  import opened Exposure
  import opened Installation

  predicate Recognised(phase: string) {
    phase in ["", FAILED, INSTALLING, CREATED, CONFIGURING, CONFIGURED, EXPOSING, EXPOSED, INTEGRATION, READY]
  }

  function Rank(phase: string): nat {
    if phase == INSTALLING then 1
    else if phase == CREATED then 2
    else if phase == CONFIGURING then 3
    else if phase == CONFIGURED then 4
    else if phase == EXPOSING then 5
    else if phase == EXPOSED || phase == INTEGRATION then 6
    else if phase == READY then 7
    else 0
  }

  /** The edges of the phase machine. */
  predicate Forward(from: string, to: string) {
    || (from in ["", FAILED] && to == INSTALLING)
    || (from == INSTALLING && to == CREATED)
    || (from == CREATED && to == CONFIGURING)
    || (from == CONFIGURING && to == CONFIGURED)
    || (from == CONFIGURED && to == EXPOSING)
    || (from == EXPOSING && to == EXPOSED)
    || (from in [EXPOSED, INTEGRATION] && to == READY)
  }

  /** A status write either takes one edge, or makes a ready instance available. */
  predicate LegalWrite(before: Status, after: Status) {
    || (Forward(before.phase, after.phase) && after.available == before.available)
    || (before.phase == READY && after.phase == READY && after.available)
  }

  predicate LegalFrom(commits: seq<(Obj, Obj)>, n: nat) {
    n <= |commits| && forall i | n <= i < |commits| :: LegalWrite(commits[i].0.status, commits[i].1.status)
  }

  /** Nobody else writes the status, and the object is not created anew. */
  predicate SoleWriter(s: Step) {
    !s.ForeignStatus? && !s.SyncWrite? && !s.Create?
  }

  /**
   Unless a read disagreed with the server: the stored phase and availability are these, and the writes since the
   n-th were legal.
   */
  ghost predicate At(w: World, ph: string, av: bool, n: nat) {
    && WellFormed(w)
    && (w.book.misread || Holds(w, ph, av, n))
  }

  predicate Holds(w: World, ph: string, av: bool, n: nat) {
    && LegalFrom(w.book.commits, n)
    && (w.stored.Some? ==> w.stored.value.status.phase == ph && w.stored.value.status.available == av)
  }

  ghost function Core(ph: string, av: bool, n: nat): World -> bool {
    w => At(w, ph, av, n)
  }

  ghost function Inv(ph: string, av: bool, n: nat): World -> bool {
    Promised(Core(ph, av, n), SoleWriter)
  }

  lemma TakeStays(w: World, s: Step, ph: string, av: bool, n: nat)
    requires At(w, ph, av, n) && SoleWriter(s)
    ensures At(Take(w, s), ph, av, n)
  {
    TakeKeeps(w, s);
    hide WellFormed, Without, LegalFrom;
  }

  lemma PutStays(w: World, a: Obj, b: Obj, ph: string, av: bool, n: nat)
    requires At(w, ph, av, n) && w.stored == Some(a) && PlainWrite(a, b)
    ensures At(Put(w, a, b), ph, av, n)
  {
    PutWellFormed(w, a, b);
    hide WellFormed, LegalFrom;
  }

  /** Backend, script, event log and the note of a misread play no role. */
  lemma FrameStays(w: World, v: World, ph: string, av: bool, n: nat)
    requires At(w, ph, av, n)
    requires v.stored == w.stored && v.peer == w.peer && v.history == w.history && v.clock == w.clock
    requires v.book.commits == w.book.commits && (w.book.misread ==> v.book.misread)
    ensures At(v, ph, av, n)
  {
    assert WellFormed(v);
    hide WellFormed, LegalFrom;
  }

  lemma GoneStays(w: World, a: Obj, ph: string, av: bool, n: nat)
    requires At(w, ph, av, n) && w.stored == Some(a)
    ensures At(Gone(w, a), ph, av, n)
  {
    hide LegalFrom, Tidy;
  }

  lemma CoreIsClosed(ph: string, av: bool, n: nat)
    ensures Closed(Core(ph, av, n), SoleWriter)
  {
    hide At, Take, Put, Gone, SoleWriter, PlainWrite;
    var core := Core(ph, av, n);
    forall w, s | core(w) && SoleWriter(s) ensures core(Take(w, s)) { TakeStays(w, s, ph, av, n); }
    forall w, a, b | core(w) && w.stored == Some(a) && PlainWrite(a, b) ensures core(Put(w, a, b)) {
      PutStays(w, a, b, ph, av, n);
    }
    forall w, a | core(w) && w.stored == Some(a) ensures core(Gone(w, a)) { GoneStays(w, a, ph, av, n); }
    forall w, b | core(w) ensures core(WithBackend(w, b)) { FrameStays(w, WithBackend(w, b), ph, av, n); }
    forall w, e | core(w) ensures core(Logged(w, e)) { FrameStays(w, Logged(w, e), ph, av, n); }
    forall w, sc | core(w) ensures core(WithScript(w, sc)) { FrameStays(w, WithScript(w, sc), ph, av, n); }
    forall w | core(w) ensures core(Misread(w)) { FrameStays(w, Misread(w), ph, av, n); }
    forall w | core(w) ensures WellFormed(w) { AtIsWellFormed(w, ph, av, n); }
    hide WellFormed, WithBackend, Logged, WithScript, Misread;
  }

  lemma AtIsWellFormed(w: World, ph: string, av: bool, n: nat)
    requires At(w, ph, av, n)
    ensures WellFormed(w)
  {
  }

  lemma InvMeans(w: World, ph: string, av: bool, n: nat)
    ensures Inv(ph, av, n)(w) <==> At(w, ph, av, n) && Only(w.script, SoleWriter)
  {
    assert Core(ph, av, n)(w) <==> At(w, ph, av, n);
    assert Promised(Core(ph, av, n), SoleWriter)(w) <==> Core(ph, av, n)(w) && Only(w.script, SoleWriter);
  }

  lemma InvIsStable(ph: string, av: bool, n: nat)
    ensures Stable(Inv(ph, av, n))
  {
    CoreIsClosed(ph, av, n);
    ClosedIsStable(Core(ph, av, n), SoleWriter);
  }

  // ---------- The retry loop ----------

  /** The copy shows this phase and availability too, unless a read disagreed with the server. */
  ghost predicate Sync(s: St, ph: string, av: bool, n: nat) {
    Inv(ph, av, n)(s.w) && (s.w.book.misread || (s.me.status.phase == ph && s.me.status.available == av))
  }

  /** After such a read nothing is promised any more. */
  lemma AnyPhase(w: World, ph: string, av: bool, n: nat)
    requires Inv(ph, av, n)(w) && w.book.misread
    ensures forall ph, av :: Inv(ph, av, n)(w)
  {
    forall ph1, av1 ensures Inv(ph1, av1, n)(w) {
      InvMeans(w, ph, av, n);
      InvMeans(w, ph1, av1, n);
    }
    hide Inv;
  }

  function PhaseAfter(m: Mutation, ph: string): string {
    match m
    case SetPhase(p) => p
    case SetAvailable(_) => ph
  }

  function AvailableAfter(m: Mutation, av: bool): bool {
    match m
    case SetPhase(_) => av
    case SetAvailable(v) => v
  }

  /** The mutations that the phase machine allows in this phase. */
  predicate Allowed(m: Mutation, ph: string) {
    match m
    case SetPhase(p) => Forward(ph, p)
    case SetAvailable(v) => v && ph == READY
  }

  /** The stored object with this status, and the write in the book. */
  function Committed(x: World, cur: Obj, status: Status): World {
    var v := Put(x, cur, cur.(status := status));
    if v.stored.None? then v else v.(book := v.book.(commits := v.book.commits + [(cur, v.stored.value)]))
  }

  lemma CommitKeeps(x: World, cur: Obj, status: Status)
    requires WellFormed(x) && x.stored == Some(cur)
    ensures var v := Committed(x, cur, status);
            WellFormed(v) && v.stored.Some? && v.stored.value.status == status && v.script == x.script
            && v.book == x.book.(commits := x.book.commits + [(cur, v.stored.value)])
  {
    PutKeeps(x, cur, cur.(status := status));
    var v := Put(x, cur, cur.(status := status));
    StatusRetry.BookIsNoFact(v);
    hide Put, WellFormed;
  }

  lemma CommitStays(x: World, cur: Obj, status: Status, ph: string, av: bool, n: nat, m: Mutation)
    requires At(x, ph, av, n) && x.stored == Some(cur)
    requires x.book.misread
             || (Allowed(m, ph) && status.phase == PhaseAfter(m, ph) && status.available == AvailableAfter(m, av))
    ensures At(Committed(x, cur, status), PhaseAfter(m, ph), AvailableAfter(m, av), n)
  {
    CommitKeeps(x, cur, status);
    hide Committed, WellFormed;
    if !x.book.misread {
      assert LegalWrite(cur.status, status);
      hide LegalWrite, Allowed;
    }
  }

  lemma CallStays(w: World, ph: string, av: bool, n: nat)
    requires Inv(ph, av, n)(w)
    ensures Inv(ph, av, n)(Call(w).0)
  {
    InvIsStable(ph, av, n);
    hide Inv;
    assert Inv(ph, av, n)(Call(w).0);
  }

  lemma WriteStays(s: St, m: Mutation, ph: string, av: bool, n: nat)
    requires Sync(s, ph, av, n) && (s.w.book.misread || Allowed(m, ph))
    ensures var (v, r) := ApiStatusUpdate(s.w, s.me.(status := Mutated(m, s.me.status)));
            if r.Answer? then Sync(St(v, r.obj), PhaseAfter(m, ph), AvailableAfter(m, av), n) else Inv(ph, av, n)(v)
    ensures ApiStatusUpdate(s.w, s.me.(status := Mutated(m, s.me.status))).0.book.misread == s.w.book.misread
  {
    CallStays(s.w, ph, av, n);
    CallKeepsMisread(s.w, ph, av, n);
    var (x, t) := Call(s.w);
    hide Call;
    var status := Mutated(m, s.me.status);
    InvMeans(x, ph, av, n);
    hide Inv, Allowed, Only;
    if t.works && x.stored.Some? && x.stored.value.version == s.me.version {
      var cur := x.stored.value;
      CommitStays(x, cur, status, ph, av, n, m);
      CommitKeeps(x, cur, status);
      InvMeans(Committed(x, cur, status), PhaseAfter(m, ph), AvailableAfter(m, av), n);
      hide Put, At;
    }
  }

  lemma CallKeepsMisread(w: World, ph: string, av: bool, n: nat)
    requires Inv(ph, av, n)(w)
    ensures Call(w).0.book.misread == w.book.misread
  {
    InvMeans(w, ph, av, n);
    hide Inv, Only;
    CallKeeps(w);
    hide Call;
  }

  lemma ReadStays(w: World, ph: string, av: bool, n: nat)
    requires Inv(ph, av, n)(w)
    ensures var (v, g) := ApiGet(w);
            Inv(ph, av, n)(v) && (g.Answer? ==> Sync(St(v, g.obj), ph, av, n)) && (w.book.misread ==> v.book.misread)
  {
    CallStays(w, ph, av, n);
    CallKeepsMisread(w, ph, av, n);
    InvIsStable(ph, av, n);
    InvMeans(Call(w).0, ph, av, n);
    assert Inv(ph, av, n)(Misread(Call(w).0));
    hide Call, WellFormed, LegalFrom, Inv, Stable;
  }

  lemma AttemptStays(s: St, m: Mutation, ph: string, av: bool, n: nat)
    requires Sync(s, ph, av, n) && (s.w.book.misread || Allowed(m, ph))
    ensures match Attempt(s, m)
            case Settled(Ok(t)) =>
              Sync(t, PhaseAfter(m, ph), AvailableAfter(m, av), n) && (s.w.book.misread ==> t.w.book.misread)
            case Settled(Err(t)) => Inv(ph, av, n)(t.w) && (s.w.book.misread ==> t.w.book.misread)
            case Again(v) => Sync(v, ph, av, n) && (s.w.book.misread ==> v.w.book.misread)
  {
    hide ApiStatusUpdate, ApiGet, Allowed, Mutated, Inv;
    WriteStays(s, m, ph, av, n);
    var (w, r) := ApiStatusUpdate(s.w, s.me.(status := Mutated(m, s.me.status)));
    if !r.Answer? {
      ReadStays(w, ph, av, n);
    }
  }

  lemma {:induction false} RetryStays(s: St, m: Mutation, k: nat, ph: string, av: bool, n: nat)
    requires Sync(s, ph, av, n) && (s.w.book.misread || Allowed(m, ph))
    ensures match Attempts(s, m, k)
            case Ok(t) => Sync(t, PhaseAfter(m, ph), AvailableAfter(m, av), n) && (s.w.book.misread ==> t.w.book.misread)
            case Err(t) => Inv(ph, av, n)(t.w) && (s.w.book.misread ==> t.w.book.misread)
    decreases k
  {
    hide Attempt, Allowed, Inv;
    if k > 0 {
      AttemptStays(s, m, ph, av, n);
      if Attempt(s, m).Again? {
        RetryStays(Attempt(s, m).refreshed, m, k - 1, ph, av, n);
      }
    }
  }

  // ---------- The steps of a reconcile ----------

  ghost predicate InSync(s: Site, ph: string, av: bool, n: nat) {
    Sync(St(s.w, s.me), ph, av, n)
  }

  /**
   Unless a read disagreed with the server: the writes since the n-th were legal, the stored phase is recognised and
   not below `low`, and Available is true only together with ready.
   */
  ghost predicate Sound(w: World, n: nat, low: nat) {
    && WellFormed(w) && Only(w.script, SoleWriter)
    && (w.book.misread || Safe(w, n, low))
  }

  ghost predicate Safe(w: World, n: nat, low: nat) {
    && LegalFrom(w.book.commits, n)
    && (w.stored.Some? ==> Fit(w.stored.value.status.phase, w.stored.value.status.available, low))
  }

  predicate Fit(ph: string, av: bool, low: nat) {
    Recognised(ph) && (av ==> ph == READY) && Rank(ph) >= low
  }

  /** Going on in sync with this phase, or stopping in a sound world. */
  ghost predicate Fine(t: Pass, ph: string, av: bool, n: nat, low: nat) {
    match t
    case More(s) => InSync(s, ph, av, n)
    case Done(s) => Sound(s.w, n, low)
  }

  lemma InvIsSound(w: World, ph: string, av: bool, n: nat, low: nat)
    requires Inv(ph, av, n)(w) && (w.book.misread || Fit(ph, av, low))
    ensures Sound(w, n, low)
  {
    InvMeans(w, ph, av, n);
    hide Inv, WellFormed, LegalFrom, Only, Fit;
  }

  lemma {:induction false} SpendStays(w: World, k: nat, ph: string, av: bool, n: nat)
    requires Inv(ph, av, n)(w)
    ensures Inv(ph, av, n)(Spend(w, k)) && Spend(w, k).book.misread == w.book.misread
    decreases k
  {
    hide Inv, Call;
    if k > 0 {
      CallStays(w, ph, av, n);
      CallKeepsMisread(w, ph, av, n);
      SpendStays(Call(w).0, k - 1, ph, av, n);
    }
  }

  lemma BackStays(s: Site, d: Desk, ph: string, av: bool, n: nat)
    requires InSync(s, ph, av, n)
    ensures InSync(Back(s, d), ph, av, n)
  {
    hide Inv, Spend;
    SpendStays(s.w, if |s.w.script| <= |d.turns| then 0 else |s.w.script| - |d.turns|, ph, av, n);
  }

  lemma InSyncIsSound(s: Site, ph: string, av: bool, n: nat, low: nat)
    requires InSync(s, ph, av, n) && (s.w.book.misread || Fit(ph, av, low))
    ensures Sound(s.w, n, low)
  {
    hide Inv, Fit, Sound;
    InvIsSound(s.w, ph, av, n, low);
  }

  lemma WriteStatusStays(s: Site, m: Mutation, ph: string, av: bool, n: nat, low: nat)
    requires InSync(s, ph, av, n) && Fit(ph, av, low) && (s.w.book.misread || Allowed(m, ph))
    ensures Fine(WriteStatus(s, m), PhaseAfter(m, ph), AvailableAfter(m, av), n, low)
    ensures s.w.book.misread ==> WriteStatus(s, m).s.w.book.misread
  {
    hide Inv, Attempts, Allowed, Sound, Fit;
    RetryStays(St(s.w, s.me), m, RETRY_STEPS, ph, av, n);
    var t := UpdateStatusWithRetry(St(s.w, s.me), m);
    if t.Err? {
      InvIsSound(t.st.w, ph, av, n, low);
    }
  }

  lemma AdvanceStays(s: Site, from: seq<string>, to: string, ph: string, av: bool, n: nat, low: nat)
    requires InSync(s, ph, av, n) && Fit(ph, av, low) && (ph in from ==> Forward(ph, to))
    ensures Fine(Advance(s, from, to), if ph in from then to else ph, av, n, low)
  {
    hide WriteStatus, Sound, Fit, Inv, Forward;
    if s.me.status.phase in from {
      WriteStatusStays(s, SetPhase(to), ph, av, n, low);
      if s.w.book.misread {
        FineAnyway(WriteStatus(s, SetPhase(to)), to, av, if ph in from then to else ph, av, n, low);
      }
    } else if s.w.book.misread {
      FineAnyway(More(s), ph, av, if ph in from then to else ph, av, n, low);
    }
  }

  /** After a read that disagreed, any phase will do. */
  lemma FineAnyway(t: Pass, ph: string, av: bool, ph1: string, av1: bool, n: nat, low: nat)
    requires Fine(t, ph, av, n, low) && t.s.w.book.misread
    ensures Fine(t, ph1, av1, n, low)
  {
    hide Inv, Sound;
    if t.More? {
      AnyPhase(t.s.w, ph, av, n);
    }
  }

  lemma CheckReadyStays(s: Site, ph: string, av: bool, n: nat, low: nat)
    requires InSync(s, ph, av, n) && Fit(ph, av, low)
    ensures Fine(CheckReady(s), ph, av, n, low)
  {
    hide Back, InSync, Fit, Sound;
    var d := Asking(AtDesk(s)).d;
    BackStays(s, d, ph, av, n);
    InSyncIsSound(Back(s, d), ph, av, n, low);
  }

  lemma ConfigureStays(s: Site, ph: string, av: bool, n: nat, low: nat)
    requires InSync(s, ph, av, n) && Fit(ph, av, low)
    ensures Fine(ConfigureStep(s), ph, av, n, low)
  {
    hide Back, InSync, Fit, Sound, Configure;
    var d := Configure(AtDesk(s)).d;
    BackStays(s, d, ph, av, n);
    InSyncIsSound(Back(s, d), ph, av, n, low);
  }

  lemma UpdateStays(s: Site, me: Obj, ph: string, av: bool, n: nat, low: nat)
    requires InSync(s, ph, av, n) && Fit(ph, av, low)
    ensures Fine(UpdateObject(s, me), ph, av, n, low)
  {
    CallStays(s.w, ph, av, n);
    CallKeepsMisread(s.w, ph, av, n);
    var x := Call(s.w).0;
    InvMeans(x, ph, av, n);
    hide Inv, Fit, Sound, Call, At, Only;
    if x.stored.Some? && x.stored.value.version == me.version {
      OverwriteStays(x, me, ph, av, n);
    }
    var (v, r) := ApiUpdate(s.w, me);
    InvMeans(v, ph, av, n);
    InvIsSound(v, ph, av, n, low);
    hide Put, Gone;
  }

  /** An update of the main resource does not touch the status. */
  lemma OverwriteStays(x: World, me: Obj, ph: string, av: bool, n: nat)
    requires At(x, ph, av, n) && x.stored.Some?
    ensures var cur := x.stored.value;
            var after := Overwritten(cur, me);
            if cur.deleting && after.finalizers == [] then
              At(Gone(x, cur), ph, av, n) && Gone(x, cur).script == x.script && Gone(x, cur).book.misread == x.book.misread
              && (x.book.misread || (after.status.phase == ph && after.status.available == av))
            else
              var v := Put(x, cur, after);
              At(v, ph, av, n) && v.script == x.script && v.book.misread == x.book.misread && v.stored.Some?
              && (x.book.misread || (v.stored.value.status.phase == ph && v.stored.value.status.available == av))
  {
    var cur := x.stored.value;
    var after := Overwritten(cur, me);
    if !(cur.deleting && after.finalizers == []) {
      PutStays(x, cur, after, ph, av, n);
    }
    hide LegalFrom, WellFormed;
  }

  lemma KeycloakStays(s: Site, ph: string, av: bool, n: nat, low: nat)
    requires InSync(s, ph, av, n) && Fit(ph, av, low)
    ensures Fine(KeycloakStep(s), ph, av, n, low)
  {
    hide Back, InSync, Fit, Sound, ExposeKeycloak, UpdateObject, WithAnnotation;
    var s1 := Back(s, ExposeKeycloak(AtDesk(s)).d);
    BackStays(s, ExposeKeycloak(AtDesk(s)).d, ph, av, n);
    InSyncIsSound(s1, ph, av, n, low);
    UpdateStays(s1, WithAnnotation(s1.me, "is-credentials", s1.p.name + KEYCLOAK_SECRET), ph, av, n, low);
  }

  lemma ExposeStays(s: Site, ph: string, av: bool, n: nat, low: nat)
    requires InSync(s, ph, av, n) && Fit(ph, av, low)
    ensures Fine(ExposeStep(s), ph, av, n, low)
  {
    hide Back, InSync, Fit, Sound, ExposeAccounts, UpdateObject, KeycloakStep, WithCredentials;
    var s1 := Back(s, ExposeAccounts(AtDesk(s)).d);
    BackStays(s, ExposeAccounts(AtDesk(s)).d, ph, av, n);
    InSyncIsSound(s1, ph, av, n, low);
    UpdateStays(s1, WithCredentials(s1.me, s1.p.name), ph, av, n, low);
    var t := UpdateObject(s1, WithCredentials(s1.me, s1.p.name));
    if t.More? {
      KeycloakStays(t.s, ph, av, n, low);
    }
  }

  lemma ConfigurationStays(s: Site, ph: string, av: bool, n: nat, low: nat)
    requires InSync(s, ph, av, n) && Fit(ph, av, low) && ph != ""
    ensures Fine(Configuration(s), if ph == CREATED then CONFIGURING else ph, av, n, low)
  {
    hide InSync, Sound, CheckReady, Advance, ConfigureStep;
    CheckReadyStays(s, ph, av, n, low);
    if CheckReady(s).More? {
      var s1 := CheckReady(s).s;
      AdvanceStays(s1, [CREATED, ""], CONFIGURING, ph, av, n, low);
      var ph1 := if ph == CREATED then CONFIGURING else ph;
      var t2 := Advance(s1, [CREATED, ""], CONFIGURING);
      if t2.More? {
        ConfigureStays(t2.s, ph1, av, n, low);
        hide Fit, Recognised, Rank;
        if ConfigureStep(t2.s).More? {
          CheckReadyStays(ConfigureStep(t2.s).s, ph1, av, n, low);
        }
      }
    }
  }

  lemma AvailableStays(s: Site, av: bool, n: nat, low: nat)
    requires InSync(s, READY, av, n) && Fit(READY, av, low)
    ensures Fine(MakeAvailable(s), READY, true, n, low)
  {
    hide WriteStatus, Sound, Inv, Fit;
    if !s.me.status.available {
      WriteStatusStays(s, SetAvailable(true), READY, av, n, low);
    } else if s.w.book.misread {
      FineAnyway(More(s), READY, av, READY, true, n, low);
    }
  }

  /** The phase that a reconcile which goes on has after each of its status writes. */
  function PhaseThen(ph: string, from: seq<string>, to: string): string {
    if ph in from then to else ph
  }

  lemma AdvanceTo(t: Pass, from: seq<string>, to: string, ph: string, av: bool, n: nat, low: nat)
    requires Fine(t, ph, av, n, low) && Fit(ph, av, low)
    requires ph in from ==> Forward(ph, to) && Recognised(to) && Rank(to) >= Rank(ph)
    ensures var u := if t.More? then Advance(t.s, from, to) else t;
            Fine(u, PhaseThen(ph, from, to), av, n, low) && Fit(PhaseThen(ph, from, to), av, low)
  {
    hide InSync, Sound, Advance, Recognised, Rank;
    if t.More? {
      AdvanceStays(t.s, from, to, ph, av, n, low);
    }
    assert ph in from ==> ph != READY;
  }

  predicate Configuring(ph: string) {
    ph in [CONFIGURING, CONFIGURED, EXPOSING, EXPOSED, INTEGRATION, READY]
  }

  lemma FirstHalfStays(s: Site, ph: string, av: bool, n: nat, low: nat)
    requires InSync(s, ph, av, n) && Fit(ph, av, low) && Configuring(ph)
    ensures var t := Advance(s, [CONFIGURING], CONFIGURED);
            var u := if t.More? then Advance(t.s, [CONFIGURED], EXPOSING) else t;
            exists ph1 :: ph1 in [EXPOSING, EXPOSED, INTEGRATION, READY] && Fit(ph1, av, low) && Fine(u, ph1, av, n, low)
  {
    hide InSync, Sound, Advance;
    AdvanceTo(More(s), [CONFIGURING], CONFIGURED, ph, av, n, low);
    var ph1 := PhaseThen(ph, [CONFIGURING], CONFIGURED);
    AdvanceTo(Advance(s, [CONFIGURING], CONFIGURED), [CONFIGURED], EXPOSING, ph1, av, n, low);
    hide Fit, Recognised, Rank, Forward, Fine;
  }

  lemma SecondHalfStays(s: Site, ph: string, av: bool, n: nat, low: nat)
    requires InSync(s, ph, av, n) && Fit(ph, av, low) && ph in [EXPOSING, EXPOSED, INTEGRATION, READY]
    ensures var t := Advance(s, [EXPOSING], EXPOSED);
            var u := if t.More? then Advance(t.s, [EXPOSED, INTEGRATION], READY) else t;
            Fit(READY, av, low) && Fine(u, READY, av, n, low)
  {
    hide InSync, Sound, Advance;
    AdvanceTo(More(s), [EXPOSING], EXPOSED, ph, av, n, low);
    var ph1 := PhaseThen(ph, [EXPOSING], EXPOSED);
    AdvanceTo(Advance(s, [EXPOSING], EXPOSED), [EXPOSED, INTEGRATION], READY, ph1, av, n, low);
    hide Fit, Recognised, Rank, Forward, Fine;
  }

  lemma CompletionStays(s: Site, ph: string, av: bool, n: nat, low: nat)
    requires InSync(s, ph, av, n) && Fit(ph, av, low) && Configuring(ph)
    ensures Fine(Completion(s), READY, true, n, low)
  {
    hide InSync, Sound, Advance, Fit, ExposeStep, MakeAvailable, Configuring;
    FirstHalfStays(s, ph, av, n, low);
    var t := Advance(s, [CONFIGURING], CONFIGURED);
    var u := if t.More? then Advance(t.s, [CONFIGURED], EXPOSING) else t;
    var ph1 :| ph1 in [EXPOSING, EXPOSED, INTEGRATION, READY] && Fit(ph1, av, low) && Fine(u, ph1, av, n, low);
    if u.More? {
      ExposeStays(u.s, ph1, av, n, low);
      if ExposeStep(u.s).More? {
        var v := ExposeStep(u.s).s;
        SecondHalfStays(v, ph1, av, n, low);
        var x := Advance(v, [EXPOSING], EXPOSED);
        var y := if x.More? then Advance(x.s, [EXPOSED, INTEGRATION], READY) else x;
        if y.More? {
          AvailableStays(y.s, av, n, low);
        }
      }
    }
  }

  lemma InstallStays(s: Site, ph: string, av: bool, n: nat, low: nat)
    requires InSync(s, ph, av, n) && Fit(ph, av, low)
    ensures Fine(Install(s), ph, av, n, low)
    ensures Install(s).More? ==> ph != INSTALLING || Install(s).s.w.book.misread
  {
    hide WriteStatus, Sound, Inv, Fit;
    if s.me.status.phase == INSTALLING {
      WriteStatusStays(s, SetPhase(CREATED), ph, av, n, low);
      if WriteStatus(s, SetPhase(CREATED)).More? {
        if !s.w.book.misread {
          CreatedFits(av, low);
        }
        InSyncIsSound(WriteStatus(s, SetPhase(CREATED)).s, CREATED, av, n, low);
      }
    }
  }

  lemma CreatedFits(av: bool, low: nat)
    requires Fit(INSTALLING, av, low)
    ensures Fit(CREATED, av, low)
  {
  }

  lemma ReachesConfiguring(ph: string, av: bool, low: nat)
    requires Fit(ph, av, low) && ph !in ["", FAILED, INSTALLING]
    ensures var ph1 := if ph == CREATED then CONFIGURING else ph; Fit(ph1, av, low) && Configuring(ph1)
  {
  }

  lemma ReadyIsFit(ph: string, av: bool, low: nat)
    requires Fit(ph, av, low)
    ensures Fit(READY, av, low)
  {
  }

  /** However a reconcile ends, every status write in it was legal; when it goes through, the instance is ready and available. */
  lemma BodyStays(s: Site, ph: string, av: bool, n: nat, low: nat)
    requires InSync(s, ph, av, n) && Fit(ph, av, low)
    ensures Fine(Body(s), READY, true, n, low)
  {
    hide InSync, Sound, Advance, Install, Configuration, Completion;
    AdvanceTo(More(s), ["", FAILED], INSTALLING, ph, av, n, low);
    var ph1 := PhaseThen(ph, ["", FAILED], INSTALLING);
    var t := Advance(s, ["", FAILED], INSTALLING);
    hide Recognised, Rank, Forward, Fit;
    if t.More? {
      InstallStays(t.s, ph1, av, n, low);
      var u := Install(t.s);
      if u.More? {
        var ph2 := if ph1 == INSTALLING then READY else ph1;
        if ph1 == INSTALLING {
          FineAnyway(u, ph1, av, ph2, av, n, low);
          ReadyIsFit(ph1, av, low);
        }
        ConfigurationStays(u.s, ph2, av, n, low);
        ReachesConfiguring(ph2, av, low);
        var v := Configuration(u.s);
        if v.More? {
          CompletionStays(v.s, if ph2 == CREATED then CONFIGURING else ph2, av, n, low);
        }
      }
    }
  }

  // ---------- Runs ----------

  /** The stored phase, and READY where nothing is promised. */
  function PhaseOf(w: World): string {
    if w.stored.Some? && !w.book.misread then w.stored.value.status.phase else READY
  }

  predicate AvailableIn(w: World) {
    w.stored.Some? && !w.book.misread && w.stored.value.status.available
  }

  lemma SoundIsInv(w: World, n: nat, low: nat)
    requires Sound(w, n, low) && low <= Rank(READY)
    ensures Inv(PhaseOf(w), AvailableIn(w), n)(w) && Fit(PhaseOf(w), AvailableIn(w), low)
  {
    InvMeans(w, PhaseOf(w), AvailableIn(w), n);
    hide Inv, WellFormed, LegalFrom, Only;
  }

  lemma ReconcileSound(c: Scene, n: nat, low: nat)
    requires Sound(c.w, n, low) && low <= Rank(READY)
    ensures Sound(Reconcile(c).w, n, low)
  {
    hide Sound, Fit, Inv, Body, ApiGet;
    SoundIsInv(c.w, n, low);
    var ph, av := PhaseOf(c.w), AvailableIn(c.w);
    ReadStays(c.w, ph, av, n);
    var (w, r) := ApiGet(c.w);
    InvIsSound(w, ph, av, n, low);
    if r.Answer? {
      var s := Site(w, r.obj, c.p);
      BodyStays(s, ph, av, n, low);
      if Body(s).More? {
        ReadyFits(low);
        InSyncIsSound(Body(s).s, READY, true, n, low);
      }
    }
  }

  lemma ReadyFits(low: nat)
    requires low <= Rank(READY)
    ensures Fit(READY, true, low)
  {
  }

  lemma OthersSound(w: World, steps: seq<Step>, n: nat, low: nat)
    requires Sound(w, n, low) && low <= Rank(READY) && AllAllowed(steps, SoleWriter)
    ensures Sound(Act(w, steps), n, low)
  {
    SoundIsInv(w, n, low);
    var ph, av := PhaseOf(w), AvailableIn(w);
    CoreIsClosed(ph, av, n);
    hide Sound, Core, Closed, Take, Fit;
    ActPromised(Core(ph, av, n), SoleWriter, w, steps);
    ActSpends(w, steps);
    InvIsSound(Act(w, steps), ph, av, n, low);
  }

  ghost predicate Tolerated(visits: seq<Visit>) {
    forall v | v in visits && v.Others? :: AllAllowed(v.steps, SoleWriter)
  }

  lemma VisitSound(c: Scene, v: Visit, n: nat, low: nat)
    requires Sound(c.w, n, low) && low <= Rank(READY) && (v.Others? ==> AllAllowed(v.steps, SoleWriter))
    ensures Sound(Visited(c, v).w, n, low)
  {
    hide Sound, Reconcile, Act;
    match v
    case Work => ReconcileSound(c, n, low);
    case Others(steps) => OthersSound(c.w, steps, n, low);
    case Weather(_, _) =>
  }

  /**
   Phase safety over whole runs, with failing calls, conflicts, kills, spec edits, deletion, any weather, and reads
   from old states that agree with the server in phase and availability: every status write takes one legal edge,
   the stored phase never falls below where it was, and Available is only ever true together with ready.
   */
  lemma {:induction false} RunsAreSound(c: Scene, visits: seq<Visit>, n: nat, low: nat)
    requires Sound(c.w, n, low) && low <= Rank(READY) && Tolerated(visits)
    ensures Sound(Visits(c, visits).w, n, low)
    decreases |visits|
  {
    hide Sound, Visited;
    if visits != [] {
      assert visits[0] in visits && forall v | v in visits[1..] :: v in visits;
      VisitSound(c, visits[0], n, low);
      RunsAreSound(Visited(c, visits[0]), visits[1..], n, low);
    }
  }

  /** Once ready, always ready: whatever happens afterwards, the object that is still stored stays ready. */
  lemma ReadyIsNeverLeft(c: Scene, visits: seq<Visit>)
    requires Sound(c.w, |c.w.book.commits|, 0) && Tolerated(visits)
    requires c.w.stored.Some? && c.w.stored.value.status.phase == READY
    ensures var w := Visits(c, visits).w;
            w.stored.Some? && !w.book.misread ==> w.stored.value.status.phase == READY
  {
    RunsAreSound(c, visits, |c.w.book.commits|, Rank(READY));
  }
}
