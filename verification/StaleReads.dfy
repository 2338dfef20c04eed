/**
 What a reconcile of the installation does with the copy it reads, current or not: the first status it commits is
 the server's own with the copy's next phase written into it, because the retry loop re-applies a mutation that was
 chosen for the copy. So a read from an old state does harm exactly when the copy's next phase is not the
 server's.
 */
module StaleReads {
  import opened Common
  import opened Cluster
  import opened Helper
  import opened StatusRetry
  import opened Bootstrap
  import opened Exposure
  import opened Installation
  import opened PhaseSafety
  import opened Convergence
  import opened RetryRuns

  /** The phase that a reconcile writes first when it reads this one. */
  function Successor(ph: string): string {
    if ph in ["", FAILED] then INSTALLING
    else if ph == INSTALLING then CREATED
    else if ph == CREATED then CONFIGURING
    else if ph == CONFIGURING then CONFIGURED
    else if ph == CONFIGURED then EXPOSING
    else if ph == EXPOSING then EXPOSED
    else READY
  }

  /** The server's status with the next phase of `ph` in it; from a ready copy only Available is set. */
  predicate Follows(before: Obj, after: Obj, ph: string) {
    && OnlyStatusDiffers(before, after)
    && after.status == if ph == READY then before.status.(available := true) else before.status.(phase := Successor(ph))
  }

  /** Something was committed since, and the first of it follows the copy. */
  predicate Begun(commits: Commits, earlier: Commits, ph: string) {
    earlier < commits && Follows(commits[|earlier|].0, commits[|earlier|].1, ph)
  }

  /** Nothing was committed yet and the copy still shows its phase, or the first write followed the copy. */
  ghost predicate OnTrack(s: Site, earlier: Commits, ph: string) {
    && Faithfully(s, earlier)
    && (if s.w.book.commits == earlier then s.me.status.phase == ph else Begun(s.w.book.commits, earlier, ph))
  }

  ghost predicate Stays(t: Pass, earlier: Commits, ph: string) {
    && Clean(t.s.w, earlier)
    && (t.s.w.book.commits == earlier || Begun(t.s.w.book.commits, earlier, ph))
    && (t.More? ==> OnTrack(t.s, earlier, ph))
  }

  // ---------- Steps that commit nothing ----------

  predicate Idle(s: Site, t: Site) {
    t.w.book.commits == s.w.book.commits
  }

  lemma BackOnTrack(s: Site, d: Desk, earlier: Commits, ph: string)
    requires OnTrack(s, earlier, ph)
    ensures OnTrack(Back(s, d), earlier, ph) && Idle(s, Back(s, d))
  {
    hide Spend, Begun;
    BackKeeps(s, d, earlier);
    SpendIsIdle(s.w, if |s.w.script| <= |d.turns| then 0 else |s.w.script| - |d.turns|);
    hide WellFormed, MutationsFrom, Genuine;
  }

  lemma CheckReadyStays(s: Site, earlier: Commits, ph: string)
    requires OnTrack(s, earlier, ph)
    ensures Stays(CheckReady(s), earlier, ph) && Idle(s, CheckReady(s).s)
  {
    hide Back, Begun, Clean, Genuine;
    BackOnTrack(s, Asking(AtDesk(s)).d, earlier, ph);
  }

  lemma ConfigureStays(s: Site, earlier: Commits, ph: string)
    requires OnTrack(s, earlier, ph)
    ensures Stays(ConfigureStep(s), earlier, ph) && Idle(s, ConfigureStep(s).s)
  {
    hide Back, Begun, Clean, Genuine, Configure;
    BackOnTrack(s, Configure(AtDesk(s)).d, earlier, ph);
  }

  /** An update of the main resource that works shows that the copy was current, so its status comes back. */
  lemma UpdateReturnsStatus(w: World, was: Obj, me: Obj)
    requires WellFormed(w) && Genuine(w, was) && me.version == was.version
    ensures var r := ApiUpdate(w, me).1; r.Answer? ==> r.obj.status == was.status
  {
    CallKeeps(w);
    var v := Call(w).0;
    hide Call;
    if v.stored.Some? && v.stored.value.version == me.version {
      assert v.stored.value.status == was.status;
    }
    hide WellFormed, Genuine;
  }

  lemma UpdateOnTrack(s: Site, me: Obj, earlier: Commits, ph: string)
    requires OnTrack(s, earlier, ph) && me.version == s.me.version
    ensures Stays(UpdateObject(s, me), earlier, ph) && Idle(s, UpdateObject(s, me).s)
  {
    UpdateKeeps(s, me, earlier);
    UpdateIsIdle(s.w, me);
    UpdateReturnsStatus(s.w, s.me, me);
    hide ApiUpdate, WellFormed, Genuine, MutationsFrom, Begun;
  }

  lemma ExposeStays(s: Site, earlier: Commits, ph: string)
    requires OnTrack(s, earlier, ph)
    ensures Stays(ExposeStep(s), earlier, ph) && Idle(s, ExposeStep(s).s)
  {
    hide Back, ExposeAccounts, ExposeKeycloak, UpdateObject, OnTrack, Clean, Begun;
    var d := ExposeAccounts(AtDesk(s)).d;
    BackOnTrack(s, d, earlier, ph);
    var s1 := Back(s, d);
    TrackStays(s1, earlier, ph);
    UpdateOnTrack(s1, WithCredentials(s1.me, s1.p.name), earlier, ph);
    hide WithCredentials;
    var t := UpdateObject(s1, WithCredentials(s1.me, s1.p.name));
    if t.More? {
      KeycloakStays(t.s, earlier, ph);
    }
    hide KeycloakStep;
  }

  lemma KeycloakStays(s: Site, earlier: Commits, ph: string)
    requires OnTrack(s, earlier, ph)
    ensures Stays(KeycloakStep(s), earlier, ph) && Idle(s, KeycloakStep(s).s)
  {
    hide Back, ExposeKeycloak, UpdateObject, OnTrack, Clean, Begun;
    TrackStays(s, earlier, ph);
    var d := ExposeKeycloak(AtDesk(s)).d;
    BackOnTrack(s, d, earlier, ph);
    var s1 := Back(s, d);
    TrackStays(s1, earlier, ph);
    UpdateOnTrack(s1, WithAnnotation(s1.me, "is-credentials", s1.p.name + KEYCLOAK_SECRET), earlier, ph);
  }

  lemma TrackStays(s: Site, earlier: Commits, ph: string)
    requires OnTrack(s, earlier, ph)
    ensures Stays(More(s), earlier, ph) && Stays(Done(s), earlier, ph)
  {
  }

  // ---------- Status writes ----------

  lemma WriteOnTrack(s: Site, m: Mutation, earlier: Commits, ph: string)
    requires OnTrack(s, earlier, ph)
    requires s.w.book.commits == earlier ==> if ph == READY then m == SetAvailable(true) else m == SetPhase(Successor(ph))
    ensures Stays(WriteStatus(s, m), earlier, ph)
    ensures WriteStatus(s, m).More? ==> WriteStatus(s, m).s.w.book.commits != earlier
  {
    WriteAppends(s, m, earlier);
    hide WriteStatus, Clean, Genuine, OnlyStatusDiffers, Successor;
  }

  /** Once this step is passed the first write is made if the copy's phase was one of these. */
  lemma AdvanceOnTrack(s: Site, from: seq<string>, to: string, earlier: Commits, ph: string)
    requires OnTrack(s, earlier, ph) && (s.w.book.commits == earlier && ph in from ==> ph != READY && Successor(ph) == to)
    ensures var t := Advance(s, from, to);
            Stays(t, earlier, ph) && (t.More? && t.s.w.book.commits == earlier ==> ph !in from && s.w.book.commits == earlier)
  {
    hide WriteStatus, Successor, Clean, Faithfully, Begun;
    TrackStays(s, earlier, ph);
    if s.me.status.phase in from {
      WriteOnTrack(s, SetPhase(to), earlier, ph);
      WriteGrows(s, SetPhase(to), earlier);
    }
  }

  lemma WriteGrows(s: Site, m: Mutation, earlier: Commits)
    requires Faithfully(s, earlier)
    ensures s.w.book.commits <= WriteStatus(s, m).s.w.book.commits
    ensures earlier <= s.w.book.commits
  {
    WriteAppends(s, m, earlier);
    hide WriteStatus, Keeps;
  }

  lemma InstallStays(s: Site, earlier: Commits, ph: string)
    requires OnTrack(s, earlier, ph)
    ensures Stays(Install(s), earlier, ph)
    ensures Install(s).More? ==> Install(s).s == s && s.me.status.phase != INSTALLING
  {
    hide WriteStatus, Successor, Clean, Faithfully, Begun;
    TrackStays(s, earlier, ph);
    if s.me.status.phase == INSTALLING {
      assert ph == INSTALLING ==> Successor(ph) == CREATED by { FirstSuccessors(); }
      WriteOnTrack(s, SetPhase(CREATED), earlier, ph);
    }
  }

  lemma FirstSuccessors()
    ensures Successor("") == Successor(FAILED) == INSTALLING && Successor(INSTALLING) == CREATED
    ensures Successor(CREATED) == CONFIGURING && Successor(CONFIGURING) == CONFIGURED && Successor(CONFIGURED) == EXPOSING
    ensures Successor(EXPOSING) == EXPOSED && Successor(EXPOSED) == Successor(INTEGRATION) == READY
  {
  }

  /** When the first half is passed without a write, the copy had one of the later phases. */
  lemma ConfigurationStays(s: Site, earlier: Commits, ph: string)
    requires OnTrack(s, earlier, ph) && (s.w.book.commits == earlier ==> !Early(ph))
    ensures var t := Configuration(s);
            Stays(t, earlier, ph) && (t.More? && t.s.w.book.commits == earlier ==> !Early(ph) && ph != CREATED)
  {
    hide CheckReady, Advance, ConfigureStep, OnTrack, Clean, Begun, Successor;
    FirstSuccessors();
    CheckReadyStays(s, earlier, ph);
    if CheckReady(s).More? {
      var s1 := CheckReady(s).s;
      AdvanceOnTrack(s1, [CREATED, ""], CONFIGURING, earlier, ph);
      var t := Advance(s1, [CREATED, ""], CONFIGURING);
      if t.More? {
        ConfigureStays(t.s, earlier, ph);
        if ConfigureStep(t.s).More? {
          CheckReadyStays(ConfigureStep(t.s).s, earlier, ph);
        }
      }
    }
  }

  lemma CompletionStays(s: Site, earlier: Commits, ph: string)
    requires OnTrack(s, earlier, ph) && (s.w.book.commits == earlier ==> Configuring(ph))
    ensures Stays(Completion(s), earlier, ph)
  {
    hide Advance, ExposeStep, MakeAvailable, OnTrack, Clean, Begun, Successor;
    FirstSuccessors();
    AdvanceOnTrack(s, [CONFIGURING], CONFIGURED, earlier, ph);
    var t1 := Advance(s, [CONFIGURING], CONFIGURED);
    if t1.More? {
      AdvanceOnTrack(t1.s, [CONFIGURED], EXPOSING, earlier, ph);
      var t2 := Advance(t1.s, [CONFIGURED], EXPOSING);
      if t2.More? {
        ExposeStays(t2.s, earlier, ph);
        if ExposeStep(t2.s).More? {
          EndStays(ExposeStep(t2.s).s, earlier, ph);
        }
      }
    }
  }

  lemma EndStays(s: Site, earlier: Commits, ph: string)
    requires OnTrack(s, earlier, ph) && (s.w.book.commits == earlier ==> ph in [EXPOSING, EXPOSED, INTEGRATION, READY])
    ensures var t := Advance(s, [EXPOSING], EXPOSED);
            var u := if t.More? then Advance(t.s, [EXPOSED, INTEGRATION], READY) else t;
            Stays(t, earlier, ph) && Stays(u, earlier, ph) && (u.More? ==> Stays(MakeAvailable(u.s), earlier, ph))
  {
    hide Advance, WriteStatus, OnTrack, Clean, Begun, Successor;
    FirstSuccessors();
    AdvanceOnTrack(s, [EXPOSING], EXPOSED, earlier, ph);
    var t := Advance(s, [EXPOSING], EXPOSED);
    if t.More? {
      AdvanceOnTrack(t.s, [EXPOSED, INTEGRATION], READY, earlier, ph);
      var u := Advance(t.s, [EXPOSED, INTEGRATION], READY);
      if u.More? {
        TrackStays(u.s, earlier, ph);
        if !u.s.me.status.available {
          WriteOnTrack(u.s, SetAvailable(true), earlier, ph);
        }
      }
    }
  }

  lemma BodyStays(s: Site, earlier: Commits, ph: string)
    requires OnTrack(s, earlier, ph) && Recognised(ph)
    ensures Stays(Body(s), earlier, ph)
  {
    hide Advance, Install, Configuration, Completion, Clean, Begun, Successor;
    FirstSuccessors();
    AdvanceOnTrack(s, ["", FAILED], INSTALLING, earlier, ph);
    var t := Advance(s, ["", FAILED], INSTALLING);
    if t.More? {
      InstallStays(t.s, earlier, ph);
      if Install(t.s).More? {
        ConfigurationStays(t.s, earlier, ph);
        if Configuration(t.s).More? {
          CompletionStays(Configuration(t.s).s, earlier, ph);
        }
      }
    }
  }

  /**
   Whatever the read is answered with, whoever interferes and whatever fails: if a reconcile commits anything, its
   first write is the object of that instant with the next phase of the copy in it.
   */
  lemma FirstWriteFollowsTheCopy(c: Scene)
    requires WellFormed(c.w)
    ensures var r := ApiGet(c.w).1;
            var was, now := c.w.book.commits, Reconcile(c).w.book.commits;
            if !r.Answer? then now == was
            else Recognised(r.obj.status.phase) ==> now == was || Begun(now, was, r.obj.status.phase)
  {
    ReadFacts(c.w);
    var (w, r) := ApiGet(c.w);
    hide ApiGet, Body, WellFormed, Begun, Recognised;
    if r.Answer? && Recognised(r.obj.status.phase) {
      BodyStays(Site(w, r.obj, c.p), c.w.book.commits, r.obj.status.phase);
    }
  }

  /** When a write that follows the copy is legal, and when it moves the phase back. */
  predicate Judged(before: Status, after: Status, ph: string) {
    && (Recognised(before.phase) ==>
          (LegalWrite(before, after) <==>
            Successor(before.phase) == Successor(ph) && (ph == READY ==> before.phase == READY)
            && (before.phase == READY ==> after.available)))
    && (Rank(after.phase) < Rank(before.phase) <==> ph != READY && Rank(Successor(ph)) < Rank(before.phase))
  }

  lemma FollowingIsJudged(before: Obj, after: Obj, ph: string)
    requires Follows(before, after, ph) && Recognised(ph)
    ensures Judged(before.status, after.status, ph)
  {
  }

  /**
   What that means for the phase machine: the first write is legal if and only if the stored phase has the same
   next phase as the copy's, and it goes back if and only if the copy's next phase ranks below the stored one.
   */
  lemma FirstWriteIsLegalIff(c: Scene)
    requires WellFormed(c.w)
    ensures var r := ApiGet(c.w).1;
            var was, now := c.w.book.commits, Reconcile(c).w.book.commits;
            r.Answer? && Recognised(r.obj.status.phase) && now != was ==>
              was < now && Judged(now[|was|].0.status, now[|was|].1.status, r.obj.status.phase)
  {
    FirstWriteFollowsTheCopy(c);
    var r := ApiGet(c.w).1;
    var was, now := c.w.book.commits, Reconcile(c).w.book.commits;
    hide Reconcile, ApiGet, WellFormed, Judged, Follows, Recognised;
    if r.Answer? && Recognised(r.obj.status.phase) && now != was {
      FollowingIsJudged(now[|was|].0, now[|was|].1, r.obj.status.phase);
    }
  }

  // ---------- When every other call works ----------

  /** The stored object is another state than the copy. */
  predicate Outdated(s: Site) {
    s.w.stored.Some? && s.me.version != s.w.stored.value.version
  }

  /** The first write since s, if any, was made to the object stored in s. */
  predicate Landed(s: Site, w: World) {
    s.w.stored.Some? && s.w.book.commits < w.book.commits && w.book.commits[|s.w.book.commits|].0 == s.w.stored.value
  }

  /** The status write runs into a conflict, reads the object again and writes to it what was meant for the copy. */
  lemma QuietStaleWrite(s: Site, m: Mutation, n: nat)
    requires Outdated(s) && Quiet(s.w.script, n) && n > 2
    ensures var t := WriteStatus(s, m);
            t.More? && Landed(s, t.s.w) && t.s.me.status == Mutated(m, s.w.stored.value.status)
  {
    QuietCall(s.w, n);
    var w1 := Call(s.w).0;
    QuietCall(w1, n - 1);
    var w2 := Call(w1).0;
    QuietCall(w2, n - 2);
    hide Call, Quiet, Mutated, Noted;
    assert Attempt(St(s.w, s.me), m) == Again(St(w2, s.w.stored.value));
    assert Attempt(St(w2, s.w.stored.value), m).Settled?;
  }

  /** A copy of an older state, while calls work and the platform is in order. */
  ghost predicate Lagging(s: Site, n: nat) {
    Outdated(s) && WellFormed(s.w) && Genuine(s.w, s.me) && Quiet(s.w.script, n) && Suitable(s.p) && PortSettled(s.p)
  }

  /** Nothing that a reconcile does later takes the first write back. */
  lemma LagWrites(s: Site, m: Mutation, n: nat)
    requires Lagging(s, n) && n > 2
    ensures var t := WriteStatus(s, m);
            t.More? && Landed(s, t.s.w) && Faithfully(t.s, t.s.w.book.commits)
            && t.s.me.status == Mutated(m, s.w.stored.value.status)
  {
    QuietStaleWrite(s, m, n);
    WriteKeeps(s, m, s.w.book.commits);
    hide WriteStatus, Quiet, Suitable, WellFormed, Mutated;
  }

  lemma LandedStays(s: Site, w: World, v: World)
    requires Landed(s, w) && Clean(v, w.book.commits)
    ensures Landed(s, v)
  {
    hide WellFormed;
  }

  /** The first half for a phase that it does not write. */
  lemma LagConfigures(s: Site, n: nat)
    requires Lagging(s, n) && n >= CONFIGURE_CALLS + 5 && Configuring(s.me.status.phase)
    ensures var t := Configuration(s);
            t.More? && SameObject(s, t.s) && Lagging(t.s, n - CONFIGURE_CALLS - 2) && Bootstrapped(t.s.p)
  {
    hide CheckReady, ConfigureStep, Configurable, CiSound, NoneOrAllGroups, PortSettled, Bootstrapped, WriteStatus;
    QuietReady(s, n);
    var s1 := CheckReady(s).s;
    QuietConfigure(s1, n - 1);
    var s2 := ConfigureStep(s1).s;
    QuietReady(s2, n - 1 - CONFIGURE_CALLS);
    assert Advance(s1, [CREATED, ""], CONFIGURING) == More(s1);
    hide Quiet, WellFormed, Genuine;
  }

  lemma LagEarly(s: Site, n: nat)
    requires Lagging(s, n) && n > 2 && Early(s.me.status.phase)
    ensures Landed(s, Body(s).s.w)
  {
    hide WriteStatus, Configuration, Completion, Lagging, Landed, Clean, Genuine;
    if s.me.status.phase == INSTALLING {
      LagWrites(s, SetPhase(CREATED), n);
    } else {
      LagWrites(s, SetPhase(INSTALLING), n);
      var t := WriteStatus(s, SetPhase(INSTALLING)).s;
      WriteKeeps(t, SetPhase(CREATED), t.w.book.commits);
      LandedStays(s, t.w, WriteStatus(t, SetPhase(CREATED)).s.w);
    }
  }

  lemma FromConfiguringKeeps(s: Site, earlier: Commits)
    requires Faithfully(s, earlier)
    ensures Keeps(FromConfiguring(s), earlier)
  {
    hide CheckReady, Configure, Back, Completion, Clean, Genuine;
    BackKeeps(s, Configure(AtDesk(s)).d, earlier);
    if ConfigureStep(s).More? {
      var s1 := ConfigureStep(s).s;
      ReadyKeeps(s1, earlier);
      if CheckReady(s1).More? {
        CompletionKeeps(CheckReady(s1).s, earlier);
      }
    }
  }

  lemma BodyFromCreated(s: Site)
    requires s.me.status.phase == CREATED && CheckReady(s).More? && CheckReady(s).s.me == s.me
    ensures var t := WriteStatus(CheckReady(s).s, SetPhase(CONFIGURING)); t.More? ==> Body(s) == FromConfiguring(t.s)
  {
    hide WriteStatus, CheckReady, ConfigureStep, Completion;
  }

  lemma LagReady(s: Site, n: nat)
    requires Lagging(s, n) && n > 0
    ensures var t := CheckReady(s);
            t.More? && t.s.me == s.me && t.s.w.stored == s.w.stored && t.s.w.book == s.w.book && Lagging(t.s, n - 1)
  {
    QuietReady(s, n);
    hide CheckReady, Undisturbed, NoBadCodes, PortSettled, Configurable, NoneOrAllGroups, CiSound;
  }

  lemma LagCreated(s: Site, n: nat)
    requires Lagging(s, n) && n > 3 && s.me.status.phase == CREATED
    ensures Landed(s, Body(s).s.w)
  {
    hide WriteStatus, CheckReady, Body, FromConfiguring, Clean, Genuine, Lagging, Mutated;
    LagReady(s, n);
    var s1 := CheckReady(s).s;
    BodyFromCreated(s);
    LagWrites(s1, SetPhase(CONFIGURING), n - 1);
    var t := WriteStatus(s1, SetPhase(CONFIGURING)).s;
    FromConfiguringKeeps(t, t.w.book.commits);
    LandedStays(s1, t.w, FromConfiguring(t).s.w);
  }

  /** The write with which the second half starts from configuring or configured. */
  function FirstOfCompletion(ph: string): Mutation {
    SetPhase(if ph == CONFIGURING then CONFIGURED else EXPOSING)
  }

  /** The second half picks up where its first write left it. */
  lemma CompletionResumes(s: Site)
    requires s.me.status.phase in [CONFIGURING, CONFIGURED]
    ensures var m := FirstOfCompletion(s.me.status.phase);
            var t := WriteStatus(s, m);
            t.More? && t.s.me.status.phase == m.phase ==> Completion(s) == Completion(t.s)
  {
    hide WriteStatus, ExposeStep, MakeAvailable;
    var t := WriteStatus(s, FirstOfCompletion(s.me.status.phase));
    if s.me.status.phase == CONFIGURING {
      assert Advance(s, [CONFIGURING], CONFIGURED) == t;
    } else {
      assert Advance(s, [CONFIGURING], CONFIGURED) == More(s);
      assert Advance(s, [CONFIGURED], EXPOSING) == t;
    }
  }

  lemma SecondHalfOnly(s: Site)
    requires Configuring(s.me.status.phase) && Configuration(s).More?
    ensures Body(s) == Completion(Configuration(s).s)
  {
    hide WriteStatus, Configuration, Completion;
  }

  lemma LagConfiguring(s: Site, n: nat)
    requires Lagging(s, n) && n >= CONFIGURE_CALLS + 5 && s.me.status.phase in [CONFIGURING, CONFIGURED]
    ensures Landed(s, Body(s).s.w)
  {
    hide WriteStatus, Configuration, Completion, Body, Lagging, Clean, Genuine, Bootstrapped;
    LagConfigures(s, n);
    SecondHalfOnly(s);
    var s1 := Configuration(s).s;
    var m := FirstOfCompletion(s.me.status.phase);
    LagWrites(s1, m, n - CONFIGURE_CALLS - 2);
    CompletionResumes(s1);
    var t := WriteStatus(s1, m).s;
    CompletionKeeps(t, t.w.book.commits);
    LandedStays(s1, t.w, Completion(t).s.w);
  }

  /** The copies with which a reconcile gets to exposing before it writes a status. */
  predicate Late(ph: string) {
    ph in [EXPOSING, EXPOSED, INTEGRATION, READY]
  }

  lemma LagExposes(s: Site, n: nat)
    requires Lagging(s, n) && n > EXPOSE_CALLS && Bootstrapped(s.p)
    ensures var t := ExposeStep(s);
            t.Done? && t.s.w.stored == s.w.stored && t.s.w.book == s.w.book
  {
    hide Back, ExposeAccounts, Suitable, Bootstrapped, Finished, PortSettled;
    CalmFewer(s.w.script, n, EXPOSE_CALLS);
    BootstrappedIsExposable(s.p);
    ExposeDesk(AtDesk(s));
    QuietBack(s, ExposeAccounts(AtDesk(s)).d, n, EXPOSE_CALLS);
    var s1 := Back(s, ExposeAccounts(AtDesk(s)).d);
    QuietCall(s1.w, n - EXPOSE_CALLS);
    hide Quiet, Call, WellFormed, Genuine;
  }

  lemma LagLate(s: Site, n: nat)
    requires Lagging(s, n) && n >= RECONCILE_CALLS && Late(s.me.status.phase)
    ensures var t := Body(s).s; t.w.stored == s.w.stored && t.w.book == s.w.book
  {
    hide WriteStatus, Configuration, ExposeStep, Lagging, MakeAvailable, Bootstrapped;
    LagConfigures(s, n);
    SecondHalfOnly(s);
    LagExposes(Configuration(s).s, n - CONFIGURE_CALLS - 2);
  }

  /** The next read is answered with this state, and all later calls work undisturbed. */
  ghost predicate ReadOnceStale(w: World, o: Obj, n: nat) {
    && WellFormed(w) && w.stored.Some? && o in w.history && o.version != w.stored.value.version
    && w.script != [] && w.script[0].steps == [] && w.script[0].works && w.script[0].stale == Some(o)
    && Quiet(w.script[1..], n)
  }

  /**
   One stale read, everything else in order. From a copy that is exposing or later nothing is written at all: the
   update of the main resource runs into the conflict and is not repeated. From any earlier copy the status write
   is repeated on the stored object, whatever phase that is in, and gives it the next phase of the copy.
   */
  lemma StaleReadIsApplied(c: Scene, o: Obj, n: nat)
    requires ReadOnceStale(c.w, o, n) && n >= RECONCILE_CALLS
    requires Suitable(c.p) && PortSettled(c.p) && Recognised(o.status.phase)
    ensures var d := Reconcile(c).w;
            if Late(o.status.phase) then d.stored == c.w.stored && d.book.commits == c.w.book.commits
            else
              c.w.book.commits < d.book.commits
              && var (before, after) := d.book.commits[|c.w.book.commits|];
                 before == c.w.stored.value && OnlyStatusDiffers(before, after)
                 && after.status == before.status.(phase := Successor(o.status.phase))
  {
    FirstWriteFollowsTheCopy(c);
    ReadFacts(c.w);
    var (w, r) := ApiGet(c.w);
    assert r == Answer(o) && w.stored == c.w.stored && w.script == c.w.script[1..] && w.book.commits == c.w.book.commits;
    var s := Site(w, o, c.p);
    var ph := o.status.phase;
    hide ApiGet, Body, Suitable, PortSettled, Quiet, WellFormed, Genuine, OnlyStatusDiffers, Successor;
    if Late(ph) { LagLate(s, n); }
    else if Early(ph) { LagEarly(s, n); }
    else if ph == CREATED { LagCreated(s, n); }
    else { LagConfiguring(s, n); }
  }

  /** So an undisturbed reconcile from a stale copy moves the stored phase back exactly under this condition. */
  lemma StaleReadGoesBackIff(c: Scene, o: Obj, n: nat)
    requires ReadOnceStale(c.w, o, n) && n >= RECONCILE_CALLS
    requires Suitable(c.p) && PortSettled(c.p) && Recognised(o.status.phase)
    ensures var d := Reconcile(c).w.book.commits;
            var k := |c.w.book.commits|;
            (k < |d| && Rank(d[k].1.status.phase) < Rank(c.w.stored.value.status.phase))
            <==> !Late(o.status.phase) && Rank(Successor(o.status.phase)) < Rank(c.w.stored.value.status.phase)
  {
    StaleReadIsApplied(c, o, n);
    hide Reconcile, ReadOnceStale, Suitable, PortSettled, Rank, Successor, Late;
  }
}
