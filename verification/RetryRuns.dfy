/**
 The retry loop over whole runs of the installation: whatever others write between the calls, and even when reads
 are answered from old states, every status that a Gerrit reconcile commits is the server's own status at that
 instant with a single mutation applied. Nobody's concurrent status write is ever undone.
 */
module RetryRuns {
  import opened Common
  import opened Cluster
  import opened Helper
  import opened StatusRetry
  import opened Bootstrap
  import opened Exposure
  import opened Installation

  type Commits = seq<(Obj, Obj)>

  /** One field was set; everything else is the server's. */
  ghost predicate OneMutation(before: Obj, after: Obj) {
    OnlyStatusDiffers(before, after) && exists m :: after.status == Mutated(m, before.status)
  }

  /** The earlier writes are still there, and every later one is a single mutation. */
  ghost predicate MutationsFrom(commits: Commits, earlier: Commits) {
    earlier <= commits && forall i | |earlier| <= i < |commits| :: OneMutation(commits[i].0, commits[i].1)
  }

  ghost predicate Clean(w: World, earlier: Commits) {
    WellFormed(w) && MutationsFrom(w.book.commits, earlier)
  }

  /** The copy shows a status that the object had under the copy's version. */
  ghost predicate Faithfully(s: Site, earlier: Commits) {
    Clean(s.w, earlier) && Genuine(s.w, s.me)
  }

  /** Wherever a step ends the world is clean; when it goes on, the copy is genuine. */
  ghost predicate Keeps(t: Pass, earlier: Commits) {
    Clean(t.s.w, earlier) && (t.More? ==> Genuine(t.s.w, t.s.me))
  }

  lemma GenuineLater(w: World, v: World, me: Obj)
    requires Genuine(w, me) && w.history <= v.history
    ensures Genuine(v, me)
  {
  }

  lemma CommitKeeps(before: Commits, t: St, m: Mutation, earlier: Commits)
    requires CommittedOnce(before, t, m) && MutationsFrom(before, earlier) && WellFormed(t.w)
    ensures Clean(t.w, earlier) && Genuine(t.w, t.me)
  {
    hide OnlyStatusDiffers, Mutated;
    var (was, now) := t.w.book.commits[|before|];
    assert OneMutation(was, now);
    assert t.w.book.commits == before + [(was, now)];
    assert now in t.w.history;
  }

  lemma WriteKeeps(s: Site, m: Mutation, earlier: Commits)
    requires Faithfully(s, earlier)
    ensures Keeps(WriteStatus(s, m), earlier)
  {
    hide Attempts, WellFormed, MutationsFrom, CommittedOnce, Genuine;
    RetryLosesNothing(St(s.w, s.me), m, RETRY_STEPS);
    var t := UpdateStatusWithRetry(St(s.w, s.me), m);
    if t.Ok? {
      CommitKeeps(s.w.book.commits, t.st, m, earlier);
    }
  }

  /** A status write adds the mutated server status, or nothing. */
  lemma WriteAppends(s: Site, m: Mutation, earlier: Commits)
    requires Faithfully(s, earlier)
    ensures var t := WriteStatus(s, m);
            var before, after := s.w.book.commits, t.s.w.book.commits;
            Keeps(t, earlier)
            && (if t.More? then
                  before < after && after[..|before| + 1] == after
                  && OnlyStatusDiffers(after[|before|].0, after[|before|].1)
                  && after[|before|].1.status == Mutated(m, after[|before|].0.status)
                else after == before)
  {
    WriteKeeps(s, m, earlier);
    hide Attempts, WellFormed, MutationsFrom, Genuine, OnlyStatusDiffers, Mutated;
    RetryLosesNothing(St(s.w, s.me), m, RETRY_STEPS);
  }

  lemma CallClean(w: World, earlier: Commits)
    requires Clean(w, earlier)
    ensures Clean(Call(w).0, earlier) && w.history <= Call(w).0.history
  {
    CallKeeps(w);
    hide Call, WellFormed, MutationsFrom;
  }

  lemma {:induction false} SpendKeeps(w: World, k: nat, earlier: Commits)
    requires Clean(w, earlier)
    ensures Clean(Spend(w, k), earlier) && w.history <= Spend(w, k).history
    decreases k
  {
    hide Call, Clean;
    if k > 0 {
      CallClean(w, earlier);
      SpendKeeps(Call(w).0, k - 1, earlier);
    }
  }

  lemma {:induction false} SpendIsIdle(w: World, k: nat)
    requires WellFormed(w)
    ensures Spend(w, k).book.commits == w.book.commits && WellFormed(Spend(w, k))
    decreases k
  {
    hide Call, WellFormed;
    if k > 0 {
      CallKeeps(w);
      SpendIsIdle(Call(w).0, k - 1);
    }
  }

  lemma BackKeeps(s: Site, d: Desk, earlier: Commits)
    requires Faithfully(s, earlier)
    ensures Faithfully(Back(s, d), earlier)
  {
    hide Spend, Clean, Genuine;
    var k := if |s.w.script| <= |d.turns| then 0 else |s.w.script| - |d.turns|;
    SpendKeeps(s.w, k, earlier);
    GenuineLater(s.w, Spend(s.w, k), s.me);
  }

  /** The server's answer to an update is genuine whatever was sent. */
  lemma UpdateKeeps(s: Site, me: Obj, earlier: Commits)
    requires Faithfully(s, earlier)
    ensures Keeps(UpdateObject(s, me), earlier)
  {
    CallKeeps(s.w);
    var v := Call(s.w).0;
    hide Call, MutationsFrom;
    if v.stored.Some? && v.stored.value.version == me.version {
      var cur := v.stored.value;
      var after := Overwritten(cur, me);
      if cur.deleting && after.finalizers == [] {
        AnswerIsGenuine(v, cur, after);
      } else {
        PutWellFormed(v, cur, after);
        assert Put(v, cur, after).stored.value in Put(v, cur, after).history;
      }
    }
    hide WellFormed;
  }

  lemma AnswerIsGenuine(v: World, cur: Obj, after: Obj)
    requires WellFormed(v) && v.stored == Some(cur) && after.version == cur.version && after.status == cur.status
    ensures WellFormed(Gone(v, cur)) && Genuine(Gone(v, cur), after)
  {
    assert cur in v.history;
  }

  lemma UpdateIsIdle(w: World, me: Obj)
    requires WellFormed(w)
    ensures ApiUpdate(w, me).0.book.commits == w.book.commits
  {
    CallKeeps(w);
    hide Call, WellFormed;
  }

  lemma AdvanceKeeps(s: Site, from: seq<string>, to: string, earlier: Commits)
    requires Faithfully(s, earlier)
    ensures Keeps(Advance(s, from, to), earlier)
  {
    hide WriteStatus, Clean, Genuine;
    if s.me.status.phase in from {
      WriteKeeps(s, SetPhase(to), earlier);
    }
  }

  lemma ReadyKeeps(s: Site, earlier: Commits)
    requires Faithfully(s, earlier)
    ensures Keeps(CheckReady(s), earlier)
  {
    hide Back, Clean, Genuine;
    BackKeeps(s, Asking(AtDesk(s)).d, earlier);
  }

  lemma ExposeKeeps(s: Site, earlier: Commits)
    requires Faithfully(s, earlier)
    ensures Keeps(ExposeStep(s), earlier)
  {
    hide Back, ExposeAccounts, ExposeKeycloak, UpdateObject, WithCredentials, WithAnnotation, Clean, Genuine;
    var s1 := Back(s, ExposeAccounts(AtDesk(s)).d);
    BackKeeps(s, ExposeAccounts(AtDesk(s)).d, earlier);
    UpdateKeeps(s1, WithCredentials(s1.me, s1.p.name), earlier);
    var t := UpdateObject(s1, WithCredentials(s1.me, s1.p.name));
    if t.More? {
      var s2 := Back(t.s, ExposeKeycloak(AtDesk(t.s)).d);
      BackKeeps(t.s, ExposeKeycloak(AtDesk(t.s)).d, earlier);
      UpdateKeeps(s2, WithAnnotation(s2.me, "is-credentials", s2.p.name + KEYCLOAK_SECRET), earlier);
    }
  }

  lemma ConfigurationKeeps(s: Site, earlier: Commits)
    requires Faithfully(s, earlier)
    ensures Keeps(Configuration(s), earlier)
  {
    hide CheckReady, Advance, Configure, Back, Clean, Genuine;
    ReadyKeeps(s, earlier);
    if CheckReady(s).More? {
      AdvanceKeeps(CheckReady(s).s, [CREATED, ""], CONFIGURING, earlier);
      var t := Advance(CheckReady(s).s, [CREATED, ""], CONFIGURING);
      if t.More? {
        BackKeeps(t.s, Configure(AtDesk(t.s)).d, earlier);
        if ConfigureStep(t.s).More? {
          ReadyKeeps(ConfigureStep(t.s).s, earlier);
        }
      }
    }
  }

  lemma CompletionKeeps(s: Site, earlier: Commits)
    requires Faithfully(s, earlier)
    ensures Keeps(Completion(s), earlier)
  {
    hide Advance, ExposeStep, WriteStatus, Clean, Genuine;
    AdvanceKeeps(s, [CONFIGURING], CONFIGURED, earlier);
    var t1 := Advance(s, [CONFIGURING], CONFIGURED);
    if t1.More? {
      AdvanceKeeps(t1.s, [CONFIGURED], EXPOSING, earlier);
      var t2 := Advance(t1.s, [CONFIGURED], EXPOSING);
      if t2.More? {
        ExposeKeeps(t2.s, earlier);
        if ExposeStep(t2.s).More? {
          EndKeeps(ExposeStep(t2.s).s, earlier);
        }
      }
    }
  }

  /** The three writes after exposing. */
  lemma EndKeeps(s: Site, earlier: Commits)
    requires Faithfully(s, earlier)
    ensures var t := Advance(s, [EXPOSING], EXPOSED);
            var u := if t.More? then Advance(t.s, [EXPOSED, INTEGRATION], READY) else t;
            Keeps(t, earlier) && Keeps(u, earlier) && (u.More? ==> Keeps(MakeAvailable(u.s), earlier))
  {
    hide Advance, WriteStatus, Clean, Genuine;
    AdvanceKeeps(s, [EXPOSING], EXPOSED, earlier);
    var t := Advance(s, [EXPOSING], EXPOSED);
    if t.More? {
      AdvanceKeeps(t.s, [EXPOSED, INTEGRATION], READY, earlier);
      var u := Advance(t.s, [EXPOSED, INTEGRATION], READY);
      if u.More? && !u.s.me.status.available {
        WriteKeeps(u.s, SetAvailable(true), earlier);
      }
    }
  }

  lemma ReconcileKeeps(c: Scene, earlier: Commits)
    requires Clean(c.w, earlier)
    ensures Clean(Reconcile(c).w, earlier)
  {
    hide ApiGet, Advance, WriteStatus, Configuration, Completion, Genuine, WellFormed, MutationsFrom;
    ReadFacts(c.w);
    var (w, r) := ApiGet(c.w);
    if r.Answer? {
      var s := Site(w, r.obj, c.p);
      AdvanceKeeps(s, ["", FAILED], INSTALLING, earlier);
      var t := Advance(s, ["", FAILED], INSTALLING);
      if t.More? {
        WriteKeeps(t.s, SetPhase(CREATED), earlier);
        ConfigurationKeeps(t.s, earlier);
        if Configuration(t.s).More? {
          CompletionKeeps(Configuration(t.s).s, earlier);
        }
      }
    }
  }

  /** Over every run, with any interference: each committed status is the stored one with a single mutation applied. */
  lemma {:induction false} EveryCommitIsOneMutation(c: Scene, visits: seq<Visit>, earlier: Commits)
    requires Clean(c.w, earlier)
    ensures Clean(Visits(c, visits).w, earlier)
    decreases |visits|
  {
    hide Reconcile, Clean;
    if visits != [] {
      match visits[0] {
        case Work => ReconcileKeeps(c, earlier);
        case Others(steps) => ActClean(c.w, steps, earlier);
        case Weather(_, _) =>
      }
      EveryCommitIsOneMutation(Visited(c, visits[0]), visits[1..], earlier);
    }
  }

  lemma ActClean(w: World, steps: seq<Step>, earlier: Commits)
    requires Clean(w, earlier)
    ensures Clean(Act(w, steps), earlier)
  {
    ActKeeps(w, steps);
    hide Act, WellFormed, MutationsFrom;
  }
}
