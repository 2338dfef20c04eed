/**
 Writing the status of a Gerrit object with retries on conflict (controllers/gerrit/gerrit_controller.go,
 updateStatusWithRetry). retry.DefaultRetry allows five attempts.
 */
module StatusRetry {
  import opened Common
  import opened Cluster
  import opened Helper

  const RETRY_STEPS := 5

  datatype Mutation = SetPhase(phase: string) | SetAvailable(value: bool)

  function Mutated(m: Mutation, st: Status): Status {
    match m
    case SetPhase(p) => st.(phase := p)
    case SetAvailable(v) => st.(available := v)
  }

  datatype Attempted = Settled(outcome: Try) | Again(refreshed: St)

  /** One attempt: mutate and write; on a conflict refresh the copy, to try again. */
  function Attempt(s: St, m: Mutation): Attempted {
    var me := s.me.(status := Mutated(m, s.me.status));
    var (w, r) := ApiStatusUpdate(s.w, me);
    match r
    case Answer(o) => Settled(Ok(St(w, o)))
    case Conflict =>
      var (v, g) := ApiGet(w);
      if g.Answer? then Again(St(v, g.obj)) else Settled(Err(St(v, me)))
    case _ => Settled(Err(St(w, me)))
  }

  /** Up to n attempts. */
  function Attempts(s: St, m: Mutation, n: nat): Try
    decreases n
  {
    if n == 0 then Err(s)
    else
      match Attempt(s, m)
      case Settled(t) => t
      case Again(v) => Attempts(v, m, n - 1)
  }

  function UpdateStatusWithRetry(s: St, m: Mutation): Try {
    Attempts(s, m, RETRY_STEPS)
  }

  /** The copy is a state the object had, untouched. */
  ghost predicate Genuine(w: World, me: Obj) {
    exists b :: b in w.history && b.version == me.version && b.status == me.status
  }

  /** Only the status (and the version) differs between the two. */
  predicate OnlyStatusDiffers(before: Obj, after: Obj) {
    before.(status := after.status, version := 0) == after.(version := 0)
  }

  /** Since `earlier`, one write was committed: the object stored at that instant with only the mutation applied. */
  predicate CommittedOnce(earlier: seq<(Obj, Obj)>, t: St, m: Mutation) {
    && |t.w.book.commits| == |earlier| + 1 && earlier <= t.w.book.commits
    && (var (before, after) := t.w.book.commits[|earlier|];
        OnlyStatusDiffers(before, after) && after.status == Mutated(m, before.status)
        && t.w.stored == Some(after) && t.me == after)
  }

  /** Storing the mutated copy of the object that is stored. */
  lemma StoreFacts(x: World, m: Mutation)
    requires WellFormed(x) && x.stored.Some?
    ensures var cur := x.stored.value;
            var v := Put(x, cur, cur.(status := Mutated(m, cur.status)));
            WellFormed(v) && v.book == x.book && v.script == x.script && v.stored.Some?
            && OnlyStatusDiffers(cur, v.stored.value) && v.stored.value.status == Mutated(m, cur.status)
  {
    var cur := x.stored.value;
    PutKeeps(x, cur, cur.(status := Mutated(m, cur.status)));
    hide Put, WellFormed;
  }

  lemma WriteFacts(w: World, me: Obj, m: Mutation)
    requires WellFormed(w) && Genuine(w, me)
    ensures var (v, r) := ApiStatusUpdate(w, me.(status := Mutated(m, me.status)));
            WellFormed(v)
            && (if r.Answer? then CommittedOnce(w.book.commits, St(v, r.obj), m) else v.book.commits == w.book.commits)
  {
    CallKeeps(w);
    var x := Call(w).0;
    var works := Call(w).1.works;
    hide Call;
    if works && x.stored.Some? && x.stored.value.version == me.version {
      assert x.stored.value.status == me.status;
      StoreFacts(x, m);
      BookIsNoFact(Put(x, x.stored.value, x.stored.value.(status := Mutated(m, me.status))));
      hide Put, WellFormed, Mutated, OnlyStatusDiffers;
    }
  }

  lemma BookIsNoFact(w: World)
    requires WellFormed(w)
    ensures forall b :: WellFormed(w.(book := b))
  {
  }

  lemma ReadFacts(w: World)
    requires WellFormed(w)
    ensures var (v, g) := ApiGet(w);
            WellFormed(v) && v.book.commits == w.book.commits
            && (g.Answer? ==> Genuine(v, g.obj))
  {
    CallKeeps(w);
    hide Call;
  }

  /** Success commits exactly one write, an error commits nothing. */
  predicate Faithful(earlier: seq<(Obj, Obj)>, t: Try, m: Mutation) {
    if t.Ok? then CommittedOnce(earlier, t.st, m) else t.st.w.book.commits == earlier
  }

  lemma AttemptFacts(s: St, m: Mutation)
    requires WellFormed(s.w) && Genuine(s.w, s.me)
    ensures match Attempt(s, m)
            case Settled(t) => WellFormed(t.st.w) && Faithful(s.w.book.commits, t, m)
            case Again(v) => WellFormed(v.w) && Genuine(v.w, v.me) && v.w.book.commits == s.w.book.commits
  {
    WriteFacts(s.w, s.me, m);
    var (w, r) := ApiStatusUpdate(s.w, s.me.(status := Mutated(m, s.me.status)));
    ReadFacts(w);
    hide ApiStatusUpdate, ApiGet, Mutated, CommittedOnce, Genuine, WellFormed;
  }

  /**
   Whatever others do between the attempts: success commits exactly one write, and that write is the object that
   was stored at that instant with only the mutation applied to its status; an error commits nothing.
   */
  lemma {:induction false} RetryLosesNothing(s: St, m: Mutation, n: nat)
    requires WellFormed(s.w) && Genuine(s.w, s.me)
    ensures WellFormed(Attempts(s, m, n).st.w) && Faithful(s.w.book.commits, Attempts(s, m, n), m)
    decreases n
  {
    hide Attempt, CommittedOnce, Genuine, WellFormed;
    if n > 0 {
      AttemptFacts(s, m);
      if Attempt(s, m).Again? {
        RetryLosesNothing(Attempt(s, m).refreshed, m, n - 1);
      }
    }
  }

  lemma AttemptSpends(s: St, m: Mutation)
    ensures match Attempt(s, m)
            case Settled(t) => |t.st.w.script| >= |s.w.script| - 2
            case Again(v) => |v.w.script| >= |s.w.script| - 2
  {
    var (w, r) := ApiStatusUpdate(s.w, s.me.(status := Mutated(m, s.me.status)));
    CallSpends(s.w);
    CallSpends(w);
    hide Call, Mutated;
  }

  /** Every attempt costs at most two calls. */
  lemma {:induction false} RetryStops(s: St, m: Mutation, n: nat)
    ensures |Attempts(s, m, n).st.w.script| >= |s.w.script| - 2 * n
    decreases n
  {
    hide Attempt;
    if n > 0 {
      AttemptSpends(s, m);
      if Attempt(s, m).Again? {
        RetryStops(Attempt(s, m).refreshed, m, n - 1);
      }
    }
  }

  lemma AttemptPersists(s: St, m: Mutation)
    requires |s.w.script| >= 2 && s.w.script[0].works && s.w.script[1].works
    ensures match Attempt(s, m)
            case Settled(t) => t.Err? ==> t.st.w.stored.None?
            case Again(v) => v.w.script == s.w.script[2..]
  {
    CallSpends(s.w);
    var w := ApiStatusUpdate(s.w, s.me.(status := Mutated(m, s.me.status))).0;
    CallSpends(w);
    assert w.script == s.w.script[1..] by { hide Call, Noted; }
    assert Call(s.w).1 == s.w.script[0] && Call(w).1 == w.script[0];
    hide Call, Mutated, Put;
  }

  /** While calls work and the object is there, the loop gives up only after that many conflicts. */
  lemma {:induction false} RetryPersists(s: St, m: Mutation, n: nat)
    requires |s.w.script| >= 2 * n && forall i | 0 <= i < 2 * n :: s.w.script[i].works
    ensures var t := Attempts(s, m, n); t.Err? ==> t.st.w.stored.None? || t.st.w.script == s.w.script[2 * n..]
    decreases n
  {
    hide Attempt;
    if n > 0 {
      AttemptPersists(s, m);
      if Attempt(s, m).Again? {
        var v := Attempt(s, m).refreshed;
        assert forall i | 0 <= i < 2 * (n - 1) :: v.w.script[i] == s.w.script[i + 2];
        RetryPersists(v, m, n - 1);
        assert v.w.script[2 * (n - 1)..] == s.w.script[2 * n..];
      }
    }
  }

  /** Five of them. */
  lemma FiveConflictsOrDone(s: St, m: Mutation)
    requires |s.w.script| >= 10 && forall i | 0 <= i < 10 :: s.w.script[i].works
    ensures var t := UpdateStatusWithRetry(s, m); t.Err? ==> t.st.w.stored.None? || t.st.w.script == s.w.script[10..]
  {
    hide Attempts;
    RetryPersists(s, m, 5);
  }
}
