/** The safety results about every run of the send protocol, from a fresh job on. */
module OutboxSafety {
  import opened Common
  import opened Outbox
  import opened OutboxRuns

  lemma {:induction false} RunJoin(s: Job, a: seq<Step>, b: seq<Step>)
    ensures Run(s, a + b) == Run(Run(s, a), b)
    decreases |a|
  {
    if a == [] {
      assert a + b == b;
    } else {
      assert (a + b)[1..] == a[1..] + b;
      RunJoin(Apply(s, a[0]), a[1..], b);
    }
  }

  // ---------------------------------------------------------------- sends in doubt

  lemma {:induction false} LostIsReclaimed(claims: seq<Claim>)
    ensures Lost(claims) <= Reclaims(claims)
  {
    if claims != [] {
      LostIsReclaimed(claims[..|claims| - 1]);
    }
  }

  lemma DoubtBound(s: Job)
    requires Inv(s)
    ensures InDoubt(s.claims) <= 2 + Reclaims(s.claims)
  {
    LostIsReclaimed(s.claims);
    if s.row.status == Processing {
      ClosedByPark(s, Held);
      assert Close(s.claims, Held) == s.claims;
    }
  }

  /** Whatever the interleaving: at most two sends in doubt beyond one for each lost lock. */
  lemma SendsInDoubt(steps: seq<Step>)
    ensures InDoubt(Run(FRESH, steps).claims) <= 2 + Reclaims(Run(FRESH, steps).claims)
  {
    FreshInv();
    RunKeepsInv(FRESH, steps);
    DoubtBound(Run(FRESH, steps));
  }

  // The bound is met: a send that times out, then one lost lock after another, each losing
  // a send that the statistics do not show, and at last a second send that times out.

  const FIRST_SEND: seq<Step> :=
    [ClaimJob(0), Begin(0), Touch(0), Post(0), Answer(0, Failure(0, true), true), Finish(0, false, NeedStat)]

  /** Look, note that nothing was found, look again, and send. */
  function Resend(w: Worker, readOk: bool): seq<Step> {
    [ClaimJob(w), Check(w, NotFound(readOk)), ClaimJob(w), Check(w, NotFound(readOk)), Touch(w), Post(w)]
  }

  const LOSE_LOCK: seq<Step> := [Abandon(0), Reclaim]

  const TIME_OUT: seq<Step> := [Answer(0, Failure(0, true), true), Finish(0, false, NeedStat)]

  function Losses(n: nat): seq<Step> {
    if n == 0 then [] else Losses(n - 1) + Resend(0, true) + LOSE_LOCK
  }

  /** One attempt timed out, and the job waits for a look at the statistics. */
  predicate Waiting(s: Job) {
    && s.row == Row(Uncertain, 1, None, NeedStat)
    && At(s, 0) == Idle
    && s.records == [Record(1, Timeout)]
  }

  lemma NoSteps(s: Job)
    ensures Run(s, []) == s
  {
  }

  lemma RunTwo(s: Job, a: Step, b: Step)
    ensures Run(s, [a, b]) == Apply(Apply(s, a), b)
  {
    assert [a, b][1..] == [b];
    assert Run(Apply(s, a), [b]) == Apply(Apply(s, a), b);
  }

  lemma RunSix(s: Job, a: Step, b: Step, c: Step, d: Step, e: Step, f: Step)
    ensures Run(s, [a, b, c, d, e, f]) == Apply(Apply(Apply(Apply(Apply(Apply(s, a), b), c), d), e), f)
  {
    assert [a, b, c, d, e, f] == [a, b] + ([c, d] + [e, f]);
    RunJoin(s, [a, b], [c, d] + [e, f]);
    RunTwo(s, a, b);
    RunJoin(Run(s, [a, b]), [c, d], [e, f]);
    RunTwo(Run(s, [a, b]), c, d);
    RunTwo(Run(Run(s, [a, b]), [c, d]), e, f);
  }

  /** The claim that only moves the marker from "look" to "look, then send". */
  function Looked(w: Worker): Claim {
    Claim(w, 1, NeedStat, false, Parked(Uncertain))
  }

  lemma LookOnce(s: Job, w: Worker, readOk: bool)
    requires s.row == Row(Uncertain, 1, None, NeedStat) && At(s, w) == Idle
    requires LatestKind(s.records, readOk) != Some(Fault5xx)
    ensures var t := Apply(Apply(s, ClaimJob(w)), Check(w, NotFound(readOk)));
      && t.row == Row(Uncertain, 1, None, NeedRetry) && At(t, w) == Idle
      && t.records == s.records && t.claims == s.claims + [Looked(w)]
      && forall v :: v != w ==> At(t, v) == At(s, v)
  {
  }

  lemma LookAndSend(s: Job, w: Worker, readOk: bool)
    requires s.row == Row(Uncertain, 1, None, NeedRetry) && At(s, w) == Idle
    requires LatestKind(s.records, readOk) != Some(Fault5xx)
    ensures var t := Apply(Apply(Apply(Apply(s, ClaimJob(w)), Check(w, NotFound(readOk))), Touch(w)), Post(w));
      && t.row == Row(Processing, 1, Some(w), NeedRetry)
      && At(t, w) == Posted(|s.claims|)
      && t.records == s.records
      && t.claims == s.claims + [Claim(w, 1, NeedRetry, true, Held)]
      && forall v :: v != w ==> At(t, v) == At(s, v)
  {
    var s2 := Apply(Apply(s, ClaimJob(w)), Check(w, NotFound(readOk)));
    assert At(s2, w) == Sending(|s.claims|) && s2.claims == s.claims + [Claim(w, 1, NeedRetry, false, Held)];
    assert At(Apply(s2, Touch(w)), w) == Touched(|s.claims|);
  }

  lemma ResendAfterOne(s: Job, w: Worker, readOk: bool)
    requires s.row == Row(Uncertain, 1, None, NeedStat) && At(s, w) == Idle
    requires LatestKind(s.records, readOk) != Some(Fault5xx)
    ensures var t := Run(s, Resend(w, readOk));
      && t.row == Row(Processing, 1, Some(w), NeedRetry)
      && At(t, w) == Posted(|s.claims| + 1)
      && t.records == s.records
      && t.claims == s.claims + [Looked(w), Claim(w, 1, NeedRetry, true, Held)]
      && forall v :: v != w ==> At(t, v) == At(s, v)
  {
    hide Run, Apply;
    RunSix(s, ClaimJob(w), Check(w, NotFound(readOk)), ClaimJob(w), Check(w, NotFound(readOk)), Touch(w), Post(w));
    LookOnce(s, w, readOk);
    LookAndSend(Apply(Apply(s, ClaimJob(w)), Check(w, NotFound(readOk))), w, readOk);
  }

  lemma ResendFromWaiting(s: Job)
    requires Waiting(s)
    ensures var t := Run(s, Resend(0, true));
      && t.row == Row(Processing, 1, Some(0), NeedRetry)
      && At(t, 0) == Posted(|s.claims| + 1)
      && t.records == s.records
      && t.claims == s.claims + [Looked(0), Claim(0, 1, NeedRetry, true, Held)]
  {
    hide Run, Apply;
    assert Latest(s.records) == Some(Record(1, Timeout));
    ResendAfterOne(s, 0, true);
  }

  lemma LossFromWaiting(s: Job)
    requires Waiting(s)
    ensures var t := Run(Run(s, Resend(0, true)), LOSE_LOCK);
      && Waiting(t)
      && t.claims == s.claims + [Looked(0), Claim(0, 1, NeedRetry, true, Reclaimed)]
  {
    hide Run;
    ResendFromWaiting(s);
    RunTwo(Run(s, Resend(0, true)), Abandon(0), Reclaim);
  }

  lemma TimeOutParks(s: Job)
    requires Waiting(s)
    ensures Run(Run(s, Resend(0, true)), TIME_OUT).claims == s.claims + [Looked(0)] + [Claim(0, 1, NeedRetry, true,
        Parked(Uncertain))]
  {
    hide Run;
    ResendFromWaiting(s);
    RunTwo(Run(s, Resend(0, true)), Answer(0, Failure(0, true), true), Finish(0, false, NeedStat));
  }

  lemma FirstSendWaits()
    ensures var t := Run(FRESH, FIRST_SEND);
      Waiting(t) && t.claims == [Claim(0, 0, Other(""), true, Parked(Uncertain))]
  {
    hide Run, Apply;
    RunSix(FRESH, ClaimJob(0), Begin(0), Touch(0), Post(0), Answer(0, Failure(0, true), true), Finish(0, false,
      NeedStat));
    FirstPost();
    FirstTimeOut(Apply(Apply(Apply(Apply(FRESH, ClaimJob(0)), Begin(0)), Touch(0)), Post(0)));
  }

  lemma FirstPost()
    ensures var t := Apply(Apply(Apply(Apply(FRESH, ClaimJob(0)), Begin(0)), Touch(0)), Post(0));
      && t.row == Row(Processing, 0, Some(0), Other("")) && At(t, 0) == Posted(0)
      && t.records == [] && t.claims == [Claim(0, 0, Other(""), true, Held)]
  {
    var s2 := Apply(Apply(FRESH, ClaimJob(0)), Begin(0));
    assert At(s2, 0) == Sending(0) && s2.claims == [Claim(0, 0, Other(""), false, Held)];
  }

  lemma FirstTimeOut(s: Job)
    requires s.row == Row(Processing, 0, Some(0), Other("")) && At(s, 0) == Posted(0)
    requires s.records == [] && s.claims == [Claim(0, 0, Other(""), true, Held)]
    ensures var t := Apply(Apply(s, Answer(0, Failure(0, true), true)), Finish(0, false, NeedStat));
      Waiting(t) && t.claims == [Claim(0, 0, Other(""), true, Parked(Uncertain))]
  {
  }

  lemma {:induction false} LossesWait(n: nat)
    ensures var t := Run(Run(FRESH, FIRST_SEND), Losses(n));
      Waiting(t) && InDoubtHere(t.claims) == 1 && Lost(t.claims) == n && Reclaims(t.claims) == n
  {
    hide Run, Apply, Waiting;
    var s := Run(FRESH, FIRST_SEND);
    FirstSendWaits();
    if n == 0 {
      CountAppend([], s.claims[0]);
      assert [] + [s.claims[0]] == s.claims;
      NoSteps(s);
    } else {
      LossesWait(n - 1);
      var u := Run(s, Losses(n - 1));
      RunJoin(s, Losses(n - 1) + Resend(0, true), LOSE_LOCK);
      RunJoin(s, Losses(n - 1), Resend(0, true));
      LossFromWaiting(u);
      var c := Claim(0, 1, NeedRetry, true, Reclaimed);
      CountAppend(u.claims, Looked(0));
      CountAppend(u.claims + [Looked(0)], c);
      assert u.claims + [Looked(0)] + [c] == u.claims + [Looked(0), c];
    }
  }

  /** For every number of lost locks some run reaches the bound. */
  lemma SendsInDoubtIsTight(n: nat)
    ensures var t := Run(FRESH, FIRST_SEND + Losses(n) + Resend(0, true) + TIME_OUT);
      Reclaims(t.claims) == n && InDoubt(t.claims) == 2 + n
  {
    hide Run, Apply, Waiting;
    LossesWait(n);
    var u := Run(Run(FRESH, FIRST_SEND), Losses(n));
    RunJoin(FRESH, FIRST_SEND + Losses(n) + Resend(0, true), TIME_OUT);
    RunJoin(FRESH, FIRST_SEND + Losses(n), Resend(0, true));
    RunJoin(FRESH, FIRST_SEND, Losses(n));
    TimeOutParks(u);
    var c := Claim(0, 1, NeedRetry, true, Parked(Uncertain));
    CountAppend(u.claims, Looked(0));
    CountAppend(u.claims + [Looked(0)], c);
  }

  // ---------------------------------------------------------------- the lock

  predicate Working(s: Job, w: Worker) {
    !At(s, w).Idle?
  }

  ghost predicate Holding(s: Job, w: Worker, i: int) {
    0 <= i < |s.claims| && s.claims[i].end == Held && s.claims[i].worker == w
  }

  /** At most one claim is ever held: the last one, by the worker the row names. */
  lemma OneLockOwner(steps: seq<Step>, v: Worker, w: Worker, i: int, j: int)
    ensures var s := Run(FRESH, steps);
      Holding(s, v, i) && Holding(s, w, j) ==> v == w && i == j && Owns(s, v)
    ensures var s := Run(FRESH, steps);
      Owns(s, v) ==> Holding(s, v, |s.claims| - 1)
  {
    FreshInv();
    RunKeepsInv(FRESH, steps);
  }

  predicate By(step: Step, w: Worker) {
    !step.Reclaim? && step.w == w
  }

  /** Without the lock a worker at work changes neither the row nor how any claim ended. */
  lemma LostLockIsPowerless(s: Job, step: Step, w: Worker)
    requires By(step, w) && Working(s, w) && !Owns(s, w)
    ensures Apply(s, step).row == s.row
    ensures |Apply(s, step).claims| == |s.claims|
    ensures forall i :: 0 <= i < |s.claims| ==> Apply(s, step).claims[i].end == s.claims[i].end
  {
  }

  lemma FinalStep(s: Job, step: Step)
    requires Final(s.row.status)
    ensures Apply(s, step).row == s.row
  {
    hide Classify, AllowUncertainRetry, LatestKind, Close, NeedStatistic;
  }

  /** Done and dead rows never change again. */
  lemma {:induction false} FinalIsAbsorbing(s: Job, steps: seq<Step>)
    requires Final(s.row.status)
    ensures Run(s, steps).row == s.row
    decreases |steps|
  {
    hide Apply;
    if steps != [] {
      FinalStep(s, steps[0]);
      FinalIsAbsorbing(Apply(s, steps[0]), steps[1..]);
    }
  }

  /** The message is marked failed at most once, by the worker whose own park made the job dead. */
  lemma FailedOnce(steps: seq<Step>)
    ensures var s := Run(FRESH, steps);
      |s.marks| <= 1 &&
      forall k <- s.marks :: s.row.status == Dead && k == |s.claims| - 1 && s.claims[k].end == Parked(Dead)
  {
    FreshInv();
    RunKeepsInv(FRESH, steps);
  }

  /** Conversely the marking step is open only to the worker that closed the last claim as dead. */
  lemma OnlyTheParkerMarks(steps: seq<Step>, w: Worker)
    ensures var s := Run(FRESH, steps);
      Apply(s, MarkFailed(w)).marks != s.marks ==>
        s.marks == [] && s.row.status == Dead && |s.claims| > 0 &&
        s.claims[|s.claims| - 1].worker == w && s.claims[|s.claims| - 1].end == Parked(Dead)
  {
    FreshInv();
    RunKeepsInv(FRESH, steps);
    var s := Run(FRESH, steps);
    if At(s, w).Failing? {
      assert PcOk(s, w, s.pcs[w]);
    }
  }

  // ---------------------------------------------------------------- what a lock holder decides

  /** How a send ends, by the HTTP status alone: in doubt it always costs an attempt. */
  lemma HolderFinishes(s: Job, w: Worker, markOk: bool, note: Note)
    requires Inv(s) && Owns(s, w) && At(s, w).Answered?
    ensures var reply, t := At(s, w).reply, Apply(s, Finish(w, markOk, note));
      var refused := reply.Failure? && 400 <= reply.status < 500 && reply.status != 429;
      var later := reply.NotConfigured? || (reply.Failure? && reply.status == 429);
      && t.row.lockedBy == None
      && (t.row.status == Done <==> reply.Success? && markOk)
      && (t.row.status == Done ==> t.row == Row(Done, s.row.attempt, None, Other("")))
      && (t.row.status == Retry ==> t.row.note == note)
      && (t.row.status == Dead <==> refused)
      && (At(t, w).Failing? <==> refused)
      && (t.row.status == Retry <==> later)
      && (t.row.status == Uncertain <==> (reply.Success? && !markOk) || (reply.Failure? && !refused && !later))
      && (t.row.status == Uncertain ==> t.row.note == NeedStat)
      && t.row.attempt == if t.row.status == Done || reply.NotConfigured? then s.row.attempt else s.row.attempt + 1
  {
    hide Inv;
    OwnerFacts(s, w);
  }

  /** How a look at the statistics ends: an attempt is never added, and a send needs two looks. */
  lemma HolderChecks(s: Job, w: Worker, found: Statistic)
    requires Inv(s) && Owns(s, w) && At(s, w).Ready? && NeedStatistic(s.row.note)
    ensures var t := Apply(s, Check(w, found));
      var final := found.NotFound? &&
        (s.row.attempt >= 2 || (found.readOk && Latest(s.records).Some? && Latest(s.records).value.kind == Fault5xx));
      && t.row.attempt == s.row.attempt
      && (t.row.status == Done <==> found == Match(true))
      && (t.row.status == Done ==> t.row == Row(Done, s.row.attempt, None, Other("")))
      && (t.row.status == Dead <==> final) && (At(t, w).Failing? <==> final)
      && (At(t, w).Sending? <==> found.NotFound? && !final && s.row.note == NeedRetry)
      && (At(t, w).Sending? ==> t.row == s.row)
      && (t.row.status == Uncertain ==> (t.row.note == NeedRetry <==> found.NotFound?) && NeedStatistic(t.row.note))
  {
    hide Inv, Latest;
    OwnerFacts(s, w);
  }

  /** A denial by a local limit, or a missing adapter: the job waits for another try, at no cost. */
  lemma HolderThrottles(s: Job, w: Worker, note: Note)
    requires Inv(s) && Owns(s, w) && At(s, w).Touched?
    ensures var t := Apply(s, Throttle(w, note));
      && t.row == Row(Retry, s.row.attempt, None, note) && Claimable(t.row.status)
      && At(t, w) == Idle && t.marks == s.marks
  {
    hide Inv;
    OwnerFacts(s, w);
  }

  /** A message or client that is gone: the job is dead, and nothing is marked. */
  lemma HolderDrops(s: Job, w: Worker, note: Note)
    requires Inv(s) && Owns(s, w) && At(s, w).Ready?
    ensures var t := Apply(s, Drop(w, note));
      t.row == Row(Dead, s.row.attempt, None, note) && At(t, w) == Idle && t.marks == s.marks
  {
    hide Inv;
    OwnerFacts(s, w);
  }

  /** The worker that made the job dead marks the message failed, once, and is through. */
  lemma ParkerMarks(s: Job, w: Worker)
    requires At(s, w).Failing?
    ensures var t := Apply(s, MarkFailed(w)); t.marks == s.marks + [At(s, w).k] && At(t, w) == Idle && t.row == s.row
  {
  }

  /** A stale lock taken back leaves the job in doubt, with at least one attempt counted. */
  lemma ReclaimDoubts(s: Job)
    ensures s.row.status == Processing ==>
      Apply(s, Reclaim).row == Row(Uncertain, if s.row.attempt < 1 then 1 else s.row.attempt, None, NeedStat)
    ensures s.row.status != Processing ==> Apply(s, Reclaim) == s
  {
  }

  // ---------------------------------------------------------------- how a job ends

  /** The provider refused the send for good. */
  predicate RefusedAnswer(pc: Pc) {
    pc.Answered? && pc.reply.Failure? && 400 <= pc.reply.status < 500 && pc.reply.status != 429
  }

  /** What makes a job dead: nothing to send, a refusal, or nothing found and no send left. */
  predicate Kills(s: Job, step: Step) {
    && !step.Reclaim? && Owns(s, step.w)
    && (|| (step.Drop? && At(s, step.w).Ready?)
        || (step.Finish? && RefusedAnswer(At(s, step.w)))
        || (step.Check? && At(s, step.w).Ready? && step.found.NotFound? &&
            (s.row.attempt >= 2 ||
             (step.found.readOk && Latest(s.records).Some? && Latest(s.records).value.kind == Fault5xx))))
  }

  /** What makes a job done: an accepted send that was marked, or a match in the statistics. */
  predicate Ends(s: Job, step: Step) {
    && !step.Reclaim? && Owns(s, step.w)
    && (|| (step.Finish? && At(s, step.w).Answered? && At(s, step.w).reply.Success? && step.markOk)
        || (step.Check? && At(s, step.w).Ready? && step.found == Match(true)))
  }

  lemma FinalOnlyBy(s: Job, step: Step)
    requires Inv(s) && !Final(s.row.status)
    ensures Apply(s, step).row.status == Dead ==> Kills(s, step)
    ensures Apply(s, step).row.status == Done ==> Ends(s, step)
  {
    hide Inv, Latest, Close;
    if !step.Reclaim? && !At(s, step.w).Idle? {
      OwnerFacts(s, step.w);
    }
  }

  lemma {:induction false} RunSnoc(s: Job, steps: seq<Step>, last: Step)
    ensures Run(s, steps + [last]) == Apply(Run(s, steps), last)
    decreases |steps|
  {
    hide Apply;
    RunJoin(s, steps, [last]);
    assert [last][1..] == [];
    assert Run(Run(s, steps), [last]) == Run(Apply(Run(s, steps), last), []);
  }

  ghost predicate KilledAt(steps: seq<Step>, k: int) {
    0 <= k < |steps| && Kills(Run(FRESH, steps[..k]), steps[k])
  }

  ghost predicate EndedAt(steps: seq<Step>, k: int) {
    0 <= k < |steps| && Ends(Run(FRESH, steps[..k]), steps[k])
  }

  /** In every run, a job that is dead or done was made so by one of those steps. */
  lemma {:induction false} FinalHasCause(steps: seq<Step>)
    ensures Run(FRESH, steps).row.status == Dead ==> exists k :: KilledAt(steps, k)
    ensures Run(FRESH, steps).row.status == Done ==> exists k :: EndedAt(steps, k)
    decreases |steps|
  {
    hide Apply, Kills, Ends, Run;
    if steps == [] {
      NoSteps(FRESH);
    } else {
      var n := |steps| - 1;
      var init, last := steps[..n], steps[n];
      assert steps == init + [last];
      RunSnoc(FRESH, init, last);
      FinalHasCause(init);
      FreshInv();
      RunKeepsInv(FRESH, init);
      var s := Run(FRESH, init);
      if Final(s.row.status) {
        FinalStep(s, last);
        if s.row.status == Dead {
          var k :| KilledAt(init, k);
          assert init[..k] == steps[..k];
          assert KilledAt(steps, k);
        } else {
          var k :| EndedAt(init, k);
          assert init[..k] == steps[..k];
          assert EndedAt(steps, k);
        }
      } else {
        FinalOnlyBy(s, last);
        if Run(FRESH, steps).row.status == Dead {
          assert KilledAt(steps, n);
        } else if Run(FRESH, steps).row.status == Done {
          assert EndedAt(steps, n);
        }
      }
    }
  }
}
