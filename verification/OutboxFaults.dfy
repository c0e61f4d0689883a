/**
 * When can a POST follow a 5xx answer that the lock holder recorded?
 *
 * The design says never. The code meets that exactly when no other worker stands between
 * its lock touch and its POST, and the job's attempt count or an undisturbed latest record
 * closes the way back; both conditions are stated on the state in which the 5xx arrives.
 */
module OutboxFaults {
  import opened Common
  import opened Outbox
  import opened OutboxRuns
  import opened OutboxSafety

  // ---------------------------------------------------------------- runs that send

  predicate Sends(s: Job, step: Step) {
    step.Post? && At(s, step.w).Touched?
  }

  predicate RunSends(s: Job, steps: seq<Step>)
    decreases |steps|
  {
    steps != [] && (Sends(s, steps[0]) || RunSends(Apply(s, steps[0]), steps[1..]))
  }

  /** The read of the latest attempt, if the step makes one, succeeds. */
  predicate ReadOk(step: Step) {
    step.Check? && step.found.NotFound? ==> step.found.readOk
  }

  predicate ReadsOk(steps: seq<Step>) {
    forall i :: 0 <= i < |steps| ==> ReadOk(steps[i])
  }

  lemma PostedBySending(s: Job, step: Step, w: Worker)
    requires Apply(s, step) != s && At(Apply(s, step), w).Posted? && !At(s, w).Posted?
    ensures Sends(s, step)
  {
    hide CheckUncertain, FinishSend, Classify, Close, NeedStatistic, Park;
    match step {
      case Check(v, found) =>
        if At(s, v).Ready? && At(s, v).k < |s.claims| {
          CheckPcs(s, v, At(s, v).k, found, w);
        }
      case Finish(v, markOk, note) =>
        if At(s, v).Answered? && At(s, v).k < |s.claims| {
          FinishPcs(s, v, At(s, v).k, At(s, v).reply, markOk, note, w);
        }
      case Drop(v, note) => ParkPcs(s, v, Dead, if At(s, v).Ready? && At(s, v).k < |s.claims|
        then s.claims[At(s, v).k].attempt else 0, note);
      case Throttle(v, note) => ParkPcs(s, v, Retry, if At(s, v).Touched? && At(s, v).k < |s.claims|
        then s.claims[At(s, v).k].attempt else 0, note);
      case _ =>
    }
  }

  lemma ParkPcs(s: Job, v: Worker, status: Status, attempt: nat, note: Note)
    ensures Park(s, v, status, attempt, note).pcs == s.pcs
  {
  }

  /** Neither the check nor the end of a send leaves its worker waiting for an answer. */
  lemma CheckPcs(s: Job, v: Worker, k: nat, found: Statistic, w: Worker)
    requires k < |s.claims|
    ensures At(CheckUncertain(s, v, k, found), w).Posted? ==> v != w && At(s, w).Posted?
  {
    hide AllowUncertainRetry, LatestKind, Close;
  }

  lemma FinishPcs(s: Job, v: Worker, k: nat, reply: Reply, markOk: bool, note: Note, w: Worker)
    requires k < |s.claims|
    ensures At(FinishSend(s, v, k, reply, markOk, note), w).Posted? ==> v != w && At(s, w).Posted?
  {
    hide Classify, Close;
  }

  lemma {:induction false} PostedAfterRun(s: Job, steps: seq<Step>, w: Worker)
    requires At(Run(s, steps), w).Posted? && !At(s, w).Posted?
    ensures RunSends(s, steps)
    decreases |steps|
  {
    hide Apply;
    var t := Apply(s, steps[0]);
    if At(t, w).Posted? {
      PostedBySending(s, steps[0], w);
    } else {
      PostedAfterRun(t, steps[1..], w);
    }
  }

  lemma {:induction false} LaterSends(s: Job, a: seq<Step>, b: seq<Step>)
    requires RunSends(Run(s, a), b)
    ensures RunSends(s, a + b)
    decreases |a|
  {
    hide Apply;
    if a == [] {
      assert a + b == b;
    } else {
      assert (a + b)[1..] == a[1..] + b;
      LaterSends(Apply(s, a[0]), a[1..], b);
    }
  }

  // ---------------------------------------------------------------- the quiet states

  predicate NoneTouched(s: Job) {
    forall v :: v in s.pcs ==> !s.pcs[v].Touched?
  }

  /** The lock holder is through with its send, or is about to look at the statistics. */
  predicate HolderOk(pc: Pc, note: Note) {
    || pc.Idle?
    || (pc.Answered? && Classify(pc.reply) == Fault5xx)
    || (pc.Ready? && NeedStatistic(note))
  }

  predicate Settling(s: Job) {
    if s.row.status == Processing
    then s.row.lockedBy.Some? && HolderOk(At(s, s.row.lockedBy.value), s.row.note)
    else Final(s.row.status) || NeedStatistic(s.row.note)
  }

  /** The 5xx is the latest attempt, and no send under way can be recorded over it. */
  predicate Solid(s: Job) {
    && Latest(s.records).Some?
    && Latest(s.records).value.kind == Fault5xx
    && forall v :: v in s.pcs && s.pcs[v].Posted? && s.pcs[v].k < |s.claims| ==>
         s.claims[s.pcs[v].k].attempt + 1 < Latest(s.records).value.attempt
  }

  predicate Quiet(s: Job) {
    NoneTouched(s) && Settling(s) && (Final(s.row.status) || s.row.attempt >= MAX_UNCERTAIN_SENDS || Solid(s))
  }

  /** Attempts never fall along quiet steps, so a job past the limit stays past it. */
  predicate QuietNext(s: Job, t: Job) {
    Quiet(t) && t.row.attempt >= s.row.attempt
  }

  lemma HolderCloses(s: Job, w: Worker, row: Row, end: End, pc: Pc)
    requires Inv(s) && Quiet(s) && Owns(s, w)
    requires !row.status.Processing? && row.attempt >= s.row.attempt && (Final(row.status) || NeedStatistic(row.note))
    requires pc.Idle? || pc.Failing?
    ensures QuietNext(s, Go(s.(row := row, claims := Close(s.claims, end)), w, pc))
  {
  }

  lemma StalePc(s: Job, w: Worker, pc: Pc)
    requires Inv(s) && Quiet(s)
    requires pc.Idle? || (!Owns(s, w) && (pc.Sending? || pc.Answered? || pc.Failing?))
    ensures QuietNext(s, Go(s, w, pc))
  {
  }

  /** Park or not, the worker ends idle: quiet either way. */
  lemma QuietPark(s: Job, w: Worker, status: Status, attempt: nat, note: Note)
    requires Inv(s) && Quiet(s) && !status.Processing?
    requires Owns(s, w) ==> attempt >= s.row.attempt && (Final(status) || NeedStatistic(note))
    ensures QuietNext(s, Go(Park(s, w, status, attempt, note), w, Idle))
  {
    if Owns(s, w) {
      HolderCloses(s, w, Row(status, attempt, None, note), Parked(status), Idle);
    } else {
      StalePc(s, w, Idle);
    }
  }

  lemma QuietComplete(s: Job, w: Worker)
    requires Inv(s) && Quiet(s)
    ensures QuietNext(s, Go(Complete(s, w), w, Idle))
  {
    if Owns(s, w) {
      HolderCloses(s, w, Row(Done, s.row.attempt, None, Other("")), Completed, Idle);
    } else {
      StalePc(s, w, Idle);
    }
  }

  lemma QuietFailDead(s: Job, w: Worker, k: nat, attempt: nat, note: Note)
    requires Inv(s) && Quiet(s) && (Owns(s, w) ==> attempt >= s.row.attempt)
    ensures QuietNext(s, FailDead(s, w, k, attempt, note))
  {
    if Owns(s, w) {
      HolderCloses(s, w, Row(Dead, attempt, None, note), Parked(Dead), Failing(k));
    } else {
      StalePc(s, w, Idle);
    }
  }

  lemma QuietCheck(s: Job, w: Worker, found: Statistic)
    requires Inv(s) && Quiet(s) && (ReadOk(Check(w, found)) || s.row.attempt >= MAX_UNCERTAIN_SENDS)
    ensures QuietNext(s, Apply(s, Check(w, found)))
  {
    hide Inv;
    if At(s, w).Ready? {
      var k := At(s, w).k;
      OwnerFacts(s, w);
      var c := s.claims[k];
      if NeedStatistic(c.note) {
        match found
        case LookupError => QuietPark(s, w, Uncertain, c.attempt, NeedStat);
        case Match(applied) =>
          if applied {
            QuietComplete(s, w);
          } else {
            QuietPark(s, w, Uncertain, c.attempt, NeedStat);
          }
        case NotFound(readOk) =>
          if !AllowUncertainRetry(c.attempt, LatestKind(s.records, readOk)) {
            QuietFailDead(s, w, k, c.attempt, Other("uncertain: not found in statistic after retry"));
          } else if c.note == NeedRetry {
            StalePc(s, w, Sending(k));
          } else {
            QuietPark(s, w, Uncertain, c.attempt, NeedRetry);
          }
      }
    }
  }

  lemma QuietFinish(s: Job, w: Worker, markOk: bool, note: Note)
    requires Inv(s) && Quiet(s)
    ensures QuietNext(s, Apply(s, Finish(w, markOk, note)))
  {
    hide Inv;
    if At(s, w).Answered? {
      OwnerFacts(s, w);
      var c := s.claims[At(s, w).k];
      if Owns(s, w) {
        QuietPark(s, w, Uncertain, c.attempt + 1, NeedStat);
      } else {
        StalePc(s, w, Idle);
      }
    }
  }

  lemma LatestAfter(records: seq<Record>, r: Record)
    ensures Latest(records + [r]) ==
            if Latest(records).Some? && Latest(records).value.attempt > r.attempt then Latest(records) else Some(r)
  {
    assert (records + [r])[..|records|] == records;
  }

  lemma QuietAnswer(s: Job, w: Worker, reply: Reply, recorded: bool)
    requires Inv(s) && Quiet(s)
    ensures QuietNext(s, Apply(s, Answer(w, reply, recorded)))
  {
    hide Inv, Latest, Classify;
    if At(s, w).Posted? {
      OwnerFacts(s, w);
      var k := At(s, w).k;
      var r := Record(s.claims[k].attempt + 1, Classify(reply));
      LatestAfter(s.records, r);
      var t := Go(s, w, Answered(k, reply)).(records := if recorded then s.records + [r] else s.records);
      assert Apply(s, Answer(w, reply, recorded)) == t;
      assert !Owns(s, w);
      assert NoneTouched(t);
      if Solid(s) {
        SolidStays(s, t, w);
      }
    }
  }

  lemma SolidStays(s: Job, t: Job, w: Worker)
    requires Solid(s) && t.claims == s.claims && Latest(t.records) == Latest(s.records)
    requires At(t, w).Answered? && forall v :: v in t.pcs && v != w ==> v in s.pcs && t.pcs[v] == s.pcs[v]
    ensures Solid(t)
  {
    hide Latest;
  }

  lemma QuietClaim(s: Job, w: Worker)
    requires Inv(s) && Quiet(s)
    ensures QuietNext(s, Apply(s, ClaimJob(w)))
  {
  }

  lemma QuietOther(s: Job, step: Step)
    requires Inv(s) && Quiet(s)
    requires step.Drop? || step.Begin? || step.Touch? || step.MarkFailed?
    ensures QuietNext(s, Apply(s, step))
  {
    hide Inv;
    var w := step.w;
    if !At(s, w).Idle? {
      OwnerFacts(s, w);
      if step.Drop? && At(s, w).Ready? {
        QuietPark(s, w, Dead, s.claims[At(s, w).k].attempt, step.note);
      } else if step.Begin? && At(s, w).Ready? && !NeedStatistic(s.claims[At(s, w).k].note) {
        StalePc(s, w, Sending(At(s, w).k));
      } else if (step.Touch? && At(s, w).Sending?) || (step.MarkFailed? && At(s, w).Failing?) {
        StalePc(s, w, Idle);
      }
    }
  }

  lemma QuietReclaim(s: Job)
    requires Inv(s) && Quiet(s)
    ensures QuietNext(s, Apply(s, Reclaim))
  {
  }

  lemma QuietStep(s: Job, step: Step)
    requires Inv(s) && Quiet(s) && (ReadOk(step) || s.row.attempt >= MAX_UNCERTAIN_SENDS)
    ensures QuietNext(s, Apply(s, step)) && !Sends(s, step)
  {
    hide Inv;
    match step
    case ClaimJob(w) => QuietClaim(s, w);
    case Check(w, found) => QuietCheck(s, w, found);
    case Answer(w, reply, recorded) => QuietAnswer(s, w, reply, recorded);
    case Finish(w, markOk, note) => QuietFinish(s, w, markOk, note);
    case Abandon(w) => StalePc(s, w, Idle);
    case Reclaim => QuietReclaim(s);
    case Throttle(w, note) =>
    case Post(w) =>
    case _ => QuietOther(s, step);
  }

  lemma {:induction false} QuietRun(s: Job, steps: seq<Step>)
    requires Inv(s) && Quiet(s) && (ReadsOk(steps) || s.row.attempt >= MAX_UNCERTAIN_SENDS)
    ensures !RunSends(s, steps)
    decreases |steps|
  {
    hide Inv, Quiet, Apply;
    if steps != [] {
      QuietStep(s, steps[0]);
      StepKeepsInv(s, steps[0]);
      QuietRun(Apply(s, steps[0]), steps[1..]);
    }
  }

  // ---------------------------------------------------------------- the exact conditions

  /** The lock holder is about to receive, and record, a 5xx. */
  predicate Faulted(s: Job, w: Worker, reply: Reply) {
    Inv(s) && Owns(s, w) && At(s, w).Posted? && Classify(reply) == Fault5xx
  }

  function AfterFault(s: Job, w: Worker, reply: Reply): Job {
    Apply(s, Answer(w, reply, true))
  }

  /** Some worker stands between its lock touch and its POST. */
  ghost predicate SomeTouched(s: Job) {
    exists v :: v in s.pcs && s.pcs[v].Touched?
  }

  predicate AtOne(s: Job, v: Worker) {
    At(s, v).Posted? && At(s, v).k < |s.claims| && s.claims[At(s, v).k].attempt == 1
  }

  /** A worker without the lock still waits for the answer to a send it made at attempt one. */
  ghost predicate LateAnswer(s: Job, w: Worker) {
    exists v :: v in s.pcs && v != w && AtOne(s, v)
  }

  lemma TouchedSends(s: Job, v: Worker)
    requires At(s, v).Touched?
    ensures RunSends(s, [Post(v)]) && ReadsOk([Post(v)])
  {
  }

  lemma RunOne(s: Job, a: Step)
    ensures Run(s, [a]) == Apply(s, a)
  {
  }

  lemma RetryPath(s: Job, w: Worker, readOk: bool)
    requires s.row == Row(Uncertain, 1, None, NeedStat) && At(s, w) == Idle
    requires LatestKind(s.records, readOk) != Some(Fault5xx)
    ensures RunSends(s, Resend(w, readOk))
  {
    hide Run, RunSends;
    ResendAfterOne(s, w, readOk);
    PostedAfterRun(s, Resend(w, readOk), w);
  }

  lemma RetryAfterLoss(s: Job, w: Worker, readOk: bool)
    requires s.row.status == Processing && s.row.attempt <= 1
    requires LatestKind(s.records, readOk) != Some(Fault5xx)
    ensures RunSends(s, [Abandon(w), Reclaim] + Resend(w, readOk))
  {
    hide RunSends, Run, LatestKind;
    RunTwo(s, Abandon(w), Reclaim);
    RetryPath(Run(s, [Abandon(w), Reclaim]), w, readOk);
    LaterSends(s, [Abandon(w), Reclaim], Resend(w, readOk));
  }

  /** With a failed read of the latest attempt, a job still below the limit is sent again. */
  lemma MaskedByFailedRead(s: Job, w: Worker, reply: Reply)
    requires Faulted(s, w, reply) && s.row.attempt <= 1
    ensures RunSends(AfterFault(s, w, reply), [Abandon(w), Reclaim] + Resend(w, false))
  {
    hide RunSends, Run;
    var t := AfterFault(s, w, reply);
    OwnerFacts(s, w);
    RetryAfterLoss(t, w, false);
  }

  lemma {:induction false} LatestBounded(records: seq<Record>, m: nat)
    requires forall i :: 0 <= i < |records| ==> records[i].attempt <= m
    ensures Latest(records).Some? ==> Latest(records).value.attempt <= m
  {
    if records != [] {
      LatestBounded(records[..|records| - 1], m);
    }
  }

  lemma Overwritten(s: Job, w: Worker, reply: Reply, v: Worker)
    requires Faulted(s, w, reply) && s.row.attempt == 1 && v != w && AtOne(s, v)
    ensures var t := AfterFault(s, w, reply);
      var u := Apply(t, Answer(v, Failure(0, true), true));
      u.row == s.row && At(u, w).Answered? && LatestKind(u.records, true) == Some(Timeout)
  {
    hide Latest, Inv;
    var t := AfterFault(s, w, reply);
    OwnerFacts(s, w);
    var u := Apply(t, Answer(v, Failure(0, true), true));
    assert u.records == s.records + [Record(2, Fault5xx)] + [Record(2, Timeout)];
    LatestIsNew(s, Record(2, Fault5xx));
    LatestAfter(s.records + [Record(2, Fault5xx)], Record(2, Timeout));
  }

  /** A late answer of the same attempt number is recorded over the 5xx. */
  lemma MaskedByLateAnswer(s: Job, w: Worker, reply: Reply, v: Worker)
    requires Faulted(s, w, reply) && s.row.attempt == 1 && v != w && AtOne(s, v)
    ensures RunSends(AfterFault(s, w, reply), [Answer(v, Failure(0, true), true)] + ([Abandon(w), Reclaim]
        + Resend(w, true)))
  {
    hide RunSends, Run, Inv, Classify;
    var t := AfterFault(s, w, reply);
    var u := Apply(t, Answer(v, Failure(0, true), true));
    Overwritten(s, w, reply, v);
    RunOne(t, Answer(v, Failure(0, true), true));
    RetryAfterLoss(u, w, true);
    LaterSends(t, [Answer(v, Failure(0, true), true)], [Abandon(w), Reclaim] + Resend(w, true));
  }

  lemma StaleSends(s: Job, w: Worker, v: Worker)
    requires Inv(s) && Owns(s, w) && v != w && At(s, v).Posted?
    ensures At(s, v).k < |s.claims| && s.claims[At(s, v).k].attempt <= s.row.attempt && s.row.attempt >= 1
  {
    assert PcOk(s, v, s.pcs[v]);
  }

  lemma SolidAfterFault(s: Job, w: Worker, reply: Reply)
    requires Faulted(s, w, reply) && s.row.attempt < MAX_UNCERTAIN_SENDS && !(s.row.attempt == 1 && LateAnswer(s, w))
    ensures Solid(AfterFault(s, w, reply))
  {
    hide Latest, Inv, Classify;
    var t := AfterFault(s, w, reply);
    OwnerFacts(s, w);
    var m := s.row.attempt + 1;
    LatestIsNew(s, Record(m, Fault5xx));
    forall v | v in t.pcs && t.pcs[v].Posted? && t.pcs[v].k < |t.claims| ensures t.claims[t.pcs[v].k].attempt + 1 < m {
      StaleSends(s, w, v);
      assert s.row.attempt == 1 ==> !AtOne(s, v);
    }
  }

  lemma LatestIsNew(s: Job, r: Record)
    requires Inv(s) && r.attempt == s.row.attempt + 1
    ensures Latest(s.records + [r]) == Some(r)
  {
    hide Latest;
    LatestAfter(s.records, r);
    LatestBounded(s.records, r.attempt);
  }

  lemma QuietAfterFault(s: Job, w: Worker, reply: Reply)
    requires Faulted(s, w, reply) && !SomeTouched(s)
    requires s.row.attempt >= MAX_UNCERTAIN_SENDS || !(s.row.attempt == 1 && LateAnswer(s, w))
    ensures Inv(AfterFault(s, w, reply)) && Quiet(AfterFault(s, w, reply))
  {
    hide Inv, Latest, Classify, LateAnswer, Solid;
    OwnerFacts(s, w);
    AnswerKeepsInv(s, w, reply, true);
    if s.row.attempt < MAX_UNCERTAIN_SENDS {
      SolidAfterFault(s, w, reply);
    }
  }

  lemma StillTouched(s: Job, w: Worker, reply: Reply, v: Worker)
    requires At(s, v).Touched?
    ensures At(AfterFault(s, w, reply), v).Touched?
  {
  }

  /** Some continuation sends again. */
  ghost predicate MaySend(s: Job) {
    exists steps :: RunSends(s, steps)
  }

  lemma MaySendBy(s: Job, steps: seq<Step>)
    requires RunSends(s, steps)
    ensures MaySend(s)
  {
  }

  lemma AttemptAfterFault(s: Job, w: Worker, reply: Reply)
    ensures AfterFault(s, w, reply).row == s.row
  {
  }

  /** Over all runs: a send may still follow exactly while the attempts are not used up. */
  lemma SendAfterFault(s: Job, w: Worker, reply: Reply)
    requires Faulted(s, w, reply)
    ensures MaySend(AfterFault(s, w, reply)) <==> SomeTouched(s) || s.row.attempt <= 1
  {
    hide Inv, Quiet, RunSends, AfterFault;
    var t := AfterFault(s, w, reply);
    AttemptAfterFault(s, w, reply);
    if SomeTouched(s) {
      var v :| v in s.pcs && s.pcs[v].Touched?;
      StillTouched(s, w, reply, v);
      TouchedSends(t, v);
      MaySendBy(t, [Post(v)]);
    } else if s.row.attempt <= 1 {
      MaskedByFailedRead(s, w, reply);
      MaySendBy(t, [Abandon(w), Reclaim] + Resend(w, false));
    } else {
      QuietAfterFault(s, w, reply);
      forall steps ensures !RunSends(t, steps) {
        QuietRun(t, steps);
      }
    }
  }

  lemma LateReadsOk(v: Worker, w: Worker)
    ensures ReadsOk([Answer(v, Failure(0, true), true)] + ([Abandon(w), Reclaim] + Resend(w, true)))
  {
  }

  /** Over runs whose reads of the latest attempt succeed, only a stale worker can send again. */
  lemma SendAfterFaultReadsOk(s: Job, w: Worker, reply: Reply)
    requires Faulted(s, w, reply)
    ensures (exists steps :: ReadsOk(steps) && RunSends(AfterFault(s, w, reply), steps))
       <==> SomeTouched(s) || (s.row.attempt == 1 && LateAnswer(s, w))
  {
    hide Inv, Quiet, RunSends, ReadsOk;
    var t := AfterFault(s, w, reply);
    if SomeTouched(s) {
      var v :| v in s.pcs && s.pcs[v].Touched?;
      TouchedSends(t, v);
    } else if s.row.attempt == 1 && LateAnswer(s, w) {
      var v :| v in s.pcs && v != w && AtOne(s, v);
      MaskedByLateAnswer(s, w, reply, v);
      LateReadsOk(v, w);
    } else {
      QuietAfterFault(s, w, reply);
      forall steps | ReadsOk(steps) ensures !RunSends(t, steps) {
        QuietRun(t, steps);
      }
    }
  }

  const SENT: seq<Step> := [ClaimJob(0), Begin(0), Touch(0), Post(0)]

  const STALLED: seq<Step> := [ClaimJob(0), Begin(0), Touch(0), Reclaim]

  lemma RunFour(s: Job, a: Step, b: Step, c: Step, d: Step)
    ensures Run(s, [a, b, c, d]) == Apply(Apply(Apply(Apply(s, a), b), c), d)
  {
    assert [a, b, c, d] == [a, b] + [c, d];
    RunJoin(s, [a, b], [c, d]);
    RunTwo(s, a, b);
    RunTwo(Run(s, [a, b]), c, d);
  }

  /** A run that sends again after the very first answer, a recorded 503. */
  lemma FirstFaultIsNotFinal()
    ensures var s := Run(FRESH, SENT);
      Faulted(s, 0, Failure(503, false)) && MaySend(AfterFault(s, 0, Failure(503, false)))
  {
    hide Run, Inv, MaySend;
    FreshInv();
    RunKeepsInv(FRESH, SENT);
    RunFour(FRESH, ClaimJob(0), Begin(0), Touch(0), Post(0));
    SendAfterFault(Run(FRESH, SENT), 0, Failure(503, false));
  }

  /** And one where every read succeeds, but a worker that lost its lock was already past its touch. */
  lemma StaleWorkerSendsAfterFault()
    ensures var s := Run(Run(FRESH, STALLED), Resend(1, true));
      && Faulted(s, 1, Failure(503, false))
      && exists steps :: ReadsOk(steps) && RunSends(AfterFault(s, 1, Failure(503, false)), steps)
  {
    hide Run, Inv, RunSends, ReadsOk, Apply;
    var s := Run(Run(FRESH, STALLED), Resend(1, true));
    StalledState();
    FreshInv();
    RunKeepsInv(FRESH, STALLED);
    RunKeepsInv(Run(FRESH, STALLED), Resend(1, true));
    ResendAfterOne(Run(FRESH, STALLED), 1, true);
    assert 0 in s.pcs && s.pcs[0].Touched?;
    SendAfterFaultReadsOk(s, 1, Failure(503, false));
  }

  lemma StalledState()
    ensures var s := Run(FRESH, STALLED);
      s.row == Row(Uncertain, 1, None, NeedStat) && s.records == [] && At(s, 0) == Touched(0) && At(s, 1) == Idle
        && |s.claims| == 1
  {
    hide Run;
    RunFour(FRESH, ClaimJob(0), Begin(0), Touch(0), Reclaim);
  }
}
