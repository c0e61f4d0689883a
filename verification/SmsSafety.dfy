/** When the hold of a message that is marked accepted is released all the same, and when not. */
module SmsSafety {
  import opened Common
  import opened Ledger
  import B = Books
  import T = Transactions
  import S = BillingService
  import M = Messages
  import O = Outbox
  import OutboxRuns
  import OutboxSafety
  import opened SmsFlow

  // ---------------------------------------------------------------- the books of the message

  /** The message has its hold, settled or not. */
  predicate Held(b: B.Books, m: Id) {
    m in b.messages && HoldSms(m) in b.keys && b.keys[HoldSms(m)] < |b.ledger|
  }

  function ActionOf(s: Sms): Option<Action> {
    if s.m in s.books.messages then s.books.messages[s.m].action else None
  }

  lemma SettleFrame(s: Sms, a: Action)
    requires Held(s.books, s.m)
    ensures var t := Settle(s, a);
      && Held(t.books, t.m) && t == s.(books := t.books) && t.books.deleted == s.books.deleted
      && ActionOf(t) == if ActionOf(s).None? && !s.books.deleted then Some(a) else ActionOf(s)
  {
    hide Effect;
  }

  lemma ForeignFrame(s: Sms, op: T.Op)
    requires Held(s.books, s.m) && ForeignOp(s, op)
    ensures var t := Next(s, Billing(op));
      && Held(t.books, t.m) && ActionOf(t) == ActionOf(s) && (s.books.deleted ==> t.books.deleted)
      && t == s.(books := t.books)
  {
    hide Effect, Settled, ApplyRelease, ApplyAdjustment;
  }

  /** Every step acts on the books by billing transactions, so they stay in order. */
  lemma StepKeepsBooks(s: Sms, step: SStep)
    requires B.Inv(s.books)
    ensures B.Inv(Next(s, step).books)
  {
    hide B.Inv, T.Step, AcceptedMsg, SeenMsg, FailedMsg, O.Apply, HearsAccepted, LooksUp, JobOnly;
    match step
    case Billing(op) => T.StepKeepsInv(s.books, op);
    case SettleOwed(k) => if k < |s.owed| { T.StepKeepsInv(s.books, T.Settle(s.m, s.owed[k])); }
    case _ => T.StepKeepsInv(s.books, T.Settle(s.m, Capture));
  }

  lemma {:induction false} RunKeepsBooks(s: Sms, steps: seq<SStep>)
    requires B.Inv(s.books)
    ensures B.Inv(Run(s, steps).books)
    decreases |steps|
  {
    hide B.Inv, Next;
    if steps != [] {
      StepKeepsBooks(s, steps[0]);
      RunKeepsBooks(Next(s, steps[0]), steps[1..]);
    }
  }

  // ---------------------------------------------------------------- what may still happen

  /** The message is marked accepted, and its hold was given back. */
  predicate ReleasedThoughAccepted(s: Sms) {
    s.msg.acceptedAt.Some? && ActionOf(s) == Some(Release)
  }

  ghost predicate MayRelease(s: Sms) {
    exists steps :: ReleasedThoughAccepted(Run(s, steps))
  }

  lemma ReleaseBy(s: Sms, steps: seq<SStep>)
    requires ReleasedThoughAccepted(Run(s, steps))
    ensures MayRelease(s)
  {
  }

  lemma ReleaseLater(s: Sms, step: SStep)
    requires MayRelease(Next(s, step))
    ensures MayRelease(s)
  {
    hide Next, ReleasedThoughAccepted;
    var steps :| ReleasedThoughAccepted(Run(Next(s, step), steps));
    assert ([step] + steps)[1..] == steps;
    assert Run(s, [step] + steps) == Run(Next(s, step), steps);
    ReleaseBy(s, [step] + steps);
  }

  ghost predicate SomeFailing(j: O.Job) {
    exists w :: w in j.pcs && j.pcs[w].Failing?
  }

  /** The hold was released, or a way to its release is left. */
  ghost predicate Releasable(s: Sms) {
    || ActionOf(s) == Some(Release)
    || (&& ActionOf(s).None? && !s.books.deleted
        && (!O.Final(s.job.row.status) || SomeFailing(s.job) || Release in s.owed))
  }

  /** The worker has still to hear that the provider has the message. */
  predicate MayMark(s: Sms, w: O.Worker) {
    var pc := O.At(s.job, w);
    || LooksUp(s, w)
    || ((pc.Touched? || pc.Posted?) && pc.k < |s.job.claims| && pc.k !in s.noted)
    || HearsAccepted(s, w)
  }

  ghost predicate SomeMayMark(s: Sms) {
    exists w :: MayMark(s, w)
  }

  /** The message was accepted, or a way to its acceptance is left. */
  ghost predicate Acceptable(s: Sms) {
    s.msg.acceptedAt.Some? || (M.Open(s.msg.status) && (!O.Final(s.job.row.status) || SomeMayMark(s)))
  }

  /** Only claims that exist have been noted; true of every run. */
  predicate WellNoted(s: Sms) {
    forall k :: k in s.noted ==> k < |s.job.claims|
  }

  predicate Reached(msg: M.Msg) {
    msg.status in {M.Accepted, M.Sent, M.Delivered} ==> msg.acceptedAt.Some?
  }

  /** What every run from a queued message with its hold keeps. */
  predicate Ready(s: Sms) {
    Held(s.books, s.m) && WellNoted(s) && Reached(s.msg)
  }

  lemma ClaimsGrow(j: O.Job, step: O.Step)
    ensures |O.Apply(j, step).claims| >= |j.claims|
  {
    hide O.Classify, O.AllowUncertainRetry, O.LatestKind, O.NeedStatistic;
  }

  lemma SendKeeps(s: Sms, o: O.Step)
    requires Ready(s) && JobOnly(s, o)
    ensures var t := Next(s, Send(o)); t == s.(job := O.Apply(s.job, o)) && Ready(t)
  {
    hide O.Apply, JobOnly, Held;
    ClaimsGrow(s.job, o);
  }

  // ---------------------------------------------------------------- ways to a release

  /** The message was accepted, and its hold is still open. */
  predicate Uncaptured(s: Sms) {
    s.msg.acceptedAt.Some? && Ready(s) && ActionOf(s).None? && !s.books.deleted
  }

  lemma OwedReleases(s: Sms, k: nat)
    requires Uncaptured(s) && k < |s.owed| && s.owed[k] == Release
    ensures MayRelease(s)
  {
    hide T.Step;
    SettleFrame(s, Release);
    var t := Next(s, SettleOwed(k));
    assert Run(t, []) == t;
    ReleaseBy(t, []);
    ReleaseLater(s, SettleOwed(k));
  }

  lemma MarkingKeepsClaims(j: O.Job, w: O.Worker)
    ensures O.Apply(j, O.MarkFailed(w)).claims == j.claims && O.Apply(j, O.MarkFailed(w)).row == j.row
  {
  }

  lemma FailingReleases(s: Sms, w: O.Worker)
    requires Uncaptured(s) && O.At(s.job, w).Failing?
    ensures MayRelease(s)
  {
    hide O.Apply, T.Step, MayRelease;
    MarkingKeepsClaims(s.job, w);
    var step := FailMark(w, false, 0);
    OwedReleases(Next(s, step), |s.owed|);
    ReleaseLater(s, step);
  }

  const REFUSED: O.Reply := O.Failure(400, false)

  /** After a job-only step the release may still come if it may from the state it leads to. */
  lemma ReleaseAfter(s: Sms, o: O.Step)
    requires Uncaptured(s) && JobOnly(s, o)
    requires Uncaptured(s.(job := O.Apply(s.job, o))) ==> MayRelease(s.(job := O.Apply(s.job, o)))
    ensures MayRelease(s)
  {
    hide O.Apply, MayRelease, JobOnly;
    SendKeeps(s, o);
    ReleaseLater(s, Send(o));
  }

  lemma FromAnswered(s: Sms)
    requires Uncaptured(s) && O.Owns(s.job, 0) && O.At(s.job, 0).Answered? && O.At(s.job, 0).reply == REFUSED
    requires O.At(s.job, 0).k < |s.job.claims|
    ensures MayRelease(s)
  {
    hide MayRelease, Held, WellNoted;
    var step := O.Finish(0, false, O.NeedStat);
    var t := s.(job := O.Apply(s.job, step));
    if Uncaptured(t) {
      FailingReleases(t, 0);
    }
    ReleaseAfter(s, step);
  }

  lemma FromTouched(s: Sms)
    requires Uncaptured(s) && O.Owns(s.job, 0) && O.At(s.job, 0).Touched? && O.At(s.job, 0).k < |s.job.claims|
    ensures MayRelease(s)
  {
    hide MayRelease, Held, WellNoted;
    var post, answer := O.Post(0), O.Answer(0, REFUSED, true);
    var t := s.(job := O.Apply(s.job, post));
    if Uncaptured(t) {
      var u := t.(job := O.Apply(t.job, answer));
      if Uncaptured(u) {
        FromAnswered(u);
      }
      ReleaseAfter(t, answer);
    }
    ReleaseAfter(s, post);
  }

  lemma FromSending(s: Sms)
    requires Uncaptured(s) && O.Owns(s.job, 0) && O.At(s.job, 0).Sending? && O.At(s.job, 0).k < |s.job.claims|
    ensures MayRelease(s)
  {
    hide MayRelease, Held, WellNoted;
    var t := s.(job := O.Apply(s.job, O.Touch(0)));
    if Uncaptured(t) {
      FromTouched(t);
    }
    ReleaseAfter(s, O.Touch(0));
  }

  lemma FromReady(s: Sms)
    requires Uncaptured(s) && O.Owns(s.job, 0) && O.At(s.job, 0).Ready? && O.At(s.job, 0).k < |s.job.claims|
    requires O.At(s.job, 0).k !in s.noted && s.job.claims[O.At(s.job, 0).k].note != O.NeedStat
    ensures MayRelease(s)
  {
    hide MayRelease, O.LatestKind, Held, WellNoted;
    var k := O.At(s.job, 0).k;
    var step := if O.NeedStatistic(s.job.claims[k].note) then O.Check(0, O.NotFound(true)) else O.Begin(0);
    var t := s.(job := O.Apply(s.job, step));
    if Uncaptured(t) {
      if O.At(t.job, 0).Failing? {
        FailingReleases(t, 0);
      } else {
        FromSending(t);
      }
    }
    ReleaseAfter(s, step);
  }

  lemma FromClaimable(s: Sms)
    requires Uncaptured(s) && O.Claimable(s.job.row.status) && O.At(s.job, 0) == O.Idle && s.job.row.note != O.NeedStat
    ensures MayRelease(s)
  {
    hide MayRelease, Held;
    var t := s.(job := O.Apply(s.job, O.ClaimJob(0)));
    if Uncaptured(t) {
      FromReady(t);
    }
    ReleaseAfter(s, O.ClaimJob(0));
  }

  /** With the marker "look", one look that finds nothing only moves it on, or ends the job. */
  lemma FromWaiting(s: Sms)
    requires Uncaptured(s) && O.Claimable(s.job.row.status) && O.At(s.job, 0) == O.Idle && s.job.row.note == O.NeedStat
    ensures MayRelease(s)
  {
    hide MayRelease, Held;
    var t := s.(job := O.Apply(s.job, O.ClaimJob(0)));
    assert O.At(t.job, 0) == O.Ready(|s.job.claims|) && |s.job.claims| !in s.noted;
    if Uncaptured(t) {
      FromLooking(t);
    }
    ReleaseAfter(s, O.ClaimJob(0));
  }

  lemma FromLooking(s: Sms)
    requires Uncaptured(s) && O.Owns(s.job, 0) && O.At(s.job, 0).Ready? && O.At(s.job, 0).k == |s.job.claims| - 1
    requires O.At(s.job, 0).k !in s.noted && s.job.claims[O.At(s.job, 0).k].note == O.NeedStat
    ensures MayRelease(s)
  {
    hide MayRelease, O.LatestKind, Held, WellNoted;
    var look := O.Check(0, O.NotFound(true));
    var t := s.(job := O.Apply(s.job, look));
    if Uncaptured(t) {
      if O.At(t.job, 0).Failing? {
        FailingReleases(t, 0);
      } else {
        FromClaimable(t);
      }
    }
    ReleaseAfter(s, look);
  }

  /** From every job that is neither done nor dead some run fails the message and releases its hold. */
  lemma OpenJobReleases(s: Sms)
    requires Uncaptured(s) && !O.Final(s.job.row.status)
    ensures MayRelease(s)
  {
    hide MayRelease, Held, WellNoted;
    var t := s.(job := O.Apply(s.job, O.Abandon(0)));
    if Uncaptured(t) {
      IdleReleases(t);
    }
    ReleaseAfter(s, O.Abandon(0));
  }

  lemma IdleReleases(s: Sms)
    requires Uncaptured(s) && !O.Final(s.job.row.status) && O.At(s.job, 0) == O.Idle
    ensures MayRelease(s)
  {
    hide MayRelease, Held, WellNoted;
    if s.job.row.status == O.Processing {
      var t := s.(job := O.Apply(s.job, O.Reclaim));
      if Uncaptured(t) {
        FromWaiting(t);
      }
      ReleaseAfter(s, O.Reclaim);
    } else if s.job.row.note == O.NeedStat {
      FromWaiting(s);
    } else {
      FromClaimable(s);
    }
  }

  lemma AcceptedReleases(s: Sms)
    requires s.msg.acceptedAt.Some? && Ready(s) && Releasable(s)
    ensures MayRelease(s)
  {
    hide MayRelease, O.Final, Held, WellNoted;
    if ActionOf(s) == Some(Release) {
      assert Run(s, []) == s;
      ReleaseBy(s, []);
    } else if !O.Final(s.job.row.status) {
      OpenJobReleases(s);
    } else if SomeFailing(s.job) {
      var w :| w in s.job.pcs && s.job.pcs[w].Failing?;
      FailingReleases(s, w);
    } else {
      var k :| 0 <= k < |s.owed| && s.owed[k] == Release;
      OwedReleases(s, k);
    }
  }

  // ---------------------------------------------------------------- ways to an acceptance

  /** Waiting for an acceptance that can still be followed, or was preceded, by a release. */
  ghost predicate Pending(s: Sms) {
    M.Open(s.msg.status) && Ready(s) && Releasable(s)
  }

  /** A job-only step that leaves row and failing workers alone leaves the way open. */
  lemma PendingAfter(s: Sms, o: O.Step)
    requires Pending(s) && JobOnly(s, o)
    requires var j := O.Apply(s.job, o);
      !O.Final(j.row.status) || (j.row == s.job.row && (SomeFailing(s.job) ==> SomeFailing(j)))
    ensures Pending(Next(s, Send(o)))
  {
    hide O.Apply, JobOnly, SomeFailing, O.Final, Held;
    SendKeeps(s, o);
  }

  lemma HearingAccepts(s: Sms, w: O.Worker)
    requires Pending(s) && (HearsAccepted(s, w) || LooksUp(s, w))
    ensures MayRelease(s)
  {
    hide MayRelease, SomeFailing, O.Final, Held, O.NeedStatistic;
    var step := if HearsAccepted(s, w) then AcceptMark(w, true, Never, 0)
      else StatMark(w, false, false, true, Never, 0);
    var t := Next(s, step);
    assert t.job == s.job && t.books == s.books && t.owed == s.owed && t.msg.acceptedAt.Some?;
    AcceptedReleases(t);
    ReleaseLater(s, step);
  }

  lemma OthersFailing(j: O.Job, step: O.Step)
    requires (step.Post? || step.Answer?) && !O.At(j, step.w).Failing? && SomeFailing(j)
    ensures SomeFailing(O.Apply(j, step))
  {
    var v :| v in j.pcs && j.pcs[v].Failing?;
    var t := O.Apply(j, step);
    assert v in t.pcs && t.pcs[v].Failing?;
  }

  lemma PostedAccepts(s: Sms, w: O.Worker)
    requires Pending(s) && O.At(s.job, w).Posted? && O.At(s.job, w).k < |s.job.claims| && O.At(s.job, w).k !in s.noted
    ensures MayRelease(s)
  {
    hide MayRelease, SomeFailing, O.Final, Held, Releasable;
    var step := O.Answer(w, O.Success, true);
    var t := Next(s, Send(step));
    if SomeFailing(s.job) {
      OthersFailing(s.job, step);
    }
    PendingAfter(s, step);
    HearingAccepts(t, w);
    ReleaseLater(s, Send(step));
  }

  lemma TouchedAccepts(s: Sms, w: O.Worker)
    requires Pending(s) && O.At(s.job, w).Touched? && O.At(s.job, w).k < |s.job.claims| && O.At(s.job, w).k !in s.noted
    ensures MayRelease(s)
  {
    hide MayRelease, SomeFailing, O.Final, Held, Releasable;
    var step := O.Post(w);
    var t := Next(s, Send(step));
    if SomeFailing(s.job) {
      OthersFailing(s.job, step);
    }
    PendingAfter(s, step);
    PostedAccepts(t, w);
    ReleaseLater(s, Send(step));
  }

  lemma MarkerAccepts(s: Sms, w: O.Worker)
    requires Pending(s) && MayMark(s, w)
    ensures MayRelease(s)
  {
    hide MayRelease, Pending, HearsAccepted, LooksUp;
    if O.At(s.job, w).Touched? && O.At(s.job, w).k < |s.job.claims| && O.At(s.job, w).k !in s.noted {
      TouchedAccepts(s, w);
    } else if O.At(s.job, w).Posted? && O.At(s.job, w).k < |s.job.claims| && O.At(s.job, w).k !in s.noted {
      PostedAccepts(s, w);
    } else {
      HearingAccepts(s, w);
    }
  }

  lemma ClaimedAccepts(s: Sms)
    requires Pending(s) && O.Owns(s.job, 0) && O.At(s.job, 0).Ready? && O.At(s.job, 0).k < |s.job.claims|
        && O.At(s.job, 0).k !in s.noted
    ensures MayRelease(s)
  {
    hide MayRelease, SomeFailing, Held, Releasable, O.NeedStatistic;
    if O.NeedStatistic(s.job.claims[O.At(s.job, 0).k].note) {
      HearingAccepts(s, 0);
    } else {
      var t := Next(s, Send(O.Begin(0)));
      PendingAfter(s, O.Begin(0));
      var u := Next(t, Send(O.Touch(0)));
      PendingAfter(t, O.Touch(0));
      TouchedAccepts(u, 0);
      ReleaseLater(t, Send(O.Touch(0)));
      ReleaseLater(s, Send(O.Begin(0)));
    }
  }

  lemma ClaimableAccepts(s: Sms)
    requires Pending(s) && O.Claimable(s.job.row.status) && O.At(s.job, 0) == O.Idle
    ensures MayRelease(s)
  {
    hide MayRelease, SomeFailing, Held, Releasable;
    var t := Next(s, Send(O.ClaimJob(0)));
    PendingAfter(s, O.ClaimJob(0));
    assert O.At(t.job, 0) == O.Ready(|s.job.claims|) && |s.job.claims| !in s.noted;
    ClaimedAccepts(t);
    ReleaseLater(s, Send(O.ClaimJob(0)));
  }

  lemma OpenJobAccepts(s: Sms)
    requires Pending(s) && !O.Final(s.job.row.status)
    ensures MayRelease(s)
  {
    hide MayRelease, SomeFailing, Held, Releasable;
    var t := Next(s, Send(O.Abandon(0)));
    PendingAfter(s, O.Abandon(0));
    if t.job.row.status == O.Processing {
      var u := Next(t, Send(O.Reclaim));
      PendingAfter(t, O.Reclaim);
      ClaimableAccepts(u);
      ReleaseLater(t, Send(O.Reclaim));
    } else {
      ClaimableAccepts(t);
    }
    ReleaseLater(s, Send(O.Abandon(0)));
  }

  // ---------------------------------------------------------------- no way left

  lemma RowsStay(m: M.Msg, delivered: bool, sent: bool, at: M.Time)
    ensures var rows := [AcceptedMsg(m, at), FailedMsg(m, at), SeenMsg(m, delivered, sent, at)];
      forall r <- rows :: (m.acceptedAt.Some? ==> r.acceptedAt == m.acceptedAt) && (!M.Open(m.status) ==> r == m)
    ensures FailedMsg(m, at).acceptedAt == m.acceptedAt
    ensures var r := AcceptedMsg(m, at); r.acceptedAt.Some? || r == m
    ensures var r := SeenMsg(m, delivered, sent, at); r.acceptedAt.Some? || r == m
  {
  }

  /** Nothing is left that could release the hold. */
  ghost predicate Safe(s: Sms) {
    && Held(s.books, s.m) && ActionOf(s) != Some(Release)
    && (|| ActionOf(s) == Some(Capture)
        || s.books.deleted
        || (&& (s.msg.acceptedAt.Some? || M.Open(s.msg.status))
            && O.Final(s.job.row.status) && !SomeFailing(s.job)
            && Release !in s.owed))
  }

  /** On a final job no step makes a worker fail the message. */
  lemma NoNewFailing(j: O.Job, step: O.Step, w: O.Worker)
    requires O.Final(j.row.status) && O.At(O.Apply(j, step), w).Failing?
    ensures O.At(j, w).Failing?
  {
    hide O.Classify, O.AllowUncertainRetry, O.LatestKind, O.Close, O.NeedStatistic;
  }

  lemma StillNoneFailing(j: O.Job, step: O.Step)
    requires O.Final(j.row.status) && !SomeFailing(j)
    ensures O.Final(O.Apply(j, step).row.status) && !SomeFailing(O.Apply(j, step))
  {
    hide O.Apply, O.Final;
    OutboxSafety.FinalStep(j, step);
    var t := O.Apply(j, step);
    forall w | w in t.pcs ensures !t.pcs[w].Failing? {
      if O.At(t, w).Failing? {
        NoNewFailing(j, step, w);
      }
    }
  }

  lemma SafeAsk(s: Sms, t: Sms, when: When)
    requires Safe(s) && t == s.(msg := t.msg, noted := t.noted) && (t.msg.acceptedAt.Some? || t.msg == s.msg)
    ensures Safe(Ask(t, Capture, when))
  {
    hide T.Step, O.Final, SomeFailing;
    SettleFrame(t, Capture);
  }

  lemma SafeNote(s: Sms, w: O.Worker, msg: M.Msg, marked: bool, when: When)
    requires Safe(s) && !O.At(s.job, w).Idle? && (msg.acceptedAt.Some? || msg == s.msg)
    ensures Safe(Note(s, w, msg, marked, when))
  {
    hide Safe, Ask;
    SafeAsk(s, s.(msg := msg, noted := s.noted[O.At(s.job, w).k := marked]), if marked then when else Never);
  }

  lemma SafeFail(s: Sms, w: O.Worker, updated: bool, at: M.Time)
    requires Safe(s) && O.At(s.job, w).Failing?
    ensures Safe(Next(s, FailMark(w, updated, at)))
  {
    hide O.Apply, O.Final;
    assert w in s.job.pcs && s.job.pcs[w].Failing?;
  }

  lemma SafeReap(s: Sms)
    requires Safe(s)
    ensures Safe(Next(s, ReapList))
  {
    hide O.Final, SomeFailing;
  }

  lemma SafeSettle(s: Sms, k: nat)
    requires Safe(s)
    ensures Safe(Next(s, SettleOwed(k)))
  {
    hide T.Step, O.Final, SomeFailing;
    if k < |s.owed| {
      assert s.owed[k] in s.owed;
      SettleFrame(s, s.owed[k]);
    }
  }

  lemma SafeForeign(s: Sms, op: T.Op)
    requires Safe(s) && ForeignOp(s, op)
    ensures Safe(Next(s, Billing(op)))
  {
    hide T.Step, O.Final, SomeFailing;
    ForeignFrame(s, op);
  }

  lemma SafeSend(s: Sms, o: O.Step)
    requires Safe(s)
    ensures Safe(s.(job := O.Apply(s.job, o)))
  {
    hide O.Apply, O.Final, SomeFailing;
    if O.Final(s.job.row.status) && !SomeFailing(s.job) {
      StillNoneFailing(s.job, o);
    }
  }

  lemma SafeStep(s: Sms, step: SStep)
    requires Safe(s)
    ensures Safe(Next(s, step))
  {
    hide Safe, T.Step, O.Apply, AcceptedMsg, FailedMsg, SeenMsg, Ask, Note, HearsAccepted, LooksUp, JobOnly, ForeignOp;
    match step
    case Send(o) => SafeSend(s, o);
    case AcceptMark(w, marked, capture, at) =>
      if HearsAccepted(s, w) {
        RowsStay(s.msg, false, false, at);
        HearsHas(s, w);
        SafeNote(s, w, AcceptedMsg(s.msg, at), marked, capture);
      }
    case StatMark(w, delivered, sent, marked, capture, at) =>
      if LooksUp(s, w) {
        RowsStay(s.msg, delivered, sent, at);
        LooksHas(s, w);
        var seen := SeenMsg(s.msg, delivered, sent, at);
        RowsStay(seen, false, false, at);
        SafeNote(s, w, if marked then AcceptedMsg(seen, at) else seen, marked, capture);
      }
    case FailMark(w, updated, at) => if O.At(s.job, w).Failing? { SafeFail(s, w, updated, at); }
    case Statistic(delivered, sent, capture, at) =>
      if s.msg.acceptedAt.Some? {
        RowsStay(s.msg, delivered, sent, at);
        SafeAsk(s, s.(msg := SeenMsg(s.msg, delivered, sent, at)), capture);
      }
    case ReportFailed(capture, at) =>
      if s.msg.acceptedAt.Some? {
        RowsStay(s.msg, false, false, at);
        SafeAsk(s, s.(msg := FailedMsg(s.msg, at)), capture);
      }
    case ReapList => SafeReap(s);
    case SettleOwed(k) => SafeSettle(s, k);
    case Billing(op) => if ForeignOp(s, op) { SafeForeign(s, op); }
  }

  lemma HearsHas(s: Sms, w: O.Worker)
    requires HearsAccepted(s, w)
    ensures !O.At(s.job, w).Idle? && O.At(s.job, w).k < |s.job.claims|
  {
  }

  lemma LooksHas(s: Sms, w: O.Worker)
    requires LooksUp(s, w)
    ensures !O.At(s.job, w).Idle? && O.At(s.job, w).k < |s.job.claims|
  {
  }

  lemma {:induction false} SafeRun(s: Sms, steps: seq<SStep>)
    requires Safe(s)
    ensures ActionOf(Run(s, steps)) != Some(Release)
    decreases |steps|
  {
    hide Next;
    if steps != [] {
      SafeStep(s, steps[0]);
      SafeRun(Next(s, steps[0]), steps[1..]);
    }
  }

  /** Nothing is left that could have the message accepted. */
  predicate Refusing(s: Sms, w: O.Worker) {
    !MayMark(s, w)
  }

  ghost predicate Unacceptable(s: Sms) {
    && s.msg.acceptedAt.None?
    && (!M.Open(s.msg.status) || (O.Final(s.job.row.status) && forall w :: Refusing(s, w)))
  }

  /** On a final job a worker that has still to post, or to hear, was at that claim before. */
  lemma FinalPcs(j: O.Job, step: O.Step, w: O.Worker)
    requires O.Final(j.row.status)
    ensures var t := O.Apply(j, step);
            && |t.claims| == |j.claims| && (forall k :: 0 <= k < |j.claims| ==> t.claims[k].note == j.claims[k].note)
            && (O.At(t, w).Ready? || O.At(t, w).Touched? ==> O.At(t, w) == O.At(j, w))
            && (O.At(t, w).Posted? ==> O.At(t, w) == O.At(j, w) || O.At(j, w) == O.Touched(O.At(t, w).k))
            && (O.At(t, w).Answered? ==> O.At(t, w) == O.At(j, w) || O.At(j, w) == O.Posted(O.At(t, w).k))
  {
    hide O.Classify, O.AllowUncertainRetry, O.LatestKind, O.Close, O.NeedStatistic;
  }

  /** On a final job no step brings a worker closer to hearing of an acceptance. */
  lemma NoNewMark(s: Sms, o: O.Step, w: O.Worker)
    requires O.Final(s.job.row.status) && JobOnly(s, o) && MayMark(s.(job := O.Apply(s.job, o)), w)
    ensures MayMark(s, w)
  {
    hide O.Apply, O.At, O.NeedStatistic, JobOnly, O.Final;
    FinalPcs(s.job, o, w);
  }

  lemma UnacceptableSend(s: Sms, o: O.Step)
    requires Unacceptable(s) && JobOnly(s, o)
    ensures Unacceptable(s.(job := O.Apply(s.job, o)))
  {
    hide O.Apply, O.Final, MayMark, JobOnly;
    if O.Final(s.job.row.status) {
      OutboxSafety.FinalStep(s.job, o);
      var t := s.(job := O.Apply(s.job, o));
      if forall w :: Refusing(s, w) {
        forall w ensures Refusing(t, w) {
          assert Refusing(s, w);
          if MayMark(t, w) {
            NoNewMark(s, o, w);
          }
        }
      }
    }
  }

  lemma UnacceptableFail(s: Sms, w: O.Worker, updated: bool, at: M.Time)
    requires Unacceptable(s) && O.At(s.job, w).Failing?
    ensures Unacceptable(Next(s, FailMark(w, updated, at)))
  {
    hide O.Final, O.NeedStatistic;
    var t := Next(s, FailMark(w, updated, at));
    if forall v :: Refusing(s, v) {
      forall v ensures Refusing(t, v) {
        assert Refusing(s, v);
      }
    }
  }

  /** Settling, asking and billing change neither the message nor the job. */
  lemma UnacceptableElsewhere(s: Sms, t: Sms)
    requires Unacceptable(s) && t.msg == s.msg && t.job == s.job && t.noted == s.noted
    ensures Unacceptable(t)
  {
    hide O.Final, O.NeedStatistic;
    if forall v :: Refusing(s, v) {
      forall v ensures Refusing(t, v) {
        assert Refusing(s, v);
      }
    }
  }

  lemma UnacceptableStep(s: Sms, step: SStep)
    requires Unacceptable(s)
    ensures Unacceptable(Next(s, step))
  {
    hide T.Step, O.Apply, AcceptedMsg, FailedMsg, SeenMsg, JobOnly, Unacceptable, O.Final, S.SettleActionFor;
    UnacceptableFacts(s);
    match step
    case Send(o) => if JobOnly(s, o) { UnacceptableSend(s, o); }
    case AcceptMark(w, marked, capture, at) =>
      if HearsAccepted(s, w) {
        assert MayMark(s, w);
        ClosedMark(s, step);
      }
    case StatMark(w, delivered, sent, marked, capture, at) =>
      if LooksUp(s, w) {
        assert MayMark(s, w);
        ClosedMark(s, step);
      }
    case FailMark(w, updated, at) => if O.At(s.job, w).Failing? { UnacceptableFail(s, w, updated, at); }
    case _ => UnacceptableElsewhere(s, Next(s, step));
  }

  lemma UnacceptableFacts(s: Sms)
    requires Unacceptable(s)
    ensures s.msg.acceptedAt.None?
    ensures forall w :: MayMark(s, w) ==> !M.Open(s.msg.status)
  {
    hide MayMark, O.Final;
    forall w | MayMark(s, w) ensures !M.Open(s.msg.status) {
      assert !Refusing(s, w);
    }
  }

  /** A message that is closed is not accepted any more. */
  lemma ClosedMark(s: Sms, step: SStep)
    requires (step.AcceptMark? || step.StatMark?) && s.msg.acceptedAt.None? && !M.Open(s.msg.status)
    ensures Unacceptable(Next(s, step))
  {
    hide T.Step, HearsAccepted, LooksUp, O.Final, MayMark;
    var delivered := step.StatMark? && step.delivered;
    var sent := step.StatMark? && step.sent;
    RowsStay(s.msg, delivered, sent, step.at);
    if step.AcceptMark? && HearsAccepted(s, step.w) {
      HearsHas(s, step.w);
    } else if step.StatMark? && LooksUp(s, step.w) {
      LooksHas(s, step.w);
    }
  }

  lemma {:induction false} UnacceptableRun(s: Sms, steps: seq<SStep>)
    requires Unacceptable(s)
    ensures Run(s, steps).msg.acceptedAt.None?
    decreases |steps|
  {
    hide Next;
    if steps != [] {
      UnacceptableStep(s, steps[0]);
      UnacceptableRun(Next(s, steps[0]), steps[1..]);
    }
  }

  // ---------------------------------------------------------------- every run is ready

  lemma RowsReach(m: M.Msg, delivered: bool, sent: bool, at: M.Time)
    requires Reached(m)
    ensures var rows := [AcceptedMsg(m, at), FailedMsg(m, at), SeenMsg(m, delivered, sent, at)];
      forall r <- rows :: Reached(r)
  {
  }

  lemma ReadyAsk(s: Sms, a: Action, when: When)
    requires Ready(s)
    ensures Ready(Ask(s, a, when))
  {
    hide T.Step, Held;
    SettleFrame(s, a);
  }

  lemma ReadyNote(s: Sms, w: O.Worker, msg: M.Msg, marked: bool, when: When)
    requires Ready(s) && !O.At(s.job, w).Idle? && O.At(s.job, w).k < |s.job.claims| && Reached(msg)
    ensures Ready(Note(s, w, msg, marked, when))
  {
    hide Held, Reached, Ask;
    ReadyAsk(s.(msg := msg, noted := s.noted[O.At(s.job, w).k := marked]), Capture, if marked then when else Never);
  }

  lemma ReadyStep(s: Sms, step: SStep)
    requires Ready(s)
    ensures Ready(Next(s, step))
  {
    hide T.Step, O.Apply, AcceptedMsg, FailedMsg, SeenMsg, Ask, Note, Held, JobOnly, ForeignOp, S.SettleActionFor,
      Reached;
    match step
    case Send(o) => if JobOnly(s, o) { SendKeeps(s, o); }
    case AcceptMark(w, marked, capture, at) =>
      if HearsAccepted(s, w) {
        RowsReach(s.msg, false, false, at);
        ReadyNote(s, w, AcceptedMsg(s.msg, at), marked, capture);
      }
    case StatMark(w, delivered, sent, marked, capture, at) =>
      if LooksUp(s, w) {
        RowsReach(s.msg, delivered, sent, at);
        var seen := SeenMsg(s.msg, delivered, sent, at);
        RowsReach(seen, false, false, at);
        ReadyNote(s, w, if marked then AcceptedMsg(seen, at) else seen, marked, capture);
      }
    case FailMark(w, updated, at) =>
      RowsReach(s.msg, false, false, at);
      MarkingKeepsClaims(s.job, w);
      ReadyAsk(s.(job := O.Apply(s.job, O.MarkFailed(w)), msg := if updated then FailedMsg(s.msg, at)
        else s.msg), Release, Later);
    case Statistic(delivered, sent, capture, at) =>
      RowsReach(s.msg, delivered, sent, at);
      ReadyAsk(s.(msg := SeenMsg(s.msg, delivered, sent, at)), Capture, capture);
    case ReportFailed(capture, at) =>
      RowsReach(s.msg, false, false, at);
      ReadyAsk(s.(msg := FailedMsg(s.msg, at)), Capture, capture);
    case ReapList =>
      if B.MessageOpen(s.books, s.m) && S.SettleActionFor(Bill(s)).Some? {
        ReadyAsk(s, S.SettleActionFor(Bill(s)).value, Later);
      }
    case SettleOwed(k) => if k < |s.owed| { SettleFrame(s, s.owed[k]); }
    case Billing(op) => if ForeignOp(s, op) { ForeignFrame(s, op); }
  }

  lemma {:induction false} ReadyRun(s: Sms, steps: seq<SStep>)
    requires Ready(s)
    ensures Ready(Run(s, steps))
    decreases |steps|
  {
    hide Ready, Next;
    if steps != [] {
      ReadyStep(s, steps[0]);
      ReadyRun(Next(s, steps[0]), steps[1..]);
    }
  }

  lemma StartReady(books: B.Books, m: Id)
    requires B.MessageOpen(books, m)
    ensures Ready(Start(books, m))
  {
  }

  // ---------------------------------------------------------------- the exact condition

  /**
   * Exactly when a message with a hold may end up marked accepted and released all the same: it
   * was marked, or can still be (open, and its job not finished or a worker yet to
   * hear from the provider); and it was released, or can still be (its hold open, and its job
   * not finished, a worker yet to fail it, or a release asked for and not carried out).
   */
  lemma AcceptedMayBeReleased(s: Sms)
    requires Ready(s)
    ensures MayRelease(s) <==> Acceptable(s) && Releasable(s)
  {
    hide Ready, O.Final, SomeFailing, MayMark, M.Open, Run;
    if Acceptable(s) && Releasable(s) {
      Possible(s);
    } else if !Acceptable(s) {
      assert Unacceptable(s) by {
        if O.Final(s.job.row.status) && M.Open(s.msg.status) {
          forall w ensures Refusing(s, w) {
            assert !MayMark(s, w);
          }
        }
      }
      forall steps ensures !ReleasedThoughAccepted(Run(s, steps)) {
        UnacceptableRun(s, steps);
      }
    } else {
      SafeIfNotReleasable(s);
      forall steps ensures !ReleasedThoughAccepted(Run(s, steps)) {
        SafeRun(s, steps);
      }
    }
  }

  lemma Possible(s: Sms)
    requires Ready(s) && Acceptable(s) && Releasable(s)
    ensures MayRelease(s)
  {
    hide Ready, O.Final, SomeFailing, MayMark, M.Open, MayRelease, Releasable;
    if s.msg.acceptedAt.Some? {
      AcceptedReleases(s);
    } else if !O.Final(s.job.row.status) {
      OpenJobAccepts(s);
    } else {
      var w :| MayMark(s, w);
      MarkerAccepts(s, w);
    }
  }

  lemma SafeIfNotReleasable(s: Sms)
    requires Ready(s) && Acceptable(s) && !Releasable(s)
    ensures Safe(s)
  {
    hide O.Final, SomeFailing, SomeMayMark;
    if ActionOf(s).Some? && ActionOf(s).value != Release {
      assert ActionOf(s) == Some(Capture);
    }
  }


  // ---------------------------------------------------------------- what the single steps do

  /** The reaper: an accepted message is charged, one that failed unaccepted with its job dead is released. */
  lemma ReaperSettles(s: Sms)
    requires Held(s.books, s.m) && ActionOf(s).None? && !s.books.deleted
    ensures var t := Next(s, ReapList);
      var u := Next(t, SettleOwed(|s.owed|));
      && (s.msg.acceptedAt.Some? ==> t == s.(owed := s.owed + [Capture]) && ActionOf(u) == Some(Capture))
      && (s.msg.acceptedAt.None? && s.msg.status == M.Failed && s.job.row.status == O.Dead ==>
            t == s.(owed := s.owed + [Release]) && ActionOf(u) == Some(Release))
      && (s.msg.acceptedAt.None? && (s.msg.status != M.Failed || s.job.row.status != O.Dead) ==> t == s)
  {
    hide T.Step;
    SettleFrame(s.(owed := s.owed + [Capture]), Capture);
    SettleFrame(s.(owed := s.owed + [Release]), Release);
  }

  /** A settled or deleted bill is left alone by the reaper. */
  lemma ReaperLeaves(s: Sms)
    requires ActionOf(s).Some? || s.books.deleted
    ensures Next(s, ReapList) == s
  {
  }

  /** What a worker that hears of the acceptance writes, and asks for. */
  lemma WorkerNotes(s: Sms, w: O.Worker, delivered: bool, sent: bool, at: M.Time)
    requires s.msg.status == M.Queued && s.msg.acceptedAt.None? && s.msg.sentAt.None? && s.msg.deliveredAt.None?
    ensures HearsAccepted(s, w) ==>
      var t := Next(s, AcceptMark(w, true, Later, at));
      && t.msg == s.msg.(status := M.Accepted, acceptedAt := Some(at)) && t.owed == s.owed + [Capture]
      && t.job == s.job && t.noted == s.noted[O.At(s.job, w).k := true] && t.books == s.books
    ensures LooksUp(s, w) ==>
      var t := Next(s, StatMark(w, delivered, sent, true, Later, at));
      && t.msg.acceptedAt == Some(at) && t.owed == s.owed + [Capture] && t.job == s.job
      && t.msg.status == (if delivered then M.Delivered else if sent then M.Sent else M.Accepted)
      && t.noted == s.noted[O.At(s.job, w).k := true] && t.books == s.books
  {
  }

  /** What a worker that failed the job writes, and asks for. */
  lemma WorkerFails(s: Sms, w: O.Worker, at: M.Time)
    requires O.At(s.job, w).Failing? && M.Open(s.msg.status) && s.msg.failedAt.None?
    ensures var t := Next(s, FailMark(w, true, at));
      && t.msg == s.msg.(status := M.Failed, failedAt := Some(at)) && t.owed == s.owed + [Release]
      && O.At(t.job, w) == O.Idle && t.job.row == s.job.row && t.books == s.books
  {
  }

  /** What later news of an accepted message write, and ask for: it is charged, delivered or failed. */
  lemma NewsWrite(s: Sms, sent: bool, at: M.Time)
    requires s.msg.acceptedAt.Some? && M.Open(s.msg.status) && s.msg.failedAt.None? && s.msg.deliveredAt.None?
    ensures var t := Next(s, Statistic(true, sent, Later, at));
      t.msg.status == M.Delivered && t.msg.deliveredAt == Some(at) && t.owed == s.owed + [Capture] && t.job == s.job
    ensures var t := Next(s, ReportFailed(Later, at));
      t.msg == s.msg.(status := M.Failed, failedAt := Some(at)) && t.owed == s.owed + [Capture] && t.job == s.job
  {
  }

  /** Everything else that happens to the client's books goes on beside the message. */
  lemma {:induction false} BillingElsewhere(s: Sms, steps: seq<SStep>, ops: seq<T.Op>)
    requires |steps| == |ops|
    requires forall k :: 0 <= k < |ops| ==> steps[k] == Billing(ops[k])
    requires forall k :: 0 <= k < |ops| ==>
      !(ops[k].Settle? && ops[k].m == s.m) && !(ops[k].MoveMessage? && ops[k].m == s.m)
    ensures Run(s, steps) == s.(books := T.Run(s.books, ops))
    decreases |ops|
  {
    hide T.Step;
    if ops != [] {
      BillingElsewhere(Next(s, steps[0]), steps[1..], ops[1..]);
    }
  }
}
