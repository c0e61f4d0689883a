/**
 * What it takes for the hold of a message that is marked accepted to be released: a lock taken
 * from a worker that may still hear of the acceptance, or taken after its holder, dead or alive,
 * has noted it; or an acceptance that was written while its worker goes on as if it was not.
 * Without those, while the hold is open, it never happens: whoever dies, whoever takes up the
 * job of a dead worker, and however the rest interleaves.
 */
module SmsLocks {
  import opened Common
  import opened Ledger
  import B = Books
  import T = Transactions
  import S = BillingService
  import M = Messages
  import O = Outbox
  import OutboxRuns
  import OutboxSafety
  import OutboxFaults
  import opened SmsFlow
  import opened SmsSafety

  // ---------------------------------------------------------------- steps that disturb

  /** A lock that must not be taken: its holder may yet note the acceptance, or has noted it. */
  predicate LockNeeded(s: Sms) {
    && s.job.row.status == O.Processing
    && (|| |s.job.claims| - 1 in s.noted
        || (s.job.row.lockedBy.Some? && MayMark(s, s.job.row.lockedBy.value)))
  }

  /** An acceptance written to the message by a worker that does not know it. */
  predicate NotedByHalf(s: Sms, step: SStep) {
    || (step.AcceptMark? && !step.marked && HearsAccepted(s, step.w))
    || (step.StatMark? && !step.marked && LooksUp(s, step.w))
  }

  /** Once the hold is captured nothing disturbs any more. */
  predicate Disturbs(s: Sms, step: SStep) {
    ActionOf(s) != Some(Capture) && ((step == Send(O.Reclaim) && LockNeeded(s)) || NotedByHalf(s, step))
  }

  /** No step of the run disturbs the state it is taken in. */
  predicate Undisturbed(s: Sms, steps: seq<SStep>)
    decreases |steps|
  {
    steps == [] || (!Disturbs(s, steps[0]) && Undisturbed(Next(s, steps[0]), steps[1..]))
  }

  // ---------------------------------------------------------------- what undisturbed runs keep

  /** Whoever may still hear of the acceptance holds the lock, for the last claim. */
  predicate MarkerOwns(s: Sms, w: O.Worker) {
    MayMark(s, w) ==> O.Owns(s.job, w) && O.At(s.job, w).k == |s.job.claims| - 1
  }

  predicate MarkersOwn(s: Sms) {
    forall w :: w in s.job.pcs ==> MarkerOwns(s, w)
  }

  /** A worker that noted the acceptance is at the answer, or at the statistics, and nowhere else. */
  predicate NotedPc(s: Sms, w: O.Worker) {
    var pc := O.At(s.job, w);
    !pc.Idle? && !pc.Failing? && pc.k in s.noted ==>
      || (pc.Ready? && pc.k < |s.job.claims| && O.NeedStatistic(s.job.claims[pc.k].note))
      || (pc.Answered? && pc.reply.Success?)
  }

  predicate NotedOk(s: Sms) {
    && (forall k :: k in s.noted ==> s.noted[k] && k < |s.job.claims|)
    && (forall w :: w in s.job.pcs ==> NotedPc(s, w))
  }

  /** An accepted message belongs to a job that is done, or is being completed by its lock holder. */
  predicate AcceptedOk(s: Sms) {
    s.msg.acceptedAt.Some? ==>
      s.job.row.status == O.Done || (s.job.row.status == O.Processing && |s.job.claims| - 1 in s.noted)
  }

  /** A hold is released only for a dead job. */
  predicate ReleasedOk(s: Sms) {
    Release in s.owed || ActionOf(s) == Some(Release) ==> s.job.row.status == O.Dead
  }

  predicate Orderly(s: Sms) {
    && O.Inv(s.job) && Held(s.books, s.m) && MarkersOwn(s)
    && NotedOk(s) && AcceptedOk(s) && ReleasedOk(s)
  }

  lemma OwnsOfMarker(s: Sms, w: O.Worker)
    requires MarkersOwn(s) && MayMark(s, w)
    ensures O.Owns(s.job, w) && O.At(s.job, w).k == |s.job.claims| - 1
  {
    hide O.NeedStatistic;
    assert w in s.job.pcs;
    assert MarkerOwns(s, w);
  }

  /** What a step leaves of a claim: what its worker read. */
  lemma ClaimsKept(j: O.Job, step: O.Step, k: nat)
    requires k < |j.claims|
    ensures var t := O.Apply(j, step); k < |t.claims| && t.claims[k].note == j.claims[k].note
  {
    hide O.Classify, O.AllowUncertainRetry, O.LatestKind, O.NeedStatistic, O.CheckUncertain, O.FinishSend;
    match step
    case Check(w, found) =>
      if O.At(j, w).Ready? && O.At(j, w).k < |j.claims| { CheckKeepsClaim(j, w, O.At(j, w).k, found, k); }
    case Finish(w, markOk, note) =>
      if O.At(j, w).Answered? && O.At(j, w).k < |j.claims| { FinishKeepsClaim(j, w, O.At(j, w).k, O.At(j, w).reply,
        markOk, note, k); }
    case _ =>
  }

  lemma CheckKeepsClaim(j: O.Job, w: O.Worker, i: nat, found: O.Statistic, k: nat)
    requires i < |j.claims| && k < |j.claims|
    ensures var t := O.CheckUncertain(j, w, i, found); k < |t.claims| && t.claims[k].note == j.claims[k].note
  {
    hide O.AllowUncertainRetry, O.LatestKind;
  }

  lemma FinishKeepsClaim(j: O.Job, w: O.Worker, i: nat, reply: O.Reply, markOk: bool, note: O.Note, k: nat)
    requires i < |j.claims| && k < |j.claims|
    ensures var t := O.FinishSend(j, w, i, reply, markOk, note); k < |t.claims| && t.claims[k].note == j.claims[k].note
  {
    hide O.Classify;
  }

  /** Nobody's position is moved by somebody else. */
  lemma OthersStay(j: O.Job, o: O.Step, w: O.Worker)
    requires o.Reclaim? || o.w != w
    ensures O.At(O.Apply(j, o), w) == O.At(j, w)
  {
    hide O.NeedStatistic, O.Close, O.CheckUncertain, O.FinishSend, O.Classify;
    match o
    case Check(v, found) =>
      if O.At(j, v).Ready? && O.At(j, v).k < |j.claims| { CheckMovesOwn(j, v, O.At(j, v).k, found, w); }
    case Finish(v, markOk, note) =>
      if O.At(j, v).Answered? && O.At(j, v).k < |j.claims| { FinishMovesOwn(j, v, O.At(j, v).k, O.At(j, v).reply,
        markOk, note, w); }
    case _ =>
  }

  lemma CheckMovesOwn(j: O.Job, v: O.Worker, k: nat, found: O.Statistic, w: O.Worker)
    requires k < |j.claims| && v != w
    ensures O.At(O.CheckUncertain(j, v, k, found), w) == O.At(j, w)
  {
    hide O.AllowUncertainRetry, O.LatestKind, O.Close;
  }

  lemma FinishMovesOwn(j: O.Job, v: O.Worker, k: nat, reply: O.Reply, markOk: bool, note: O.Note, w: O.Worker)
    requires k < |j.claims| && v != w
    ensures O.At(O.FinishSend(j, v, k, reply, markOk, note), w) == O.At(j, w)
  {
    hide O.Classify, O.Close;
  }

  /** The holder of a noted claim goes nowhere but to the end of its work. */
  lemma NotedGoes(s: Sms, o: O.Step, w: O.Worker)
    requires JobOnly(s, o) && NotedPc(s, w) && !o.Reclaim? && o.w == w
    requires !O.At(s.job, w).Idle? && !O.At(s.job, w).Failing? && O.At(s.job, w).k in s.noted
        && O.At(s.job, w).k < |s.job.claims|
    requires s.noted[O.At(s.job, w).k]
    ensures O.At(O.Apply(s.job, o), w) in {O.Idle, O.At(s.job, w)}
  {
    hide O.AllowUncertainRetry, O.LatestKind, O.Classify, O.Close;
  }

  /** And nobody comes to stand on a noted claim but by noting it. */
  lemma FreshGoes(s: Sms, o: O.Step)
    requires NotedOk(s) && !o.Reclaim? && (O.At(s.job, o.w).Idle? || O.At(s.job, o.w).k !in s.noted)
    ensures var pc := O.At(O.Apply(s.job, o), o.w); pc.Idle? || pc.k !in s.noted
  {
    hide O.AllowUncertainRetry, O.LatestKind, O.Classify, O.Close, O.NeedStatistic;
  }

  lemma FailingGoes(j: O.Job, o: O.Step)
    requires !o.Reclaim? && O.At(j, o.w).Failing?
    ensures O.At(O.Apply(j, o), o.w) in {O.Idle, O.At(j, o.w)}
  {
    hide O.AllowUncertainRetry, O.LatestKind, O.Classify, O.Close, O.NeedStatistic;
  }

  lemma NotedMoves(s: Sms, o: O.Step, w: O.Worker)
    requires JobOnly(s, o) && NotedOk(s) && NotedPc(s, w)
    ensures NotedPc(s.(job := O.Apply(s.job, o)), w)
  {
    hide O.Apply, JobOnly, O.NeedStatistic;
    var pc := O.At(s.job, w);
    if !pc.Idle? && pc.k < |s.job.claims| {
      ClaimsKept(s.job, o, pc.k);
    }
    if o.Reclaim? || o.w != w {
      OthersStay(s.job, o, w);
    } else if pc.Idle? || pc.k !in s.noted {
      FreshGoes(s, o);
    } else if pc.Failing? {
      FailingGoes(s.job, o);
    } else {
      NotedGoes(s, o, w);
    }
  }

  /** While a worker holds the lock, the others leave row and claims alone. */
  lemma OthersPowerless(j: O.Job, o: O.Step, w: O.Worker)
    requires O.Owns(j, w) && !o.Reclaim? && o.w != w
    ensures O.Apply(j, o).row == j.row && |O.Apply(j, o).claims| == |j.claims|
  {
    hide O.Apply;
    if O.At(j, o.w).Idle? {
      IdlePowerless(j, o);
    } else {
      OutboxSafety.LostLockIsPowerless(j, o, o.w);
    }
  }

  lemma IdlePowerless(j: O.Job, o: O.Step)
    requires j.row.status == O.Processing && !o.Reclaim? && O.At(j, o.w).Idle?
    ensures O.Apply(j, o).row == j.row && O.Apply(j, o).claims == j.claims
  {
  }

  /** A worker comes to hear of an acceptance only with the lock in its hand. */
  lemma OwnMarks(s: Sms, o: O.Step)
    requires O.Inv(s.job) && MarkersOwn(s) && !o.Reclaim?
    requires MayMark(s.(job := O.Apply(s.job, o)), o.w)
    ensures MarkerOwns(s.(job := O.Apply(s.job, o)), o.w)
  {
    hide O.Inv, O.Classify, O.AllowUncertainRetry, O.LatestKind, O.NeedStatistic, O.CheckUncertain, O.FinishSend,
      MarkersOwn;
    var w := o.w;
    if MayMark(s, w) {
      OwnsOfMarker(s, w);
    }
    if !O.At(s.job, w).Idle? {
      OutboxRuns.OwnerFacts(s.job, w);
    }
    match o
    case Check(_, found) =>
      if O.At(s.job, w).Ready? && O.At(s.job, w).k < |s.job.claims| { CheckEnds(s.job, w, O.At(s.job, w).k, found); }
    case Finish(_, markOk, note) =>
      if O.At(s.job, w).Answered? && O.At(s.job, w).k < |s.job.claims| {
        FinishEnds(s.job, w, O.At(s.job, w).k, O.At(s.job, w).reply, markOk, note);
      }
    case _ =>
  }

  lemma CheckEnds(j: O.Job, w: O.Worker, k: nat, found: O.Statistic)
    requires k < |j.claims|
    ensures var pc := O.At(O.CheckUncertain(j, w, k, found), w); pc.Idle? || pc.Sending? || pc.Failing?
  {
    hide O.AllowUncertainRetry, O.LatestKind, O.Close;
  }

  lemma FinishEnds(j: O.Job, w: O.Worker, k: nat, reply: O.Reply, markOk: bool, note: O.Note)
    requires k < |j.claims|
    ensures var pc := O.At(O.FinishSend(j, w, k, reply, markOk, note), w); pc.Idle? || pc.Failing?
  {
    hide O.Classify, O.Close;
  }

  /** What another worker's step leaves to be heard was to be heard before. */
  lemma OthersMark(s: Sms, o: O.Step, w: O.Worker)
    requires O.Inv(s.job) && (o.Reclaim? || o.w != w) && MayMark(s.(job := O.Apply(s.job, o)), w)
    ensures MayMark(s, w)
  {
    hide O.Inv, O.Apply, O.NeedStatistic;
    OthersStay(s.job, o, w);
    OutboxRuns.OwnerFacts(s.job, w);
    ClaimsKept(s.job, o, O.At(s.job, w).k);
  }

  lemma SendMarkersOwn(s: Sms, o: O.Step)
    requires O.Inv(s.job) && MarkersOwn(s) && o != O.Reclaim
    ensures MarkersOwn(s.(job := O.Apply(s.job, o)))
  {
    hide O.Inv, O.Apply, MayMark;
    var t := s.(job := O.Apply(s.job, o));
    forall w | w in t.job.pcs ensures MarkerOwns(t, w) {
      if MayMark(t, w) {
        if o.w == w {
          OwnMarks(s, o);
        } else {
          OthersMark(s, o, w);
          OwnsOfMarker(s, w);
          OthersPowerless(s.job, o, w);
          OthersStay(s.job, o, w);
        }
      }
    }
  }

  lemma SendNotedOk(s: Sms, o: O.Step)
    requires JobOnly(s, o) && NotedOk(s)
    ensures NotedOk(s.(job := O.Apply(s.job, o)))
  {
    hide O.Apply, JobOnly, NotedPc;
    ClaimsGrow(s.job, o);
    var t := s.(job := O.Apply(s.job, o));
    forall w | w in t.job.pcs ensures NotedPc(t, w) {
      IdleNoted(s, w);
      NotedMoves(s, o, w);
    }
  }

  lemma IdleNoted(s: Sms, w: O.Worker)
    requires NotedOk(s)
    ensures NotedPc(s, w)
  {
  }

  /** While the last claim is noted, its holder only completes the job, and nobody else can act on it. */
  lemma HolderCompletes(s: Sms, o: O.Step)
    requires O.Inv(s.job) && NotedOk(s) && JobOnly(s, o) && o != O.Reclaim
    requires s.job.row.status == O.Processing && |s.job.claims| - 1 in s.noted
    ensures var j := O.Apply(s.job, o);
      j.row.status == O.Done || (j.row.status == O.Processing && |j.claims| == |s.job.claims|)
  {
    hide O.Inv, O.Apply, JobOnly, NotedOk;
    var w := o.w;
    if O.At(s.job, w).Idle? {
      IdlePowerless(s.job, o);
    } else if O.Owns(s.job, w) {
      OutboxRuns.OwnerFacts(s.job, w);
      NotedHolder(s, o);
    } else {
      OutboxSafety.LostLockIsPowerless(s.job, o, w);
    }
  }

  lemma NotedHolder(s: Sms, o: O.Step)
    requires NotedOk(s) && JobOnly(s, o) && !o.Reclaim? && O.Owns(s.job, o.w)
    requires !O.At(s.job, o.w).Idle? && !O.At(s.job, o.w).Failing? && O.At(s.job, o.w).k == |s.job.claims| - 1
    requires |s.job.claims| - 1 in s.noted
    ensures var j := O.Apply(s.job, o);
      j.row.status == O.Done || (j.row.status == O.Processing && |j.claims| == |s.job.claims|)
  {
    hide O.Classify, O.AllowUncertainRetry, O.LatestKind, O.Close;
    IdleNoted(s, o.w);
    CloseLength(s.job);
  }

  lemma CloseLength(j: O.Job)
    ensures forall end :: |O.Close(j.claims, end)| == |j.claims|
  {
  }

  lemma SendAcceptedOk(s: Sms, o: O.Step)
    requires O.Inv(s.job) && NotedOk(s) && AcceptedOk(s) && JobOnly(s, o) && o != O.Reclaim
    ensures AcceptedOk(s.(job := O.Apply(s.job, o)))
  {
    hide O.Apply, JobOnly, O.Inv, NotedOk;
    if s.msg.acceptedAt.Some? {
      if s.job.row.status == O.Done {
        OutboxSafety.FinalStep(s.job, o);
      } else {
        HolderCompletes(s, o);
      }
    }
  }

  lemma OrderlySend(s: Sms, o: O.Step)
    requires Orderly(s) && JobOnly(s, o) && o != O.Reclaim
    ensures Orderly(s.(job := O.Apply(s.job, o)))
  {
    hide O.Apply, JobOnly, O.Inv, NotedOk, Held, MarkersOwn, AcceptedOk;
    OutboxRuns.StepKeepsInv(s.job, o);
    SendMarkersOwn(s, o);
    SendNotedOk(s, o);
    SendAcceptedOk(s, o);
    if s.job.row.status == O.Dead {
      OutboxSafety.FinalStep(s.job, o);
    }
  }

  /** A lock that is not needed any more: its holder is dead, or has not got to its send yet. */
  lemma OrderlyReclaim(s: Sms)
    requires Orderly(s) && !LockNeeded(s)
    ensures Orderly(s.(job := O.Apply(s.job, O.Reclaim)))
  {
    hide O.Inv, NotedOk, Held, MayMark, O.Close;
    OutboxRuns.StepKeepsInv(s.job, O.Reclaim);
    SendNotedOk(s, O.Reclaim);
    var t := s.(job := O.Apply(s.job, O.Reclaim));
    if s.job.row.status == O.Processing {
      forall w | w in t.job.pcs ensures MarkerOwns(t, w) {
        if MayMark(t, w) {
          OthersMark(s, O.Reclaim, w);
          OwnsOfMarker(s, w);
        }
      }
    } else {
      assert t == s;
    }
  }

  /** Noting the acceptance: the worker holds the lock, so it notes the last claim. */
  lemma OrderlyNote(s: Sms, w: O.Worker, msg: M.Msg, when: When)
    requires Orderly(s) && (HearsAccepted(s, w) || LooksUp(s, w))
    ensures Orderly(Note(s, w, msg, true, when))
  {
    hide O.Inv, Held, Ask;
    OwnsOfMarker(s, w);
    var t := s.(msg := msg, noted := s.noted[O.At(s.job, w).k := true]);
    forall v | v in t.job.pcs ensures NotedPc(t, v) && MarkerOwns(t, v) {
      IdleNoted(s, v);
      assert MarkerOwns(s, v);
      if v != w && !O.At(s.job, v).Idle? {
        OwnClaims(s.job, v, w);
      }
    }
    OrderlyAsk(t, when);
  }

  lemma OwnClaims(j: O.Job, v: O.Worker, w: O.Worker)
    requires O.Inv(j) && v != w && !O.At(j, v).Idle? && !O.At(j, w).Idle?
    ensures O.At(j, v).k != O.At(j, w).k
  {
    hide O.DoubtOk, O.RecordsOk, O.MarksOk, O.ClaimsOk, O.LockOk, O.Trapped;
    OutboxRuns.PcFacts(j, v);
    OutboxRuns.PcFacts(j, w);
  }

  lemma OrderlyAsk(s: Sms, when: When)
    requires Orderly(s)
    ensures Orderly(Ask(s, Capture, when))
  {
    hide O.Inv, T.Step, Held, MarkersOwn, NotedOk, AcceptedOk;
    SettleFrame(s, Capture);
    OrderlyElsewhere(s, Ask(s, Capture, when));
  }

  lemma OrderlyElsewhere(s: Sms, t: Sms)
    requires Orderly(s) && t.job == s.job && t.msg == s.msg && t.noted == s.noted && t.m == s.m && Held(t.books, t.m)
    requires Release in t.owed ==> Release in s.owed || s.job.row.status == O.Dead
    requires ActionOf(t) == Some(Release) ==> ActionOf(s) == Some(Release) || s.job.row.status == O.Dead
    ensures Orderly(t)
  {
    hide O.Inv, Held, O.NeedStatistic;
    forall v | v in t.job.pcs ensures NotedPc(t, v) && MarkerOwns(t, v) {
      assert NotedPc(s, v) && MarkerOwns(s, v);
    }
  }

  /** Later news of an accepted message. */
  lemma OrderlyNews(s: Sms, msg: M.Msg, when: When)
    requires Orderly(s) && s.msg.acceptedAt.Some?
    ensures Orderly(Ask(s.(msg := msg), Capture, when))
  {
    hide O.Inv, Held, Ask, O.NeedStatistic;
    var t := s.(msg := msg);
    assert Orderly(t) by {
      forall v | v in t.job.pcs ensures NotedPc(t, v) && MarkerOwns(t, v) {
        assert NotedPc(s, v) && MarkerOwns(s, v);
      }
    }
    OrderlyAsk(t, when);
  }

  lemma OrderlyFail(s: Sms, w: O.Worker, updated: bool, at: M.Time)
    requires Orderly(s) && O.At(s.job, w).Failing?
    ensures Orderly(Next(s, FailMark(w, updated, at)))
  {
    hide O.Inv, Held, FailedMsg, O.NeedStatistic;
    RowsStay(s.msg, false, false, at);
    OutboxRuns.StepKeepsInv(s.job, O.MarkFailed(w));
    FailingIsDead(s.job, w);
    var t := Next(s, FailMark(w, updated, at));
    MarkingKeepsClaims(s.job, w);
    forall v | v in t.job.pcs ensures NotedPc(t, v) && MarkerOwns(t, v) {
      IdleNoted(s, v);
      assert v in s.job.pcs && MarkerOwns(s, v);
    }
  }

  lemma FailingIsDead(j: O.Job, w: O.Worker)
    requires O.Inv(j) && O.At(j, w).Failing?
    ensures j.row.status == O.Dead
  {
    hide O.DoubtOk, O.RecordsOk, O.ClaimsOk, O.LatestClaim, O.Trapped;
    OutboxRuns.PcFacts(j, w);
  }

  lemma OrderlyReap(s: Sms)
    requires Orderly(s)
    ensures Orderly(Next(s, ReapList))
  {
    hide O.Inv, Held, MarkersOwn, NotedOk, AcceptedOk;
    OrderlyElsewhere(s, Next(s, ReapList));
  }

  lemma OrderlySettle(s: Sms, k: nat)
    requires Orderly(s)
    ensures Orderly(Next(s, SettleOwed(k)))
  {
    hide O.Inv, Held, MarkersOwn, NotedOk, AcceptedOk, T.Step;
    if k < |s.owed| {
      assert s.owed[k] in s.owed;
      SettleFrame(s, s.owed[k]);
      OrderlyElsewhere(s, Next(s, SettleOwed(k)));
    }
  }

  lemma OrderlyForeign(s: Sms, op: T.Op)
    requires Orderly(s) && ForeignOp(s, op)
    ensures Orderly(Next(s, Billing(op)))
  {
    hide O.Inv, Held, MarkersOwn, NotedOk, AcceptedOk, T.Step;
    ForeignFrame(s, op);
    OrderlyElsewhere(s, Next(s, Billing(op)));
  }

  lemma OrderlyStep(s: Sms, step: SStep)
    requires Orderly(s) && !(step == Send(O.Reclaim) && LockNeeded(s)) && !NotedByHalf(s, step)
    ensures Orderly(Next(s, step))
  {
    hide Orderly, T.Step, O.Apply, AcceptedMsg, FailedMsg, SeenMsg, Ask, Note;
    hide HearsAccepted, LooksUp, LockNeeded, JobOnly, ForeignOp, S.SettleActionFor;
    match step
    case Send(o) =>
      if o.Reclaim? {
        OrderlyReclaim(s);
      } else if JobOnly(s, o) {
        OrderlySend(s, o);
      }
    case AcceptMark(w, marked, capture, at) =>
      if HearsAccepted(s, w) {
        HearsHas(s, w);
        OrderlyNote(s, w, AcceptedMsg(s.msg, at), capture);
      }
    case StatMark(w, delivered, sent, marked, capture, at) =>
      if LooksUp(s, w) {
        LooksHas(s, w);
        OrderlyNote(s, w, AcceptedMsg(SeenMsg(s.msg, delivered, sent, at), at), capture);
      }
    case FailMark(w, updated, at) => if O.At(s.job, w).Failing? { OrderlyFail(s, w, updated, at); }
    case Statistic(delivered, sent, capture, at) =>
      if s.msg.acceptedAt.Some? {
        OrderlyNews(s, SeenMsg(s.msg, delivered, sent, at), capture);
      }
    case ReportFailed(capture, at) =>
      if s.msg.acceptedAt.Some? {
        OrderlyNews(s, FailedMsg(s.msg, at), capture);
      }
    case ReapList => OrderlyReap(s);
    case SettleOwed(k) => OrderlySettle(s, k);
    case Billing(op) => if ForeignOp(s, op) { OrderlyForeign(s, op); }
  }

  /** A captured hold stays captured. */
  predicate Captured(s: Sms) {
    Held(s.books, s.m) && ActionOf(s) == Some(Capture)
  }

  lemma CapturedStep(s: Sms, step: SStep)
    requires Captured(s)
    ensures Captured(Next(s, step))
  {
    hide T.Step, O.Apply, AcceptedMsg, FailedMsg, SeenMsg, HearsAccepted, LooksUp, JobOnly, ForeignOp,
      S.SettleActionFor, Held;
    SettleFrame(s, Capture);
    match step
    case AcceptMark(w, marked, capture, at) =>
      if HearsAccepted(s, w) {
        HearsHas(s, w);
        CapturedNote(s, w, AcceptedMsg(s.msg, at), marked, capture);
      }
    case StatMark(w, delivered, sent, marked, capture, at) =>
      if LooksUp(s, w) {
        LooksHas(s, w);
        var seen := SeenMsg(s.msg, delivered, sent, at);
        CapturedNote(s, w, if marked then AcceptedMsg(seen, at) else seen, marked, capture);
      }
    case Statistic(delivered, sent, capture, at) => SettleFrame(s.(msg := SeenMsg(s.msg, delivered, sent, at)),
      Capture);
    case ReportFailed(capture, at) => SettleFrame(s.(msg := FailedMsg(s.msg, at)), Capture);
    case SettleOwed(k) => if k < |s.owed| { SettleFrame(s, s.owed[k]); }
    case Billing(op) => if ForeignOp(s, op) { ForeignFrame(s, op); }
    case _ =>
  }

  lemma CapturedNote(s: Sms, w: O.Worker, msg: M.Msg, marked: bool, when: When)
    requires Captured(s) && !O.At(s.job, w).Idle?
    ensures Captured(Note(s, w, msg, marked, when))
  {
    hide T.Step, Held;
    SettleFrame(s.(msg := msg, noted := s.noted[O.At(s.job, w).k := marked]), Capture);
  }

  lemma {:induction false} UndisturbedRun(s: Sms, steps: seq<SStep>)
    requires (Captured(s) || Orderly(s)) && Undisturbed(s, steps)
    ensures Captured(Run(s, steps)) || Orderly(Run(s, steps))
    decreases |steps|
  {
    hide Orderly, Next, LockNeeded, NotedByHalf;
    if steps != [] {
      if Captured(s) {
        CapturedStep(s, steps[0]);
      } else {
        OrderlyHeld(s);
        OrderlyStep(s, steps[0]);
      }
      UndisturbedRun(Next(s, steps[0]), steps[1..]);
    }
  }

  lemma OrderlyHeld(s: Sms)
    requires Orderly(s)
    ensures Held(s.books, s.m)
  {
  }

  /**
   * In every undisturbed run from a queued message with its hold, the hold of a message that is
   * marked accepted is not released: whoever dies, whoever takes up the job of a worker that died
   * before it sent or before it noted the acceptance, whatever is done late or never, and however
   * the steps interleave. Once the hold is captured, any run is undisturbed.
   */
  lemma NotReleasedUndisturbed(books: B.Books, m: Id, steps: seq<SStep>)
    requires B.MessageOpen(books, m) && Undisturbed(Start(books, m), steps)
    ensures !ReleasedThoughAccepted(Run(Start(books, m), steps))
  {
    hide Next, O.Inv;
    OutboxRuns.FreshInv();
    UndisturbedRun(Start(books, m), steps);
  }

  // ---------------------------------------------------------------- runs in which it happens

  function Sends(steps: seq<O.Step>): seq<SStep> {
    if steps == [] then [] else [Send(steps[0])] + Sends(steps[1..])
  }

  /** Outbox steps that are open while nothing is noted. */
  predicate Plain(step: O.Step) {
    !step.MarkFailed? && !(step.Finish? && step.markOk) && !(step.Check? && step.found == O.Match(true))
  }

  /** Sending on, while no claim that exists later is noted yet. */
  lemma {:induction false} SendsRun(s: Sms, steps: seq<O.Step>)
    requires s.noted == map[] && forall k :: 0 <= k < |steps| ==> Plain(steps[k])
    ensures Run(s, Sends(steps)) == s.(job := O.Run(s.job, steps))
    decreases |steps|
  {
    hide O.Apply;
    if steps != [] {
      assert Plain(steps[0]);
      var t := Next(s, Send(steps[0]));
      assert t == s.(job := O.Apply(s.job, steps[0]));
      SendsRun(t, steps[1..]);
      assert Sends(steps)[1..] == Sends(steps[1..]);
    }
  }

  lemma {:induction false} RunJoin(s: Sms, a: seq<SStep>, b: seq<SStep>)
    ensures Run(s, a + b) == Run(Run(s, a), b)
    decreases |a|
  {
    hide Next;
    if a == [] {
      assert a + b == b;
    } else {
      assert (a + b)[1..] == a[1..] + b;
      RunJoin(Next(s, a[0]), a[1..], b);
    }
  }

  lemma RunTwo(s: Sms, a: SStep, b: SStep)
    ensures Run(s, [a, b]) == Next(Next(s, a), b)
  {
    hide Next;
    assert [a, b][1..] == [b] && [b][1..] == [];
    assert Run(Next(s, a), [b]) == Run(Next(Next(s, a), b), []);
  }

  lemma RunOne(s: Sms, a: SStep)
    ensures Run(s, [a]) == Next(s, a)
  {
    hide Next;
    assert [a][1..] == [];
  }

  /** A lock holder's send is refused: the job dies, the message is failed, the release asked for. */
  function Refusal(w: O.Worker): seq<SStep> {
    [Send(O.Answer(w, REFUSED, true)), Send(O.Finish(w, false, O.NeedStat))]
  }

  lemma RefusalFails(s: Sms, w: O.Worker)
    requires O.Owns(s.job, w) && O.At(s.job, w).Posted? && O.At(s.job, w).k < |s.job.claims|
    ensures var t := Run(s, Refusal(w)); t == s.(job := t.job) && O.At(t.job, w).Failing?
  {
    hide Run;
    RunTwo(s, Send(O.Answer(w, REFUSED, true)), Send(O.Finish(w, false, O.NeedStat)));
  }

  lemma FailureReleases(s: Sms, w: O.Worker)
    requires Uncaptured(s) && O.At(s.job, w).Failing?
    ensures ReleasedThoughAccepted(Run(s, [FailMark(w, true, 0), SettleOwed(|s.owed|)]))
  {
    hide Run, T.Step, O.Apply, FailedMsg;
    RunTwo(s, FailMark(w, true, 0), SettleOwed(|s.owed|));
    RowsStay(s.msg, false, false, 0);
    SettleFrame(Next(s, FailMark(w, true, 0)), Release);
  }

  /**
   * The first worker stalls after its touch and loses the lock; the second looks twice and sends
   * too. The first then sends and hears the message accepted, and notes it; before its capture
   * is carried out the second's send is refused, the message failed and the hold released.
   */
  const STALE_ACCEPT: seq<O.Step> := OutboxFaults.STALLED + OutboxSafety.Resend(1, true) + [O.Post(0), O.Answer(0,
    O.Success, true)]

  function LostLock(): seq<SStep> {
    Sends(STALE_ACCEPT) + [AcceptMark(0, true, Later, 0)] + Refusal(1) + [FailMark(1, true, 0), SettleOwed(1)]
      + [SettleOwed(0)]
  }

  lemma StaleAccept()
    ensures var j := O.Run(O.FRESH, STALE_ACCEPT);
      && O.Owns(j, 1) && O.At(j, 1) == O.Posted(2) && |j.claims| == 3
      && O.At(j, 0) == O.Answered(0, O.Success)
  {
    hide O.Run, O.Apply;
    OutboxFaults.StalledState();
    var stalled := O.Run(O.FRESH, OutboxFaults.STALLED);
    OutboxSafety.ResendAfterOne(stalled, 1, true);
    var sent := O.Run(stalled, OutboxSafety.Resend(1, true));
    OutboxSafety.RunJoin(O.FRESH, OutboxFaults.STALLED + OutboxSafety.Resend(1, true), [O.Post(0), O.Answer(0,
      O.Success, true)]);
    OutboxSafety.RunJoin(O.FRESH, OutboxFaults.STALLED, OutboxSafety.Resend(1, true));
    OutboxSafety.RunTwo(sent, O.Post(0), O.Answer(0, O.Success, true));
    LateSend(sent);
  }

  lemma LateSend(j: O.Job)
    requires O.At(j, 0) == O.Touched(0) && |j.claims| == 3
    ensures var t := O.Apply(O.Apply(j, O.Post(0)), O.Answer(0, O.Success, true));
      && t.row == j.row && O.At(t, 1) == O.At(j, 1) && O.At(t, 0) == O.Answered(0, O.Success) && |t.claims| == 3
  {
  }

  lemma PlainStaleAccept()
    ensures forall k :: 0 <= k < |STALE_ACCEPT| ==> Plain(STALE_ACCEPT[k])
  {
  }

  /** Nobody dies, nothing is left undone, every write succeeds; a lock is lost. */
  lemma LostLockReleases(books: B.Books, m: Id)
    requires B.MessageOpen(books, m)
    ensures ReleasedThoughAccepted(Run(Start(books, m), LostLock()))
  {
    hide Run, T.Step, O.Run, O.Apply, Sends, Refusal;
    var s := Start(books, m);
    PlainStaleAccept();
    SendsRun(s, STALE_ACCEPT);
    StaleAccept();
    var s1 := Run(s, Sends(STALE_ACCEPT));
    var s2 := Next(s1, AcceptMark(0, true, Later, 0));
    RunOne(s1, AcceptMark(0, true, Later, 0));
    assert s2.owed == [Capture] && s2.msg.acceptedAt.Some? && s2.job == s1.job && s2.books == books;
    RefusalFails(s2, 1);
    var s3 := Run(s2, Refusal(1));
    assert Uncaptured(s3) by {
      RefusalKeeps(s2, 1);
    }
    FailureReleases(s3, 1);
    var s4 := Run(s3, [FailMark(1, true, 0), SettleOwed(1)]);
    assert ReleasedThoughAccepted(s4);
    LateCapture(s4);
    RunOne(s4, SettleOwed(0));
    RunJoin(s, Sends(STALE_ACCEPT) + [AcceptMark(0, true, Later, 0)] + Refusal(1) + [FailMark(1, true, 0),
      SettleOwed(1)], [SettleOwed(0)]);
    RunJoin(s, Sends(STALE_ACCEPT) + [AcceptMark(0, true, Later, 0)] + Refusal(1), [FailMark(1, true, 0),
      SettleOwed(1)]);
    RunJoin(s, Sends(STALE_ACCEPT) + [AcceptMark(0, true, Later, 0)], Refusal(1));
    RunJoin(s, Sends(STALE_ACCEPT), [AcceptMark(0, true, Later, 0)]);
  }

  lemma RefusalKeeps(s: Sms, w: O.Worker)
    requires Ready(s)
    ensures Ready(Run(s, Refusal(w)))
  {
    hide Ready;
    ReadyRun(s, Refusal(w));
  }

  /** The capture comes too late: the hold is closed. */
  lemma LateCapture(s: Sms)
    requires ReleasedThoughAccepted(s)
    ensures ReleasedThoughAccepted(Next(s, SettleOwed(0)))
  {
    hide Effect;
  }

  /** A job in doubt, taken up again: two looks that find nothing, a send that is refused, the release. */
  function TakenUp(): seq<SStep> {
    Sends(OutboxSafety.Resend(0, true)) + Refusal(0) + [FailMark(0, true, 0), SettleOwed(0)]
  }

  /** The message is marked accepted and its hold open, but its job waits for a look as if in doubt. */
  predicate InDoubt(s: Sms) {
    && Uncaptured(s) && s.owed == []
    && s.job.row == O.Row(O.Uncertain, 1, None, O.NeedStat) && O.At(s.job, 0) == O.Idle
    && O.LatestKind(s.job.records, true) != Some(O.Fault5xx)
  }

  lemma ReadyAfterClaim(j: O.Job)
    requires O.Claimable(j.row.status) && O.At(j, 0) == O.Idle
    ensures O.At(O.Apply(j, O.ClaimJob(0)), 0) == O.Ready(|j.claims|)
  {
  }

  /** The two looks and the send are on new claims, whatever is noted about the old ones. */
  lemma ResendSends(s: Sms)
    requires s.job.row == O.Row(O.Uncertain, 1, None, O.NeedStat) && O.At(s.job, 0) == O.Idle && WellNoted(s)
    requires O.LatestKind(s.job.records, true) != Some(O.Fault5xx)
    ensures Run(s, Sends(OutboxSafety.Resend(0, true))) == s.(job := O.Run(s.job, OutboxSafety.Resend(0, true)))
  {
    hide O.Apply, O.Run, Run, Sends, O.LatestKind;
    var claim, look := O.ClaimJob(0), O.Check(0, O.NotFound(true));
    var j := s.job;
    ReadyAfterClaim(j);
    var j2 := O.Apply(O.Apply(j, claim), look);
    OutboxSafety.LookOnce(j, 0, true);
    ReadyAfterClaim(j2);
    OutboxSafety.RunSix(j, claim, look, claim, look, O.Touch(0), O.Post(0));
    SendsSix(s, claim, look, claim, look, O.Touch(0), O.Post(0));
    var s2 := Next(Next(s, Send(claim)), Send(look));
    assert s2 == s.(job := j2);
    var s4 := Next(Next(s2, Send(claim)), Send(look));
    assert s4 == s.(job := O.Apply(O.Apply(j2, claim), look));
  }

  lemma SendsSix(s: Sms, a: O.Step, b: O.Step, c: O.Step, d: O.Step, e: O.Step, f: O.Step)
    ensures Run(s, Sends([a, b, c, d, e, f])) ==
            Next(Next(Next(Next(Next(Next(s, Send(a)), Send(b)), Send(c)), Send(d)), Send(e)), Send(f))
  {
    hide Next;
    var six := [a, b, c, d, e, f];
    assert six[1..] == [b, c, d, e, f] && six[1..][1..] == [c, d, e, f] && six[1..][1..][1..] == [d, e, f];
    assert six[1..][1..][1..][1..] == [e, f] && six[1..][1..][1..][1..][1..] == [f]
      && six[1..][1..][1..][1..][1..][1..] == [];
    SendsHead(s, six);
    var s1 := Next(s, Send(a));
    SendsHead(s1, [b, c, d, e, f]);
    var s2 := Next(s1, Send(b));
    SendsHead(s2, [c, d, e, f]);
    var s3 := Next(s2, Send(c));
    SendsHead(s3, [d, e, f]);
    var s4 := Next(s3, Send(d));
    SendsHead(s4, [e, f]);
    var s5 := Next(s4, Send(e));
    SendsHead(s5, [f]);
    assert Run(Next(s5, Send(f)), Sends([])) == Next(s5, Send(f));
  }

  lemma SendsHead(s: Sms, steps: seq<O.Step>)
    requires steps != []
    ensures Run(s, Sends(steps)) == Run(Next(s, Send(steps[0])), Sends(steps[1..]))
  {
    hide Next;
    assert Sends(steps)[1..] == Sends(steps[1..]);
  }

  lemma PlainFirst()
    ensures var steps := OutboxSafety.FIRST_SEND + [O.ClaimJob(0)]; forall k :: 0 <= k < |steps| ==> Plain(steps[k])
  {
  }

  /** The job is claimed for a look after its first send timed out. */
  lemma FirstLook()
    ensures var j := O.Run(O.FRESH, OutboxSafety.FIRST_SEND + [O.ClaimJob(0)]);
      && O.At(j, 0) == O.Ready(1) && |j.claims| == 2 && j.claims[1].note == O.NeedStat
      && O.Owns(j, 0) && j.row.attempt == 1 && j.claims[1].attempt == 1 && j.records == [O.Record(1, O.Timeout)]
  {
    hide O.Run;
    OutboxSafety.FirstSendWaits();
    var w := O.Run(O.FRESH, OutboxSafety.FIRST_SEND);
    OutboxSafety.RunJoin(O.FRESH, OutboxSafety.FIRST_SEND, [O.ClaimJob(0)]);
    OutboxFaults.RunOne(w, O.ClaimJob(0));
  }

  /** The statistics row is written to the message, the mark fails, and the job is parked. */
  lemma HalfNotes(s: Sms)
    requires O.At(s.job, 0) == O.Ready(1) && |s.job.claims| == 2 && s.job.claims[1].note == O.NeedStat
        && s.job.claims[1].attempt == 1
    requires O.Owns(s.job, 0) && s.noted == map[] && s.msg.status == M.Queued
    ensures var t := Run(s, [StatMark(0, false, false, false, Never, 0), Send(O.Check(0, O.Match(false)))]);
      && t.msg.acceptedAt.Some? && Reached(t.msg) && t.books == s.books && t.owed == s.owed && t.m == s.m
      && t.job.row == O.Row(O.Uncertain, 1, None, O.NeedStat) && O.At(t.job, 0) == O.Idle
      && t.job.records == s.job.records && WellNoted(t)
  {
    hide Run;
    RunTwo(s, StatMark(0, false, false, false, Never, 0), Send(O.Check(0, O.Match(false))));
  }

  lemma TakenUpReleases(s: Sms)
    requires InDoubt(s)
    ensures ReleasedThoughAccepted(Run(s, TakenUp()))
  {
    hide Run, T.Step, O.Run, O.Apply, Sends, Refusal, O.LatestKind;
    var again := Sends(OutboxSafety.Resend(0, true));
    ResendSends(s);
    OutboxSafety.ResendAfterOne(s.job, 0, true);
    var s3 := Run(s, again);
    ReadyRun(s, again);
    RefusalFails(s3, 0);
    RefusalKeeps(s3, 0);
    FailureReleases(Run(s3, Refusal(0)), 0);
    RunJoin(s, again + Refusal(0), [FailMark(0, true, 0), SettleOwed(0)]);
    RunJoin(s, again, Refusal(0));
  }

  lemma OneRecordIsLatest(r: O.Record)
    ensures O.LatestKind([r], true) == Some(r.kind)
  {
  }

  /**
   * The first send times out. The statistics then show the message, which is written to it, but
   * the mark that follows fails and the job is parked.
   */
  function HalfNoted(): seq<SStep> {
    Sends(OutboxSafety.FIRST_SEND + [O.ClaimJob(0)])
    + [StatMark(0, false, false, false, Never, 0), Send(O.Check(0, O.Match(false)))] + TakenUp()
  }

  /** No lock is taken and nobody dies; one write fails between two that belong together. */
  lemma HalfNotedReleases(books: B.Books, m: Id)
    requires B.MessageOpen(books, m)
    ensures ReleasedThoughAccepted(Run(Start(books, m), HalfNoted()))
  {
    hide Run, T.Step, O.Run, O.Apply, Sends, TakenUp, O.LatestKind;
    var s := Start(books, m);
    var first := OutboxSafety.FIRST_SEND + [O.ClaimJob(0)];
    var half := [StatMark(0, false, false, false, Never, 0), Send(O.Check(0, O.Match(false)))];
    PlainFirst();
    SendsRun(s, first);
    FirstLook();
    var s1 := Run(s, Sends(first));
    HalfNotes(s1);
    OneRecordIsLatest(O.Record(1, O.Timeout));
    TakenUpReleases(Run(s1, half));
    RunJoin(s, Sends(first) + half, TakenUp());
    RunJoin(s, Sends(first), half);
  }

  /** A first send that the provider accepts. */
  const HEARD: seq<O.Step> := OutboxFaults.SENT + [O.Answer(0, O.Success, true)]

  lemma PlainHeard()
    ensures forall k :: 0 <= k < |HEARD| ==> Plain(HEARD[k])
  {
  }

  lemma HeardState()
    ensures var j := O.Run(O.FRESH, HEARD);
      && O.At(j, 0) == O.Answered(0, O.Success) && |j.claims| == 1 && j.claims[0].attempt == 0
      && j.row == O.Row(O.Processing, 0, Some(0), O.Other("")) && j.records == [O.Record(1, O.Accepted)]
  {
    hide O.Run, O.Apply;
    OutboxSafety.FirstPost();
    OutboxFaults.RunFour(O.FRESH, O.ClaimJob(0), O.Begin(0), O.Touch(0), O.Post(0));
    var j := O.Run(O.FRESH, OutboxFaults.SENT);
    OutboxSafety.RunJoin(O.FRESH, OutboxFaults.SENT, [O.Answer(0, O.Success, true)]);
    OutboxFaults.RunOne(j, O.Answer(0, O.Success, true));
    HeardAnswer(j);
  }

  lemma HeardAnswer(j: O.Job)
    requires O.At(j, 0) == O.Posted(0) && j.claims == [O.Claim(0, 0, O.Other(""), true, O.Held)] && j.records == []
    ensures var t := O.Apply(j, O.Answer(0, O.Success, true));
      && O.At(t, 0) == O.Answered(0, O.Success) && t.claims == j.claims && t.row == j.row
        && t.records == [O.Record(1, O.Accepted)]
  {
  }

  /** The worker notes the acceptance and dies before the capture; its lock is taken back after that. */
  function DeadHolder(): seq<SStep> {
    Sends(HEARD) + [AcceptMark(0, true, Never, 0), Send(O.Abandon(0))] + [Send(O.Reclaim)] + TakenUp()
  }

  lemma HolderDies(s: Sms)
    requires O.At(s.job, 0) == O.Answered(0, O.Success) && |s.job.claims| == 1
    requires s.job.row == O.Row(O.Processing, 0, Some(0), O.Other("")) && s.noted == map[] && s.msg.status == M.Queued
    ensures var t := Next(Run(s, [AcceptMark(0, true, Never, 0), Send(O.Abandon(0))]), Send(O.Reclaim));
      && t.msg.acceptedAt.Some? && Reached(t.msg) && t.books == s.books && t.owed == s.owed && t.m == s.m
      && t.job.row == O.Row(O.Uncertain, 1, None, O.NeedStat) && O.At(t.job, 0) == O.Idle
      && t.job.records == s.job.records && WellNoted(t)
  {
    hide Run;
    RunTwo(s, AcceptMark(0, true, Never, 0), Send(O.Abandon(0)));
  }

  /** No worker at work loses its lock and nothing is noted by half: the holder had died. */
  lemma DeadHolderReleases(books: B.Books, m: Id)
    requires B.MessageOpen(books, m)
    ensures ReleasedThoughAccepted(Run(Start(books, m), DeadHolder()))
  {
    hide Run, T.Step, O.Run, O.Apply, Sends, TakenUp, O.LatestKind, Next;
    var s := Start(books, m);
    var dies := [AcceptMark(0, true, Never, 0), Send(O.Abandon(0))];
    PlainHeard();
    SendsRun(s, HEARD);
    HeardState();
    var s1 := Run(s, Sends(HEARD));
    HolderDies(s1);
    RunOne(Run(s1, dies), Send(O.Reclaim));
    OneRecordIsLatest(O.Record(1, O.Accepted));
    TakenUpReleases(Run(Run(s1, dies), [Send(O.Reclaim)]));
    RunJoin(s, Sends(HEARD) + dies + [Send(O.Reclaim)], TakenUp());
    RunJoin(s, Sends(HEARD) + dies, [Send(O.Reclaim)]);
    RunJoin(s, Sends(HEARD), dies);
  }

  /** The mark takes effect but reports an error, and the worker parks the job as in doubt. */
  function HalfAccepted(): seq<SStep> {
    Sends(HEARD) + [AcceptMark(0, false, Never, 0), Send(O.Finish(0, false, O.NeedStat))] + TakenUp()
  }

  lemma HalfAccepts(s: Sms)
    requires O.At(s.job, 0) == O.Answered(0, O.Success) && |s.job.claims| == 1 && s.job.claims[0].attempt == 0
    requires s.job.row == O.Row(O.Processing, 0, Some(0), O.Other("")) && s.noted == map[] && s.msg.status == M.Queued
    ensures var t := Run(s, [AcceptMark(0, false, Never, 0), Send(O.Finish(0, false, O.NeedStat))]);
      && t.msg.acceptedAt.Some? && Reached(t.msg) && t.books == s.books && t.owed == s.owed && t.m == s.m
      && t.job.row == O.Row(O.Uncertain, 1, None, O.NeedStat) && O.At(t.job, 0) == O.Idle
      && t.job.records == s.job.records && WellNoted(t)
  {
    hide Run;
    RunTwo(s, AcceptMark(0, false, Never, 0), Send(O.Finish(0, false, O.NeedStat)));
  }

  lemma HalfAcceptedReleases(books: B.Books, m: Id)
    requires B.MessageOpen(books, m)
    ensures ReleasedThoughAccepted(Run(Start(books, m), HalfAccepted()))
  {
    hide Run, T.Step, O.Run, O.Apply, Sends, TakenUp, O.LatestKind, Next;
    var s := Start(books, m);
    var half := [AcceptMark(0, false, Never, 0), Send(O.Finish(0, false, O.NeedStat))];
    PlainHeard();
    SendsRun(s, HEARD);
    HeardState();
    var s1 := Run(s, Sends(HEARD));
    HalfAccepts(s1);
    OneRecordIsLatest(O.Record(1, O.Accepted));
    TakenUpReleases(Run(s1, half));
    RunJoin(s, Sends(HEARD) + half, TakenUp());
    RunJoin(s, Sends(HEARD), half);
  }

  // ---------------------------------------------------------------- if mark and capture were one step

  /** The capture is one step with the noted acceptance, and the failed message is marked failed. */
  predicate Careful(step: SStep) {
    match step
    case AcceptMark(_, marked, capture, _) => marked && capture == Now
    case StatMark(_, _, _, marked, capture, _) => marked && capture == Now
    case Statistic(_, _, capture, _) => capture == Now
    case ReportFailed(capture, _) => capture == Now
    case FailMark(_, updated, _) => updated
    case _ => true
  }

  predicate AllCareful(steps: seq<SStep>) {
    forall k :: 0 <= k < |steps| ==> Careful(steps[k])
  }

  /** Settled as delivered, or about to be: only a message that failed unaccepted is released. */
  predicate Matched(s: Sms) {
    && Held(s.books, s.m) && Reached(s.msg)
    && (s.msg.acceptedAt.Some? ==> ActionOf(s) == Some(Capture) || (ActionOf(s).None? && s.books.deleted))
    && (ActionOf(s) == Some(Release) ==> s.msg.status == M.Failed)
    && (Release in s.owed ==> !M.Open(s.msg.status))
  }

  lemma MatchedCapture(s: Sms, t: Sms)
    requires Matched(s) && t == s.(msg := t.msg, noted := t.noted) && Reached(t.msg)
    requires !M.Open(s.msg.status) ==> t.msg == s.msg
    ensures Matched(Ask(t, Capture, Now))
  {
    hide T.Step;
    SettleFrame(t, Capture);
    var u := Ask(t, Capture, Now);
    assert u == Settle(t, Capture) && ActionOf(t) == ActionOf(s);
    if ActionOf(s).Some? && ActionOf(s).value != Capture {
      assert ActionOf(s) == Some(Release) && t.msg == s.msg;
    }
  }

  lemma MatchedStep(s: Sms, step: SStep)
    requires Matched(s) && Careful(step)
    ensures Matched(Next(s, step))
  {
    hide T.Step, O.Apply, AcceptedMsg, FailedMsg, SeenMsg, Ask, Held, HearsAccepted, LooksUp, JobOnly, ForeignOp,
      Matched, Reached, S.SettleActionFor;
    assert Reached(s.msg) by {
      MatchedReached(s);
    }
    match step
    case Send(o) => MatchedSend(s, O.Apply(s.job, o));
    case AcceptMark(w, marked, capture, at) =>
      if HearsAccepted(s, w) {
        HearsHas(s, w);
        RowsReach(s.msg, false, false, at);
        RowsStay(s.msg, false, false, at);
        MatchedCapture(s, s.(msg := AcceptedMsg(s.msg, at), noted := s.noted[O.At(s.job, w).k := true]));
      }
    case StatMark(w, delivered, sent, marked, capture, at) =>
      if LooksUp(s, w) {
        LooksHas(s, w);
        RowsReach(s.msg, delivered, sent, at);
        RowsStay(s.msg, delivered, sent, at);
        var seen := SeenMsg(s.msg, delivered, sent, at);
        RowsReach(seen, false, false, at);
        RowsStay(seen, false, false, at);
        MatchedCapture(s, s.(msg := AcceptedMsg(seen, at), noted := s.noted[O.At(s.job, w).k := marked]));
      }
    case FailMark(w, updated, at) => MatchedFail(s, w, at);
    case Statistic(delivered, sent, capture, at) =>
      RowsReach(s.msg, delivered, sent, at);
      RowsStay(s.msg, delivered, sent, at);
      MatchedCapture(s, s.(msg := SeenMsg(s.msg, delivered, sent, at)));
    case ReportFailed(capture, at) =>
      RowsReach(s.msg, false, false, at);
      RowsStay(s.msg, false, false, at);
      MatchedCapture(s, s.(msg := FailedMsg(s.msg, at)));
    case ReapList => MatchedReap(s);
    case SettleOwed(k) => MatchedSettle(s, k);
    case Billing(op) => if ForeignOp(s, op) { MatchedForeign(s, op); }
  }

  lemma MatchedReached(s: Sms)
    requires Matched(s)
    ensures Reached(s.msg)
  {
  }

  lemma MatchedSend(s: Sms, j: O.Job)
    requires Matched(s)
    ensures Matched(s.(job := j))
  {
  }

  lemma MatchedForeign(s: Sms, op: T.Op)
    requires Matched(s) && ForeignOp(s, op)
    ensures Matched(Next(s, Billing(op)))
  {
    hide T.Step, Held;
    ForeignFrame(s, op);
  }

  lemma MatchedFail(s: Sms, w: O.Worker, at: M.Time)
    requires Matched(s)
    ensures Matched(Next(s, FailMark(w, true, at)))
  {
    hide O.Apply, Held;
  }

  lemma MatchedReap(s: Sms)
    requires Matched(s)
    ensures Matched(Next(s, ReapList))
  {
    hide Held;
  }

  lemma MatchedSettle(s: Sms, k: nat)
    requires Matched(s)
    ensures Matched(Next(s, SettleOwed(k)))
  {
    hide T.Step, Held;
    if k < |s.owed| {
      SettleFrame(s, s.owed[k]);
      assert s.owed[k] in s.owed;
    }
  }

  lemma {:induction false} MatchedRun(s: Sms, steps: seq<SStep>)
    requires Matched(s) && AllCareful(steps)
    ensures Matched(Run(s, steps))
    decreases |steps|
  {
    hide Matched, Next, Careful;
    if steps != [] {
      MatchedStep(s, steps[0]);
      MatchedRun(Next(s, steps[0]), steps[1..]);
    }
  }

  /**
   * If noting an acceptance and capturing were one step, and failed messages were always marked,
   * then in every interleaving, lost locks or not, an accepted message would be charged and only
   * one that failed without ever being accepted released. The program runs them as two.
   */
  lemma ChargedIfAccepted(books: B.Books, m: Id, steps: seq<SStep>)
    requires B.MessageOpen(books, m) && AllCareful(steps)
    ensures var s := Run(Start(books, m), steps);
      && (s.msg.acceptedAt.Some? && !s.books.deleted ==> ActionOf(s) == Some(Capture))
      && (ActionOf(s) == Some(Release) ==> s.msg.acceptedAt.None? && s.msg.status == M.Failed)
  {
    hide Next;
    MatchedRun(Start(books, m), steps);
  }
}
