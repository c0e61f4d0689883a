/**
 * One message, its send job and its hold together: the outbox workers, the delivery reports,
 * the reconciliation and the reaper all touch them, each in several separate writes.
 *
 * A settlement that somebody asks for is carried out at once, at any later time, or never (the
 * process died first); asking and doing are separate steps.
 */
module SmsFlow {
  import opened Common
  import opened Ledger
  import B = Books
  import T = Transactions
  import S = BillingService
  import M = Messages
  import O = Outbox

  /** What becomes of a settlement after the write that calls for it. */
  datatype When = Never | Later | Now

  /**
   * `noted` are the claims whose worker has written to the message that the provider has it: true
   * once the message is marked accepted and the worker knows it; false if the worker goes on as
   * if it had not, because the mark took effect but reported an error, or because the statistics
   * row was applied and the mark after it failed.
   */
  datatype Sms = Sms(m: Id, job: O.Job, msg: M.Msg, books: B.Books, owed: seq<Action>, noted: map<nat, bool>)

  /**
   * Reconciliation (`Statistic`) and delivery reports (`Statistic`, `ReportFailed`) only reach a
   * message that was accepted: they look for its status or for the provider's id.
   */
  datatype SStep =
    | Send(step: O.Step)
    | AcceptMark(w: O.Worker, marked: bool, capture: When, at: M.Time)
    | StatMark(w: O.Worker, delivered: bool, sent: bool, marked: bool, capture: When, at: M.Time)
    | FailMark(w: O.Worker, updated: bool, at: M.Time)
    | Statistic(delivered: bool, sent: bool, capture: When, at: M.Time)
    | ReportFailed(capture: When, at: M.Time)
    | ReapList
    | SettleOwed(k: nat)
    | Billing(op: T.Op)

  /** A queued message with its hold and its fresh send job, as one transaction leaves them. */
  function Start(books: B.Books, m: Id): Sms {
    Sms(m, O.FRESH, M.Msg(false, M.Queued, None, None, None, None, None), books, [], map[])
  }

  /** The row an update wrote, or the message as it was if the guard missed it. */
  function After(row: Option<M.Msg>, msg: M.Msg): M.Msg {
    if row.Some? then row.value else msg
  }

  function AcceptedMsg(msg: M.Msg, at: M.Time): M.Msg {
    After(M.AcceptedRow(msg, None, at), msg)
  }

  function SeenMsg(msg: M.Msg, delivered: bool, sent: bool, at: M.Time): M.Msg {
    After(M.StatisticRow(msg, None, delivered, sent, at), msg)
  }

  function FailedMsg(msg: M.Msg, at: M.Time): M.Msg {
    After(M.FailedRow(msg, at), msg)
  }

  function Settle(s: Sms, a: Action): Sms {
    s.(books := T.Step(s.books, T.Settle(s.m, a)))
  }

  function Ask(s: Sms, a: Action, when: When): Sms {
    match when
    case Never => s
    case Later => s.(owed := s.owed + [a])
    case Now => Settle(s, a)
  }

  /**
   * The outbox steps that touch nothing but the job. A worker that has noted the acceptance
   * completes the job, one whose mark failed parks it, and neither does anything else.
   */
  predicate JobOnly(s: Sms, step: O.Step) {
    match step
    case MarkFailed(_) => false
    case Drop(w, _) => O.At(s.job, w).Ready? ==> O.At(s.job, w).k !in s.noted
    case Check(w, found) =>
      O.At(s.job, w).Ready? ==>
        if O.At(s.job, w).k in s.noted then found == O.Match(s.noted[O.At(s.job, w).k]) else found != O.Match(true)
    case Finish(w, markOk, _) =>
      O.At(s.job, w).Answered? && O.At(s.job, w).reply.Success? ==>
        (markOk <==> O.At(s.job, w).k in s.noted && s.noted[O.At(s.job, w).k])
    case _ => true
  }

  /** The provider has just answered that it accepts the message. */
  predicate HearsAccepted(s: Sms, w: O.Worker) {
    && O.At(s.job, w).Answered? && O.At(s.job, w).reply.Success?
    && O.At(s.job, w).k < |s.job.claims| && O.At(s.job, w).k !in s.noted
  }

  /** The worker looks the message up in the statistics. */
  predicate LooksUp(s: Sms, w: O.Worker) {
    && O.At(s.job, w).Ready?
    && O.At(s.job, w).k < |s.job.claims| && O.At(s.job, w).k !in s.noted
    && O.NeedStatistic(s.job.claims[O.At(s.job, w).k].note)
  }

  /** The worker writes to the message and, if it knows that it is marked, asks for the capture. */
  function Note(s: Sms, w: O.Worker, msg: M.Msg, marked: bool, capture: When): Sms
    requires !O.At(s.job, w).Idle?
  {
    Ask(s.(msg := msg, noted := s.noted[O.At(s.job, w).k := marked]), Capture, if marked then capture else Never)
  }

  /** What the reaper reads of the message, its job and its bill. */
  function Bill(s: Sms): B.Message
    requires s.m in s.books.messages
  {
    s.books.messages[s.m].(accepted := s.msg.acceptedAt.Some?, failed := s.msg.status == M.Failed, jobDead :=
      s.job.row.status == O.Dead)
  }

  predicate ForeignOp(s: Sms, op: T.Op) {
    !(op.Settle? && op.m == s.m) && !(op.MoveMessage? && op.m == s.m)
  }

  function Next(s: Sms, step: SStep): Sms {
    match step
    case Send(o) => if JobOnly(s, o) then s.(job := O.Apply(s.job, o)) else s
    case AcceptMark(w, marked, capture, at) =>
      if HearsAccepted(s, w) then
        Note(s, w, AcceptedMsg(s.msg, at), marked, capture)
      else s
    case StatMark(w, delivered, sent, marked, capture, at) =>
      if LooksUp(s, w) then
        var seen := SeenMsg(s.msg, delivered, sent, at);
        Note(s, w, if marked then AcceptedMsg(seen, at) else seen, marked, capture)
      else s
    case FailMark(w, updated, at) =>
      if O.At(s.job, w).Failing? then
        Ask(s.(job := O.Apply(s.job, O.MarkFailed(w)),
               msg := if updated then FailedMsg(s.msg, at) else s.msg), Release, Later)
      else s
    case Statistic(delivered, sent, capture, at) =>
      if s.msg.acceptedAt.Some? then
        Ask(s.(msg := SeenMsg(s.msg, delivered, sent, at)), Capture, capture)
      else s
    case ReportFailed(capture, at) =>
      if s.msg.acceptedAt.Some? then Ask(s.(msg := FailedMsg(s.msg, at)), Capture, capture) else s
    case ReapList =>
      if B.MessageOpen(s.books, s.m) && S.SettleActionFor(Bill(s)).Some?
        then Ask(s, S.SettleActionFor(Bill(s)).value, Later) else s
    case SettleOwed(k) => if k < |s.owed| then Settle(s, s.owed[k]) else s
    case Billing(op) => if ForeignOp(s, op) then s.(books := T.Step(s.books, op)) else s
  }

  function Run(s: Sms, steps: seq<SStep>): Sms
    decreases |steps|
  {
    if steps == [] then s else Run(Next(s, steps[0]), steps[1..])
  }
}
