/**
 * Polling ends: with one poller and a client that stays, every poll of a pending item
 * leaves it terminal or uses up one of its poll attempts, whatever the provider answers
 * and whatever callbacks, reapers and billing do meanwhile.
 */
module LookupPolling {
  import opened Common
  import opened Ledger
  import opened Books
  import opened ProviderMapping
  import opened LookupFlow
  import opened LookupSafety
  import Transactions

  const POLL_MAX_ATTEMPTS: nat := 120

  /** The answer to the status request; a fault may be marked retryable, or be no provider error at all. */
  datatype Fetch = Answered(reply: Reply) | Fault(retryable: bool, typed: bool)

  /**
   * Everything one poll meets; `meanwhile` and `between` are steps of others that interleave.
   * The program only logs a failed write: `lostUpdate` loses the item update (a failure or a
   * provider answer), `lostRetry` the rescheduling.
   */
  datatype Meeting = Meeting(
    hasMessageId: bool,
    tooOld: bool,
    configured: bool,
    fetch: Fetch,
    rich: Option<Reply>,
    meanwhile: seq<FStep>,
    between: seq<FStep>,
    lostUpdate: bool,
    lostRetry: bool)

  /** A step of anyone but a poller: no attempt is written. */
  predicate NotPolling(steps: seq<FStep>) {
    forall k :: 0 <= k < |steps| ==> !steps[k].Reschedule?
  }

  predicate Fair(m: Meeting) {
    NotPolling(m.meanwhile) && NotPolling(m.between)
  }

  /** Both writes of the poll reach the database, if it gets to make them. */
  predicate Landed(m: Meeting) {
    !m.lostUpdate && !m.lostRetry
  }

  /** One call of pollItem on the row as claimed. */
  function PollItem(s: Flow, i: Id, m: Meeting): Flow
    requires i in s.books.items
  {
    var item := s.books.items[i];
    var s1 := Run(s, m.meanwhile);
    if Terminal(item.status) then s
    else if !m.hasMessageId then Fail(s1, i, m.lostUpdate)
    else if m.tooOld || item.polls >= POLL_MAX_ATTEMPTS then Fail(s1, i, m.lostUpdate)
    else if !m.configured then Retry(s1, i, item.polls, m.lostRetry)
    else
      match m.fetch
      case Fault(retryable, typed) =>
        if (retryable || !typed) && item.polls + 1 < POLL_MAX_ATTEMPTS then Retry(s1, i, item.polls, m.lostRetry)
        else Fail(s1, i, m.lostUpdate)
      case Answered(reply) =>
        var step := ApplyUpdate(i, reply, m.rich);
        if !m.lostUpdate && MakesTerminal(s1, step, i) then Next(s1, step)
        else Retry(Run(if m.lostUpdate then s1 else Next(s1, step), m.between), i, item.polls, m.lostRetry)
  }

  /** failItem gives up on a deleted client. */
  function Fail(s: Flow, i: Id, lost: bool): Flow {
    if s.books.deleted || lost then s else Next(s, ForceFail(i))
  }

  /** reschedulePoll writes the attempt number read at the claim, plus one. */
  function Retry(s: Flow, i: Id, polls: int, lost: bool): Flow {
    if lost then s else Next(s, Reschedule(i, polls + 1))
  }

  // ---------------------------------------------------------------- the others leave the attempts alone

  lemma OtherStep(s: Flow, step: FStep, i: Id)
    requires i in s.books.items && Rank(s.books.items[i].status) >= 2 && !step.Reschedule?
    ensures i in Next(s, step).books.items && Next(s, step).books.items[i].polls == s.books.items[i].polls
  {
    hide Transactions.Step, MapResponse;
    match step
    case ReapList(_) =>
    case SettleOwed(k) =>
      if k < |s.owed| {
        SettleIsStep(s.books, s.owed[k].item, s.owed[k].action);
        SettleFrame(s.books, s.owed[k].item, s.owed[k].action);
        var j := s.books.items[i];
        assert j.polls == j.(action := None, cost := None).polls;
      }
    case Billing(op) => if ForeignOp(op) { ForeignFrame(s.books, op, i); }
    case _ => MoveFrame(s, step, i);
  }

  lemma {:induction false} OthersRun(s: Flow, steps: seq<FStep>, i: Id)
    requires i in s.books.items && Rank(s.books.items[i].status) >= 2 && NotPolling(steps)
    ensures i in Run(s, steps).books.items
    ensures Rank(Run(s, steps).books.items[i].status) >= 2
        && Run(s, steps).books.items[i].polls == s.books.items[i].polls
    ensures Terminal(s.books.items[i].status) ==> Terminal(Run(s, steps).books.items[i].status)
    decreases |steps|
  {
    hide Next;
    if steps != [] {
      OtherStep(s, steps[0], i);
      RankStep(s, steps[0], i);
      OthersRun(Next(s, steps[0]), steps[1..], i);
    }
  }

  lemma DeletedStays(s: Flow, step: FStep)
    requires s.books.deleted
    ensures Next(s, step).books.deleted
  {
    hide Written, Asked, CauseOf, Transactions.Step;
    match step
    case ReapList(_) =>
    case SettleOwed(k) => if k < |s.owed| { OpKeepsDeleted(s.books, Transactions.SettleLookup(s.owed[k].item,
      s.owed[k].action)); }
    case Billing(op) => OpKeepsDeleted(s.books, op);
    case _ =>
      if step.i in s.books.items && Written(s.books.items[step.i], s.books.deleted, step).Some? {
        OpKeepsDeleted(s.books, MoveOf(step.i, Written(s.books.items[step.i], s.books.deleted, step).value));
      }
  }

  lemma OpKeepsDeleted(b: Books, op: Transactions.Op)
    requires b.deleted
    ensures Transactions.Step(b, op).deleted
  {
    hide Effect;
  }

  lemma {:induction false} DeletedRun(s: Flow, steps: seq<FStep>)
    requires s.books.deleted
    ensures Run(s, steps).books.deleted
    decreases |steps|
  {
    hide Next;
    if steps != [] {
      DeletedStays(s, steps[0]);
      DeletedRun(Next(s, steps[0]), steps[1..]);
    }
  }

  lemma FailEnds(s: Flow, i: Id)
    requires i in s.books.items && !s.books.deleted
    ensures var t := Fail(s, i, false); i in t.books.items && Terminal(t.books.items[i].status)
  {
    MoveFrame(s, ForceFail(i), i);
  }

  lemma RetryCounts(s: Flow, i: Id, polls: int)
    requires i in s.books.items && Rank(s.books.items[i].status) >= 2
    ensures var t := Retry(s, i, polls, false);
      && i in t.books.items
      && (Terminal(t.books.items[i].status) || (t.books.items[i].status == Pending
        && t.books.items[i].polls == polls + 1))
  {
    MoveFrame(s, Reschedule(i, polls + 1), i);
  }

  /** Ended, or still pending with that many attempts. */
  predicate PolledTo(s: Flow, i: Id, polls: int) {
    i in s.books.items && (Terminal(s.books.items[i].status) || (s.books.items[i].status == Pending
      && s.books.items[i].polls == polls))
  }

  lemma OthersKeep(s: Flow, steps: seq<FStep>, i: Id, polls: int)
    requires PolledTo(s, i, polls) && NotPolling(steps)
    ensures PolledTo(Run(s, steps), i, polls)
  {
    hide Run;
    OthersRun(s, steps, i);
  }

  /** What the last part of a poll does, whether or not its write is lost. */
  lemma RetryEither(s: Flow, i: Id, polls: int, lost: bool)
    requires PolledTo(s, i, polls)
    ensures PolledTo(Retry(s, i, polls, lost), i, if lost then polls else polls + 1)
  {
    hide Next;
    if !lost {
      RetryCounts(s, i, polls);
    }
  }

  lemma FailEither(s: Flow, i: Id, polls: int, lost: bool)
    requires PolledTo(s, i, polls) && !Fail(s, i, lost).books.deleted
    ensures if lost then PolledTo(Fail(s, i, lost), i, polls)
            else var t := Fail(s, i, lost); i in t.books.items && Terminal(t.books.items[i].status)
  {
    hide Next;
    if !lost && !s.books.deleted {
      FailEnds(s, i);
    }
  }

  /** The branch that asked the provider: the answer lands or not, then the rescheduling does or not. */
  lemma AnswerProgress(s: Flow, i: Id, m: Meeting, polls: int)
    requires PolledTo(s, i, polls) && Fair(m) && m.fetch.Answered?
    ensures var step := ApplyUpdate(i, m.fetch.reply, m.rich);
      var t := if !m.lostUpdate && MakesTerminal(s, step, i) then Next(s, step)
               else Retry(Run(if m.lostUpdate then s else Next(s, step), m.between), i, polls, m.lostRetry);
      && PolledTo(t, i, if m.lostRetry then polls else polls + 1)
  {
    hide Next, Run, MapResponse;
    var step := ApplyUpdate(i, m.fetch.reply, m.rich);
    RankStep(s, step, i);
    OtherStep(s, step, i);
    var u := if m.lostUpdate then s else Next(s, step);
    assert PolledTo(u, i, polls);
    OthersKeep(u, m.between, i, polls);
    RetryEither(Run(u, m.between), i, polls, m.lostRetry);
  }

  /**
   * One poll: the item ends, or is still pending with one attempt more, within the limit. If a
   * write of the poll is lost, the item ends or is pending with at most one attempt more.
   */
  lemma PollProgress(s: Flow, i: Id, m: Meeting)
    requires i in s.books.items && s.books.items[i].status == Pending
    requires Fair(m) && !PollItem(s, i, m).books.deleted
    ensures var t, polls := PollItem(s, i, m), s.books.items[i].polls;
      && (PolledTo(t, i, polls) || (PolledTo(t, i, polls + 1) && polls + 1 <= POLL_MAX_ATTEMPTS))
      && (Landed(m) ==>
            PolledTo(t, i, polls + 1) && (Terminal(t.books.items[i].status) || polls + 1 <= POLL_MAX_ATTEMPTS))
  {
    hide Next, Run, MapResponse, Fail, Retry, MakesTerminal;
    var s1 := Run(s, m.meanwhile);
    var polls := s.books.items[i].polls;
    OthersKeep(s, m.meanwhile, i, polls);
    RetryEither(s1, i, polls, m.lostRetry);
    if !Fail(s1, i, m.lostUpdate).books.deleted {
      FailEither(s1, i, polls, m.lostUpdate);
    }
    if m.fetch.Answered? {
      AnswerProgress(s1, i, m, polls);
    }
  }

  /** A series of polls, each followed by steps of others. */
  function Polls(s: Flow, i: Id, ms: seq<Meeting>, after: seq<seq<FStep>>): Flow
    requires |ms| == |after|
    decreases |ms|
  {
    if ms == [] || i !in s.books.items then s
    else Polls(Run(PollItem(s, i, ms[0]), after[0]), i, ms[1..], after[1..])
  }

  lemma {:induction false} DeletedPolls(s: Flow, i: Id, ms: seq<Meeting>, after: seq<seq<FStep>>)
    requires |ms| == |after| && s.books.deleted
    ensures Polls(s, i, ms, after).books.deleted
    decreases |ms|
  {
    hide Next, Run, PollItem;
    if ms != [] && i in s.books.items {
      DeletedPoll(s, i, ms[0]);
      DeletedRun(PollItem(s, i, ms[0]), after[0]);
      DeletedPolls(Run(PollItem(s, i, ms[0]), after[0]), i, ms[1..], after[1..]);
    }
  }

  lemma DeletedPoll(s: Flow, i: Id, m: Meeting)
    requires i in s.books.items && s.books.deleted
    ensures PollItem(s, i, m).books.deleted
  {
    hide Next, Run, MakesTerminal;
    var s1 := Run(s, m.meanwhile);
    DeletedRun(s, m.meanwhile);
    DeletedStays(s1, ForceFail(i));
    var polls := s.books.items[i].polls;
    DeletedStays(s1, Reschedule(i, polls + 1));
    if m.fetch.Answered? {
      var step := ApplyUpdate(i, m.fetch.reply, m.rich);
      DeletedStays(s1, step);
      var s2 := if m.lostUpdate then s1 else Next(s1, step);
      DeletedRun(s2, m.between);
      DeletedStays(Run(s2, m.between), Reschedule(i, polls + 1));
    }
  }

  lemma {:induction false} TerminalPolls(s: Flow, i: Id, ms: seq<Meeting>, after: seq<seq<FStep>>)
    requires |ms| == |after| && i in s.books.items && Terminal(s.books.items[i].status)
    ensures var t := Polls(s, i, ms, after); i in t.books.items && Terminal(t.books.items[i].status)
    decreases |ms|
  {
    hide Next, Run;
    if ms != [] {
      RankNeverFalls(s, after[0], i);
      TerminalPolls(Run(s, after[0]), i, ms[1..], after[1..]);
    }
  }

  /** How many of the polls wrote what they meant to. */
  function LandedCount(ms: seq<Meeting>): nat {
    if ms == [] then 0 else (if Landed(ms[0]) then 1 else 0) + LandedCount(ms[1..])
  }

  /**
   * A pending item is terminal after at most one poll more than it has attempts left, not
   * counting polls whose writes were lost.
   */
  lemma {:induction false} PollingEnds(s: Flow, i: Id, ms: seq<Meeting>, after: seq<seq<FStep>>)
    requires |ms| == |after|
    requires i in s.books.items && s.books.items[i].status == Pending
    requires forall k :: 0 <= k < |ms| ==> Fair(ms[k]) && NotPolling(after[k])
    requires LandedCount(ms) > POLL_MAX_ATTEMPTS - s.books.items[i].polls && LandedCount(ms) >= 1
    requires !Polls(s, i, ms, after).books.deleted
    ensures var t := Polls(s, i, ms, after); i in t.books.items && Terminal(t.books.items[i].status)
    decreases |ms|
  {
    hide Next, Run, PollItem, Landed, Fair;
    var t := PollItem(s, i, ms[0]);
    var u := Run(t, after[0]);
    if t.books.deleted {
      DeletedRun(t, after[0]);
      DeletedPolls(u, i, ms[1..], after[1..]);
      assert false;
    }
    PollProgress(s, i, ms[0]);
    OthersRun(t, after[0], i);
    if Terminal(u.books.items[i].status) {
      TerminalPolls(u, i, ms[1..], after[1..]);
    } else {
      PollingEnds(u, i, ms[1..], after[1..]);
    }
  }

  /** The poll gives up on the item without hearing a final answer. */
  predicate GivesUp(item: Item, m: Meeting) {
    || !m.hasMessageId || m.tooOld || item.polls >= 120
    || (m.configured && m.fetch.Fault? && ((m.fetch.typed && !m.fetch.retryable) || item.polls + 1 >= 120))
  }

  /**
   * What one poll of a pending item decides when its writes land and nobody interferes: it fails
   * the item exactly if it gives up or the provider says failed, completes it exactly if the
   * provider says so, and otherwise leaves it pending with one attempt more.
   */
  lemma PollDecides(s: Flow, i: Id, m: Meeting)
    requires i in s.books.items && s.books.items[i].status == Pending && !s.books.deleted && Landed(m)
    requires m.meanwhile == [] && m.between == []
    ensures var item, t := s.books.items[i], PollItem(s, i, m);
      var heard := !GivesUp(item, m) && m.configured && m.fetch.Answered?;
      && i in t.books.items
      && (t.books.items[i].status == Failed <==>
            GivesUp(item, m) || (heard && MapResponse(m.fetch.reply).lifecycle == FailedCycle))
      && (t.books.items[i].status == Completed <==> heard && MapResponse(m.fetch.reply).lifecycle == CompletedCycle)
      && (t.books.items[i].status == Pending ==> t.books.items[i].polls == item.polls + 1)
      && (t.books.items[i].status == Pending || Terminal(t.books.items[i].status))
  {
    hide Next, MapResponse, MakesTerminal;
    var item := s.books.items[i];
    assert Run(s, m.meanwhile) == s;
    MoveFrame(s, ForceFail(i), i);
    MoveFrame(s, Reschedule(i, item.polls + 1), i);
    if m.fetch.Answered? {
      AnswerDecides(s, i, m);
    }
  }

  lemma AnswerDecides(s: Flow, i: Id, m: Meeting)
    requires i in s.books.items && s.books.items[i].status == Pending && m.fetch.Answered?
    ensures var step, item := ApplyUpdate(i, m.fetch.reply, m.rich), s.books.items[i];
      var life, u := MapResponse(m.fetch.reply).lifecycle, Next(s, step);
      && (MakesTerminal(s, step, i) <==> life == CompletedCycle || life == FailedCycle)
      && i in u.books.items && Run(u, []) == u
      && (life == CompletedCycle ==> u.books.items[i].status == Completed)
      && (life == FailedCycle ==> u.books.items[i].status == Failed)
      && (life in {AcceptedCycle, PendingCycle} ==>
            var v := Retry(u, i, item.polls, false);
            i in v.books.items && v.books.items[i].status == Pending && v.books.items[i].polls == item.polls + 1)
  {
    hide MapResponse, Transactions.Step;
    var step := ApplyUpdate(i, m.fetch.reply, m.rich);
    UpdateWrites(s.books.items[i], s.books.deleted, i, m.fetch.reply, m.rich);
    MoveFrame(s, step, i);
    var u := Next(s, step);
    MoveFrame(u, Reschedule(i, s.books.items[i].polls + 1), i);
  }
}
