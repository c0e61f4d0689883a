/**
 * The life of lookup items under concurrent submit, poll, callback, stale-fail, reaper and
 * enrichment steps, over the client's books.
 *
 * Every step is one guarded update of an item row, one billing transaction, or one read
 * that leaves a settlement to be done. A settlement owed may be carried out at any later
 * time, repeatedly, or never.
 */
module LookupFlow {
  import opened Common
  import opened Ledger
  import opened Books
  import Transactions
  import opened ProviderMapping
  import BillingService

  datatype Owed = Owed(item: Id, action: Action)

  /** Why an item became terminal: the worker gave up, or the provider answered. */
  datatype Cause = Forced | Provider(reply: Reply, rich: Option<Reply>)

  datatype Flow = Flow(books: Books, owed: seq<Owed>, causes: map<Id, Cause>)

  /**
   * A second look at a terminal item: the provider's answer, the result read when the item was
   * claimed for it, and whether any other field of the merged answer is better than what was read.
   */
  datatype Look = Look(details: Reply, seen: Option<ResultStatus>, other: bool)

  datatype FStep =
    | ClaimQueued(i: Id)
    | SubmitReply(i: Id, reply: Reply)
    | ForceFail(i: Id)
    | ApplyUpdate(i: Id, reply: Reply, rich: Option<Reply>)
    | Reschedule(i: Id, polls: int)
    | Enrich(i: Id, look: Look)
    | ReapList(i: Id)
    | SettleOwed(k: nat)
    | Billing(op: Transactions.Op)

  function Start(hasWallet: bool): Flow {
    Flow(Fresh(hasWallet), [], map[])
  }

  function MergedResult(look: Look): ResultStatus {
    PreferResult(MapResponse(look.details).result, look.seen)
  }

  /** The row is written only if something got better: a settled result that is new, or another field. */
  predicate Improves(look: Look) {
    look.other || (!MergedResult(look).StillPending? && look.seen != Some(MergedResult(look)))
  }

  // ---------------------------------------------------------------- item rows

  /** The guarded update of one item row; absent values keep what is stored. */
  function Transition(item: Item, from: set<ItemStatus>, to: ItemStatus, result: Option<ResultStatus>,
      polls: Option<int>): Option<Item> {
    if item.status in from then
      Some(item.(status := to,
                 result := if result.Some? then result else item.result,
                 polls := if polls.Some? then polls.value else item.polls))
    else None
  }

  /**
   * The row a step leaves, if its guard holds. Only the claim asks for the client inside its own
   * statement; submit and fail look at the client earlier, so a step that finds it deleted is
   * just not taken, and one that looked before the deletion goes through. Enrichment merges the
   * provider's answer with the result it read when it claimed the item, not with the row.
   */
  function Written(item: Item, deleted: bool, step: FStep): Option<Item> {
    match step
    case ClaimQueued(_) =>
      if deleted then None else Transition(item, {Queued}, Reserved, None, None)
    case SubmitReply(_, reply) =>
      var m := MapResponse(reply);
      if Terminal(StatusFor(m.lifecycle)) then
        Transition(item, {Reserved, Queued}, StatusFor(m.lifecycle), Some(m.result), None)
      else Transition(item, {Reserved, Queued}, Pending, Some(m.result), Some(0))
    case ForceFail(_) => Transition(item, {Queued, Reserved, Pending}, Failed, None, None)
    case ApplyUpdate(_, reply, rich) =>
      var m := MapResponse(reply);
      if Terminal(StatusFor(m.lifecycle)) then
        Transition(item, {Queued, Reserved, Pending}, StatusFor(m.lifecycle), Some(EnrichedResult(m.result, rich)),
          None)
      else Transition(item, {Pending, Reserved}, Pending, Some(m.result), None)
    case Reschedule(_, polls) => Transition(item, {Pending}, Pending, None, Some(polls))
    case Enrich(_, look) =>
      if Terminal(item.status) && Improves(look) then Some(item.(result := Some(MergedResult(look)))) else None
    case _ => None
  }

  // The transition table the program declares (internal/lookup/state.go:8-24, 44-54).

  predicate CanTransition(from: ItemStatus, to: ItemStatus) {
    || from == to
    || (from.Queued? && (to.Reserved? || to.Failed?))
    || (from.Reserved? && (to.Pending? || to.Completed? || to.Failed?))
    || (from.Pending? && (to.Completed? || to.Failed?))
  }

  function CauseOf(step: FStep): Cause {
    match step
    case SubmitReply(_, reply) => Provider(reply, None)
    case ApplyUpdate(_, reply, rich) => Provider(reply, rich)
    case _ => Forced
  }

  /** The settlement a worker asks for when its own update made the item terminal. */
  function Asked(step: FStep, item: Item): Option<Action> {
    if step.ForceFail? then Some(Release) else BillingService.ItemSettleAction(item)
  }

  predicate MovesRow(step: FStep) {
    step.ClaimQueued? || step.SubmitReply? || step.ForceFail? || step.ApplyUpdate? || step.Reschedule? || step.Enrich?
  }

  function MoveOf(i: Id, w: Item): Transactions.Op {
    Transactions.MoveItem(i, w.status, w.result, w.polls)
  }

  function Move(s: Flow, step: FStep): Flow
    requires MovesRow(step)
  {
    if step.i !in s.books.items then s
    else
      var item := s.books.items[step.i];
      match Written(item, s.books.deleted, step)
      case None => s
      case Some(w) =>
        var books := Transactions.Step(s.books, MoveOf(step.i, w));
        if Terminal(w.status) && !Terminal(item.status) then
          Flow(books,
               if Asked(step, w).Some? then s.owed + [Owed(step.i, Asked(step, w).value)] else s.owed,
               s.causes[step.i := CauseOf(step)])
        else s.(books := books)
  }

  /** The reaper lists a terminal item with no billing action and decides for itself. */
  function Reap(s: Flow, i: Id): Flow {
    if i in s.books.items && Terminal(s.books.items[i].status) && s.books.items[i].action.None?
       && BillingService.ItemSettleAction(s.books.items[i]).Some?
    then s.(owed := s.owed + [Owed(i, BillingService.ItemSettleAction(s.books.items[i]).value)])
    else s
  }

  predicate ForeignOp(op: Transactions.Op) {
    !op.MoveItem? && !op.SettleLookup?
  }

  function Next(s: Flow, step: FStep): Flow {
    match step
    case ReapList(i) => Reap(s, i)
    case SettleOwed(k) =>
      if k < |s.owed| then s.(books := Transactions.Step(s.books, Transactions.SettleLookup(s.owed[k].item,
        s.owed[k].action))) else s
    case Billing(op) => if ForeignOp(op) then s.(books := Transactions.Step(s.books, op)) else s
    case _ => Move(s, step)
  }

  function Run(s: Flow, steps: seq<FStep>): Flow
    decreases |steps|
  {
    if steps == [] then s else Run(Next(s, steps[0]), steps[1..])
  }

  // ---------------------------------------------------------------- a run is a run of billing transactions

  /** The billing transaction a step amounts to, if it touches the books. */
  function OpsOf(s: Flow, step: FStep): seq<Transactions.Op> {
    match step
    case ReapList(_) => []
    case SettleOwed(k) => if k < |s.owed| then [Transactions.SettleLookup(s.owed[k].item, s.owed[k].action)] else []
    case Billing(op) => if ForeignOp(op) then [op] else []
    case _ =>
      if step.i in s.books.items && Written(s.books.items[step.i], s.books.deleted, step).Some?
      then [MoveOf(step.i, Written(s.books.items[step.i], s.books.deleted, step).value)]
      else []
  }

  function Ops(s: Flow, steps: seq<FStep>): seq<Transactions.Op>
    decreases |steps|
  {
    if steps == [] then [] else OpsOf(s, steps[0]) + Ops(Next(s, steps[0]), steps[1..])
  }

  lemma {:induction false} BooksFollow(s: Flow, steps: seq<FStep>)
    ensures Run(s, steps).books == Transactions.Run(s.books, Ops(s, steps))
    decreases |steps|
  {
    hide Transactions.Step, Written;
    if steps != [] {
      var t := Next(s, steps[0]);
      BooksFollow(t, steps[1..]);
      var ops := OpsOf(s, steps[0]);
      var rest := Ops(t, steps[1..]);
      if ops == [] {
        assert ops + rest == rest;
      } else {
        assert |ops| == 1;
        assert (ops + rest)[1..] == rest && (ops + rest)[0] == ops[0];
      }
    }
  }
}
