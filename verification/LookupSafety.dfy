/** What holds of every lookup item over every interleaving. */
module LookupSafety {
  import opened Common
  import opened Ledger
  import opened Books
  import Transactions
  import Settlements
  import opened ProviderMapping
  import opened LookupFlow
  import opened BillingService

  function Rank(status: ItemStatus): nat {
    match status
    case Queued => 0
    case Reserved => 1
    case Pending => 2
    case Completed => 3
    case Failed => 3
  }

  // ---------------------------------------------------------------- one step, seen from one item

  /** Job creation adds queued items; nothing else of billing's own changes an item row. */
  lemma ForeignFrame(b: Books, op: Transactions.Op, i: Id)
    requires ForeignOp(op)
    ensures i in b.items ==> i in Transactions.Step(b, op).items && Transactions.Step(b, op).items[i] == b.items[i]
    ensures i !in b.items && i in Transactions.Step(b, op).items ==>
      var item := Transactions.Step(b, op).items[i];
      item.status == Queued && item.result.None? && item.action.None?
    ensures b.deleted ==> Transactions.Step(b, op).deleted
  {
  }

  /** A settlement writes billing_action (and cost) of its own item, once. */
  lemma SettleFrame(b: Books, k: Id, a: Action)
    ensures var c := SettleItem(b, k, a);
      && c.items.Keys == b.items.Keys && c.deleted == b.deleted
      && (forall i :: i in b.items ==>
            c.items[i].(action := None, cost := None) == b.items[i].(action := None, cost := None)
            && (i == k && b.items[i].action.None? ==> c.items[i].action.None? || c.items[i].action == Some(a))
            && (i != k || b.items[i].action.Some? ==> c.items[i] == b.items[i]))
  {
    hide Effect;
  }

  lemma WrittenKeepsShare(item: Item, deleted: bool, step: FStep)
    ensures var w := Written(item, deleted, step);
      w.Some? ==> Transactions.SameShare(item, w.value)
  {
    hide MapResponse, EnrichedResult, PreferResult, Improves, MergedResult;
  }

  lemma MoveIsUpdate(b: Books, i: Id, w: Item)
    requires i in b.items && Transactions.SameShare(b.items[i], w)
    ensures Transactions.Step(b, MoveOf(i, w)) == b.(items := b.items[i := w])
  {
  }

  lemma MoveFrame(s: Flow, step: FStep, i: Id)
    requires MovesRow(step) && i in s.books.items
    ensures i in Next(s, step).books.items
    ensures var before, after := s.books.items[i], Next(s, step).books.items[i];
      && (i != step.i ==> after == before)
      && after.action == before.action
      && (i == step.i ==> match Written(before, s.books.deleted, step) case None => after ==
        before case Some(w) => after == w)
    ensures Next(s, step).books.items.Keys == s.books.items.Keys && Next(s, step).books.deleted == s.books.deleted
  {
    hide Transactions.Step, Written, Asked, CauseOf;
    if step.i in s.books.items {
      var item := s.books.items[step.i];
      WrittenKeepsShare(item, s.books.deleted, step);
      var w := Written(item, s.books.deleted, step);
      if w.Some? {
        MoveIsUpdate(s.books, step.i, w.value);
      }
    }
  }

  lemma RankStep(s: Flow, step: FStep, i: Id)
    requires i in s.books.items
    ensures i in Next(s, step).books.items
    ensures var before, after := s.books.items[i].status, Next(s, step).books.items[i].status;
      Rank(before) <= Rank(after) && (Terminal(before) ==> after == before)
  {
    hide Transactions.Step;
    match step
    case ReapList(_) =>
    case SettleOwed(k) =>
      if k < |s.owed| {
        SettleIsStep(s.books, s.owed[k].item, s.owed[k].action);
        SettleFrame(s.books, s.owed[k].item, s.owed[k].action);
      }
    case Billing(op) => if ForeignOp(op) { ForeignFrame(s.books, op, i); }
    case _ => MoveFrame(s, step, i);
  }

  lemma SettleIsStep(b: Books, i: Id, a: Action)
    ensures Transactions.Step(b, Transactions.SettleLookup(i, a)) == SettleItem(b, i, a)
  {
  }

  /** In every run the rank of an item never falls, and a terminal status is never changed. */
  lemma {:induction false} RankNeverFalls(s: Flow, steps: seq<FStep>, i: Id)
    requires i in s.books.items
    ensures i in Run(s, steps).books.items
    ensures var before, after := s.books.items[i].status, Run(s, steps).books.items[i].status;
      Rank(before) <= Rank(after) && (Terminal(before) ==> after == before)
    decreases |steps|
  {
    hide Next;
    if steps != [] {
      RankStep(s, steps[0], i);
      RankNeverFalls(Next(s, steps[0]), steps[1..], i);
    }
  }

  predicate MakesTerminal(s: Flow, step: FStep, i: Id) {
    && i in s.books.items && !Terminal(s.books.items[i].status)
    && i in Next(s, step).books.items && Terminal(Next(s, step).books.items[i].status)
  }

  /** How many steps of the run turn the item terminal. */
  function Endings(s: Flow, steps: seq<FStep>, i: Id): nat
    decreases |steps|
  {
    if steps == [] then 0
    else (if MakesTerminal(s, steps[0], i) then 1 else 0) + Endings(Next(s, steps[0]), steps[1..], i)
  }

  lemma {:induction false} NoMoreEndings(s: Flow, steps: seq<FStep>, i: Id)
    requires i in s.books.items && Terminal(s.books.items[i].status)
    ensures Endings(s, steps, i) == 0
    decreases |steps|
  {
    hide Next;
    if steps != [] {
      RankStep(s, steps[0], i);
      NoMoreEndings(Next(s, steps[0]), steps[1..], i);
    }
  }

  /** At most one step of any run makes an item terminal. */
  lemma {:induction false} EndsOnce(s: Flow, steps: seq<FStep>, i: Id)
    ensures Endings(s, steps, i) <= 1
    decreases |steps|
  {
    hide Next;
    if steps != [] {
      if MakesTerminal(s, steps[0], i) {
        NoMoreEndings(Next(s, steps[0]), steps[1..], i);
      } else {
        EndsOnce(Next(s, steps[0]), steps[1..], i);
      }
    }
  }

  /** Over every interleaving at most one DEBIT or RELEASE is posted for an item, as its billing action says. */
  lemma PostedOnce(hasWallet: bool, steps: seq<FStep>, i: Id)
    requires i in Run(Start(hasWallet), steps).books.items
    ensures var b := Run(Start(hasWallet), steps).books;
      var rows := Settlements.ItemRows(b.ledger, i);
      && (b.items[i].action.None? <==> rows == {})
      && (b.items[i].action.Some? ==> exists k | k in rows ::
            rows == {k} && b.ledger[k].kind == KindOf(b.items[i].action.value))
  {
    hide Transactions.Run;
    BooksFollow(Start(hasWallet), steps);
    Settlements.ItemPostedOnce(hasWallet, Ops(Start(hasWallet), steps), i);
  }

  // ---------------------------------------------------------------- capture or release

  /** A worker's own failure releases; a provider's answer captures, unless an enrichment hid it. */
  function Verdict(cause: Cause): Action {
    match cause
    case Forced => Release
    case Provider(reply, rich) =>
      if MapResponse(reply).lifecycle.FailedCycle? && rich.Some? && MapResponse(rich.value).result.Unknown?
      then Release else Capture
  }

  predicate NotFinal(result: Option<ResultStatus>) {
    result.None? || !FinalResult(result.value)
  }

  /** A terminal item is settled, or will be judged, as its cause says; an open one has no final result. */
  predicate ItemFlowOk(item: Item, causes: map<Id, Cause>, i: Id) {
    if Terminal(item.status) then
      i in causes && ItemSettleAction(item) == Some(Verdict(causes[i]))
    else NotFinal(item.result) && item.action.None?
  }

  predicate OwedOk(s: Flow, owed: Owed) {
    owed.item in s.books.items && Terminal(s.books.items[owed.item].status)
    && owed.item in s.causes && owed.action == Verdict(s.causes[owed.item])
  }

  predicate FlowOk(s: Flow) {
    && (forall i :: i in s.books.items ==> ItemFlowOk(s.books.items[i], s.causes, i))
    && (forall k :: 0 <= k < |s.owed| ==> OwedOk(s, s.owed[k]))
  }

  /** Both ways to a terminal row: what the row says and what its cause says agree. */
  lemma TerminalRow(item: Item, deleted: bool, step: FStep)
    requires MovesRow(step) && !step.Enrich? && NotFinal(item.result) && !Terminal(item.status) && item.action.None?
    ensures var w := Written(item, deleted, step);
      w.Some? ==>
        if Terminal(w.value.status) then
          && ItemSettleAction(w.value) == Some(Verdict(CauseOf(step)))
          && Asked(step, w.value) == Some(Verdict(CauseOf(step)))
        else NotFinal(w.value.result)
  {
    if step.SubmitReply? || step.ApplyUpdate? {
      MappedConsistently(step.reply);
    }
    if step.ApplyUpdate? && step.rich.Some? {
      MappedConsistently(step.rich.value);
    }
  }

  lemma TerminalRowStays(item: Item, deleted: bool, step: FStep)
    requires MovesRow(step) && !step.Enrich? && Terminal(item.status)
    ensures Written(item, deleted, step).None?
  {
  }

  lemma MoveKeeps(s: Flow, step: FStep)
    requires FlowOk(s) && MovesRow(step) && !step.Enrich?
    ensures FlowOk(Next(s, step))
  {
    hide Written, ItemSettleAction, Verdict, MapResponse, Transactions.Step, CauseOf, Asked;
    if step.i in s.books.items {
      var item := s.books.items[step.i];
      assert ItemFlowOk(item, s.causes, step.i);
      var w := Written(item, s.books.deleted, step);
      if Terminal(item.status) {
        TerminalRowStays(item, s.books.deleted, step);
      } else if w.Some? {
        TerminalRow(item, s.books.deleted, step);
        WrittenKeepsShare(item, s.books.deleted, step);
        MoveIsUpdate(s.books, step.i, w.value);
        MovedFlow(s, step.i, w.value, CauseOf(step));
      }
    }
  }

  /** One open row replaced: by another open row, or by a terminal one with its cause and its debt. */
  lemma MovedFlow(s: Flow, i: Id, w: Item, cause: Cause)
    requires FlowOk(s) && i in s.books.items && !Terminal(s.books.items[i].status) && w.action.None?
    requires if Terminal(w.status) then ItemSettleAction(w) == Some(Verdict(cause)) else NotFinal(w.result)
    ensures var books := s.books.(items := s.books.items[i := w]);
      FlowOk(if Terminal(w.status) then Flow(books, s.owed + [Owed(i, Verdict(cause))], s.causes[i := cause])
        else s.(books := books))
  {
    hide ItemSettleAction, Verdict;
    var books := s.books.(items := s.books.items[i := w]);
    var t := if Terminal(w.status) then Flow(books, s.owed + [Owed(i, Verdict(cause))], s.causes[i := cause])
      else s.(books := books);
    forall j | j in t.books.items ensures ItemFlowOk(t.books.items[j], t.causes, j) {
      assert ItemFlowOk(s.books.items[j], s.causes, j);
    }
    forall k | 0 <= k < |t.owed| ensures OwedOk(t, t.owed[k]) {
      assert k < |s.owed| ==> OwedOk(s, s.owed[k]);
    }
  }

  lemma SettleKeeps(s: Flow, k: nat)
    requires FlowOk(s) && k < |s.owed|
    ensures FlowOk(Next(s, SettleOwed(k)))
  {
    hide Verdict, SettleItem;
    var o := s.owed[k];
    SettleIsStep(s.books, o.item, o.action);
    SettleFrame(s.books, o.item, o.action);
    var t := Next(s, SettleOwed(k));
    assert OwedOk(s, o);
    forall i | i in t.books.items ensures ItemFlowOk(t.books.items[i], t.causes, i) {
      var x, y := s.books.items[i], t.books.items[i];
      assert ItemFlowOk(x, s.causes, i);
      SameButAction(x, y);
    }
    forall j | 0 <= j < |t.owed| ensures OwedOk(t, t.owed[j]) {
      assert OwedOk(s, s.owed[j]);
      SameButAction(s.books.items[s.owed[j].item], t.books.items[s.owed[j].item]);
    }
  }

  lemma SameButAction(x: Item, y: Item)
    requires x.(action := None, cost := None) == y.(action := None, cost := None)
    ensures x.status == y.status && x.result == y.result
  {
    assert x.status == x.(action := None, cost := None).status && y.status == y.(action := None, cost := None).status;
    assert x.result == x.(action := None, cost := None).result && y.result == y.(action := None, cost := None).result;
  }

  lemma ReapKeeps(s: Flow, i: Id)
    requires FlowOk(s)
    ensures FlowOk(Next(s, ReapList(i)))
  {
    if i in s.books.items && Terminal(s.books.items[i].status) && s.books.items[i].action.None? {
      assert ItemFlowOk(s.books.items[i], s.causes, i);
    }
  }

  lemma BillingKeeps(s: Flow, op: Transactions.Op)
    requires FlowOk(s) && ForeignOp(op)
    ensures FlowOk(Next(s, Billing(op)))
  {
    hide Transactions.Step, ItemSettleAction, Verdict;
    var t := Next(s, Billing(op));
    forall i | i in t.books.items ensures ItemFlowOk(t.books.items[i], t.causes, i) {
      ForeignFrame(s.books, op, i);
    }
    forall j | 0 <= j < |t.owed| ensures OwedOk(t, t.owed[j]) {
      assert OwedOk(s, s.owed[j]);
      ForeignFrame(s.books, op, s.owed[j].item);
    }
  }

  // ---------------------------------------------------------------- enrichment after the end

  /**
   * The looks that change how an unsettled item will be judged. They write something, and it is
   * a final result over a failed item's result that is not (the answer is final, or pending and
   * what was read before is), or no final result over one that is (the answer is "unknown", or
   * pending and what was read before was not final).
   */
  predicate Flips(item: Item, look: Look) {
    var answer := MapResponse(look.details).result;
    && item.status.Failed? && item.action.None? && Improves(look)
    && if NotFinal(item.result) then FinalResult(answer) || (answer.StillPending? && !NotFinal(look.seen))
       else answer.Unknown? || (answer.StillPending? && NotFinal(look.seen))
  }

  /** The row as a look leaves it. */
  function Looked(item: Item, look: Look): Item {
    if Improves(look) then item.(result := Some(MergedResult(look))) else item
  }

  /** Exactly those flip the decision, whatever the item, the earlier read and the answer. */
  lemma EnrichFlips(item: Item, look: Look, i: Id, deleted: bool)
    requires Terminal(item.status)
    ensures var w := Written(item, deleted, Enrich(i, look));
      && (if w.Some? then w.value == Looked(item, look) else Looked(item, look) == item)
      && (ItemSettleAction(Looked(item, look)) != ItemSettleAction(item) <==> Flips(item, look))
  {
    hide MapResponse;
    MappedConsistently(look.details);
  }

  predicate FlippingStep(s: Flow, step: FStep) {
    step.Enrich? && step.i in s.books.items && Flips(s.books.items[step.i], step.look)
  }

  /** No enrichment of the run flips an item that is not settled yet. */
  predicate NoFlips(s: Flow, steps: seq<FStep>)
    decreases |steps|
  {
    steps == [] || (!FlippingStep(s, steps[0]) && NoFlips(Next(s, steps[0]), steps[1..]))
  }

  /** What an enrichment does: a terminal row, still of its status, keeps everything but the result. */
  lemma EnrichShape(s: Flow, i: Id, look: Look)
    requires i in s.books.items && Terminal(s.books.items[i].status)
    ensures Next(s, Enrich(i, look)) == s.(books := s.books.(items := s.books.items[i := Looked(s.books.items[i],
        look)]))
  {
    hide Transactions.Step, MapResponse, Improves, MergedResult;
    var item := s.books.items[i];
    MoveIsUpdate(s.books, i, Looked(item, look));
    assert s.books.items[i := item] == s.books.items;
  }

  lemma EnrichKeeps(s: Flow, i: Id, look: Look)
    requires FlowOk(s) && !FlippingStep(s, Enrich(i, look))
    ensures FlowOk(Next(s, Enrich(i, look)))
  {
    hide Verdict, ItemSettleAction, MapResponse, Flips, Improves, MergedResult;
    if i in s.books.items && Terminal(s.books.items[i].status) {
      var item := s.books.items[i];
      EnrichFlips(item, look, i, s.books.deleted);
      EnrichShape(s, i, look);
      var t := Next(s, Enrich(i, look));
      forall j | j in t.books.items ensures ItemFlowOk(t.books.items[j], t.causes, j) {
        assert ItemFlowOk(s.books.items[j], s.causes, j);
      }
      forall k | 0 <= k < |t.owed| ensures OwedOk(t, t.owed[k]) {
        assert OwedOk(s, s.owed[k]);
      }
    }
  }

  lemma StepKeepsFlow(s: Flow, step: FStep)
    requires FlowOk(s) && !FlippingStep(s, step)
    ensures FlowOk(Next(s, step))
  {
    hide FlowOk, Transactions.Step, SettleItem, Flips;
    match step
    case ReapList(i) => ReapKeeps(s, i);
    case SettleOwed(k) => if k < |s.owed| { SettleKeeps(s, k); }
    case Billing(op) => if ForeignOp(op) { BillingKeeps(s, op); }
    case Enrich(i, look) => EnrichKeeps(s, i, look);
    case _ => MoveKeeps(s, step);
  }

  lemma {:induction false} RunKeepsFlow(s: Flow, steps: seq<FStep>)
    requires FlowOk(s) && NoFlips(s, steps)
    ensures FlowOk(Run(s, steps))
    decreases |steps|
  {
    hide FlowOk, Next, FlippingStep;
    if steps != [] {
      StepKeepsFlow(s, steps[0]);
      RunKeepsFlow(Next(s, steps[0]), steps[1..]);
    }
  }

  /**
   * In every run in which no enrichment flips an unsettled item: an open item holds no
   * provider-final result; whatever is posted, asked for or chosen by the reaper is the
   * verdict of what ended the item.
   */
  lemma SettledByCause(hasWallet: bool, steps: seq<FStep>, i: Id)
    requires NoFlips(Start(hasWallet), steps) && i in Run(Start(hasWallet), steps).books.items
    ensures var s := Run(Start(hasWallet), steps);
      var item := s.books.items[i];
      if Terminal(item.status) then
        && i in s.causes
        && ItemSettleAction(item) == Some(Verdict(s.causes[i]))
        && (item.action.Some? ==> item.action == Some(Verdict(s.causes[i])))
        && (forall k :: 0 <= k < |s.owed| && s.owed[k].item == i ==> s.owed[k].action == Verdict(s.causes[i]))
      else NotFinal(item.result) && item.action.None?
  {
    hide Next, Verdict, NoFlips;
    RunKeepsFlow(Start(hasWallet), steps);
    var s := Run(Start(hasWallet), steps);
    var item := s.books.items[i];
    assert ItemFlowOk(item, s.causes, i);
    forall k | 0 <= k < |s.owed| && s.owed[k].item == i ensures s.owed[k].action == Verdict(s.causes[i]) {
      assert OwedOk(s, s.owed[k]);
    }
  }

  /**
   * And no weaker condition would do: from any state in order, a flipping enrichment and the
   * reaper's next look leave a settlement owed against the verdict; carried out, it is posted.
   */
  lemma FlipMisjudges(s: Flow, i: Id, look: Look)
    requires FlowOk(s) && FlippingStep(s, Enrich(i, look))
    ensures var t := Next(Next(s, Enrich(i, look)), ReapList(i));
      var k := |s.owed|;
      && |t.owed| == k + 1 && t.owed[k].item == i && t.causes == s.causes && i in s.causes
      && t.owed[k].action != Verdict(s.causes[i])
      && (ItemOpen(s.books, i) ==>
            var u := Next(t, SettleOwed(k));
            i in u.books.items && u.books.items[i].action == Some(t.owed[k].action))
  {
    hide Verdict, ItemSettleAction, MapResponse, Improves, MergedResult, Transactions.Step, Effect;
    var item := s.books.items[i];
    assert ItemFlowOk(item, s.causes, i);
    EnrichFlips(item, look, i, s.books.deleted);
    EnrichShape(s, i, look);
    var e := Next(s, Enrich(i, look));
    FailedIsJudged(e.books.items[i]);
    var t := Next(e, ReapList(i));
    assert t.owed == s.owed + [Owed(i, ItemSettleAction(e.books.items[i]).value)];
    SettleIsStep(t.books, i, t.owed[|s.owed|].action);
  }

  lemma FailedIsJudged(item: Item)
    requires Terminal(item.status)
    ensures ItemSettleAction(item).Some?
  {
  }

  // ---------------------------------------------------------------- what each update writes

  /** The claim, the failure and the rescheduling: from which statuses, and what they leave alone. */
  lemma PlainWrites(item: Item, deleted: bool, i: Id, polls: int)
    ensures Written(item, deleted, ClaimQueued(i)) ==
      if item.status == Queued && !deleted then Some(item.(status := Reserved)) else None
    ensures Written(item, deleted, ForceFail(i)) ==
      if item.status in {Queued, Reserved, Pending} then Some(item.(status := Failed)) else None
    ensures Written(item, deleted, Reschedule(i, polls)) ==
      if item.status == Pending then Some(item.(polls := polls)) else None
  {
  }

  /** The answer to a submit: it ends an item that waits for it, or makes it pending with no poll made. */
  lemma SubmitWrites(item: Item, deleted: bool, i: Id, reply: Reply)
    ensures var m, w := MapResponse(reply), Written(item, deleted, SubmitReply(i, reply));
      && (w.Some? <==> item.status == Queued || item.status == Reserved)
      && (w.Some? && m.lifecycle == CompletedCycle ==> w.value == item.(status := Completed, result := Some(m.result)))
      && (w.Some? && m.lifecycle == FailedCycle ==> w.value == item.(status := Failed, result := Some(m.result)))
      && (w.Some? && m.lifecycle in {AcceptedCycle, PendingCycle} ==>
            w.value == item.(status := Pending, result := Some(m.result), polls := 0))
  {
    hide MapResponse;
  }

  /** An update by poll or callback: it ends any open item, or keeps one that was sent pending. */
  lemma UpdateWrites(item: Item, deleted: bool, i: Id, reply: Reply, rich: Option<Reply>)
    ensures var m, w := MapResponse(reply), Written(item, deleted, ApplyUpdate(i, reply, rich));
      && (m.lifecycle in {AcceptedCycle, PendingCycle} ==>
            w == if item.status in {Reserved, Pending}
                 then Some(item.(status := Pending, result := Some(m.result))) else None)
      && (m.lifecycle in {CompletedCycle, FailedCycle} ==>
            && (w.Some? <==> item.status in {Queued, Reserved, Pending})
            && (w.Some? ==>
                  && w.value.status == (if m.lifecycle == CompletedCycle then Completed else Failed)
                  && w.value.polls == item.polls
                  && (rich.None? ==> w.value.result == Some(m.result))
                  && (rich.Some? ==>
                        w.value.result == Some(PreferResult(MapResponse(rich.value).result, Some(m.result))))))
  {
    hide MapResponse, PreferResult;
  }

  /** A second look: only at a terminal item, only if something got better, and only its result. */
  lemma EnrichWrites(item: Item, deleted: bool, i: Id, look: Look)
    ensures var merged := PreferResult(MapResponse(look.details).result, look.seen);
      Written(item, deleted, Enrich(i, look)) ==
        if Terminal(item.status) && (look.other || (merged != StillPending && look.seen != Some(merged)))
        then Some(item.(result := Some(merged))) else None
  {
    hide MapResponse, PreferResult;
  }

  /** The reaper's look at an item: it owes what it judges of a terminal one with no action, and nothing else. */
  lemma ReapOwes(s: Flow, i: Id)
    ensures i in s.books.items && Terminal(s.books.items[i].status) && s.books.items[i].action.None? ==>
      var a := ItemSettleAction(s.books.items[i]);
      a.Some? && Next(s, ReapList(i)) == s.(owed := s.owed + [Owed(i, a.value)])
    ensures i !in s.books.items || !Terminal(s.books.items[i].status) || s.books.items[i].action.Some? ==>
      Next(s, ReapList(i)) == s
  {
  }

  /** What an update that ends an item leaves owed: a release if the worker gave up, else what the row says. */
  lemma EndOwes(s: Flow, step: FStep)
    requires MovesRow(step) && step.i in s.books.items && MakesTerminal(s, step, step.i)
    ensures var t := Next(s, step);
      var a := if step.ForceFail? then Some(Release) else ItemSettleAction(t.books.items[step.i]);
      a.Some? && t.owed == s.owed + [Owed(step.i, a.value)] && step.i in t.causes && t.causes[step.i] == CauseOf(step)
    ensures step.ForceFail? ==> CauseOf(step) == Forced
    ensures step.SubmitReply? ==> CauseOf(step) == Provider(step.reply, None)
    ensures step.ApplyUpdate? ==> CauseOf(step) == Provider(step.reply, step.rich)
  {
    hide Transactions.Step, Written, MapResponse;
    var item := s.books.items[step.i];
    MoveFrame(s, step, step.i);
    FailedIsJudged(Next(s, step).books.items[step.i]);
  }

  // ---------------------------------------------------------------- the declared transition table

  /**
   * Which moves leave the declared table: exactly a submit answer other than a failure, or a
   * completing provider update, that reaches the item while it is still queued.
   */
  lemma OffTheTable(item: Item, deleted: bool, step: FStep)
    ensures var w := Written(item, deleted, step);
      w.Some? ==>
        (!CanTransition(item.status, w.value.status) <==>
          && item.status.Queued?
          && (|| (step.SubmitReply? && !MapResponse(step.reply).lifecycle.FailedCycle?)
              || (step.ApplyUpdate? && MapResponse(step.reply).lifecycle.CompletedCycle?)))
  {
  }

  // ---------------------------------------------------------------- reachable examples

  // The worker's release, still owed, is overtaken by the reaper's capture.

  const FOUND: Reply := Object(false, false, Number(1.0), Number(0.0), "")

  const OVERTAKEN: seq<FStep> := [
    Billing(Transactions.Credit(10, Some(0))),
    Billing(Transactions.NewLookupJob(0, {0}, 10)),
    ForceFail(0),
    Enrich(0, Look(FOUND, None, false)),
    ReapList(0),
    SettleOwed(1)]

  lemma {:induction false} RunSnoc(s: Flow, steps: seq<FStep>, last: FStep)
    ensures Run(s, steps + [last]) == Next(Run(s, steps), last)
    decreases |steps|
  {
    hide Next;
    if steps == [] {
      assert [last][1..] == [];
    } else {
      assert (steps + [last])[1..] == steps[1..] + [last];
      RunSnoc(Next(s, steps[0]), steps[1..], last);
    }
  }

  /** The client's first job: one item of price ten, held. */
  lemma OneItemJob()
    ensures var s := Run(Start(true), OVERTAKEN[..2]);
      && s.owed == [] && s.causes == map[] && !s.books.deleted
      && s.books.items == map[0 := Item(0, Some(10), Queued, None, 0, None, None)]
      && HoldJob(0) in s.books.keys
  {
    hide CreateJob, Run;
    var s1 := Next(Start(true), OVERTAKEN[0]);
    FirstCredit();
    var s2 := Next(s1, OVERTAKEN[1]);
    assert s2.books == CreateJob(s1.books, 0, {0}, 10);
    FirstJob(s1.books);
    RunSnoc(Start(true), [OVERTAKEN[0]], OVERTAKEN[1]);
    RunSnoc(Start(true), [], OVERTAKEN[0]);
    assert [] + [OVERTAKEN[0]] == [OVERTAKEN[0]];
    assert OVERTAKEN[..2] == [OVERTAKEN[0]] + [OVERTAKEN[1]];
    NoStepsRun(Start(true));
  }

  lemma NoStepsRun(s: Flow)
    ensures Run(s, []) == s
  {
  }

  lemma FirstCredit()
    ensures var s := Next(Start(true), OVERTAKEN[0]);
      && s.owed == [] && s.causes == map[] && s.books.hasWallet && !s.books.deleted
      && s.books.balance == Balance(10, 0) && HoldJob(0) !in s.books.keys && s.books.jobs == map[]
        && s.books.items == map[]
  {
  }

  lemma FirstJob(b: Books)
    requires b.hasWallet && !b.deleted && b.balance == Balance(10, 0) && HoldJob(0) !in b.keys && b.jobs == map[]
        && b.items == map[]
    ensures var c := CreateJob(b, 0, {0}, 10);
      !c.deleted && HoldJob(0) in c.keys && c.items == map[0 := ItemNow(Queued, None)]
  {
    hide Effect;
    assert |{0}| == 1;
    assert NewJob(b, 0, {0});
  }

  lemma EnrichmentOvertakesRelease()
    ensures var s := Run(Start(true), OVERTAKEN);
      && 0 in s.books.items && 0 in s.causes
      && s.books.items[0].action == Some(Capture)
      && s.causes[0] == Forced && |s.owed| > 0 && s.owed[0] == Owed(0, Release)
  {
    OneItemJob();
    var s2 := Run(Start(true), OVERTAKEN[..2]);
    RunSnoc(Start(true), OVERTAKEN[..2], ForceFail(0));
    assert OVERTAKEN[..3] == OVERTAKEN[..2] + [ForceFail(0)];
    RunSnoc(Start(true), OVERTAKEN[..3], Enrich(0, Look(FOUND, None, false)));
    assert OVERTAKEN[..4] == OVERTAKEN[..3] + [Enrich(0, Look(FOUND, None, false))];
    RunSnoc(Start(true), OVERTAKEN[..4], ReapList(0));
    assert OVERTAKEN[..5] == OVERTAKEN[..4] + [ReapList(0)];
    RunSnoc(Start(true), OVERTAKEN[..5], SettleOwed(1));
    assert OVERTAKEN == OVERTAKEN[..5] + [SettleOwed(1)];
    OvertakenFrom(s2);
  }

  function ItemNow(status: ItemStatus, result: Option<ResultStatus>): Item {
    Item(0, Some(10), status, result, 0, None, None)
  }

  lemma FailedThenFound(s2: Flow)
    requires s2.owed == [] && s2.causes == map[] && !s2.books.deleted && HoldJob(0) in s2.books.keys
    requires s2.books.items == map[0 := ItemNow(Queued, None)]
    ensures var s4 := Next(Next(s2, ForceFail(0)), Enrich(0, Look(FOUND, None, false)));
      && s4.owed == [Owed(0, Release)] && s4.causes == map[0 := Forced] && !s4.books.deleted
      && HoldJob(0) in s4.books.keys && s4.books.items == map[0 := ItemNow(Failed, Some(Reachable))]
  {
    hide Transactions.Step;
    MoveIsUpdate(s2.books, 0, ItemNow(Failed, None));
    var s3 := Next(s2, ForceFail(0));
    assert s3.owed == [Owed(0, Release)] && s3.books.items == map[0 := ItemNow(Failed, None)];
    MoveIsUpdate(s3.books, 0, ItemNow(Failed, Some(Reachable)));
  }

  lemma OvertakenFrom(s2: Flow)
    requires s2.owed == [] && s2.causes == map[] && !s2.books.deleted && HoldJob(0) in s2.books.keys
    requires s2.books.items == map[0 := ItemNow(Queued, None)]
    ensures var s := Next(Next(Next(Next(s2, ForceFail(0)), Enrich(0, Look(FOUND, None, false))), ReapList(0)),
        SettleOwed(1));
      && 0 in s.books.items && 0 in s.causes
      && s.books.items[0].action == Some(Capture)
      && s.causes[0] == Forced && |s.owed| > 0 && s.owed[0] == Owed(0, Release)
  {
    hide Effect, Transactions.Step, Move;
    FailedThenFound(s2);
    var s4 := Next(Next(s2, ForceFail(0)), Enrich(0, Look(FOUND, None, false)));
    var s5 := Next(s4, ReapList(0));
    assert s5.owed == [Owed(0, Release), Owed(0, Capture)];
    SettleIsStep(s5.books, 0, Capture);
  }

  /** A callback completes an item that no worker has claimed yet. */
  lemma CallbackCompletesQueued()
    ensures var before := Run(Start(true), OVERTAKEN[..2]);
      var after := Run(Start(true), OVERTAKEN[..2] + [ApplyUpdate(0, FOUND, None)]);
      && 0 in before.books.items && before.books.items[0].status == Queued
      && 0 in after.books.items && after.books.items[0].status == Completed
      && !CanTransition(Queued, Completed)
  {
    hide Run, Transactions.Step;
    OneItemJob();
    var s := Run(Start(true), OVERTAKEN[..2]);
    RunSnoc(Start(true), OVERTAKEN[..2], ApplyUpdate(0, FOUND, None));
    MoveFrame(s, ApplyUpdate(0, FOUND, None), 0);
  }
}
