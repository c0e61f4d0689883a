/** What each billing transaction does, in numbers: when it acts, and on what. */
module Effects {
  import opened Common
  import opened Ledger
  import opened Books
  import opened Transactions
  import opened BillingService

  /** One row was added, with these balances after it. */
  predicate RowAdded(b: Books, c: Books, kind: Kind, amount: Money, key: Key, hold: Option<nat>, after: Balance) {
    && c.ledger == b.ledger + [Tx(kind, amount, key, hold, after)]
    && c.balance == after && c.version == b.version + 1
    && c.keys == b.keys[key := |b.ledger|]
    && c.hasWallet == b.hasWallet && c.deleted == b.deleted
  }

  /** A reservation moves price times segments from available to held, if there is that much. */
  lemma ReserveEffect(b: Books, m: Id)
    requires m in b.messages
    ensures var c, msg := ReserveMessage(b, m), b.messages[m];
            if && msg.hasClient && !b.deleted && b.hasWallet && HoldSms(m) !in b.keys
               && msg.price.Some? && msg.segments.Some? && msg.plan
               && 0 < msg.price.value * msg.segments.value <= b.balance.avail
            then var amount := msg.price.value * msg.segments.value;
              && c.messages == b.messages && c.jobs == b.jobs && c.items == b.items
              && RowAdded(b, c, HOLD, amount, HoldSms(m), None,
                   Balance(b.balance.avail - amount, b.balance.held + amount))
            else c == b
  {
  }

  /** A capture takes the held amount away for good; a release gives it back. */
  lemma SettleEffect(b: Books, m: Id)
    requires m in b.messages && !b.deleted && b.messages[m].action.None?
    requires HoldSms(m) in b.keys && b.keys[HoldSms(m)] < |b.ledger|
    ensures var h := b.keys[HoldSms(m)];
            var amount, avail, held := b.ledger[h].amount, b.balance.avail, b.balance.held;
            var captured, released := SettleMessage(b, m, Capture), SettleMessage(b, m, Release);
            && RowAdded(b, captured, DEBIT, amount, DebitSms(m), Some(h), Balance(avail, held - amount))
            && RowAdded(b, released, RELEASE, amount, ReleaseSms(m), Some(h), Balance(avail + amount, held - amount))
            && captured.messages == b.messages[m := b.messages[m].(action := Some(Capture))]
            && released.messages == b.messages[m := b.messages[m].(action := Some(Release))]
            && captured.items == released.items == b.items && captured.jobs == released.jobs == b.jobs
  {
  }

  lemma TopUpEffect(b: Books, amount: Money, key: Option<Id>)
    ensures var c := TopUp(b, amount, key);
            if amount > 0 && key.Some? && b.hasWallet && TopUpKey(key.value) !in b.keys then
              && RowAdded(b, c, CREDIT, amount, TopUpKey(key.value), None,
                   Balance(b.balance.avail + amount, b.balance.held))
              && c.messages == b.messages && c.jobs == b.jobs && c.items == b.items
            else c == b
  {
  }

  /** An adjustment adds or takes as its direction says, below zero only with leave. */
  lemma AdjustEffect(b: Books, amount: Money, debit: bool, allowNegative: bool, key: Option<Id>)
    ensures var c := Adjust(b, amount, debit, allowNegative, key);
            var avail := b.balance.avail + (if debit then -amount else amount);
            if && amount > 0 && key.Some? && b.hasWallet && AdjustKey(key.value) !in b.keys
               && (avail >= 0 || allowNegative)
            then
              && RowAdded(b, c, ADJUSTMENT(debit), amount, AdjustKey(key.value), None, Balance(avail, b.balance.held))
              && c.messages == b.messages && c.jobs == b.jobs && c.items == b.items
            else c == b
  {
  }

  /** A new job is listed with its items and price times their number held, or not at all. */
  lemma CreateJobEffect(b: Books, j: Id, ids: set<Id>, price: Money)
    requires j !in b.jobs && ids !! b.items.Keys && ids != {} && !b.deleted && HoldJob(j) !in b.keys
    ensures var c := CreateJob(b, j, ids, price);
            var amount := price * |ids|;
            if b.hasWallet && 0 < amount <= b.balance.avail then
              && RowAdded(b, c, HOLD, amount, HoldJob(j), None,
                   Balance(b.balance.avail - amount, b.balance.held + amount))
              && c.jobs == b.jobs[j := Job(|ids|, price)] && c.messages == b.messages
              && c.items.Keys == b.items.Keys + ids
              && (forall i | i in b.items :: c.items[i] == b.items[i])
              && (forall i | i in ids :: c.items[i] == Item(j, Some(price), Queued, None, 0, None, None))
            else c == b
  {
  }

  /** An item's share: captured at its price, which becomes its cost, or released. */
  lemma SettleItemEffect(b: Books, i: Id)
    requires i in b.items && !b.deleted && b.items[i].action.None? && b.items[i].price.Some?
    requires HoldJob(b.items[i].job) in b.keys
    ensures var item, avail, held := b.items[i], b.balance.avail, b.balance.held;
            var share, h := item.price.value, b.keys[HoldJob(item.job)];
            var captured, released := SettleItem(b, i, Capture), SettleItem(b, i, Release);
            && RowAdded(b, captured, DEBIT, share, DebitItem(i), Some(h), Balance(avail, held - share))
            && RowAdded(b, released, RELEASE, share, ReleaseItem(i), Some(h), Balance(avail + share, held - share))
            && captured.items == b.items[i := item.(action := Some(Capture), cost := Some(share))]
            && released.items == b.items[i := item.(action := Some(Release), cost := None)]
            && captured.messages == released.messages == b.messages && captured.jobs == released.jobs == b.jobs
  {
  }

  /** For a deleted client nothing is reserved or settled; a new job is listed without a hold. */
  lemma DeletedClient(b: Books, m: Id, i: Id, a: Action, j: Id, ids: set<Id>, price: Money)
    requires b.deleted
    ensures ReserveMessage(b, m) == b && SettleMessage(b, m, a) == b
    ensures SettleItem(b, i, a) == b && PostRemainder(b, j) == b
    ensures j !in b.jobs && ids !! b.items.Keys && ids != {} ==>
      var c := CreateJob(b, j, ids, price);
      && c.ledger == b.ledger && c.balance == b.balance && c.keys == b.keys && c.jobs == b.jobs[j := Job(|ids|, price)]
      && (forall i | i in ids :: i in c.items && c.items[i] == Item(j, Some(price), Queued, None, 0, None, None))
  {
  }

  /** One transaction of a deleted client: the client stays deleted and at most one row is added. */
  lemma DeletedStep(b: Books, op: Op)
    requires b.deleted
    ensures var c := Step(b, op);
            && c.deleted && |b.ledger| <= |c.ledger| && b.ledger == c.ledger[..|b.ledger|]
            && c.balance.held == b.balance.held
            && (forall k | |b.ledger| <= k < |c.ledger| :: c.ledger[k].kind.CREDIT? || c.ledger[k].kind.ADJUSTMENT?)
  {
  }

  /** Once a client is deleted its holds stay as they are for ever: only an operator's rows are added. */
  lemma DeletedForGood(b: Books, before: seq<Op>, after: seq<Op>)
    ensures var c := Step(Run(b, before), DeleteClient);
            var d := Run(c, after);
            && d.deleted && |c.ledger| <= |d.ledger| && c.ledger == d.ledger[..|c.ledger|]
            && d.balance.held == c.balance.held
            && (forall k | |c.ledger| <= k < |d.ledger| :: d.ledger[k].kind.CREDIT? || d.ledger[k].kind.ADJUSTMENT?)
  {
    DeletedRun(Step(Run(b, before), DeleteClient), after);
  }

  lemma {:induction false} DeletedRun(b: Books, ops: seq<Op>)
    requires b.deleted
    ensures var c := Run(b, ops);
            && c.deleted && |b.ledger| <= |c.ledger| && b.ledger == c.ledger[..|b.ledger|]
            && c.balance.held == b.balance.held
            && (forall k | |b.ledger| <= k < |c.ledger| :: c.ledger[k].kind.CREDIT? || c.ledger[k].kind.ADJUSTMENT?)
    decreases |ops|
  {
    hide Step;
    if ops != [] {
      var c := Step(b, ops[0]);
      DeletedStep(b, ops[0]);
      DeletedRun(c, ops[1..]);
      var d := Run(c, ops[1..]);
      forall k | |b.ledger| <= k < |d.ledger| ensures d.ledger[k].kind.CREDIT? || d.ledger[k].kind.ADJUSTMENT? {
        if k < |c.ledger| {
          assert d.ledger[k] == d.ledger[..|c.ledger|][k];
        }
      }
    }
  }

  /** What is settled, or has no hold, is not settled again. */
  lemma NothingToSettle(b: Books, m: Id, i: Id, a: Action)
    ensures m !in b.messages || b.messages[m].action.Some? || HoldSms(m) !in b.keys ==> SettleMessage(b, m, a) == b
    ensures i !in b.items || b.items[i].action.Some? || HoldJob(b.items[i].job) !in b.keys ==> SettleItem(b, i, a) == b
  {
  }

  /** What the remainder release would do to a job whose items are all posted and whose hold is not used up. */
  lemma RemainderEffect(b: Books, j: Id)
    requires forall i | i in b.items && b.items[i].job == j :: Terminal(b.items[i].status) && b.items[i].action.Some?
    requires HoldJob(j) in b.keys && b.keys[HoldJob(j)] < |b.ledger| && RemainderJob(j) !in b.keys
    requires !b.deleted && b.hasWallet
    ensures var h := b.keys[HoldJob(j)];
            var left, c := b.ledger[h].amount - Settled(b.ledger, h), PostRemainder(b, j);
            if 0 < left <= b.balance.held then
              && RowAdded(b, c, RELEASE, left, RemainderJob(j), Some(h),
                   Balance(b.balance.avail + left, b.balance.held - left))
              && c.items == b.items && c.messages == b.messages && c.jobs == b.jobs
            else c == b
  {
    hide Settled;
    assert Blocking(b.items, j) == {};
  }

  /** It waits as long as one item is open, or not posted. */
  lemma RemainderWaits(b: Books, j: Id, i: Id)
    requires i in b.items && b.items[i].job == j && (!Terminal(b.items[i].status) || b.items[i].action.None?)
    ensures PostRemainder(b, j) == b
  {
    hide Settled;
    assert i in Blocking(b.items, j);
  }

  /** The SMS reaper: an accepted message is charged, one that failed with its job dead is released. */
  lemma ReaperJudges(msg: Message)
    requires msg.action.None?
    ensures SettleActionFor(msg) == Some(Capture) <==> msg.accepted
    ensures SettleActionFor(msg) == Some(Release) <==> !msg.accepted && msg.failed && msg.jobDead
  {
  }

  /** The lookup reaper: provider outcomes are charged, bare failures released, open items left. */
  lemma ItemJudged(item: Item)
    requires item.action.None?
    ensures ItemSettleAction(item) == Some(Capture) <==>
              item.status == Completed || item.result in {Some(Reachable), Some(Unreachable), Some(ProviderError)}
    ensures ItemSettleAction(item) == Some(Release) <==>
              item.status == Failed && item.result !in {Some(Reachable), Some(Unreachable), Some(ProviderError)}
  {
  }

  /** A settled row keeps its own answer. */
  lemma SettledJudged(msg: Message, item: Item)
    ensures msg.action.Some? ==> SettleActionFor(msg) == msg.action
    ensures item.action.Some? ==> ItemSettleAction(item) == item.action
  {
  }
}
