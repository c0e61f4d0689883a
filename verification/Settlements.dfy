/** What the invariant of the books says about settlements, over whole runs. */
module Settlements {
  import opened Common
  import opened Ledger
  import opened Books
  import opened Transactions

  /** The books after any run from an empty wallet are in order. */
  lemma ReachableInv(hasWallet: bool, ops: seq<Op>)
    ensures Inv(Run(Fresh(hasWallet), ops))
  {
    FreshInv(hasWallet);
    RunKeepsInv(Fresh(hasWallet), ops);
  }

  // --------------------------------------------------------------------- SMS

  /** A row that closes an SMS hold is the one its message's billing_action names. */
  lemma CloserOfSms(b: Books, k: nat, h: nat, m: Id)
    requires Inv(b) && k < |b.ledger| && h < |b.ledger|
    requires Closes(b.ledger[k], h) && b.ledger[h].key == HoldSms(m)
    ensures m in b.messages && b.messages[m].action.Some?
    ensures var a := b.messages[m].action.value;
            b.ledger[k].key == SmsKey(m, a) && b.ledger[k].kind == KindOf(a) && b.keys[SmsKey(m, a)] == k
    ensures b.ledger[k].amount == b.ledger[h].amount
  {
    hide WalletOk, MessagesOk, ItemsOk, JobsOk, Settled;
    RowFacts(b, b.ledger[k].key);
    RowFacts(b, HoldSms(m));
    MessageFacts(b, m);
  }

  /**
   In every run, an SMS hold has at most one closing row, which is for its full
   amount, and there is one exactly when billing_action is set, and names it.
   */
  lemma SmsHoldClosedOnce(hasWallet: bool, ops: seq<Op>, h: nat, m: Id)
    requires var b := Run(Fresh(hasWallet), ops); h < |b.ledger| && b.ledger[h].key == HoldSms(m)
    ensures var b := Run(Fresh(hasWallet), ops);
            && m in b.messages
            && (forall k | 0 <= k < |b.ledger| && Closes(b.ledger[k], h) ::
                  && b.ledger[k].amount == b.ledger[h].amount
                  && b.messages[m].action == Some(if b.ledger[k].kind.DEBIT? then Capture else Release)
                  && Closers(b.ledger, h) == {k})
            && (b.messages[m].action.None? <==> Closers(b.ledger, h) == {})
  {
    hide WalletOk, IndexOk, RowsOk, MessagesOk, ItemsOk, JobsOk, Settled;
    var b := Run(Fresh(hasWallet), ops);
    ReachableInv(hasWallet, ops);
    IndexFacts(b, h);
    RowFacts(b, HoldSms(m));
    MessageFacts(b, m);
    forall k | 0 <= k < |b.ledger| && Closes(b.ledger[k], h)
      ensures b.ledger[k].amount == b.ledger[h].amount
      ensures b.messages[m].action == Some(if b.ledger[k].kind.DEBIT? then Capture else Release)
      ensures Closers(b.ledger, h) == {k}
    {
      CloserOfSms(b, k, h, m);
      forall n | n in Closers(b.ledger, h) ensures n == k {
        CloserOfSms(b, n, h, m);
      }
    }
    if b.messages[m].action.Some? {
      var key := SmsKey(m, b.messages[m].action.value);
      RowFacts(b, key);
      IndexFacts(b, b.ledger[b.keys[key]].hold.value);
      assert b.keys[key] in Closers(b.ledger, h);
    } else if Closers(b.ledger, h) != {} {
      var k :| k in Closers(b.ledger, h);
      CloserOfSms(b, k, h, m);
    }
  }

  /** The rows that close hold `h`. */
  function Closers(l: seq<Tx>, h: nat): set<nat> {
    set k: nat | k < |l| && Closes(l[k], h)
  }

  /**
   In every run, the hold of a message is for its unit price times its billed
   segments, and a message with a billing action was debited, or given back,
   exactly that.
   */
  lemma SmsAmount(hasWallet: bool, ops: seq<Op>, m: Id)
    requires m in Run(Fresh(hasWallet), ops).messages
    ensures var b := Run(Fresh(hasWallet), ops);
            var msg := b.messages[m];
            && (HoldSms(m) in b.keys ==>
                  && msg.price.Some? && msg.segments.Some? && b.keys[HoldSms(m)] < |b.ledger|
                  && b.ledger[b.keys[HoldSms(m)]].amount == msg.price.value * msg.segments.value)
            && (msg.action == Some(Capture) ==>
                  && DebitSms(m) in b.keys && b.keys[DebitSms(m)] < |b.ledger| && msg.price.Some? && msg.segments.Some?
                  && b.ledger[b.keys[DebitSms(m)]].kind == DEBIT
                  && b.ledger[b.keys[DebitSms(m)]].amount == msg.price.value * msg.segments.value)
            && (msg.action == Some(Release) ==>
                  && ReleaseSms(m) in b.keys && b.keys[ReleaseSms(m)] < |b.ledger|
                  && msg.price.Some? && msg.segments.Some?
                  && b.ledger[b.keys[ReleaseSms(m)]].kind == RELEASE
                  && b.ledger[b.keys[ReleaseSms(m)]].amount == msg.price.value * msg.segments.value)
  {
    hide WalletOk, RowsOk, MessagesOk, ItemsOk, JobsOk, Settled, Run;
    var b := Run(Fresh(hasWallet), ops);
    ReachableInv(hasWallet, ops);
    MessageFacts(b, m);
    if b.messages[m].action.Some? {
      var key := SmsKey(m, b.messages[m].action.value);
      RowFacts(b, key);
      IndexFacts(b, b.ledger[b.keys[key]].hold.value);
    }
  }

  /** Repeating or contradicting a settlement changes nothing at all. */
  lemma SmsSettlementIsFinal(b: Books, m: Id, first: Action, again: Action)
    ensures MessageOpen(b, m) ==> SettleMessage(SettleMessage(b, m, first), m, again) == SettleMessage(b, m, first)
    ensures !MessageOpen(b, m) ==> SettleMessage(b, m, again) == b
  {
  }

  // ------------------------------------------------------------------ lookups

  lemma CloserOfJob(b: Books, k: nat, h: nat, j: Id)
    requires Inv(b) && k < |b.ledger| && h < |b.ledger|
    requires Closes(b.ledger[k], h) && b.ledger[h].key == HoldJob(j)
    ensures ItemOf(b.ledger[k].key).Some?
    ensures var i := b.ledger[k].key.id;
            && i in b.items && b.items[i].job == j && b.items[i].price == Some(b.ledger[k].amount)
            && b.items[i].action.Some? && b.keys[ItemKey(i, b.items[i].action.value)] == k
  {
    hide WalletOk, MessagesOk, ItemsOk, JobsOk, Settled;
    RowFacts(b, b.ledger[k].key);
    ItemFacts(b, b.ledger[k].key.id);
  }

  /**
   In every run, at most one DEBIT or RELEASE is posted for a lookup item, for
   exactly its share, and the item's billing_action and actual cost say which.
   */
  lemma ItemPostedOnce(hasWallet: bool, ops: seq<Op>, i: Id)
    requires i in Run(Fresh(hasWallet), ops).items
    ensures var b := Run(Fresh(hasWallet), ops);
            var rows := ItemRows(b.ledger, i);
            && (b.items[i].action.None? <==> rows == {})
            && (b.items[i].action.Some? ==>
                  var a := b.items[i].action.value;
                  && exists k | k in rows ::
                       && rows == {k} && b.ledger[k].kind == KindOf(a)
                       && Some(b.ledger[k].amount) == b.items[i].price)
            && b.items[i].cost == if b.items[i].action == Some(Capture) then b.items[i].price else None
  {
    hide WalletOk, RowsOk, MessagesOk, ItemsOk, JobsOk, Settled;
    var b := Run(Fresh(hasWallet), ops);
    ReachableInv(hasWallet, ops);
    ItemFacts(b, i);
    var rows := ItemRows(b.ledger, i);
    forall k | k in rows ensures b.items[i].action.Some? && k == b.keys[ItemKey(i, b.items[i].action.value)] {
      IndexFacts(b, k);
    }
    if b.items[i].action.Some? {
      var key := ItemKey(i, b.items[i].action.value);
      RowFacts(b, key);
      assert b.keys[key] in rows;
      assert rows == {b.keys[key]};
    }
  }

  function ItemRows(l: seq<Tx>, i: Id): set<nat> {
    set k: nat | k < |l| && ItemOf(l[k].key) == Some(i)
  }

  lemma ItemSettlementIsFinal(b: Books, i: Id, first: Action, again: Action)
    ensures ItemOpen(b, i) ==> SettleItem(SettleItem(b, i, first), i, again) == SettleItem(b, i, first)
    ensures !ItemOpen(b, i) ==> SettleItem(b, i, again) == b
  {
  }

  /**
   In every run, a job's hold has exactly its unit price times the items with no
   billing action left, so it is empty once the last item is posted. A job has a
   hold unless its client was already gone, and then nothing is ever posted for it.
   */
  lemma JobHoldRemaining(hasWallet: bool, ops: seq<Op>, j: Id)
    requires j in Run(Fresh(hasWallet), ops).jobs
    ensures var b := Run(Fresh(hasWallet), ops);
            var open := ItemsOf(b, j) - PostedOf(b, j);
            && (!b.deleted ==> HoldJob(j) in b.keys)
            && (HoldJob(j) !in b.keys ==> PostedOf(b, j) == {})
            && (HoldJob(j) in b.keys ==>
                  && b.keys[HoldJob(j)] < |b.ledger|
                  && var h := b.keys[HoldJob(j)];
                  && b.ledger[h].amount == b.jobs[j].price * b.jobs[j].count
                  && b.ledger[h].amount - Settled(b.ledger, h) == b.jobs[j].price * |open|
                  && (b.ledger[h].amount == Settled(b.ledger, h) <==> open == {}))
  {
    hide WalletOk, IndexOk, RowsOk, MessagesOk, ItemsOk, JobsOk, Settled;
    var b := Run(Fresh(hasWallet), ops);
    ReachableInv(hasWallet, ops);
    JobFacts(b, j);
    if HoldJob(j) in b.keys {
      RemainingOnJobHold(b, j);
      var open := ItemsOf(b, j) - PostedOf(b, j);
      Distribute(b.jobs[j].price, |open|, 0);
    }
  }

  /** The row that settled a posted item. */
  function RowOf(b: Books, i: Id): nat
    requires i in b.items && b.items[i].action.Some? && ItemKey(i, b.items[i].action.value) in b.keys
  {
    b.keys[ItemKey(i, b.items[i].action.value)]
  }

  lemma PostedHasRow(b: Books, i: Id)
    requires Inv(b) && i in b.items && b.items[i].action.Some?
    ensures ItemKey(i, b.items[i].action.value) in b.keys
    ensures RowOf(b, i) < |b.ledger| && b.ledger[RowOf(b, i)].key == ItemKey(i, b.items[i].action.value)
    ensures HoldJob(b.items[i].job) in b.keys && Closes(b.ledger[RowOf(b, i)], b.keys[HoldJob(b.items[i].job)])
    ensures Some(b.ledger[RowOf(b, i)].amount) == b.items[i].price
  {
    hide WalletOk, RowsOk, MessagesOk, ItemsOk, JobsOk, Settled;
    ItemFacts(b, i);
    RowFacts(b, ItemKey(i, b.items[i].action.value));
    IndexFacts(b, b.ledger[RowOf(b, i)].hold.value);
  }

  /**
   In every run, the rows that close a job's hold are the rows of its posted
   items, one for one: each closing row is the row of exactly one posted item of
   the job, for that item's price, and each posted item has its own.
   */
  lemma JobHoldClosers(hasWallet: bool, ops: seq<Op>, j: Id)
    requires var b := Run(Fresh(hasWallet), ops); j in b.jobs && HoldJob(j) in b.keys
    ensures var b := Run(Fresh(hasWallet), ops);
            var closers := Closers(b.ledger, b.keys[HoldJob(j)]);
            && (forall i | i in PostedOf(b, j) ::
                  && ItemKey(i, b.items[i].action.value) in b.keys && RowOf(b, i) in closers
                  && Some(b.ledger[RowOf(b, i)].amount) == b.items[i].price
                  && b.ledger[RowOf(b, i)].kind == KindOf(b.items[i].action.value))
            && (forall k | k in closers ::
                  exists i | i in PostedOf(b, j) :: ItemKey(i, b.items[i].action.value) in b.keys && RowOf(b, i) == k)
            && (forall i, x | i in PostedOf(b, j) && x in PostedOf(b, j) &&
                  ItemKey(i, b.items[i].action.value) in b.keys && ItemKey(x, b.items[x].action.value) in b.keys &&
                  RowOf(b, i) == RowOf(b, x) :: i == x)
  {
    hide WalletOk, RowsOk, MessagesOk, ItemsOk, JobsOk, Settled, Run;
    var b := Run(Fresh(hasWallet), ops);
    ReachableInv(hasWallet, ops);
    JobHoldRow(b, j);
    var closers := Closers(b.ledger, b.keys[HoldJob(j)]);
    forall i | i in PostedOf(b, j)
      ensures ItemKey(i, b.items[i].action.value) in b.keys && RowOf(b, i) in closers
      ensures Some(b.ledger[RowOf(b, i)].amount) == b.items[i].price
      ensures b.ledger[RowOf(b, i)].kind == KindOf(b.items[i].action.value)
    {
      PostedHasRow(b, i);
      RowFacts(b, ItemKey(i, b.items[i].action.value));
    }
    forall k | k in closers
      ensures exists i | i in PostedOf(b, j) :: ItemKey(i, b.items[i].action.value) in b.keys && RowOf(b, i) == k
    {
      CloserOfJob(b, k, b.keys[HoldJob(j)], j);
      var i := b.ledger[k].key.id;
      PostedHasRow(b, i);
      assert i in PostedOf(b, j) && RowOf(b, i) == k;
    }
    forall i, x | i in PostedOf(b, j) && x in PostedOf(b, j) &&
      ItemKey(i, b.items[i].action.value) in b.keys && ItemKey(x, b.items[x].action.value) in b.keys
        && RowOf(b, i) == RowOf(b, x)
      ensures i == x
    {
      PostedHasRow(b, i);
      PostedHasRow(b, x);
    }
  }

  lemma JobHoldRow(b: Books, j: Id)
    requires Inv(b) && HoldJob(j) in b.keys
    ensures b.keys[HoldJob(j)] < |b.ledger| && b.ledger[b.keys[HoldJob(j)]].key == HoldJob(j)
  {
    hide WalletOk, RowsOk, MessagesOk, ItemsOk, JobsOk, Settled;
  }

  // --------------------------------------------------------- settled for good

  /** No transaction takes back or changes a billing action, nor the hold it answers. */
  lemma StepKeepsActions(b: Books, op: Op)
    ensures var c := Step(b, op);
            && (forall m | m in b.messages ::
                  m in c.messages && (b.messages[m].action.Some? ==> c.messages[m].action == b.messages[m].action))
            && (forall i | i in b.items ::
                  i in c.items && (b.items[i].action.Some? ==> c.items[i].action == b.items[i].action))
            && |b.ledger| <= |c.ledger| && c.ledger[..|b.ledger|] == b.ledger
  {
    hide Effect, Settled, ApplyRelease, ApplyAdjustment, RemainderOpen;
  }

  /** Over every run the ledger only grows and a settlement, once posted, stands. */
  lemma {:induction false} SettledForever(b: Books, ops: seq<Op>)
    ensures var c := Run(b, ops);
            && (forall m | m in b.messages ::
                  m in c.messages && (b.messages[m].action.Some? ==> c.messages[m].action == b.messages[m].action))
            && (forall i | i in b.items ::
                  i in c.items && (b.items[i].action.Some? ==> c.items[i].action == b.items[i].action))
            && |b.ledger| <= |c.ledger| && c.ledger[..|b.ledger|] == b.ledger
    decreases |ops|
  {
    hide Step;
    if ops != [] {
      var c := Step(b, ops[0]);
      StepKeepsActions(b, ops[0]);
      SettledForever(c, ops[1..]);
      var d := Run(b, ops);
      assert d.ledger[..|b.ledger|] == d.ledger[..|c.ledger|][..|b.ledger|];
    }
  }

  // ---------------------------------------------------------------- overdraft

  /** Without an adjustment that allows it, the available balance never goes negative. */
  lemma {:induction false} NeverOverdrawn(b: Books, ops: seq<Op>)
    requires Inv(b) && b.balance.avail >= 0
    requires forall k | 0 <= k < |ops| :: ops[k].Adjustment? ==> !ops[k].allowNegative
    ensures Run(b, ops).balance.avail >= 0
    decreases |ops|
  {
    hide Inv;
    if ops != [] {
      StepKeepsInv(b, ops[0]);
      StepNotOverdrawn(b, ops[0]);
      NeverOverdrawn(Step(b, ops[0]), ops[1..]);
    }
  }

  lemma StepNotOverdrawn(b: Books, op: Op)
    requires Inv(b) && b.balance.avail >= 0
    requires op.Adjustment? ==> !op.allowNegative
    ensures Step(b, op).balance.avail >= 0
  {
    hide WalletOk, MessagesOk, ItemsOk, JobsOk, SettleMessage, SettleItem, CreateJob, PostRemainder, RowsOk, IndexOk;
    match op
    case Settle(m, a) => SettleNotOverdrawn(b, m, a);
    case SettleLookup(i, a) => SettleItemNotOverdrawn(b, i, a);
    case NewLookupJob(j, ids, price) => CreateNotOverdrawn(b, j, ids, price);
    case Remainder(j) => NoRemainder(b, j);
    case _ =>
  }

  lemma SettleNotOverdrawn(b: Books, m: Id, a: Action)
    requires Inv(b) && b.balance.avail >= 0
    ensures SettleMessage(b, m, a).balance.avail >= 0
  {
    hide WalletOk, MessagesOk, ItemsOk, JobsOk, RowsOk;
    if MessageOpen(b, m) { PositiveRow(b, b.keys[HoldSms(m)]); }
  }

  lemma SettleItemNotOverdrawn(b: Books, i: Id, a: Action)
    requires Inv(b) && b.balance.avail >= 0
    ensures SettleItem(b, i, a).balance.avail >= 0
  {
    hide Inv;
    if ItemOpen(b, i) { ItemShareCovered(b, i); }
  }

  lemma CreateNotOverdrawn(b: Books, j: Id, ids: set<Id>, price: Money)
    requires b.balance.avail >= 0
    ensures CreateJob(b, j, ids, price).balance.avail >= 0
  {
  }

  lemma PositiveRow(b: Books, k: nat)
    requires RowsOk(b) && k < |b.ledger|
    ensures b.ledger[k].amount > 0
  {
    assert RowShape(b, b.ledger[..k], b.ledger[k]);
  }
}
