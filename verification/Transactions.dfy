/**
 Every transaction of the billing service keeps the books in order, hence so
 does every run of them, in any order and with any arguments.
 */
module Transactions {
  import opened Common
  import opened Ledger
  import opened Books

  // ------------------------------------------------------- appending one row

  /** The message, item and job hold that a key is about. */
  function SmsOf(k: Key): Option<Id> {
    if k.HoldSms? || k.DebitSms? || k.ReleaseSms? then Some(k.id) else None
  }

  function ItemOf(k: Key): Option<Id> {
    if k.DebitItem? || k.ReleaseItem? then Some(k.id) else None
  }

  /** `c` is `b` with row `t` appended under a new key; its tables may have changed. */
  ghost predicate Appended(b: Books, c: Books, t: Tx) {
    && t.key !in b.keys
    && c.ledger == b.ledger + [t]
    && c.keys == b.keys[t.key := |b.ledger|]
    && (t.hold.Some? ==> t.hold.value < |b.ledger|)
  }

  lemma WalletAfter(b: Books, c: Books, t: Tx)
    requires WalletOk(b) && c.hasWallet && c.version == b.version + 1 && c.ledger == b.ledger + [t]
    requires c.balance == t.after == Effect(b.balance, t.kind, t.amount)
    ensures WalletOk(c)
  {
    FoldAppend(b.ledger, t);
    RecordedAppend(b.ledger, t);
  }

  lemma IndexAfter(b: Books, c: Books, t: Tx)
    requires IndexOk(b) && Appended(b, c, t)
    ensures IndexOk(c)
  {
  }

  lemma RowsAfter(b: Books, c: Books, t: Tx)
    requires RowsOk(b) && c.ledger == b.ledger + [t]
    requires b.messages.Keys <= c.messages.Keys && b.jobs.Keys <= c.jobs.Keys && b.items.Keys <= c.items.Keys
    requires forall i | i in b.items :: c.items[i].job == b.items[i].job && c.items[i].price == b.items[i].price
    requires RowShape(c, b.ledger, t)
    ensures RowsOk(c)
  {
    forall k | 0 <= k < |c.ledger| ensures RowShape(c, c.ledger[..k], c.ledger[k]) {
      if k < |b.ledger| {
        assert RowShape(b, b.ledger[..k], b.ledger[k]);
        assert c.ledger[..k] == b.ledger[..k];
      } else {
        assert c.ledger[..k] == b.ledger;
      }
    }
  }

  /** Only the message a row is about has to be looked at again. */
  lemma MessagesAfter(b: Books, c: Books, t: Tx)
    requires Appended(b, c, t) && IndexOk(b) && MessagesOk(b)
    requires c.messages.Keys == b.messages.Keys
    requires forall m | m in b.messages && SmsOf(t.key) != Some(m) :: c.messages[m] == b.messages[m]
    requires t.hold.Some? ==> SmsOf(b.ledger[t.hold.value].key) == SmsOf(t.key)
    requires forall m | m in c.messages && SmsOf(t.key) == Some(m) :: MessageOk(c, m)
    ensures MessagesOk(c)
  {
    forall m | m in c.messages ensures MessageOk(c, m) {
      if SmsOf(t.key) != Some(m) {
        assert MessageOk(b, m);
        if HoldSms(m) in b.keys {
          SettledAppend(b.ledger, t, b.keys[HoldSms(m)]);
        }
      }
    }
  }

  lemma ItemsAfter(b: Books, c: Books, t: Tx)
    requires Appended(b, c, t) && ItemsOk(b)
    requires forall j | j in b.jobs :: j in c.jobs && c.jobs[j] == b.jobs[j]
    requires forall i | i in c.items && ItemOf(t.key) != Some(i) && i in b.items :: c.items[i] == b.items[i]
    requires forall i | i in c.items && (ItemOf(t.key) == Some(i) || i !in b.items) :: ItemOk(c, i)
    ensures ItemsOk(c)
  {
    forall i | i in c.items ensures ItemOk(c, i) {
      if ItemOf(t.key) != Some(i) && i in b.items {
        assert ItemOk(b, i);
      }
    }
  }

  /** Only the job whose hold a row opens or closes has to be looked at again. */
  lemma JobsAfter(b: Books, c: Books, t: Tx, touched: Option<Id>)
    requires Appended(b, c, t) && IndexOk(b) && JobsOk(b) && c.deleted == b.deleted
    requires forall j | j in c.jobs && touched != Some(j) ::
               && j in b.jobs && c.jobs[j] == b.jobs[j]
               && ItemsOf(c, j) == ItemsOf(b, j) && PostedOf(c, j) == PostedOf(b, j)
    requires t.key.HoldJob? ==> touched == Some(t.key.id)
    requires t.hold.Some? && b.ledger[t.hold.value].key.HoldJob? ==> touched == Some(b.ledger[t.hold.value].key.id)
    requires touched.Some? && touched.value in c.jobs ==> JobOk(c, touched.value)
    ensures JobsOk(c)
  {
    forall j | j in c.jobs ensures JobOk(c, j) {
      if touched != Some(j) {
        assert JobOk(b, j);
        if HoldJob(j) in b.keys {
          SettledAppend(b.ledger, t, b.keys[HoldJob(j)]);
        }
      }
    }
  }

  lemma SameItems(b: Books, c: Books)
    requires b.items == c.items
    ensures forall j: Id :: ItemsOf(c, j) == ItemsOf(b, j) && PostedOf(c, j) == PostedOf(b, j)
  {
  }

  /** The hold a new HOLD row opens is untouched: nothing can point at it yet. */
  lemma NewHoldUntouched(b: Books, t: Tx)
    requires RowsOk(b) && t.kind.HOLD?
    ensures Settled(b.ledger + [t], |b.ledger|) == 0
  {
    RowsLinked(b);
    NothingSettledYet(b.ledger, |b.ledger|);
    SettledAppend(b.ledger, t, |b.ledger|);
  }

  // ------------------------------------------------------- no row appended

  /** Tables that only grow do not disturb wallet, index or rows. */
  lemma SameLedger(b: Books, c: Books)
    requires WalletOk(b) && IndexOk(b) && RowsOk(b)
    requires c.hasWallet == b.hasWallet && c.balance == b.balance && c.version == b.version
    requires c.ledger == b.ledger && c.keys == b.keys && b.messages.Keys <= c.messages.Keys
    requires b.jobs.Keys <= c.jobs.Keys && b.items.Keys <= c.items.Keys
    requires forall i | i in b.items :: c.items[i].job == b.items[i].job && c.items[i].price == b.items[i].price
    ensures WalletOk(c) && IndexOk(c) && RowsOk(c)
  {
    forall k | 0 <= k < |c.ledger| ensures RowShape(c, c.ledger[..k], c.ledger[k]) {
      assert RowShape(b, b.ledger[..k], b.ledger[k]);
    }
  }

  /** Messages that keep price and action keep their facts; a new one has no rows yet. */
  lemma SameMessages(b: Books, c: Books)
    requires IndexOk(b) && RowsOk(b) && MessagesOk(b) && c.ledger == b.ledger && c.keys == b.keys
    requires b.messages.Keys <= c.messages.Keys
    requires forall m | m in b.messages :: SameBill(b.messages[m], c.messages[m])
    requires forall m | m in c.messages && m !in b.messages :: c.messages[m].action.None?
    ensures MessagesOk(c)
  {
    hide RowsOk, MessagesOk, Settled;
    forall m | m in c.messages ensures MessageOk(c, m) {
      if m in b.messages {
        MessageFacts(b, m);
      } else {
        NoKeysForMessage(b, m);
      }
    }
    AllMessages(c);
  }

  lemma AllMessages(b: Books)
    requires forall m | m in b.messages :: MessageOk(b, m)
    ensures MessagesOk(b)
  {
  }

  lemma NoKeysForMessage(b: Books, m: Id)
    requires IndexOk(b) && RowsOk(b) && m !in b.messages
    ensures HoldSms(m) !in b.keys && DebitSms(m) !in b.keys && ReleaseSms(m) !in b.keys
  {
    forall x | x in b.keys ensures RowShape(b, b.ledger[..b.keys[x]], b.ledger[b.keys[x]]) {
    }
  }

  // --------------------------------------------------- one transaction at a time

  lemma ReserveMessageKeepsInv(b: Books, m: Id)
    requires Inv(b)
    ensures Inv(ReserveMessage(b, m))
  {
    hide WalletOk, IndexOk, RowsOk, MessagesOk, ItemsOk, JobsOk, Fold, Settled;
    if Reservable(b, m) {
      var c := ReserveMessage(b, m);
      var t := c.ledger[|b.ledger|];
      WalletAfter(b, c, t);
      IndexAfter(b, c, t);
      RowsAfter(b, c, t);
      NewHoldUntouched(b, t);
      MessageFacts(b, m);
      MessagesAfter(b, c, t);
      ItemsAfter(b, c, t);
      SameItems(b, c);
      JobsAfter(b, c, t, None);
    }
  }

  lemma SettleMessageKeepsInv(b: Books, m: Id, a: Action)
    requires Inv(b)
    ensures Inv(SettleMessage(b, m, a))
  {
    hide WalletOk, IndexOk, RowsOk, MessagesOk, ItemsOk, JobsOk, Fold, Settled;
    if MessageOpen(b, m) {
      var h := b.keys[HoldSms(m)];
      var c := SettleMessage(b, m, a);
      var t := c.ledger[|b.ledger|];
      MessageFacts(b, m);
      RowFacts(b, HoldSms(m));
      WalletFacts(b);
      WalletAfter(b, c, t);
      IndexAfter(b, c, t);
      RowsAfter(b, c, t);
      SettledAppend(b.ledger, t, h);
      MessagesAfter(b, c, t);
      ItemsAfter(b, c, t);
      SameItems(b, c);
      JobsAfter(b, c, t, None);
    }
  }

  /** A row that belongs to no message, item or job: a top-up or an adjustment. */
  lemma PlainRowKeepsInv(b: Books, kind: Kind, amount: Money, key: Key)
    requires Inv(b) && b.hasWallet && key !in b.keys && amount > 0
    requires (kind.CREDIT? && key.TopUpKey?) || (kind.ADJUSTMENT? && key.AdjustKey?)
    ensures Inv(Post(b, kind, amount, key, None))
  {
    hide WalletOk, IndexOk, RowsOk, MessagesOk, ItemsOk, JobsOk, Fold, Settled;
    var c := Post(b, kind, amount, key, None);
    var t := c.ledger[|b.ledger|];
    WalletAfter(b, c, t);
    IndexAfter(b, c, t);
    RowsAfter(b, c, t);
    MessagesAfter(b, c, t);
    ItemsAfter(b, c, t);
    SameItems(b, c);
    JobsAfter(b, c, t, None);
  }

  /** Listing a job adds exactly its own items. */
  lemma ListedItems(b: Books, j: Id, ids: set<Id>, price: Money)
    requires NewJob(b, j, ids)
    ensures var c := ListJob(b, j, ids, price);
            && c.items.Keys == b.items.Keys + ids
            && (forall i | i in b.items :: c.items[i] == b.items[i])
            && (forall i | i in ids :: c.items[i] == Item(j, Some(price), Queued, None, 0, None, None))
  {
  }

  lemma ListedOwn(b: Books, j: Id, ids: set<Id>, price: Money)
    requires ItemsOk(b) && NewJob(b, j, ids)
    ensures var c := ListJob(b, j, ids, price); ItemsOf(c, j) == ids && PostedOf(c, j) == {}
  {
    hide ItemsOk, ListJob;
    var c := ListJob(b, j, ids, price);
    ListedItems(b, j, ids, price);
    forall i ensures i in ItemsOf(c, j) <==> i in ids {
      if i in b.items {
        ItemFacts(b, i);
      }
    }
    forall i ensures i !in PostedOf(c, j) {
      assert i in PostedOf(c, j) ==> i in ItemsOf(c, j);
    }
  }

  lemma ListedElsewhere(b: Books, j: Id, ids: set<Id>, price: Money, x: Id)
    requires NewJob(b, j, ids) && x != j
    ensures var c := ListJob(b, j, ids, price);
            ItemsOf(c, x) == ItemsOf(b, x) && PostedOf(c, x) == PostedOf(b, x)
  {
    hide ListJob;
    var c := ListJob(b, j, ids, price);
    ListedItems(b, j, ids, price);
    forall i ensures (i in ItemsOf(c, x) <==> i in ItemsOf(b, x)) && (i in PostedOf(c, x) <==> i in PostedOf(b, x)) {
    }
  }

  /** Rows only ever name jobs and items that exist. */
  lemma NoKeysForNew(b: Books, j: Id, ids: set<Id>)
    requires IndexOk(b) && RowsOk(b) && NewJob(b, j, ids)
    ensures HoldJob(j) !in b.keys
    ensures forall i | i in ids :: DebitItem(i) !in b.keys && ReleaseItem(i) !in b.keys
  {
    forall x | x in b.keys ensures RowShape(b, b.ledger[..b.keys[x]], b.ledger[b.keys[x]]) {
    }
    assert forall i | i in ids :: i !in b.items;
  }

  lemma CreateJobKeepsInv(b: Books, j: Id, ids: set<Id>, price: Money)
    requires Inv(b)
    ensures Inv(CreateJob(b, j, ids, price))
  {
    hide Inv;
    if NewJob(b, j, ids) && CreateJob(b, j, ids, price) != b {
      if b.deleted {
        ListedDeletedKeepsInv(b, j, ids, price);
      } else {
        ListedHeldKeepsInv(b, j, ids, price);
      }
    }
  }

  /** After the client is gone a job is still listed, but no hold is taken. */
  lemma ListedDeletedKeepsInv(b: Books, j: Id, ids: set<Id>, price: Money)
    requires Inv(b) && NewJob(b, j, ids) && b.deleted
    ensures Inv(ListJob(b, j, ids, price))
  {
    hide WalletOk, IndexOk, RowsOk, MessagesOk, ItemsOk, JobsOk, Fold, Settled;
    ListedBase(b, j, ids, price);
    ListedJobs(b, j, ids, price);
  }

  /** Everything but the job table is in order once the job is listed. */
  lemma ListedBase(b: Books, j: Id, ids: set<Id>, price: Money)
    requires Inv(b) && NewJob(b, j, ids)
    ensures var c := ListJob(b, j, ids, price);
            WalletOk(c) && IndexOk(c) && RowsOk(c) && MessagesOk(c) && ItemsOk(c) && HoldJob(j) !in c.keys
  {
    hide WalletOk, IndexOk, RowsOk, MessagesOk, ItemsOk, JobsOk, Fold, Settled;
    var c := ListJob(b, j, ids, price);
    ListedItems(b, j, ids, price);
    NoKeysForNew(b, j, ids);
    SameLedger(b, c);
    SameMessages(b, c);
    ListedItemsOk(b, j, ids, price);
  }

  lemma ListedItemsOk(b: Books, j: Id, ids: set<Id>, price: Money)
    requires ItemsOk(b) && NewJob(b, j, ids)
    requires forall i | i in ids :: DebitItem(i) !in b.keys && ReleaseItem(i) !in b.keys
    ensures ItemsOk(ListJob(b, j, ids, price))
  {
    var c := ListJob(b, j, ids, price);
    ListedItems(b, j, ids, price);
    forall i | i in c.items ensures ItemOk(c, i) {
      if i in b.items { ItemFacts(b, i); }
    }
  }

  lemma ListedJobs(b: Books, j: Id, ids: set<Id>, price: Money)
    requires JobsOk(b) && ItemsOk(b) && NewJob(b, j, ids) && b.deleted && HoldJob(j) !in b.keys
    ensures JobsOk(ListJob(b, j, ids, price))
  {
    var c := ListJob(b, j, ids, price);
    ListedOwn(b, j, ids, price);
    forall x | x in c.jobs ensures JobOk(c, x) {
      if x != j { JobFacts(b, x); ListedElsewhere(b, j, ids, price, x); }
    }
  }

  lemma ListedHeldKeepsInv(b: Books, j: Id, ids: set<Id>, price: Money)
    requires Inv(b) && NewJob(b, j, ids) && !b.deleted && b.hasWallet && 0 < price * |ids|
    ensures Inv(Post(ListJob(b, j, ids, price), HOLD, price * |ids|, HoldJob(j), None))
  {
    hide WalletOk, IndexOk, RowsOk, MessagesOk, ItemsOk, JobsOk, Fold, Settled;
    var listed := ListJob(b, j, ids, price);
    var c := Post(listed, HOLD, price * |ids|, HoldJob(j), None);
    var t := c.ledger[|b.ledger|];
    ListedBase(b, j, ids, price);
    WalletAfter(listed, c, t);
    IndexAfter(listed, c, t);
    RowsAfter(listed, c, t);
    MessagesAfter(listed, c, t);
    ItemsAfter(listed, c, t);
    HeldJobs(b, c, t, j, ids, price);
  }

  lemma HeldJobs(b: Books, c: Books, t: Tx, j: Id, ids: set<Id>, price: Money)
    requires IndexOk(b) && RowsOk(b) && ItemsOk(b) && JobsOk(b) && Appended(b, c, t)
    requires NewJob(b, j, ids) && 0 < price * |ids| && c.deleted == b.deleted
    requires c.items == ListJob(b, j, ids, price).items && c.jobs == ListJob(b, j, ids, price).jobs
    requires t.key == HoldJob(j) && t.hold.None? && t.kind.HOLD? && t.amount == price * |ids|
    ensures JobsOk(c)
  {
    hide IndexOk, RowsOk, ItemsOk, JobsOk, Settled;
    var listed := ListJob(b, j, ids, price);
    ListedOwn(b, j, ids, price);
    SameItems(listed, c);
    forall x | x in c.jobs && x != j
      ensures ItemsOf(c, x) == ItemsOf(b, x) && PostedOf(c, x) == PostedOf(b, x)
    {
      ListedElsewhere(b, j, ids, price, x);
    }
    NewHoldUntouched(b, t);
    PositiveFactor(price, |ids|);
    JobsAfter(b, c, t, Some(j));
  }

  lemma PositiveFactor(p: int, n: nat)
    requires 0 < p * n
    ensures p > 0
  {
  }

  /** An open item: its job's hold, and the held balance, still cover its share. */
  lemma ItemShareCovered(b: Books, i: Id)
    requires Inv(b) && ItemOpen(b, i)
    ensures var item := b.items[i];
            && item.job in b.jobs && item.price == Some(b.jobs[item.job].price) && item.price.value > 0
            && b.keys[HoldJob(item.job)] < |b.ledger|
            && var h := b.keys[HoldJob(item.job)];
            && b.ledger[h].kind.HOLD? && b.ledger[h].key == HoldJob(item.job)
            && b.ledger[h].amount - Settled(b.ledger, h) >= item.price.value
            && b.balance.held >= item.price.value
  {
    hide WalletOk, IndexOk, RowsOk, MessagesOk, ItemsOk, JobsOk, Fold, Settled;
    var item := b.items[i];
    ItemFacts(b, i);
    JobFacts(b, item.job);
    RowFacts(b, HoldJob(item.job));
    RemainingOnJobHold(b, item.job);
    assert i in ItemsOf(b, item.job) - PostedOf(b, item.job);
    Distribute(item.price.value, |ItemsOf(b, item.job) - PostedOf(b, item.job)|, 0);
    HeldCovers(b, b.keys[HoldJob(item.job)]);
  }

  lemma PostingMoves(b: Books, i: Id, a: Action)
    requires i in b.items && b.items[i].action.None?
    ensures var c := b.(items := b.items[i := Mark(b.items[i], a)]);
            && (forall x: Id :: ItemsOf(c, x) == ItemsOf(b, x))
            && (forall x: Id | x != b.items[i].job :: PostedOf(c, x) == PostedOf(b, x))
            && PostedOf(c, b.items[i].job) == PostedOf(b, b.items[i].job) + {i}
            && i !in PostedOf(b, b.items[i].job)
  {
  }

  lemma SettleItemKeepsInv(b: Books, i: Id, a: Action)
    requires Inv(b)
    ensures Inv(SettleItem(b, i, a))
  {
    hide WalletOk, IndexOk, RowsOk, MessagesOk, ItemsOk, JobsOk, Fold, Settled;
    if ItemOpen(b, i) {
      var item := b.items[i];
      var j, share := item.job, item.price.value;
      var h := b.keys[HoldJob(j)];
      var c := SettleItem(b, i, a);
      var t := c.ledger[|b.ledger|];
      ItemShareCovered(b, i);
      ItemFacts(b, i);
      JobFacts(b, j);
      WalletFacts(b);
      WalletAfter(b, c, t);
      IndexAfter(b, c, t);
      RowsAfter(b, c, t);
      MessagesAfter(b, c, t);
      ItemsAfter(b, c, t);
      PostedJobs(b, c, t, i, a);
    }
  }

  /** Posting one item moves exactly its unit price out of its job's hold. */
  lemma PostedJobs(b: Books, c: Books, t: Tx, i: Id, a: Action)
    requires IndexOk(b) && JobsOk(b) && Appended(b, c, t) && c.deleted == b.deleted && c.jobs == b.jobs
    requires ItemOpen(b, i) && ItemOk(b, i) && c.items == b.items[i := Mark(b.items[i], a)]
    requires (t.kind.DEBIT? || t.kind.RELEASE?) && Some(t.amount) == b.items[i].price
    requires t.hold == Some(b.keys[HoldJob(b.items[i].job)]) && !t.key.HoldJob?
    ensures JobsOk(c)
  {
    hide JobsOk, Settled;
    var j := b.items[i].job;
    JobFacts(b, j);
    PostingMoves(b, i, a);
    SameItems(b.(items := b.items[i := Mark(b.items[i], a)]), c);
    SettledAppend(b.ledger, t, t.hold.value);
    Distribute(t.amount, |PostedOf(c, j)|, |PostedOf(b, j)|);
    JobsAfter(b, c, t, Some(j));
  }

  lemma IndexFacts(b: Books, k: nat)
    requires IndexOk(b) && k < |b.ledger|
    ensures b.ledger[k].key in b.keys && b.keys[b.ledger[k].key] == k
  {
  }

  /** When nothing blocks the remainder, every item is posted and nothing remains. */
  lemma RemainderBranches(b: Books, j: Id)
    requires Inv(b) && Blocking(b.items, j) == {}
    ensures forall k: nat | k < |b.ledger| && b.ledger[k].key == HoldJob(j) ::
        b.ledger[k].amount == Settled(b.ledger, k)
  {
    hide WalletOk, IndexOk, RowsOk, MessagesOk, ItemsOk, JobsOk, Settled;
    forall k: nat | k < |b.ledger| && b.ledger[k].key == HoldJob(j) ensures b.ledger[k].amount == Settled(b.ledger, k) {
      IndexFacts(b, k);
      RowFacts(b, HoldJob(j));
      JobFacts(b, j);
      RemainingOnJobHold(b, j);
      assert ItemsOf(b, j) - PostedOf(b, j) <= Blocking(b.items, j);
    }
  }

  /** So in books in order the remainder release never finds anything to release. */
  lemma NoRemainder(b: Books, j: Id)
    requires Inv(b)
    ensures PostRemainder(b, j) == b
  {
    hide WalletOk, RowsOk, MessagesOk, ItemsOk, JobsOk, Settled, Blocking, Post;
    if Blocking(b.items, j) == {} && HoldJob(j) in b.keys {
      RemainderBranches(b, j);
    }
  }

  // ---------------------------------------------------------------- whole runs

  datatype Op =
    | AddMessage(m: Id, msg: Message)
    | MoveMessage(m: Id, accepted: bool, failed: bool, jobDead: bool)
    | Reserve(m: Id)
    | Settle(m: Id, a: Action)
    | Credit(amount: Money, key: Option<Id>)
    | Adjustment(amount: Money, debit: bool, allowNegative: bool, key: Option<Id>)
    | NewLookupJob(j: Id, ids: set<Id>, price: Money)
    | MoveItem(i: Id, status: ItemStatus, result: Option<ResultStatus>, polls: int)
    | SettleLookup(i: Id, a: Action)
    | Remainder(j: Id)
    | DeleteClient

  /** One transaction; MoveMessage and MoveItem are the workers' own updates. */
  function Step(b: Books, op: Op): Books {
    match op
    case AddMessage(m, msg) => if m in b.messages then b else b.(messages := b.messages[m := msg.(action := None)])
    case MoveMessage(m, accepted, failed, jobDead) =>
      if m !in b.messages then b
      else b.(messages := b.messages[m := b.messages[m].(accepted := accepted, failed := failed, jobDead := jobDead)])
    case Reserve(m) => ReserveMessage(b, m)
    case Settle(m, a) => SettleMessage(b, m, a)
    case Credit(amount, key) => TopUp(b, amount, key)
    case Adjustment(amount, debit, allowNegative, key) => Adjust(b, amount, debit, allowNegative, key)
    case NewLookupJob(j, ids, price) => CreateJob(b, j, ids, price)
    case MoveItem(i, status, result, polls) =>
      if i !in b.items then b
      else b.(items := b.items[i := b.items[i].(status := status, result := result, polls := polls)])
    case SettleLookup(i, a) => SettleItem(b, i, a)
    case Remainder(j) => PostRemainder(b, j)
    case DeleteClient => b.(deleted := true)
  }

  function Run(b: Books, ops: seq<Op>): Books
    decreases |ops|
  {
    if ops == [] then b else Run(Step(b, ops[0]), ops[1..])
  }

  /** Items that keep job, price, action and cost keep their own and their job's facts. */
  lemma SameItemsAndJobs(b: Books, c: Books)
    requires ItemsOk(b) && JobsOk(b) && c.ledger == b.ledger && c.keys == b.keys && c.jobs == b.jobs
    requires c.items.Keys == b.items.Keys && (b.deleted ==> c.deleted)
    requires forall i | i in b.items :: SameShare(b.items[i], c.items[i])
    ensures ItemsOk(c) && JobsOk(c)
  {
    hide Settled, JobOk, JobsOk;
    forall i | i in c.items ensures ItemOk(c, i) { ItemFacts(b, i); }
    SameJobs(b, c);
  }

  lemma SameJobs(b: Books, c: Books)
    requires JobsOk(b) && c.ledger == b.ledger && c.keys == b.keys && c.jobs == b.jobs
    requires c.items.Keys == b.items.Keys && (b.deleted ==> c.deleted)
    requires forall i | i in b.items :: SameShare(b.items[i], c.items[i])
    ensures JobsOk(c)
  {
    hide Settled;
    forall j | j in c.jobs ensures JobOk(c, j) {
      JobFacts(b, j);
      assert ItemsOf(c, j) == ItemsOf(b, j) && PostedOf(c, j) == PostedOf(b, j);
    }
  }

  /** Every transaction keeps the invariant. */
  lemma StepKeepsInv(b: Books, op: Op)
    requires Inv(b)
    ensures Inv(Step(b, op))
  {
    hide Inv, Moved, ReserveMessage, SettleMessage, CreateJob, SettleItem, PostRemainder;
    match op
    case Reserve(m) => ReserveMessageKeepsInv(b, m);
    case Settle(m, a) => SettleMessageKeepsInv(b, m, a);
    case Credit(amount, key) =>
      if TopUp(b, amount, key) != b { PlainRowKeepsInv(b, CREDIT, amount, TopUpKey(key.value)); }
    case Adjustment(amount, debit, allowNegative, key) =>
      if Adjust(b, amount, debit, allowNegative, key) != b {
        PlainRowKeepsInv(b, ADJUSTMENT(debit), amount, AdjustKey(key.value));
      }
    case NewLookupJob(j, ids, price) => CreateJobKeepsInv(b, j, ids, price);
    case SettleLookup(i, a) => SettleItemKeepsInv(b, i, a);
    case Remainder(j) => NoRemainder(b, j);
    case AddMessage(m, msg) =>
      MessageAdds(b, m, msg);
      MovedKeepsInv(b, Step(b, op));
    case MoveMessage(m, accepted, failed, jobDead) =>
      MessageMoves(b, m, accepted, failed, jobDead);
      MovedKeepsInv(b, Step(b, op));
    case _ =>
      ItemMoves(b, op);
      MovedKeepsInv(b, Step(b, op));
  }

  /** Workers' updates, new messages and deletion: nothing that billing relies on changes. */
  ghost predicate Moved(b: Books, c: Books) {
    && c.hasWallet == b.hasWallet && c.balance == b.balance && c.version == b.version
    && c.ledger == b.ledger && c.keys == b.keys && c.jobs == b.jobs && (b.deleted ==> c.deleted)
    && b.messages.Keys <= c.messages.Keys && c.items.Keys == b.items.Keys
    && (forall m | m in c.messages :: if m in b.messages then SameBill(b.messages[m], c.messages[m])
      else c.messages[m].action.None?)
    && (forall i | i in b.items :: SameShare(b.items[i], c.items[i]))
  }

  predicate SameBill(x: Message, y: Message) {
    x.hasClient == y.hasClient && x.price == y.price && x.segments == y.segments && x.action == y.action
  }

  predicate SameShare(x: Item, y: Item) {
    x.job == y.job && x.price == y.price && x.action == y.action && x.cost == y.cost
  }

  lemma MessageAdds(b: Books, m: Id, msg: Message)
    ensures Moved(b, Step(b, AddMessage(m, msg)))
  {
    hide Moved, ReserveMessage, SettleMessage, TopUp, Adjust, CreateJob, SettleItem, PostRemainder;
    if m in b.messages {
      NothingMoved(b);
    } else {
      MessageWritten(b, m, msg.(action := None));
    }
  }

  lemma MessageMoves(b: Books, m: Id, accepted: bool, failed: bool, jobDead: bool)
    ensures Moved(b, Step(b, MoveMessage(m, accepted, failed, jobDead)))
  {
    hide Moved, ReserveMessage, SettleMessage, TopUp, Adjust, CreateJob, SettleItem, PostRemainder;
    if m in b.messages {
      MessageWritten(b, m, b.messages[m].(accepted := accepted, failed := failed, jobDead := jobDead));
    } else {
      NothingMoved(b);
    }
  }

  lemma NothingMoved(b: Books)
    ensures Moved(b, b)
  {
  }

  lemma MessageWritten(b: Books, m: Id, msg: Message)
    requires if m in b.messages then SameBill(b.messages[m], msg) else msg.action.None?
    ensures Moved(b, b.(messages := b.messages[m := msg]))
  {
  }

  lemma ItemMoves(b: Books, op: Op)
    requires op.MoveItem? || op.DeleteClient?
    ensures Moved(b, Step(b, op))
  {
    hide ReserveMessage, SettleMessage, TopUp, Adjust, CreateJob, SettleItem, PostRemainder;
  }

  lemma MovedKeepsInv(b: Books, c: Books)
    requires Inv(b) && Moved(b, c)
    ensures Inv(c)
  {
    hide WalletOk, IndexOk, RowsOk, MessagesOk, ItemsOk, JobsOk, Fold, Settled;
    SameLedger(b, c);
    SameMessages(b, c);
    SameItemsAndJobs(b, c);
  }

  lemma FreshInv(hasWallet: bool)
    ensures Inv(Fresh(hasWallet))
  {
  }

  lemma {:induction false} RunKeepsInv(b: Books, ops: seq<Op>)
    requires Inv(b)
    ensures Inv(Run(b, ops))
    decreases |ops|
  {
    if ops != [] {
      StepKeepsInv(b, ops[0]);
      RunKeepsInv(Step(b, ops[0]), ops[1..]);
    }
  }

  /**
   In every run from an empty wallet: held is what the holds have open and is
   never negative, money is conserved, and replaying any prefix of the ledger
   gives the balances its last row recorded.
   */
  lemma RunConserves(hasWallet: bool, ops: seq<Op>)
    ensures var b := Run(Fresh(hasWallet), ops);
            && b.balance.held == Outstanding(b.ledger, |b.ledger|) >= 0
            && b.balance.avail + b.balance.held == MoneyIn(b.ledger) - Debits(b.ledger)
            && (forall k | 0 <= k < |b.ledger| :: b.ledger[k].after == Fold(b.ledger[..k + 1]))
            && b.balance == Fold(b.ledger)
  {
    FreshInv(hasWallet);
    RunKeepsInv(Fresh(hasWallet), ops);
    Conservation(Run(Fresh(hasWallet), ops));
  }
}
