/**
 The billing service itself: one method per transaction, with the branches,
 checks and error returns of internal/billing. No method assumes that the books
 are in order; each one says what it does when they are.
 */
module BillingService {
  import opened Common
  import opened Ledger
  import opened Books
  import opened Transactions
  import opened Settlements

  datatype Outcome =
    | Ok
    | NoClient
    | SnapshotMissing
    | NotPositive
    | KeyRequired
    | WalletNotFound
    | Refused(fault: Fault)
    | NoRows
    | HoldNotFound
    | SettledExceedsHold
    | HoldBelowShare
    | SettledOtherwise

  const WALLET_VERSION_RETRIES := 5

  // ------------------------------------------------------- queries, as functions

  /** A hold of message `m` that no row closes. */
  predicate OpenSmsHold(l: seq<Tx>, m: Id, k: nat) {
    k < |l| && l[k].kind.HOLD? && l[k].key == HoldSms(m) && Closers(l, k) == {}
  }

  /** In books in order there is one such row exactly when the message is not settled. */
  lemma OpenHoldIsTheHold(b: Books, m: Id, k: nat)
    requires Inv(b) && m in b.messages
    ensures OpenSmsHold(b.ledger, m, k) <==>
          HoldSms(m) in b.keys && b.keys[HoldSms(m)] == k && b.messages[m].action.None?
  {
    hide WalletOk, MessagesOk, ItemsOk, JobsOk, RowsOk, Settled;
    MessageFacts(b, m);
    if HoldSms(m) in b.keys && b.keys[HoldSms(m)] == k {
      RowFacts(b, HoldSms(m));
      if b.messages[m].action.None? {
        if Closers(b.ledger, k) != {} {
          var n :| n in Closers(b.ledger, k);
          CloserOfSms(b, n, k, m);
        }
      } else {
        var key := SmsKey(m, b.messages[m].action.value);
        RowFacts(b, key);
        assert b.keys[key] in Closers(b.ledger, k);
      }
    }
  }

  /** What books in order guarantee at each branch of Settle. */
  lemma SettleBranches(b: Books, m: Id, a: Action)
    requires Inv(b) && m in b.messages
    ensures HoldSms(m) in b.keys ==> && b.messages[m].hasClient && b.messages[m].price.Some? && b.hasWallet
                                     && b.keys[HoldSms(m)] < |b.ledger|
    ensures SmsKey(m, a) in b.keys ==> b.messages[m].action == Some(a)
    ensures MessageOpen(b, m) ==> SmsKey(m, a) !in b.keys && b.balance.held >= b.ledger[b.keys[HoldSms(m)]].amount
    ensures forall k: nat :: OpenSmsHold(b.ledger, m, k) <==>
              HoldSms(m) in b.keys && b.keys[HoldSms(m)] == k && b.messages[m].action.None?
  {
    hide WalletOk, IndexOk, RowsOk, MessagesOk, ItemsOk, JobsOk, Settled;
    MessageFacts(b, m);
    forall k: nat
      ensures OpenSmsHold(b.ledger, m, k) <==>
              HoldSms(m) in b.keys && b.keys[HoldSms(m)] == k && b.messages[m].action.None?
    {
      OpenHoldIsTheHold(b, m, k);
    }
    if HoldSms(m) in b.keys {
      RowFacts(b, HoldSms(m));
      WalletFacts(b);
      HeldCovers(b, b.keys[HoldSms(m)]);
    }
  }

  // -------------------------------------------------------------- lookup items

  lemma {:induction false} DistinctCount(ids: seq<Id>)
    requires Distinct(ids)
    ensures |Elements(ids)| == |ids|
  {
    if ids != [] {
      var rest := ids[..|ids| - 1];
      DistinctCount(rest);
      assert ids == rest + [ids[|ids| - 1]];
      assert Elements(ids) == Elements(rest) + {ids[|ids| - 1]};
    }
  }

  lemma NoItems(items: map<Id, Item>, j: Id, price: Money)
    ensures AddItems(items, j, {}, price) == items
  {
  }

  lemma OneMoreItem(items: map<Id, Item>, j: Id, ids: set<Id>, price: Money, i: Id)
    ensures AddItems(items, j, ids + {i}, price) == AddItems(items, j, ids, price)[i := Item(j, Some(price), Queued,
        None, 0, None, None)]
  {
  }

  /** Rows only name jobs that exist. */
  lemma NewJobBranches(b: Books, j: Id)
    requires Inv(b) && j !in b.jobs
    ensures HoldJob(j) !in b.keys
  {
    hide WalletOk, IndexOk, RowsOk, MessagesOk, ItemsOk, JobsOk, Settled;
    if HoldJob(j) in b.keys {
      RowFacts(b, HoldJob(j));
    }
  }

  function SettleItemOutcome(b: Books, i: Id, a: Action): Outcome {
    if i !in b.items then NoRows
    else if b.deleted || b.items[i].action.None? || b.items[i].action == Some(a) then Ok
    else SettledOtherwise
  }

  /** What books in order guarantee at each branch of SettleLookupItemOnce. */
  lemma SettleItemBranches(b: Books, i: Id, a: Action)
    requires Inv(b)
    ensures !ItemOpen(b, i) ==> SettleItem(b, i, a) == b
    ensures i in b.items && !b.deleted && b.items[i].action.None? ==>
              && ItemOpen(b, i) && b.items[i].price.value > 0 && ItemKey(i, a) !in b.keys && b.hasWallet
              && b.keys[HoldJob(b.items[i].job)] < |b.ledger|
              && var h := b.keys[HoldJob(b.items[i].job)];
              && b.ledger[h].kind.HOLD? && b.ledger[h].key == HoldJob(b.items[i].job)
              && (forall k: nat | k < |b.ledger| && b.ledger[k].key == HoldJob(b.items[i].job) :: k == h)
              && b.ledger[h].amount - Settled(b.ledger, h) >= b.items[i].price.value
              && b.balance.held >= b.items[i].price.value
              && SettleItem(b, i, a) ==
                   Post(b, KindOf(a), b.items[i].price.value, ItemKey(i, a), Some(h))
                     .(items := b.items[i := Mark(b.items[i], a)])
  {
    hide WalletOk, RowsOk, MessagesOk, ItemsOk, JobsOk, Settled;
    if i in b.items && !b.deleted && b.items[i].action.None? {
      ItemFacts(b, i);
      JobFacts(b, b.items[i].job);
      WalletFacts(b);
      ItemShareCovered(b, i);
    }
  }

  lemma MissingItemUntouched(b: Books, i: Id, a: Action)
    requires SettleItemOutcome(b, i, a) == NoRows
    ensures SettleItem(b, i, a) == b
  {
  }

  /** The row the index gives for a job's hold key is a hold. */
  ghost predicate HoldRowOk(b: Books, j: Id) {
    HoldJob(j) in b.keys && b.keys[HoldJob(j)] < |b.ledger| ==> b.ledger[b.keys[HoldJob(j)]].kind.HOLD?
  }

  lemma HoldIsIndexed(b: Books, j: Id)
    requires IndexOk(b)
    ensures forall k: nat | k < |b.ledger| && b.ledger[k].key == HoldJob(j) ::
          HoldJob(j) in b.keys && b.keys[HoldJob(j)] == k
    ensures HoldJob(j) in b.keys ==> b.keys[HoldJob(j)] < |b.ledger| && b.ledger[b.keys[HoldJob(j)]].key == HoldJob(j)
  {
  }

  // ------------------------------------------------------------------- reapers

  /** settleAction: what the SMS reaper does with an open hold. */
  function SettleActionFor(msg: Message): Option<Action> {
    if msg.action.Some? then msg.action
    else if msg.accepted then Some(Capture)
    else if msg.failed && msg.jobDead then Some(Release)
    else None
  }

  /** LookupItemSettleAction: a provider-final outcome is captured, a bare failure released. */
  function ItemSettleAction(item: Item): Option<Action> {
    if item.action.Some? then item.action
    else if item.status.Completed? then Some(Capture)
    else if item.result.Some? && FinalResult(item.result.value) then Some(Capture)
    else if item.status.Failed? then Some(Release)
    else None
  }

  /** The messages after reaping those of `done`: each open hold that can be judged is settled so. */
  function ReapedMessages(b: Books, done: set<Id>): map<Id, Message> {
    map m | m in b.messages ::
      if m in done && !b.deleted && HoldSms(m) in b.keys && b.messages[m].action.None?
      then b.messages[m].(action := SettleActionFor(b.messages[m])) else b.messages[m]
  }

  /** The books part way through: settled messages, and no hold taken or lost. */
  ghost predicate Reaped(b: Books, c: Books, done: set<Id>) {
    && c.deleted == b.deleted && c.messages == ReapedMessages(b, done)
    && (forall x: Id :: HoldSms(x) in c.keys <==> HoldSms(x) in b.keys)
  }

  lemma ReapedNone(b: Books)
    ensures Reaped(b, b, {})
  {
  }

  lemma ReapedMore(b: Books, c: Books, m: Id, done: set<Id>)
    requires Inv(c) && Reaped(b, c, done)
    ensures var judged := if m in c.messages then SettleActionFor(c.messages[m]) else None;
            Reaped(b, if judged.Some? then SettleMessage(c, m, judged.value) else c, done + {m})
  {
    hide Inv, SettleMessage;
    var judged := if m in c.messages then SettleActionFor(c.messages[m]) else None;
    if judged.Some? {
      SettledMessage(c, m, judged.value);
    }
    var d := if judged.Some? then SettleMessage(c, m, judged.value) else c;
    forall x | x in b.messages ensures x in d.messages && d.messages[x] == ReapedMessages(b, done + {m})[x] {
      assert x in c.messages && c.messages[x] == ReapedMessages(b, done)[x];
    }
    assert d.messages.Keys == b.messages.Keys;
  }

  /** A settlement as the reaper sees it: one action at most, and no hold taken or lost. */
  lemma SettledMessage(c: Books, m: Id, a: Action)
    requires Inv(c) && m in c.messages
    ensures var d := SettleMessage(c, m, a);
            && d.deleted == c.deleted && d.messages.Keys == c.messages.Keys
            && (forall x | x in c.messages && x != m :: d.messages[x] == c.messages[x])
            && (forall x: Id :: HoldSms(x) in d.keys <==> HoldSms(x) in c.keys)
            && d.messages[m] ==
                 if c.messages[m].action.None? && !c.deleted && HoldSms(m) in c.keys
                 then c.messages[m].(action := Some(a)) else c.messages[m]
  {
    hide WalletOk, IndexOk, RowsOk, ItemsOk, JobsOk, MessagesOk, Settled, Effect;
    MessageFacts(c, m);
  }

  // The lookup reaper.

  predicate Unsettled(item: Item) {
    Terminal(item.status) && item.action.None?
  }

  lemma UnsettledIsJudged(item: Item)
    requires Unsettled(item)
    ensures ItemSettleAction(item).Some?
  {
  }

  function UnsettledOf(items: map<Id, Item>, j: Id): set<Id> {
    set i | i in items && items[i].job == j && Unsettled(items[i])
  }

  function ItemsOfJobs(items: map<Id, Item>, jobs: set<Id>): set<Id> {
    set i | i in items && items[i].job in jobs
  }

  /** The items after reaping those of `done`: each unsettled terminal one marked as judged. */
  function ReapedItems(items: map<Id, Item>, deleted: bool, done: set<Id>): map<Id, Item> {
    map i | i in items ::
      if i in done && !deleted && Unsettled(items[i]) then
        UnsettledIsJudged(items[i]);
        Mark(items[i], ItemSettleAction(items[i]).value)
      else items[i]
  }

  /** Settling one listed item as judged when it was listed. */
  lemma ReapOne(b: Books, c: Books, done: set<Id>, i: Id)
    requires Inv(c) && c.deleted == b.deleted && c.items == ReapedItems(b.items, b.deleted, done)
    requires i in b.items && Unsettled(b.items[i])
    ensures ItemSettleAction(b.items[i]).Some?
    ensures SettleItem(c, i, ItemSettleAction(b.items[i]).value).items == ReapedItems(b.items, b.deleted, done + {i})
    ensures SettleItem(c, i, ItemSettleAction(b.items[i]).value).deleted == b.deleted
  {
    hide Inv, Settled, SettleItem;
    UnsettledIsJudged(b.items[i]);
    var a := ItemSettleAction(b.items[i]).value;
    SettleItemBranches(c, i, a);
  }

  lemma ReapedJob(items: map<Id, Item>, deleted: bool, jobs: set<Id>, j: Id)
    ensures var cur := ReapedItems(items, deleted, ItemsOfJobs(items, jobs));
            ReapedItems(items, deleted, ItemsOfJobs(items, jobs) + UnsettledOf(cur, j))
            == ReapedItems(items, deleted, ItemsOfJobs(items, jobs + {j}))
  {
  }

  /** How many of the listed messages the reaper has something to do for. */
  function JudgedIn(messages: map<Id, Message>, rows: seq<Id>): nat {
    if rows == [] then 0
    else
      var m := rows[|rows| - 1];
      JudgedIn(messages, rows[..|rows| - 1])
      + (if m in messages && SettleActionFor(messages[m]).Some? then 1 else 0)
  }

  lemma NoneJudged(messages: map<Id, Message>)
    ensures JudgedIn(messages, []) == 0
  {
  }

  lemma JudgedMore(messages: map<Id, Message>, rows: seq<Id>, k: nat)
    requires k < |rows|
    ensures JudgedIn(messages, rows[..k + 1]) == JudgedIn(messages, rows[..k])
        + (if rows[k] in messages && SettleActionFor(messages[rows[k]]).Some? then 1 else 0)
  {
    assert rows[..k + 1][..k] == rows[..k];
  }

  /** Reaping some messages changes nothing about which ones can be judged. */
  lemma JudgedStays(b: Books, c: Books, done: set<Id>, m: Id)
    requires Reaped(b, c, done)
    ensures m in c.messages <==> m in b.messages
    ensures m in b.messages ==> (SettleActionFor(c.messages[m]).Some? <==> SettleActionFor(b.messages[m]).Some?)
  {
  }

  /** The unsettled items of several jobs. */
  function UnsettledIn(items: map<Id, Item>, jobs: set<Id>): set<Id> {
    set i | i in items && items[i].job in jobs && Unsettled(items[i])
  }

  /** What the query lists of one more job, when some are done, is what was unsettled there at first. */
  lemma ListedAfter(items: map<Id, Item>, jobs: set<Id>, j: Id)
    ensures var cur := ReapedItems(items, false, ItemsOfJobs(items, jobs));
            |UnsettledIn(items, jobs)| + |UnsettledOf(cur, j)| == |UnsettledIn(items, jobs + {j})|
  {
    var cur := ReapedItems(items, false, ItemsOfJobs(items, jobs));
    assert UnsettledIn(items, jobs) !! UnsettledOf(cur, j);
    assert UnsettledIn(items, jobs) + UnsettledOf(cur, j) == UnsettledIn(items, jobs + {j});
  }

  class Service {
    var hasWallet: bool
    var deleted: bool
    var balance: Balance
    var version: nat
    var ledger: seq<Tx>
    var keys: map<Key, nat>
    var messages: map<Id, Message>
    var jobs: map<Id, Job>
    var items: map<Id, Item>

    /** The books this object holds. */
    function State(): Books
      reads this
    {
      Books(hasWallet, deleted, balance, version, ledger, keys, messages, jobs, items)
    }

    constructor (hasWallet: bool)
      ensures State() == Fresh(hasWallet) && Inv(State())
    {
      this.hasWallet, deleted, balance, version := hasWallet, false, Balance(0, 0), 0;
      ledger, keys, messages, jobs, items := [], map[], map[], map[], map[];
      new;
      FreshInv(hasWallet);
    }

    // ------------------------------------------------------------------ queries

    /** GetOpenHoldForMessage: the first hold of `m` that no row closes. */
    method OpenHoldForMessage(m: Id) returns (r: Option<nat>)
      ensures r.Some? ==> r.value < |ledger| && OpenSmsHold(ledger, m, r.value)
      ensures r.None? ==> forall k: nat | k < |ledger| :: !OpenSmsHold(ledger, m, k)
    {
      for k := 0 to |ledger|
        invariant forall n: nat | n < k :: !OpenSmsHold(ledger, m, n)
      {
        if OpenSmsHold(ledger, m, k) {
          return Some(k);
        }
      }
      return None;
    }

    /** GetLookupJobHold: the first hold of job `j`. */
    method LookupJobHold(j: Id) returns (r: Option<nat>)
      ensures r.Some? ==> r.value < |ledger| && ledger[r.value].kind.HOLD? && ledger[r.value].key == HoldJob(j)
      ensures r.None? ==> forall k: nat | k < |ledger| :: !(ledger[k].kind.HOLD? && ledger[k].key == HoldJob(j))
    {
      for k := 0 to |ledger|
        invariant forall n: nat | n < k :: !(ledger[n].kind.HOLD? && ledger[n].key == HoldJob(j))
      {
        if ledger[k].kind.HOLD? && ledger[k].key == HoldJob(j) {
          return Some(k);
        }
      }
      return None;
    }

    // ------------------------------------------------------------------- writes

    /** UpdateWalletBalances, guarded by the version read before, then the ledger row. */
    method Write(next: Balance, seen: nat, kind: Kind, amount: Money, key: Key, hold: Option<nat>) returns (ok: bool)
      modifies this`balance, this`version, this`ledger, this`keys
      ensures ok == (seen == old(version))
      ensures ok && next == Effect(old(balance), kind, amount)
          ==> State() == Post(old(State()), kind, amount, key, hold)
      ensures !ok ==> State() == old(State())
    {
      if seen != version {
        return false;
      }
      balance, version := next, version + 1;
      keys := keys[key := |ledger|];
      ledger := ledger + [Tx(kind, amount, key, hold, next)];
      return true;
    }

    // ------------------------------------------------------------- transactions

    /** ReserveForMessage, for a message that has been inserted. */
    method ReserveForMessage(m: Id) returns (out: Outcome)
      requires m in messages
      modifies this
      ensures State() == ReserveMessage(old(State()), m)
      ensures old(Inv(State())) ==> Inv(State())
      ensures out == Ok <==> (messages[m].hasClient && deleted) || HoldReady(m)
      ensures out == Ok && !deleted && old(HoldSms(m) !in keys) ==>
        var amount := messages[m].price.value * messages[m].segments.value;
        balance == Balance(old(balance.avail) - amount, old(balance.held) + amount) && balance.avail >= 0
      ensures out == NoClient <==> !messages[m].hasClient
      ensures out == SnapshotMissing <==> messages[m].hasClient && !deleted && !Priced(m)
      ensures out == NotPositive <==>
        Priced(m) && !deleted && messages[m].price.value * messages[m].segments.value <= 0
      ensures out == WalletNotFound <==> Chargeable(m) && old(HoldSms(m) !in keys) && !hasWallet
      ensures out == Refused(InsufficientFunds) <==>
        && Chargeable(m) && old(HoldSms(m) !in keys) && hasWallet
        && messages[m].price.value * messages[m].segments.value > old(balance.avail)
    {
      ghost var b := State();
      if Inv(b) {
        ReserveMessageKeepsInv(b, m);
      }
      hide Inv;
      var msg := messages[m];
      if !msg.hasClient {
        return NoClient;
      }
      if deleted {
        return Ok;
      }
      if msg.price.None? || msg.segments.None? || !msg.plan {
        return SnapshotMissing;
      }
      var amount := msg.price.value * msg.segments.value;
      if amount <= 0 {
        return NotPositive;
      }
      if HoldSms(m) in keys {
        return Ok;
      }
      if !hasWallet {
        return WalletNotFound;
      }
      match ApplyHold(balance, amount)
      case Fault(f) => return Refused(f);
      case Done(next) =>
        var ok := Write(next, version, HOLD, amount, HoldSms(m), None);
        return Ok;
    }

    predicate Priced(m: Id)
      requires m in messages
      reads this
    {
      messages[m].hasClient && messages[m].price.Some? && messages[m].segments.Some? && messages[m].plan
    }

    predicate Chargeable(m: Id)
      requires m in messages
      reads this
    {
      Priced(m) && !deleted && messages[m].price.value * messages[m].segments.value > 0
    }

    /** The message is priced and its hold is in the ledger. */
    predicate HoldReady(m: Id)
      requires m in messages
      reads this
    {
      Priced(m) && messages[m].price.value * messages[m].segments.value > 0 && HoldSms(m) in keys
    }

    /**
     settle: captures or releases the hold of a message. In books in order it
     never fails, whatever was settled before.
     */
    method Settle(m: Id, a: Action) returns (out: Outcome)
      modifies this
      ensures old(Inv(State())) ==> Inv(State()) && State() == SettleMessage(old(State()), m, a) && out == Ok
    {
      hide Inv, OpenSmsHold;
      ghost var b := State();
      if Inv(b) {
        SettleMessageKeepsInv(b, m, a);
        if m in messages {
          SettleBranches(b, m, a);
        }
      }
      if m !in messages {
        return Ok;
      }
      var msg := messages[m];
      if !msg.hasClient || msg.price.None? {
        return Ok;
      }
      if deleted {
        return Ok;
      }
      if SmsKey(m, a) in keys {
        messages := messages[m := msg.(action := Some(a))];
        assert msg.action == Some(a) ==> messages == old(messages);
        return Ok;
      }
      var hold := OpenHoldForMessage(m);
      assert Inv(b) && MessageOpen(b, m) ==> OpenSmsHold(b.ledger, m, b.keys[HoldSms(m)]);
      if hold.None? {
        return Ok;
      }
      if !hasWallet {
        return NoRows;
      }
      var amount := ledger[hold.value].amount;
      var applied := if a.Capture? then ApplyDebitFromHold(balance, amount) else ApplyRelease(balance, amount);
      match applied
      case Fault(f) => return Refused(f);
      case Done(next) =>
        var ok := Write(next, version, KindOf(a), amount, SmsKey(m, a), hold);
        messages := messages[m := msg.(action := Some(a))];
        return Ok;
    }

    /** TopUp: credits the wallet once per caller's key. */
    method CreditWallet(amount: Money, key: Option<Id>) returns (out: Outcome)
      modifies this
      ensures State() == TopUp(old(State()), amount, key)
      ensures old(Inv(State())) ==> Inv(State())
      ensures out == Ok <==> amount > 0 && key.Some? && TopUpKey(key.value) in keys
      ensures key.Some? && out == Ok && old(TopUpKey(key.value) !in keys) ==>
        balance == Balance(old(balance.avail) + amount, old(balance.held))
      ensures out == NotPositive <==> amount <= 0
      ensures out == KeyRequired <==> amount > 0 && key.None?
      ensures out == WalletNotFound <==> amount > 0 && key.Some? && old(TopUpKey(key.value) !in keys) && !hasWallet
    {
      hide Inv;
      ghost var b := State();
      if Inv(b) {
        StepKeepsInv(b, Credit(amount, key));
      }
      if amount <= 0 {
        return NotPositive;
      }
      if key.None? {
        return KeyRequired;
      }
      if TopUpKey(key.value) in keys {
        return Ok;
      }
      if !hasWallet {
        return WalletNotFound;
      }
      var next := balance.(avail := balance.avail + amount);
      var ok := Write(next, version, CREDIT, amount, TopUpKey(key.value), None);
      return Ok;
    }

    /** Adjust: a signed correction, refused when it would overdraw without leave. */
    method AdjustWallet(amount: Money, debit: bool, allowNegative: bool, key: Option<Id>) returns (out: Outcome)
      modifies this
      ensures State() == Adjust(old(State()), amount, debit, allowNegative, key)
      ensures old(Inv(State())) ==> Inv(State())
      ensures out == Ok <==> amount > 0 && key.Some? && AdjustKey(key.value) in keys
      ensures key.Some? && out == Ok && old(AdjustKey(key.value) !in keys) ==>
        && balance == Balance(old(balance.avail) + (if debit then -amount else amount), old(balance.held))
        && (balance.avail >= 0 || allowNegative)
      ensures out == NotPositive <==> amount <= 0
      ensures out == KeyRequired <==> amount > 0 && key.None?
      ensures out == WalletNotFound <==> amount > 0 && key.Some? && old(AdjustKey(key.value) !in keys) && !hasWallet
      ensures out == Refused(NegativeForbidden) <==>
        && amount > 0 && key.Some? && old(AdjustKey(key.value) !in keys) && hasWallet
        && old(balance.avail) + (if debit then -amount else amount) < 0 && !allowNegative
    {
      hide Inv;
      ghost var b := State();
      if Inv(b) {
        StepKeepsInv(b, Adjustment(amount, debit, allowNegative, key));
      }
      if amount <= 0 {
        return NotPositive;
      }
      if key.None? {
        return KeyRequired;
      }
      if AdjustKey(key.value) in keys {
        return Ok;
      }
      if !hasWallet {
        return WalletNotFound;
      }
      match ApplyAdjustment(balance, amount, debit, allowNegative)
      case Fault(f) => return Refused(f);
      case Done(next) =>
        var ok := Write(next, version, ADJUSTMENT(debit), amount, AdjustKey(key.value), None);
        return Ok;
    }

    /** The loop of create that adds one queued item per phone. */
    static method BuildItems(items: map<Id, Item>, j: Id, ids: seq<Id>, price: Money) returns (rows: map<Id, Item>)
      ensures rows == AddItems(items, j, Elements(ids), price)
    {
      hide AddItems;
      rows := items;
      NoItems(items, j, price);
      assert Elements(ids[..0]) == {};
      for k := 0 to |ids|
        invariant rows == AddItems(items, j, Elements(ids[..k]), price)
      {
        assert Elements(ids[..k + 1]) == Elements(ids[..k]) + {ids[k]};
        OneMoreItem(items, j, Elements(ids[..k]), price, ids[k]);
        rows := rows[ids[k] := Item(j, Some(price), Queued, None, 0, None, None)];
      }
      assert ids[..|ids|] == ids;
    }

    /** create: the job row, one item row per phone, and the hold, in one transaction. */
    method CreateLookupJob(j: Id, ids: seq<Id>, price: Money) returns (out: Outcome)
      requires j !in jobs && Distinct(ids) && forall k | 0 <= k < |ids| :: ids[k] !in items
      modifies this
      ensures old(Inv(State())) ==> Inv(State()) && State() == CreateJob(old(State()), j, Elements(ids), price)
      ensures out != Ok ==> State() == old(State())
      ensures out == Ok && !deleted ==> HoldJob(j) in keys
      ensures out == NotPositive <==> |ids| == 0 || (!deleted && price * |ids| <= 0)
      ensures out == WalletNotFound <==> price * |ids| > 0 && !deleted && old(HoldJob(j) !in keys) && !hasWallet
      ensures out == Refused(InsufficientFunds) <==>
        price * |ids| > 0 && !deleted && old(HoldJob(j) !in keys) && hasWallet && price * |ids| > old(balance.avail)
    {
      hide Inv, AddItems;
      ghost var b := State();
      DistinctCount(ids);
      if Inv(b) {
        CreateJobKeepsInv(b, j, Elements(ids), price);
        NewJobBranches(b, j);
      }
      if |ids| == 0 {
        return NotPositive;
      }
      var rows := BuildItems(items, j, ids, price);
      var newJobs := jobs[j := Job(|ids|, price)];
      if deleted {
        items, jobs := rows, newJobs;
        return Ok;
      }
      var amount := price * |ids|;
      if amount <= 0 {
        return NotPositive;
      }
      if HoldJob(j) in keys {
        items, jobs := rows, newJobs;
        return Ok;
      }
      if !hasWallet {
        return WalletNotFound;
      }
      match ApplyHold(balance, amount)
      case Fault(f) => return Refused(f);
      case Done(next) =>
        items, jobs := rows, newJobs;
        var ok := Write(next, version, HOLD, amount, HoldJob(j), None);
        return Ok;
    }

    /**
     settleLookupItemOnce. In books in order the only failure for an item that
     exists is that it was settled the other way before.
     */
    method SettleLookupItemOnce(i: Id, a: Action) returns (out: Outcome)
      modifies this
      ensures old(Inv(State())) ==> Inv(State()) && State() == SettleItem(old(State()), i, a)
      ensures old(Inv(State())) ==> out == SettleItemOutcome(old(State()), i, a)
    {
      hide Inv, SettleItem, PostedOf, ItemsOf;
      ghost var b := State();
      if Inv(b) {
        SettleItemKeepsInv(b, i, a);
        SettleItemBranches(b, i, a);
      }
      if i !in items {
        return NoRows;
      }
      var item := items[i];
      if deleted {
        return Ok;
      }
      if item.action.Some? {
        if item.action.value == a {
          return Ok;
        }
        return SettledOtherwise;
      }
      if item.price.None? {
        return SnapshotMissing;
      }
      var share := item.price.value;
      if share <= 0 {
        return NotPositive;
      }
      if ItemKey(i, a) in keys {
        items := items[i := Mark(item, a)];
        return Ok;
      }
      var hold := LookupJobHold(item.job);
      if hold.None? {
        return HoldNotFound;
      }
      var remaining := ledger[hold.value].amount - Settled(ledger, hold.value);
      if remaining < 0 {
        return SettledExceedsHold;
      }
      if remaining < share {
        return HoldBelowShare;
      }
      if !hasWallet {
        return NoRows;
      }
      var applied := if a.Capture? then ApplyDebitFromHold(balance, share) else ApplyRelease(balance, share);
      match applied
      case Fault(f) => return Refused(f);
      case Done(next) =>
        var ok := Write(next, version, KindOf(a), share, ItemKey(i, a), hold);
        items := items[i := Mark(item, a)];
        return Ok;
    }

    /** settleLookupItem: up to five attempts while the transaction finds no row. */
    method SettleLookupItem(i: Id, a: Action) returns (out: Outcome)
      modifies this
      ensures old(Inv(State())) ==> Inv(State()) && State() == SettleItem(old(State()), i, a)
      ensures old(Inv(State())) ==> out == SettleItemOutcome(old(State()), i, a)
    {
      hide Inv, SettleItem;
      ghost var b := State();
      out := SettleLookupItemOnce(i, a);
      var attempt := 1;
      while attempt < WALLET_VERSION_RETRIES && out == NoRows
        invariant Inv(b) ==> Inv(State()) && State() == SettleItem(b, i, a) && out == SettleItemOutcome(b, i, a)
      {
        if Inv(b) {
          MissingItemUntouched(b, i, a);
        }
        out := SettleLookupItemOnce(i, a);
        attempt := attempt + 1;
      }
    }

    /** releaseLookupJobRemainderOnce. In books in order there is never a remainder to release. */
    method ReleaseRemainderOnce(j: Id) returns (out: Outcome)
      modifies this
      ensures old(IndexOk(State()) && HoldRowOk(State(), j)) ==> State() == PostRemainder(old(State()), j)
      ensures old(Inv(State())) ==> State() == old(State()) && out == Ok
    {
      hide Inv, Blocking, Settled;
      ghost var b := State();
      if IndexOk(b) {
        HoldIsIndexed(b, j);
      }
      if Inv(b) {
        NoRemainder(b, j);
        if Blocking(b.items, j) == {} {
          RemainderBranches(b, j);
        }
      }
      if |Blocking(items, j)| > 0 {
        return Ok;
      }
      var hold := LookupJobHold(j);
      if hold.None? || deleted {
        return Ok;
      }
      var remaining := ledger[hold.value].amount - Settled(ledger, hold.value);
      if remaining < 0 {
        return SettledExceedsHold;
      }
      if remaining <= 0 || RemainderJob(j) in keys {
        return Ok;
      }
      if !hasWallet {
        return NoRows;
      }
      match ApplyRelease(balance, remaining)
      case Fault(f) => return Refused(f);
      case Done(next) =>
        var ok := Write(next, version, RELEASE, remaining, RemainderJob(j), hold);
        return Ok;
    }

    /** ReleaseLookupJobRemainder: up to five attempts while the transaction finds no row. */
    method ReleaseRemainder(j: Id) returns (out: Outcome)
      modifies this
      ensures old(Inv(State())) ==> State() == old(State()) && out == Ok
    {
      hide Inv;
      ghost var b := State();
      out := ReleaseRemainderOnce(j);
      var attempt := 1;
      while attempt < WALLET_VERSION_RETRIES && out == NoRows
        invariant Inv(b) ==> State() == b && out == Ok
      {
        out := ReleaseRemainderOnce(j);
        attempt := attempt + 1;
      }
    }

    /**
     ReapOpenHolds over the listed messages: every one of them with an open hold
     that can be judged ends settled as judged, and no other message changes.
     */
    method ReapOpenHolds(rows: seq<Id>) returns (n: nat)
      modifies this
      ensures n <= |rows|
      ensures old(Inv(State())) ==>
        && Inv(State()) && messages == ReapedMessages(old(State()), Elements(rows))
        && n == JudgedIn(old(messages), rows)
    {
      hide Inv, ReapedMessages, SettleMessage, SettleActionFor, JudgedIn;
      ghost var b := State();
      n := 0;
      NoneJudged(b.messages);
      ReapedNone(b);
      assert Elements(rows[..0]) == {};
      for k := 0 to |rows|
        invariant n <= k
        invariant Inv(b) ==>
              Inv(State()) && Reaped(b, State(), Elements(rows[..k])) && n == JudgedIn(b.messages, rows[..k])
      {
        ghost var c := State();
        var m := rows[k];
        if m in messages {
          var action := SettleActionFor(messages[m]);
          if action.Some? {
            var out := Settle(m, action.value);
            if out == Ok {
              n := n + 1;
            }
          }
        }
        JudgedMore(b.messages, rows, k);
        if Inv(b) {
          JudgedStays(b, c, Elements(rows[..k]), m);
          ReapedMore(b, c, m, Elements(rows[..k]));
          assert Elements(rows[..k + 1]) == Elements(rows[..k]) + {m};
        }
      }
      assert rows[..|rows|] == rows;
    }

    /** ListUnsettledTerminalLookupItems. */
    method ListUnsettled(j: Id) returns (ids: seq<Id>)
      ensures Distinct(ids) && Elements(ids) == UnsettledOf(items, j)
    {
      ids := [];
      var rest := items.Keys;
      while rest != {}
        invariant rest <= items.Keys && Distinct(ids)
        invariant forall i :: i in ids <==> i in items && i !in rest && items[i].job == j && Unsettled(items[i])
        decreases |rest|
      {
        var i :| i in rest;
        rest := rest - {i};
        if items[i].job == j && Unsettled(items[i]) {
          ids := ids + [i];
        }
      }
    }

    /** The inner loop of ReapOpenLookupHolds, over the items listed for one job. */
    method ReapItems(ids: seq<Id>, ghost b: Books, ghost done: set<Id>) returns (n: nat)
      requires forall k | 0 <= k < |ids| :: ids[k] in items && Unsettled(items[ids[k]])
      requires Inv(b) ==> Inv(State()) && deleted == b.deleted && items == ReapedItems(b.items, b.deleted, done)
      modifies this
      ensures n <= |ids|
      ensures Inv(b) ==>
            && Inv(State()) && deleted == b.deleted && n == |ids|
            && items == ReapedItems(b.items, b.deleted, done + Elements(ids))
    {
      hide Inv, SettleItem, ItemSettleAction;
      n := 0;
      var listed := items;
      for k := 0 to |ids|
        invariant n <= k
        invariant Inv(b) ==>
              && Inv(State()) && deleted == b.deleted && n == k
              && items == ReapedItems(b.items, b.deleted, done + Elements(ids[..k]))
      {
        ghost var c := State();
        var i := ids[k];
        UnsettledIsJudged(listed[i]);
        if Inv(b) {
          assert listed[i] == b.items[i];
          ReapOne(b, c, done + Elements(ids[..k]), i);
        }
        assert done + Elements(ids[..k]) + {i} == done + Elements(ids[..k + 1]);
        var out := SettleLookupItem(i, ItemSettleAction(listed[i]).value);
        if out == Ok {
          n := n + 1;
        }
      }
      assert ids[..|ids|] == ids;
    }

    /**
     ReapOpenLookupHolds over the listed jobs: afterwards every terminal item of
     theirs is settled, as its own row said, and no other item has changed.
     */
    method ReapOpenLookupHolds(rows: seq<Id>, finished: set<Id>) returns (n: nat)
      modifies this
      ensures old(Inv(State())) ==>
                && Inv(State()) && deleted == old(deleted)
                && items == ReapedItems(old(items), deleted, ItemsOfJobs(old(items), Elements(rows)))
                && (!deleted ==> n == |UnsettledIn(old(items), Elements(rows))|)
    {
      hide Inv;
      ghost var b := State();
      n := 0;
      for k := 0 to |rows|
        invariant Inv(b) ==> && Inv(State()) && deleted == b.deleted
                             && items == ReapedItems(b.items, b.deleted, ItemsOfJobs(b.items, Elements(rows[..k])))
                             && (!b.deleted ==> n == |UnsettledIn(b.items, Elements(rows[..k]))|)
      {
        ghost var jobs := Elements(rows[..k]);
        var ids := ListUnsettled(rows[k]);
        ReapedJob(b.items, b.deleted, jobs, rows[k]);
        ListedAfter(b.items, jobs, rows[k]);
        DistinctCount(ids);
        assert jobs + {rows[k]} == Elements(rows[..k + 1]);
        assert forall x | 0 <= x < |ids| :: ids[x] in Elements(ids);
        var m := ReapItems(ids, b, ItemsOfJobs(b.items, jobs));
        n := n + m;
        if rows[k] in finished {
          var out := ReleaseRemainder(rows[k]);
        }
      }
      assert rows[..|rows|] == rows;
    }
  }
}
