/**
 The books of one client: wallet, ledger, priced messages, lookup jobs and
 items. Each database transaction is one function from books to books; the
 invariant below holds after every run of them.
 */
module Books {
  import opened Common
  import opened Ledger

  /** What billing reads of a row of sms_messages (and of its send job). */
  datatype Message = Message(
    hasClient: bool,
    price: Option<Money>,
    segments: Option<int>,
    plan: bool,              // tariff plan id, plan code and currency are all set
    action: Option<Action>,
    accepted: bool,          // accepted_at is set
    failed: bool,            // status is 'failed'
    jobDead: bool)           // the send job is 'dead'

  datatype Job = Job(count: nat, price: Money)

  datatype ItemStatus = Queued | Reserved | Pending | Completed | Failed

  datatype ResultStatus = Reachable | Unreachable | StillPending | ProviderError | Unknown

  /** The provider has decided: such a result is charged for. */
  predicate FinalResult(r: ResultStatus) {
    r.Reachable? || r.Unreachable? || r.ProviderError?
  }

  datatype Item = Item(
    job: Id,
    price: Option<Money>,
    status: ItemStatus,
    result: Option<ResultStatus>,
    polls: int,
    action: Option<Action>,
    cost: Option<Money>)

  /** `keys` is the unique index on the idempotency keys of the ledger. */
  datatype Books = Books(
    hasWallet: bool,
    deleted: bool,
    balance: Balance,
    version: nat,
    ledger: seq<Tx>,
    keys: map<Key, nat>,
    messages: map<Id, Message>,
    jobs: map<Id, Job>,
    items: map<Id, Item>)

  function Fresh(hasWallet: bool): Books {
    Books(hasWallet, false, Balance(0, 0), 0, [], map[], map[], map[], map[])
  }

  predicate Terminal(s: ItemStatus) {
    s.Completed? || s.Failed?
  }

  // ------------------------------------------------------------- transactions

  /** UpdateWalletBalances and InsertWalletTransaction, together. */
  function Post(b: Books, kind: Kind, amount: Money, key: Key, hold: Option<nat>): Books {
    var after := Effect(b.balance, kind, amount);
    b.(balance := after, version := b.version + 1,
       ledger := b.ledger + [Tx(kind, amount, key, hold, after)],
       keys := b.keys[key := |b.ledger|])
  }

  function KindOf(a: Action): Kind {
    if a.Capture? then DEBIT else RELEASE
  }

  function SmsKey(m: Id, a: Action): Key {
    if a.Capture? then DebitSms(m) else ReleaseSms(m)
  }

  function ItemKey(i: Id, a: Action): Key {
    if a.Capture? then DebitItem(i) else ReleaseItem(i)
  }

  function HoldAmount(msg: Message): Money
    requires msg.price.Some? && msg.segments.Some?
  {
    msg.price.value * msg.segments.value
  }

  predicate Reservable(b: Books, m: Id) {
    && m in b.messages && !b.deleted && b.hasWallet
    && var msg := b.messages[m];
    && msg.hasClient && msg.price.Some? && msg.segments.Some? && msg.plan
    && 0 < HoldAmount(msg) <= b.balance.avail
    && HoldSms(m) !in b.keys
  }

  function ReserveMessage(b: Books, m: Id): Books {
    if Reservable(b, m) then Post(b, HOLD, HoldAmount(b.messages[m]), HoldSms(m), None) else b
  }

  /** The open hold of a message, if a settlement may act on it. */
  predicate MessageOpen(b: Books, m: Id) {
    && m in b.messages && !b.deleted && b.messages[m].action.None?
    && HoldSms(m) in b.keys && b.keys[HoldSms(m)] < |b.ledger|
  }

  /** A settlement acts only on an open hold, and then closes all of it. */
  function SettleMessage(b: Books, m: Id, a: Action): Books {
    if MessageOpen(b, m) then
      var h := b.keys[HoldSms(m)];
      Post(b, KindOf(a), b.ledger[h].amount, SmsKey(m, a), Some(h))
        .(messages := b.messages[m := b.messages[m].(action := Some(a))])
    else b
  }

  /** `key` is None for an empty idempotency key, which is refused. */
  function TopUp(b: Books, amount: Money, key: Option<Id>): Books {
    if amount > 0 && key.Some? && b.hasWallet && TopUpKey(key.value) !in b.keys then
      Post(b, CREDIT, amount, TopUpKey(key.value), None)
    else b
  }

  function Adjust(b: Books, amount: Money, debit: bool, allowNegative: bool, key: Option<Id>): Books {
    if && amount > 0 && key.Some? && b.hasWallet && AdjustKey(key.value) !in b.keys
       && ApplyAdjustment(b.balance, amount, debit, allowNegative).Done?
    then Post(b, ADJUSTMENT(debit), amount, AdjustKey(key.value), None)
    else b
  }

  /** One queued item for each of the ids. */
  function AddItems(items: map<Id, Item>, j: Id, ids: set<Id>, price: Money): map<Id, Item> {
    items + map i | i in ids :: Item(j, Some(price), Queued, None, 0, None, None)
  }

  /** The job and its items inserted, before any hold. */
  function ListJob(b: Books, j: Id, ids: set<Id>, price: Money): Books {
    b.(jobs := b.jobs[j := Job(|ids|, price)], items := AddItems(b.items, j, ids, price))
  }

  predicate NewJob(b: Books, j: Id, ids: set<Id>) {
    j !in b.jobs && ids !! b.items.Keys && ids != {}
  }

  /** Inserts the job and its items and takes the hold, or does nothing at all. */
  function CreateJob(b: Books, j: Id, ids: set<Id>, price: Money): Books {
    if !NewJob(b, j, ids) then b
    else if b.deleted then ListJob(b, j, ids, price)
    else if b.hasWallet && 0 < price * |ids| <= b.balance.avail && HoldJob(j) !in b.keys then
      Post(ListJob(b, j, ids, price), HOLD, price * |ids|, HoldJob(j), None)
    else b
  }

  predicate ItemOpen(b: Books, i: Id) {
    && i in b.items && !b.deleted && b.items[i].action.None? && b.items[i].price.Some?
    && HoldJob(b.items[i].job) in b.keys
  }

  function Mark(item: Item, a: Action): Item {
    item.(action := Some(a), cost := if a.Capture? then item.price else None)
  }

  function SettleItem(b: Books, i: Id, a: Action): Books {
    if ItemOpen(b, i) then
      var item := b.items[i];
      Post(b, KindOf(a), item.price.value, ItemKey(i, a), Some(b.keys[HoldJob(item.job)]))
        .(items := b.items[i := Mark(item, a)])
    else b
  }

  /** The items of a job that hold its remainder back: still open, or terminal and not posted. */
  function Blocking(items: map<Id, Item>, j: Id): set<Id> {
    set i | i in items && items[i].job == j && (!Terminal(items[i].status) || items[i].action.None?)
  }

  /** The remainder release writes a row only past all of its checks. */
  predicate RemainderOpen(b: Books, j: Id) {
    && Blocking(b.items, j) == {}
    && HoldJob(j) in b.keys && b.keys[HoldJob(j)] < |b.ledger| && !b.deleted
    && var h := b.keys[HoldJob(j)];
    && b.ledger[h].amount - Settled(b.ledger, h) > 0
    && RemainderJob(j) !in b.keys && b.hasWallet
    && ApplyRelease(b.balance, b.ledger[h].amount - Settled(b.ledger, h)).Done?
  }

  /** Whatever a job's hold has left goes back to the wallet. */
  function PostRemainder(b: Books, j: Id): Books {
    if RemainderOpen(b, j) then
      var h := b.keys[HoldJob(j)];
      Post(b, RELEASE, b.ledger[h].amount - Settled(b.ledger, h), RemainderJob(j), Some(h))
    else b
  }

  // ---------------------------------------------------------------- invariant

  function ItemsOf(b: Books, j: Id): set<Id> {
    set i | i in b.items && b.items[i].job == j
  }

  function PostedOf(b: Books, j: Id): set<Id> {
    set i | i in b.items && b.items[i].job == j && b.items[i].action.Some?
  }

  ghost predicate WalletOk(b: Books) {
    && b.version == |b.ledger|
    && b.balance == Fold(b.ledger)
    && Recorded(b.ledger)
    && (b.ledger != [] ==> b.hasWallet)
  }

  /** The index is exact: one entry per row, one row per entry. */
  ghost predicate IndexOk(b: Books) {
    && (forall k | 0 <= k < |b.ledger| :: b.ledger[k].key in b.keys && b.keys[b.ledger[k].key] == k)
    && (forall x | x in b.keys :: b.keys[x] < |b.ledger| && b.ledger[b.keys[x]].key == x)
  }

  ghost predicate ClosesWith(l: seq<Tx>, t: Tx, hold: Key) {
    t.hold.Some? && t.hold.value < |l| && l[t.hold.value].key == hold
  }

  ghost predicate PaysFor(b: Books, l: seq<Tx>, t: Tx, i: Id) {
    i in b.items && ClosesWith(l, t, HoldJob(b.items[i].job)) && Some(t.amount) == b.items[i].price
  }

  /** What a row must look like, given its key and the rows before it. */
  ghost predicate RowShape(b: Books, l: seq<Tx>, t: Tx) {
    && t.amount > 0
    && match t.key
       case HoldSms(m) => t.kind.HOLD? && t.hold.None? && m in b.messages
       case HoldJob(j) => t.kind.HOLD? && t.hold.None? && j in b.jobs
       case DebitSms(m) => t.kind.DEBIT? && ClosesWith(l, t, HoldSms(m)) && t.amount == l[t.hold.value].amount
       case ReleaseSms(m) => t.kind.RELEASE? && ClosesWith(l, t, HoldSms(m)) && t.amount == l[t.hold.value].amount
       case DebitItem(i) => t.kind.DEBIT? && PaysFor(b, l, t, i)
       case ReleaseItem(i) => t.kind.RELEASE? && PaysFor(b, l, t, i)
       case RemainderJob(_) => false
       case TopUpKey(_) => t.kind.CREDIT? && t.hold.None?
       case AdjustKey(_) => t.kind.ADJUSTMENT? && t.hold.None?
  }

  ghost predicate RowsOk(b: Books) {
    forall k | 0 <= k < |b.ledger| :: RowShape(b, b.ledger[..k], b.ledger[k])
  }

  /** billing_action names the row that exists; a hold is open in full or closed in full. */
  ghost predicate MessageOk(b: Books, m: Id)
    requires m in b.messages
  {
    var msg := b.messages[m];
    && (msg.action == Some(Capture) <==> DebitSms(m) in b.keys)
    && (msg.action == Some(Release) <==> ReleaseSms(m) in b.keys)
    && if HoldSms(m) in b.keys then
         && msg.hasClient && msg.price.Some? && msg.segments.Some? && b.keys[HoldSms(m)] < |b.ledger|
         && var h := b.keys[HoldSms(m)];
         && b.ledger[h].amount == msg.price.value * msg.segments.value
         && Settled(b.ledger, h) == if msg.action.None? then 0 else b.ledger[h].amount
       else msg.action.None?
  }

  ghost predicate MessagesOk(b: Books) {
    forall m | m in b.messages :: MessageOk(b, m)
  }

  ghost predicate ItemOk(b: Books, i: Id)
    requires i in b.items
  {
    var item := b.items[i];
    && item.job in b.jobs
    && item.price == Some(b.jobs[item.job].price)
    && (item.action == Some(Capture) <==> DebitItem(i) in b.keys)
    && (item.action == Some(Release) <==> ReleaseItem(i) in b.keys)
    && item.cost == if item.action == Some(Capture) then item.price else None
  }

  ghost predicate ItemsOk(b: Books) {
    forall i | i in b.items :: ItemOk(b, i)
  }

  /** The hold of a job: its price times its items, less its price times the posted ones. */
  ghost predicate JobOk(b: Books, j: Id)
    requires j in b.jobs
  {
    var job := b.jobs[j];
    && |ItemsOf(b, j)| == job.count
    && if HoldJob(j) in b.keys then
         && job.price > 0 && b.keys[HoldJob(j)] < |b.ledger|
         && var h := b.keys[HoldJob(j)];
         && b.ledger[h].amount == job.price * job.count
         && Settled(b.ledger, h) == job.price * |PostedOf(b, j)|
       else b.deleted && PostedOf(b, j) == {}
  }

  ghost predicate JobsOk(b: Books) {
    forall j | j in b.jobs :: JobOk(b, j)
  }

  ghost predicate Inv(b: Books) {
    WalletOk(b) && IndexOk(b) && RowsOk(b) && MessagesOk(b) && ItemsOk(b) && JobsOk(b)
  }

  // ------------------------------------------------- consequences of the invariant

  lemma MessageFacts(b: Books, m: Id)
    requires MessagesOk(b) && m in b.messages
    ensures MessageOk(b, m)
  {
  }

  lemma ItemFacts(b: Books, i: Id)
    requires ItemsOk(b) && i in b.items
    ensures ItemOk(b, i)
  {
  }

  lemma JobFacts(b: Books, j: Id)
    requires JobsOk(b) && j in b.jobs
    ensures JobOk(b, j)
  {
  }

  /** The row behind an index entry. */
  lemma RowFacts(b: Books, key: Key)
    requires IndexOk(b) && RowsOk(b) && key in b.keys
    ensures b.keys[key] < |b.ledger| && b.ledger[b.keys[key]].key == key
    ensures RowShape(b, b.ledger[..b.keys[key]], b.ledger[b.keys[key]])
  {
  }

  lemma WalletFacts(b: Books)
    requires WalletOk(b)
    ensures b.version == |b.ledger| && b.balance == Fold(b.ledger) && (b.ledger != [] ==> b.hasWallet)
  {
  }

  lemma RowsLinked(b: Books)
    requires RowsOk(b)
    ensures Linked(b.ledger)
  {
    forall k | 0 <= k < |b.ledger|
      ensures if b.ledger[k].kind.DEBIT? || b.ledger[k].kind.RELEASE?
              then b.ledger[k].hold.Some? && b.ledger[k].hold.value < k && b.ledger[b.ledger[k].hold.value].kind.HOLD?
              else b.ledger[k].hold.None?
    {
      assert RowShape(b, b.ledger[..k], b.ledger[k]);
      if b.ledger[k].hold.Some? {
        var h := b.ledger[k].hold.value;
        assert RowShape(b, b.ledger[..h], b.ledger[h]);
      }
    }
  }

  lemma CardinalityMonotone<T>(a: set<T>, c: set<T>)
    requires a <= c
    ensures |a| <= |c| && |c - a| == |c| - |a|
  {
    assert c == a + (c - a);
  }

  /** What a job's hold has left is its unit price times its unposted items. */
  lemma RemainingOnJobHold(b: Books, j: Id)
    requires j in b.jobs && JobOk(b, j) && HoldJob(j) in b.keys
    ensures var h := b.keys[HoldJob(j)];
            b.ledger[h].amount - Settled(b.ledger, h) == b.jobs[j].price * |ItemsOf(b, j) - PostedOf(b, j)|
  {
    var price := b.jobs[j].price;
    CardinalityMonotone(PostedOf(b, j), ItemsOf(b, j));
    Distribute(price, |ItemsOf(b, j)|, |PostedOf(b, j)|);
  }

  lemma Distribute(p: int, x: int, y: int)
    ensures p * x - p * y == p * (x - y)
    ensures p > 0 && x >= y ==> p * (x - y) >= 0
    ensures p > 0 && x > y ==> p * (x - y) >= p
  {
    if p > 0 && x > y {
      assert p * (x - y) == p * (x - y - 1) + p;
    }
  }

  /** No hold is ever settled beyond its amount. */
  lemma NoHoldOverdrawn(b: Books, h: nat)
    requires IndexOk(b) && RowsOk(b) && MessagesOk(b) && JobsOk(b)
    requires h < |b.ledger| && b.ledger[h].kind.HOLD?
    ensures Settled(b.ledger, h) <= b.ledger[h].amount
  {
    hide RowsOk, MessagesOk, JobsOk, Settled;
    RowFacts(b, b.ledger[h].key);
    match b.ledger[h].key
    case HoldSms(m) => MessageFacts(b, m);
    case HoldJob(j) =>
      JobFacts(b, j);
      RemainingOnJobHold(b, j);
      Distribute(b.jobs[j].price, |ItemsOf(b, j) - PostedOf(b, j)|, 0);
    case _ =>
  }

  /** Stored balances, ledger rows and open holds always agree. */
  lemma Conservation(b: Books)
    requires Inv(b)
    ensures b.balance.held == Outstanding(b.ledger, |b.ledger|) >= 0
    ensures b.balance.avail + b.balance.held == MoneyIn(b.ledger) - Debits(b.ledger)
    ensures forall k | 0 <= k < |b.ledger| :: b.ledger[k].after == Fold(b.ledger[..k + 1])
    ensures b.balance == Fold(b.ledger)
  {
    RowsLinked(b);
    HeldIsOutstanding(b.ledger);
    MoneyIsConserved(b.ledger);
    forall h | 0 <= h < |b.ledger| && b.ledger[h].kind.HOLD?
      ensures Settled(b.ledger, h) <= b.ledger[h].amount
    {
      NoHoldOverdrawn(b, h);
    }
    OutstandingNonNegative(b.ledger, |b.ledger|);
  }

  /** The held balance covers whatever one hold still has open. */
  lemma HeldCovers(b: Books, h: nat)
    requires Inv(b) && h < |b.ledger| && b.ledger[h].kind.HOLD?
    ensures b.balance.held >= b.ledger[h].amount - Settled(b.ledger, h)
  {
    RowsLinked(b);
    HeldIsOutstanding(b.ledger);
    forall k | 0 <= k < |b.ledger| && b.ledger[k].kind.HOLD?
      ensures Settled(b.ledger, k) <= b.ledger[k].amount
    {
      NoHoldOverdrawn(b, k);
    }
    OutstandingCovers(b.ledger, |b.ledger|, h);
  }
}
