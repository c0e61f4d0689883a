/**
 * The erasure of a deleted client's rows, table by table in bounded batches.
 *
 * Every row has the columns the erasure reads: its table, its client, the row it hangs on
 * (a lookup item, a message, a user, an assignment, a send job), and for the audit log
 * whether it records the deletion itself.
 */
module Purge {
  import opened Common

  type RowId = nat
  type Client = nat

  datatype Table =
    | WebhookDeliveries | WebhookEndpoints | LookupCallbacks | LookupRequests | CsvPreviews
    | WalletTransactions | LookupItems | LookupJobs | SendJobs | CallbackEvents
    | CampaignRecipients | SmsMessages | Campaigns | ClientTariffs | Wallets
    | DirectionJobs | NumberAssignments | AuditLog | OpsEvents | IdempotencyKeys
    | Sessions | ApiCredentials | ClientUsers | SendAttempts

  datatype Row = Row(table: Table, client: Option<Client>, parent: Option<RowId>, deleteAction: bool)

  type Db = map<RowId, Row>

  /** One statement; a statement marked `last` ends its step. */
  datatype Stmt = Stmt(table: Table, unlink: bool, limit: Option<nat>, last: bool)

  const STATEMENTS: seq<Stmt> := [
    Stmt(WebhookDeliveries, false, Some(500), true),
    Stmt(WebhookEndpoints, false, Some(100), true),
    Stmt(LookupCallbacks, false, Some(500), true),
    Stmt(LookupRequests, false, Some(500), true),
    Stmt(CsvPreviews, false, Some(200), true),
    Stmt(WalletTransactions, false, Some(500), true),
    Stmt(LookupItems, false, Some(500), true),
    Stmt(LookupJobs, false, Some(100), true),
    Stmt(SendJobs, false, Some(200), true),
    Stmt(CallbackEvents, false, Some(500), true),
    Stmt(CampaignRecipients, true, None, false),
    Stmt(SmsMessages, false, Some(200), true),
    Stmt(Campaigns, false, Some(100), true),
    Stmt(ClientTariffs, false, None, false),
    Stmt(Wallets, false, None, true),
    Stmt(DirectionJobs, true, None, false),
    Stmt(NumberAssignments, false, None, true),
    Stmt(AuditLog, false, Some(1000), true),
    Stmt(OpsEvents, false, Some(1000), true),
    Stmt(IdempotencyKeys, false, None, true),
    Stmt(Sessions, false, None, true),
    Stmt(ApiCredentials, false, None, true),
    Stmt(ClientUsers, false, None, true)]

  /** The position of a table's statement; send attempts go with their send job. */
  function Place(t: Table): nat {
    match t
    case WebhookDeliveries => 0 case WebhookEndpoints => 1 case LookupCallbacks => 2 case LookupRequests => 3
    case CsvPreviews => 4 case WalletTransactions => 5 case LookupItems => 6 case LookupJobs => 7
    case SendJobs => 8 case CallbackEvents => 9 case CampaignRecipients => 10 case SmsMessages => 11
    case Campaigns => 12 case ClientTariffs => 13 case Wallets => 14 case DirectionJobs => 15
    case NumberAssignments => 16 case AuditLog => 17 case OpsEvents => 18 case IdempotencyKeys => 19
    case Sessions => 20 case ApiCredentials => 21 case ClientUsers => 22 case SendAttempts => 23
  }

  /** The tables a row can hang on, as far as the erasure follows the link. */
  predicate HangsOn(t: Table, parent: Table) {
    match t
    case LookupCallbacks => parent.LookupItems?
    case LookupRequests => parent.LookupItems?
    case SendJobs => parent.SmsMessages?
    case CallbackEvents => parent.SmsMessages?
    case CampaignRecipients => parent.SmsMessages?
    case DirectionJobs => parent.NumberAssignments?
    case AuditLog => parent.ClientUsers?
    case OpsEvents => parent.ClientUsers?
    case Sessions => parent.ClientUsers?
    case IdempotencyKeys => parent.ClientUsers? || parent.ApiCredentials?
    case _ => false
  }

  /** Tables whose rows are found by their own client column. */
  predicate ByClient(t: Table) {
    !t.CallbackEvents? && !t.CampaignRecipients? && !t.DirectionJobs? && !t.IdempotencyKeys? && !t.Sessions?
      && !t.SendAttempts?
  }

  predicate UnlinkOnly(t: Table) {
    t.CampaignRecipients? || t.DirectionJobs?
  }

  /** The row hangs on one of the client's rows. */
  predicate Hanging(db: Db, cid: Client, id: RowId)
    requires id in db
  {
    var r := db[id];
    r.parent.Some? && r.parent.value in db && HangsOn(r.table, db[r.parent.value].table)
      && db[r.parent.value].client == Some(cid)
  }

  /** The audit entry of the deletion itself is kept. */
  predicate Kept(r: Row, cid: Client) {
    r.table.AuditLog? && r.deleteAction && r.client == Some(cid)
  }

  /** The row a statement deletes, or unlinks. */
  predicate Target(db: Db, cid: Client, id: RowId)
    requires id in db
  {
    ((ByClient(db[id].table) && db[id].client == Some(cid)) || Hanging(db, cid, id)) && !Kept(db[id], cid)
  }

  /** An attempt of a send job that is deleted. */
  predicate DoomedAttempt(db: Db, cid: Client, id: RowId)
    requires id in db
  {
    var r := db[id];
    r.table.SendAttempts? && r.parent.Some? && r.parent.value in db && db[r.parent.value].table.SendJobs?
      && Target(db, cid, r.parent.value)
  }

  predicate Doomed(db: Db, cid: Client, id: RowId)
    requires id in db
  {
    (!UnlinkOnly(db[id].table) && Target(db, cid, id)) || DoomedAttempt(db, cid, id)
  }

  predicate LinkDoomed(db: Db, cid: Client, id: RowId)
    requires id in db
  {
    UnlinkOnly(db[id].table) && Hanging(db, cid, id)
  }

  /** What erasure means, said at once: the doomed rows gone, the doomed links cut, the rest as it was. */
  function Purged(db: Db, cid: Client): Db {
    map id | id in db && !Doomed(db, cid, id) :: if LinkDoomed(db, cid, id) then db[id].(parent := None) else db[id]
  }

  /** The check made after a round that found nothing, table by table as the query lists them. */
  predicate LeftoverRow(db: Db, cid: Client, id: RowId)
    requires id in db
  {
    var r := db[id];
    var mine := r.client == Some(cid);
    var p := if r.parent.Some? && r.parent.value in db && db[r.parent.value].client == Some(cid)
      then Some(db[r.parent.value].table) else None;
    match r.table
    case LookupCallbacks => mine || p == Some(LookupItems)
    case LookupRequests => mine || p == Some(LookupItems)
    case SendJobs => mine || p == Some(SmsMessages)
    case CallbackEvents => p == Some(SmsMessages)
    case AuditLog => (mine || p == Some(ClientUsers)) && !(r.deleteAction && mine)
    case OpsEvents => mine || p == Some(ClientUsers)
    case Sessions => p == Some(ClientUsers)
    case IdempotencyKeys => p == Some(ClientUsers) || p == Some(ApiCredentials)
    case CampaignRecipients => false
    case DirectionJobs => false
    case SendAttempts => false
    case _ => mine
  }

  predicate Leftover(db: Db, cid: Client) {
    exists id :: id in db && LeftoverRow(db, cid, id)
  }

  /** The check asks for exactly the rows the statements delete. */
  lemma LeftoverIsTarget(db: Db, cid: Client, id: RowId)
    requires id in db
    ensures LeftoverRow(db, cid, id) <==> !UnlinkOnly(db[id].table) && Target(db, cid, id)
  {
  }

  // ---------------------------------------------------------------- order of the statements

  lemma StatementPlace(n: nat)
    requires n < |STATEMENTS|
    ensures Place(STATEMENTS[n].table) == n
    ensures STATEMENTS[n].unlink == UnlinkOnly(STATEMENTS[n].table)
    ensures !STATEMENTS[n].last ==> STATEMENTS[n].limit.None? && n + 1 < |STATEMENTS|
  {
  }

  lemma PlaceStatement(t: Table)
    requires !t.SendAttempts?
    ensures Place(t) < |STATEMENTS| && STATEMENTS[Place(t)].table == t
  {
  }

  /** Whatever hangs on a table is dealt with before that table. */
  lemma ChildrenFirst(child: Table, parent: Table)
    requires HangsOn(child, parent)
    ensures Place(child) < Place(parent)
  {
  }

  // ---------------------------------------------------------------- one statement

  /** Delete a batch; the attempts of deleted send jobs go with them. */
  function Erase(db: Db, batch: set<RowId>): Db {
    map id | id in db && id !in batch
          && !(db[id].table.SendAttempts? && db[id].parent.Some? && db[id].parent.value in batch
               && db[id].parent.value in db && db[db[id].parent.value].table.SendJobs?) :: db[id]
  }

  function CutLinks(db: Db, batch: set<RowId>): Db {
    map id | id in db :: if id in batch then db[id].(parent := None) else db[id]
  }

  function Targets(db: Db, cid: Client, t: Table): set<RowId> {
    set id | id in db && db[id].table == t && Target(db, cid, id)
  }

  /** No statement before position `n` would find anything. */
  predicate Swept(db: Db, cid: Client, n: nat) {
    forall id :: id in db && Place(db[id].table) < n ==> !Target(db, cid, id)
  }

  /** The state of an erasure under way, against the database it started from. */
  ghost predicate Progress(db0: Db, db: Db, cid: Client) {
    && db.Keys <= db0.Keys
    && (forall id :: id in db0 && id !in db ==> Doomed(db0, cid, id))
    && (forall id :: id in db ==> db[id] == db0[id] || (LinkDoomed(db0, cid, id) && db[id] == db0[id].(parent := None)))
    && (forall id ::
          id in db && Hanging(db0, cid, id) && !Kept(db0[id], cid) && db[id].parent.Some? ==>
            db0[id].parent.value in db)
    && (forall id :: id in db && DoomedAttempt(db0, cid, id) ==> db0[id].parent.value in db)
  }

  lemma ProgressStart(db: Db, cid: Client)
    ensures Progress(db, db, cid)
  {
  }

  /** Along the way the same rows are found as at the start. */
  lemma SameTargets(db0: Db, db: Db, cid: Client, id: RowId)
    requires Progress(db0, db, cid) && id in db
    ensures Target(db, cid, id) ==> Target(db0, cid, id)
    ensures Target(db0, cid, id) && db[id] == db0[id] ==> Target(db, cid, id)
    ensures db[id].table == db0[id].table && db[id].client == db0[id].client
  {
    if db[id].parent.Some? && db[id].parent.value in db {
      var p := db[id].parent.value;
      assert db[p].table == db0[p].table && db[p].client == db0[p].client;
    }
  }
}
