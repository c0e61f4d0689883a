/** The purge loops, and the proof that together they erase exactly what they should. */
module PurgeService {
  import opened Common
  import opened Purge

  // ---------------------------------------------------------------- what one statement keeps

  lemma ErasedAreDoomed(db0: Db, db: Db, cid: Client, t: Table, batch: set<RowId>, id: RowId)
    requires Progress(db0, db, cid) && !UnlinkOnly(t) && batch <= Targets(db, cid, t)
    requires id in db && id !in Erase(db, batch)
    ensures Doomed(db0, cid, id)
  {
    SameTargets(db0, db, cid, id);
    if id !in batch {
      SameTargets(db0, db, cid, db[id].parent.value);
    }
  }

  /** A batch never takes a row that something still hangs on. */
  lemma ErasedHoldNothing(db0: Db, db: Db, cid: Client, t: Table, batch: set<RowId>, id: RowId)
    requires Progress(db0, db, cid) && Swept(db, cid, Place(t)) && batch <= Targets(db, cid, t)
    requires id in Erase(db, batch) && Hanging(db0, cid, id) && !Kept(db0[id], cid) && db[id].parent.Some?
    ensures db0[id].parent.value in Erase(db, batch)
  {
    hide Place, Progress;
    Upheld(db0, db, cid, id);
    var p := db0[id].parent.value;
    SameTargets(db0, db, cid, id);
    SameTargets(db0, db, cid, p);
    ChildrenFirst(db[id].table, db[p].table);
  }

  lemma Upheld(db0: Db, db: Db, cid: Client, id: RowId)
    requires Progress(db0, db, cid) && id in db
    ensures id in db0
    ensures Hanging(db0, cid, id) && !Kept(db0[id], cid) && db[id].parent.Some? ==>
      db[id] == db0[id] && db0[id].parent.value in db && db0[id].parent.value in db0
  {
  }

  lemma EraseKeepsProgress(db0: Db, db: Db, cid: Client, t: Table, batch: set<RowId>)
    requires Progress(db0, db, cid) && Swept(db, cid, Place(t)) && !UnlinkOnly(t) && !t.SendAttempts?
    requires batch <= Targets(db, cid, t)
    ensures Progress(db0, Erase(db, batch), cid)
  {
    hide Place, Target, Hanging, Swept;
    var next := Erase(db, batch);
    forall id | id in db && id !in next ensures Doomed(db0, cid, id) {
      ErasedAreDoomed(db0, db, cid, t, batch, id);
    }
    forall id | id in next && Hanging(db0, cid, id) && !Kept(db0[id], cid) && next[id].parent.Some?
      ensures db0[id].parent.value in next
    {
      ErasedHoldNothing(db0, db, cid, t, batch, id);
    }
    forall id | id in next && DoomedAttempt(db0, cid, id) ensures db0[id].parent.value in next {
      SameTargets(db0, db, cid, id);
      SameTargets(db0, db, cid, db0[id].parent.value);
    }
  }

  lemma EraseSwept(db: Db, cid: Client, t: Table, batch: set<RowId>, n: nat)
    requires Swept(db, cid, n)
    ensures Swept(Erase(db, batch), cid, n)
    ensures n == Place(t) < 23 && batch == Targets(db, cid, t) ==> Swept(Erase(db, batch), cid, n + 1)
  {
    hide Place;
    var next := Erase(db, batch);
    forall id | id in next && Place(next[id].table) <= n && Target(next, cid, id)
      ensures Place(next[id].table) == n && (n == Place(t) < 23 ==> id in Targets(db, cid, t))
    {
      assert Target(db, cid, id);
      if Place(next[id].table) == n == Place(t) < 23 {
        SamePlace(next[id].table, t);
      }
    }
  }

  lemma SamePlace(t: Table, u: Table)
    requires Place(t) == Place(u) < 23
    ensures t == u
  {
    hide Place;
    if !t.SendAttempts? && !u.SendAttempts? {
      PlaceStatement(t);
      PlaceStatement(u);
    } else {
      AttemptsLast();
    }
  }

  lemma AttemptsLast()
    ensures Place(SendAttempts) == 23
  {
  }

  lemma CutKeepsProgress(db0: Db, db: Db, cid: Client, t: Table)
    requires Progress(db0, db, cid) && UnlinkOnly(t)
    ensures Progress(db0, CutLinks(db, Targets(db, cid, t)), cid)
  {
    hide Place;
    forall id | id in Targets(db, cid, t) ensures LinkDoomed(db0, cid, id) {
      SameTargets(db0, db, cid, id);
    }
  }

  lemma CutSwept(db: Db, cid: Client, t: Table, n: nat)
    requires Swept(db, cid, n) && UnlinkOnly(t) && n == Place(t)
    ensures Swept(CutLinks(db, Targets(db, cid, t)), cid, n + 1) && Swept(CutLinks(db, Targets(db, cid, t)), cid, n)
  {
    hide Place;
    var batch := Targets(db, cid, t);
    var next := CutLinks(db, batch);
    AttemptsLast();
    PlaceStatement(t);
    forall id | id in next && Place(next[id].table) < n + 1 ensures !Target(next, cid, id) {
      if Target(next, cid, id) {
        assert id in batch || next[id] == db[id];
        if id !in batch {
          assert Target(db, cid, id);
          SamePlace(db[id].table, t);
          assert false;
        }
      }
    }
  }

  // ---------------------------------------------------------------- the measure: rows and links

  function Links(db: Db): set<RowId> {
    set id | id in db && UnlinkOnly(db[id].table) && db[id].parent.Some?
  }

  function Weight(db: Db): nat {
    |db.Keys| + |Links(db)|
  }

  lemma SubsetSize(a: set<RowId>, b: set<RowId>)
    requires a <= b
    ensures |a| <= |b|
  {
    assert b == a + (b - a);
  }

  lemma EraseWeight(db: Db, batch: set<RowId>)
    requires batch <= db.Keys
    ensures Weight(Erase(db, batch)) + |batch| <= Weight(db)
  {
    var next := Erase(db, batch);
    SubsetSize(next.Keys, db.Keys - batch);
    SubsetSize(Links(next), Links(db));
  }

  lemma CutWeight(db: Db, batch: set<RowId>)
    requires batch <= Links(db)
    ensures Weight(CutLinks(db, batch)) + |batch| <= Weight(db)
  {
    var next := CutLinks(db, batch);
    assert next.Keys == db.Keys;
    SubsetSize(Links(next), Links(db) - batch);
  }

  // ---------------------------------------------------------------- the end

  /** When no statement finds anything any more, the erasure is complete, and was never too eager. */
  lemma SweptIsPurged(db0: Db, db: Db, cid: Client)
    requires Progress(db0, db, cid) && Swept(db, cid, 23)
    ensures db == Purged(db0, cid) && !Leftover(db, cid)
  {
    hide Place;
    forall id | id in db ensures !Doomed(db0, cid, id) && db[id] == Purged(db0, cid)[id] && !LeftoverRow(db, cid, id) {
      NothingLeft(db0, db, cid, id);
    }
    forall id | id in db0 && id !in db ensures Doomed(db0, cid, id) {
    }
    assert db.Keys == Purged(db0, cid).Keys;
  }

  lemma SweptRow(db: Db, cid: Client, id: RowId)
    requires Swept(db, cid, 23) && id in db && !db[id].table.SendAttempts?
    ensures !Target(db, cid, id)
  {
    PlaceStatement(db[id].table);
  }

  lemma AttemptsNoTarget(db: Db, cid: Client, id: RowId)
    requires id in db && db[id].table.SendAttempts?
    ensures !Target(db, cid, id)
  {
  }

  lemma NothingLeft(db0: Db, db: Db, cid: Client, id: RowId)
    requires Progress(db0, db, cid) && Swept(db, cid, 23) && id in db
    ensures !Doomed(db0, cid, id)
    ensures db[id] == if LinkDoomed(db0, cid, id) then db0[id].(parent := None) else db0[id]
    ensures !LeftoverRow(db, cid, id)
  {
    hide Place, Swept;
    SameTargets(db0, db, cid, id);
    LeftoverIsTarget(db, cid, id);
    if db[id].table.SendAttempts? {
      AttemptsNoTarget(db, cid, id);
      AttemptsNoTarget(db0, cid, id);
      if DoomedAttempt(db0, cid, id) {
        var p := db0[id].parent.value;
        SameTargets(db0, db, cid, p);
        SweptRow(db, cid, p);
      }
    } else {
      SweptRow(db, cid, id);
    }
  }

  lemma TargetsAreLinks(db: Db, cid: Client, t: Table)
    requires UnlinkOnly(t)
    ensures Targets(db, cid, t) <= Links(db)
  {
  }

  lemma StatementKind(k: nat)
    requires k < |STATEMENTS|
    ensures STATEMENTS[k].limit.Some? ==> STATEMENTS[k].limit.value > 0
    ensures !STATEMENTS[k].table.SendAttempts?
  {
  }

  // ---------------------------------------------------------------- the loops

  /** Some rows of a set, as many as the limit allows. */
  method Pick(s: set<RowId>, limit: Option<nat>) returns (batch: set<RowId>)
    ensures batch <= s
    ensures |batch| == if limit.Some? then Min(limit.value, |s|) else |s|
    ensures limit.None? ==> batch == s
  {
    if limit.None? {
      return s;
    }
    batch := {};
    var rest := s;
    while |batch| < limit.value && rest != {}
      invariant batch + rest == s && batch !! rest
      invariant |batch| <= limit.value && |batch| + |rest| == |s|
      decreases |rest|
    {
      var id :| id in rest;
      rest := rest - {id};
      batch := batch + {id};
    }
  }

  class Purger {
    var rows: Db
    var marked: bool

    constructor (rows: Db)
      ensures this.rows == rows && !marked
    {
      this.rows := rows;
      marked := false;
    }

    /** Runs statement `k`; earlier statements have nothing left to find. */
    method Execute(k: nat, cid: Client, ghost db0: Db) returns (n: nat)
      requires k < |STATEMENTS| && Progress(db0, rows, cid) && Swept(rows, cid, k)
      modifies this`rows
      ensures Progress(db0, rows, cid) && Swept(rows, cid, k)
      ensures Weight(rows) + n <= Weight(old(rows))
      ensures n == 0 ==> rows == old(rows)
      ensures n == 0 || STATEMENTS[k].limit.None? ==> Swept(rows, cid, k + 1)
    {
      hide Place, Swept, Progress, Weight, UnlinkOnly, Target;
      var stmt := STATEMENTS[k];
      StatementPlace(k);
      var found := Targets(rows, cid, stmt.table);
      if stmt.unlink {
        CutKeepsProgress(db0, rows, cid, stmt.table);
        CutSwept(rows, cid, stmt.table, k);
        TargetsAreLinks(rows, cid, stmt.table);
        CutWeight(rows, found);
        ghost var before := rows;
        n := |found|;
        rows := CutLinks(rows, found);
        if n == 0 {
          assert found == {};
          assert rows == before;
        }
      } else {
        var batch := Pick(found, stmt.limit);
        StatementKind(k);
        EraseKeepsProgress(db0, rows, cid, stmt.table, batch);
        EraseSwept(rows, cid, stmt.table, batch, k);
        EraseWeight(rows, batch);
        ghost var before := rows;
        n := |batch|;
        rows := Erase(rows, batch);
        if n == 0 {
          assert batch == {} && found == {};
          assert rows == before;
        }
      }
    }

    /** One round: the first step that finds anything ends it. */
    method Round(cid: Client, ghost db0: Db) returns (n: nat)
      requires Progress(db0, rows, cid)
      modifies this`rows
      ensures Progress(db0, rows, cid)
      ensures Weight(rows) + n <= Weight(old(rows))
      ensures n == 0 ==> rows == old(rows) && Swept(rows, cid, 23)
    {
      n := 0;
      var k := 0;
      while k < |STATEMENTS|
        invariant k <= |STATEMENTS| && Progress(db0, rows, cid) && Swept(rows, cid, k)
        invariant Weight(rows) + n <= Weight(old(rows))
        invariant n == 0 ==> rows == old(rows)
        invariant k == |STATEMENTS| ==> n == 0
      {
        StatementPlace(k);
        var m := Execute(k, cid, db0);
        n := n + m;
        if STATEMENTS[k].last && n > 0 {
          return;
        }
        k := k + 1;
      }
    }

    /** Up to `max` rounds under one lock; a round that finds nothing checks and sets the marker. */
    method Batches(cid: Client, max: nat, ghost db0: Db) returns (total: nat)
      requires Progress(db0, rows, cid)
      modifies this
      ensures Progress(db0, rows, cid)
      ensures Weight(rows) + total <= Weight(old(rows))
      ensures total == 0 && max > 0 ==> rows == Purged(db0, cid) && marked
    {
      total := 0;
      var i := 0;
      while i < max
        invariant i <= max && Progress(db0, rows, cid)
        invariant Weight(rows) + total <= Weight(old(rows))
        invariant i > 0 ==> total > 0
      {
        var n := Round(cid, db0);
        total := total + n;
        if n == 0 {
          SweptIsPurged(db0, rows, cid);
          var leftover := Leftover(rows, cid);
          if !leftover {
            marked := true;
          }
          return;
        }
        i := i + 1;
      }
    }

    /**
     * With no other writer the loop ends; then exactly the client's rows are gone, exactly
     * the links to them are cut, and the client is marked as purged.
     */
    method PurgeClient(cid: Client)
      modifies this
      ensures rows == Purged(old(rows), cid)
      ensures marked && !Leftover(rows, cid)
    {
      ghost var db0 := rows;
      ProgressStart(rows, cid);
      var n := 1;
      while n > 0
        invariant Progress(db0, rows, cid) && n >= 0
        invariant n == 0 ==> rows == Purged(db0, cid) && marked
        decreases Weight(rows) + (if n > 0 then 1 else 0)
      {
        n := Batches(cid, 8, db0);
      }
      PurgedHasNoLeftover(db0, cid);
    }
  }

  lemma PurgedHasNoLeftover(db: Db, cid: Client)
    ensures !Leftover(Purged(db, cid), cid)
  {
    hide Place;
    var after := Purged(db, cid);
    forall id | id in after ensures !LeftoverRow(after, cid, id) {
      LeftoverIsTarget(after, cid, id);
    }
  }

  /** Nothing that hangs on a row of the client outlives it, but the entry of the deletion itself. */
  lemma NoOrphans(db: Db, cid: Client, id: RowId)
    requires id in db && id in Purged(db, cid) && Hanging(db, cid, id)
    ensures Purged(db, cid)[id].parent.None? || Kept(db[id], cid)
  {
  }

  /**
   * After a purge nothing that is left points at a row that was deleted, parent by parent: but
   * the audit entry of the deletion itself, which is kept whoever its actor was.
   */
  lemma NoDanglingLinks(db: Db, cid: Client, id: RowId, p: RowId)
    requires id in Purged(db, cid) && Purged(db, cid)[id].parent == Some(p) && p in db && p !in Purged(db, cid)
    ensures var child, parent := db[id].table, db[p].table;
      && !(child == CampaignRecipients && parent == SmsMessages)
      && !(child == CallbackEvents && parent == SmsMessages)
      && !(child == SendJobs && parent == SmsMessages)
      && !(child == SendAttempts && parent == SendJobs)
      && !(child == DirectionJobs && parent == NumberAssignments)
      && !(child == LookupCallbacks && parent == LookupItems)
      && !(child == LookupRequests && parent == LookupItems)
      && !(child == Sessions && parent == ClientUsers)
      && !(child == OpsEvents && parent == ClientUsers)
      && !(child == IdempotencyKeys && (parent == ClientUsers || parent == ApiCredentials))
      && (child == AuditLog && parent == ClientUsers ==> db[id].deleteAction && db[id].client == Some(cid))
  {
  }

  /** Every row that carries the client is gone, in every table that has the column, but that entry. */
  lemma ClientRowsGone(db: Db, cid: Client, id: RowId)
    requires id in db && db[id].client == Some(cid)
    requires db[id].table in {
      WebhookDeliveries, WebhookEndpoints, LookupCallbacks, LookupRequests, CsvPreviews, WalletTransactions,
      LookupItems, LookupJobs, SendJobs, SmsMessages, Campaigns, ClientTariffs, Wallets, NumberAssignments, AuditLog,
      OpsEvents, ApiCredentials, ClientUsers}
    ensures id in Purged(db, cid) <==> db[id].table == AuditLog && db[id].deleteAction
  {
  }

  /** Recipients and direction jobs are never deleted; they lose their link exactly to a row of the client. */
  lemma LinksCut(db: Db, cid: Client, id: RowId)
    requires id in db && (db[id].table == CampaignRecipients || db[id].table == DirectionJobs)
    ensures id in Purged(db, cid)
    ensures var r := db[id];
      var target := if r.table == CampaignRecipients then SmsMessages else NumberAssignments;
      Purged(db, cid)[id] ==
        if && r.parent.Some? && r.parent.value in db
           && db[r.parent.value].table == target && db[r.parent.value].client == Some(cid)
        then r.(parent := None) else r
  {
  }

  /** Rows of others stay as they are: they neither carry the client nor point at a row that does. */
  lemma OthersUntouched(db: Db, cid: Client, id: RowId)
    requires id in db && db[id].client != Some(cid) && db[id].table != SendAttempts
    requires db[id].parent.None? || db[id].parent.value !in db || db[db[id].parent.value].client != Some(cid)
    ensures id in Purged(db, cid) && Purged(db, cid)[id] == db[id]
  {
  }

  /** A send attempt goes exactly with its send job. */
  lemma AttemptsFollow(db: Db, cid: Client, id: RowId)
    requires id in db && db[id].table == SendAttempts
    ensures id !in Purged(db, cid) <==>
      && db[id].parent.Some? && db[id].parent.value in db
      && db[db[id].parent.value].table == SendJobs && db[id].parent.value !in Purged(db, cid)
    ensures id in Purged(db, cid) ==> Purged(db, cid)[id] == db[id]
  {
  }
}
