/**
 The wallet ledger as a sequence of rows, oldest first: what one row does to
 the two balances, what a hold still has open, and the conservation laws that
 tie the stored balances to the rows (internal/billing/ledger.go and the
 queries of internal/db/sqlc).
 */
module Ledger {
  import opened Common

  /** A uuid, as the number it is. */
  type Id = nat

  /** Money in micro-units: the database domain is numeric(18, 6). */
  type Money = int

  datatype Action = Capture | Release

  datatype Kind = CREDIT | HOLD | DEBIT | RELEASE | ADJUSTMENT(debit: bool)

  /**
   The idempotency key of a row, one constructor per key builder. The texts
   that callers of top-up and adjustment choose are numbered like uuids.
   */
  datatype Key =
    | HoldSms(id: Id)
    | DebitSms(id: Id)
    | ReleaseSms(id: Id)
    | HoldJob(id: Id)
    | DebitItem(id: Id)
    | ReleaseItem(id: Id)
    | RemainderJob(id: Id)
    | TopUpKey(id: Id)
    | AdjustKey(id: Id)

  datatype Balance = Balance(avail: Money, held: Money)

  /** A row of wallet_transactions; `hold` is related_hold_id, as a position. */
  datatype Tx = Tx(kind: Kind, amount: Money, key: Key, hold: Option<nat>, after: Balance)

  // ------------------------------------------------------- balance arithmetic

  datatype Fault = InsufficientFunds | ExceedsHeld | NegativeForbidden

  datatype Applied = Done(balance: Balance) | Fault(fault: Fault)

  function ApplyHold(b: Balance, amt: Money): Applied {
    var next := b.avail - amt;
    if next < 0 then Fault(InsufficientFunds) else Done(Balance(next, b.held + amt))
  }

  function ApplyRelease(b: Balance, amt: Money): Applied {
    var next := b.held - amt;
    if next < 0 then Fault(ExceedsHeld) else Done(Balance(b.avail + amt, next))
  }

  function ApplyDebitFromHold(b: Balance, amt: Money): Applied {
    var next := b.held - amt;
    if next < 0 then Fault(ExceedsHeld) else Done(Balance(b.avail, next))
  }

  function ApplyAdjustment(b: Balance, amt: Money, debit: bool, allowNegative: bool): Applied {
    var next := if debit then b.avail - amt else b.avail + amt;
    if next < 0 && !allowNegative then Fault(NegativeForbidden) else Done(b.(avail := next))
  }

  /** What a row of this kind and amount does to the balances, unchecked. */
  function Effect(b: Balance, kind: Kind, amt: Money): Balance {
    match kind
    case CREDIT => b.(avail := b.avail + amt)
    case HOLD => Balance(b.avail - amt, b.held + amt)
    case DEBIT => b.(held := b.held - amt)
    case RELEASE => Balance(b.avail + amt, b.held - amt)
    case ADJUSTMENT(debit) => b.(avail := if debit then b.avail - amt else b.avail + amt)
  }

  // --------------------------------------------------------- ledger aggregates

  /** Replays a ledger from an empty wallet. */
  function Fold(l: seq<Tx>): Balance {
    if l == [] then Balance(0, 0)
    else
      var t := l[|l| - 1];
      Effect(Fold(l[..|l| - 1]), t.kind, t.amount)
  }

  predicate Closes(t: Tx, h: nat) {
    (t.kind.DEBIT? || t.kind.RELEASE?) && t.hold == Some(h)
  }

  /** SumSettledAgainstHold: what the DEBIT and RELEASE children of `h` add up to. */
  function Settled(l: seq<Tx>, h: nat): Money {
    if l == [] then 0
    else
      var t := l[|l| - 1];
      Settled(l[..|l| - 1], h) + if Closes(t, h) then t.amount else 0
  }

  /** The open part of the holds among the first `n` rows of `l`. */
  function Outstanding(l: seq<Tx>, n: nat): Money
    requires n <= |l|
  {
    if n == 0 then 0
    else Outstanding(l, n - 1) + if l[n - 1].kind.HOLD? then l[n - 1].amount - Settled(l, n - 1) else 0
  }

  /** Credits plus signed adjustments. */
  function MoneyIn(l: seq<Tx>): Money {
    if l == [] then 0
    else
      var t := l[|l| - 1];
      MoneyIn(l[..|l| - 1]) +
      match t.kind
      case CREDIT => t.amount
      case ADJUSTMENT(debit) => if debit then -t.amount else t.amount
      case _ => 0
  }

  function Debits(l: seq<Tx>): Money {
    if l == [] then 0
    else
      var t := l[|l| - 1];
      Debits(l[..|l| - 1]) + if t.kind.DEBIT? then t.amount else 0
  }

  /** Every DEBIT and RELEASE points back to an earlier HOLD; nothing else points. */
  ghost predicate Linked(l: seq<Tx>) {
    forall k | 0 <= k < |l| ::
      if l[k].kind.DEBIT? || l[k].kind.RELEASE?
      then l[k].hold.Some? && l[k].hold.value < k && l[l[k].hold.value].kind.HOLD?
      else l[k].hold.None?
  }

  /** Replaying any prefix gives the balance-after pair its last row recorded. */
  ghost predicate Recorded(l: seq<Tx>) {
    forall k | 0 <= k < |l| :: l[k].after == Fold(l[..k + 1])
  }

  // ------------------------------------------------------------ append lemmas

  lemma InitOfAppend<T>(l: seq<T>, t: T)
    ensures (l + [t])[..|l + [t]| - 1] == l
    ensures (l + [t])[|l + [t]| - 1] == t
  {
  }

  lemma FoldAppend(l: seq<Tx>, t: Tx)
    ensures Fold(l + [t]) == Effect(Fold(l), t.kind, t.amount)
  {
    InitOfAppend(l, t);
  }

  lemma RecordedAppend(l: seq<Tx>, t: Tx)
    requires Recorded(l) && t.after == Effect(Fold(l), t.kind, t.amount)
    ensures Recorded(l + [t])
  {
    var m := l + [t];
    forall k | 0 <= k < |m| ensures m[k].after == Fold(m[..k + 1]) {
      if k < |l| {
        assert m[..k + 1] == l[..k + 1];
      } else {
        assert m[..k + 1] == m;
        FoldAppend(l, t);
      }
    }
  }

  lemma SettledAppend(l: seq<Tx>, t: Tx, h: nat)
    ensures Settled(l + [t], h) == Settled(l, h) + if Closes(t, h) then t.amount else 0
  {
    InitOfAppend(l, t);
  }

  lemma {:induction false} OutstandingAppend(l: seq<Tx>, t: Tx, n: nat)
    requires n <= |l|
    requires t.kind.DEBIT? || t.kind.RELEASE? ==> t.hold.Some? && t.hold.value < |l| && l[t.hold.value].kind.HOLD?
    ensures Outstanding(l + [t], n) ==
            Outstanding(l, n) -
            if (t.kind.DEBIT? || t.kind.RELEASE?) && t.hold.value < n then t.amount else 0
  {
    if n > 0 {
      OutstandingAppend(l, t, n - 1);
      SettledAppend(l, t, n - 1);
      assert (l + [t])[n - 1] == l[n - 1];
    }
  }

  lemma {:induction false} NothingSettledYet(l: seq<Tx>, h: nat)
    requires Linked(l) && |l| <= h
    ensures Settled(l, h) == 0
  {
    if l != [] {
      var p := l[..|l| - 1];
      assert forall k | 0 <= k < |p| :: p[k] == l[k];
      NothingSettledYet(p, h);
    }
  }

  lemma LinkedPrefix(l: seq<Tx>)
    requires Linked(l) && l != []
    ensures Linked(l[..|l| - 1])
  {
    var p := l[..|l| - 1];
    assert forall k | 0 <= k < |p| :: p[k] == l[k];
  }

  // -------------------------------------------------------- conservation laws

  /** The replayed held balance is exactly what the holds still have open. */
  lemma {:induction false} HeldIsOutstanding(l: seq<Tx>)
    requires Linked(l)
    ensures Fold(l).held == Outstanding(l, |l|)
  {
    if l != [] {
      var p, t := l[..|l| - 1], l[|l| - 1];
      assert l == p + [t];
      LinkedPrefix(l);
      HeldIsOutstanding(p);
      FoldAppend(p, t);
      OutstandingAppend(p, t, |p|);
      if t.kind.HOLD? {
        NothingSettledYet(p, |p|);
        SettledAppend(p, t, |p|);
      }
    }
  }

  /** Money only enters by credits and adjustments and only leaves by debits. */
  lemma {:induction false} MoneyIsConserved(l: seq<Tx>)
    ensures Fold(l).avail + Fold(l).held == MoneyIn(l) - Debits(l)
  {
    if l != [] {
      MoneyIsConserved(l[..|l| - 1]);
    }
  }

  /** When no hold is overdrawn, the total covers each single hold. */
  lemma {:induction false} OutstandingCovers(l: seq<Tx>, n: nat, h: nat)
    requires h < n <= |l| && l[h].kind.HOLD?
    requires forall k | 0 <= k < |l| && l[k].kind.HOLD? :: Settled(l, k) <= l[k].amount
    ensures Outstanding(l, n) >= l[h].amount - Settled(l, h)
    ensures Outstanding(l, n) >= 0
  {
    if n - 1 == h {
      OutstandingNonNegative(l, h);
    } else {
      OutstandingCovers(l, n - 1, h);
    }
  }

  lemma {:induction false} OutstandingNonNegative(l: seq<Tx>, n: nat)
    requires n <= |l|
    requires forall k | 0 <= k < |l| && l[k].kind.HOLD? :: Settled(l, k) <= l[k].amount
    ensures Outstanding(l, n) >= 0
  {
    if n > 0 {
      OutstandingNonNegative(l, n - 1);
    }
  }
}
