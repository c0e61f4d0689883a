/** The status of SMS messages under racing accept, fail, statistic and delivery-report updates. */
module Messages {
  import opened Common

  type Id = nat
  type Time = int

  datatype Status = Queued | Accepted | Sent | Delivered | Failed

  datatype Msg = Msg(
    inbound: bool,
    status: Status,
    pid: Option<string>,
    acceptedAt: Option<Time>,
    sentAt: Option<Time>,
    deliveredAt: Option<Time>,
    failedAt: Option<Time>)

  type Table = map<Id, Msg>

  /** What one guarded UPDATE reports. */
  datatype Report = Updated | NoRows | UniqueViolation

  datatype Try = Try(table: Table, report: Report)

  predicate Open(status: Status) {
    status == Queued || status == Accepted || status == Sent
  }

  function Or<T>(a: Option<T>, b: Option<T>): Option<T> {
    if a.Some? then a else b
  }

  // ---------------------------------------------------------------- the statements

  /** The unique index on provider ids, seen from a row that wants one. */
  predicate Taken(t: Table, id: Id, pid: string) {
    exists other :: other in t && other != id && t[other].pid == Some(pid)
  }

  /** Writes the row unless the guard missed it or the index refuses it. */
  function Write(t: Table, id: Id, row: Option<Msg>): Try {
    if row.None? then Try(t, NoRows)
    else if row.value.pid.Some? && Taken(t, id, row.value.pid.value) then Try(t, UniqueViolation)
    else Try(t[id := row.value], Updated)
  }

  function AcceptedRow(m: Msg, pid: Option<string>, now: Time): Option<Msg> {
    if m.status == Queued || m.status == Accepted then
      Some(m.(status := Accepted, pid := Or(pid, m.pid), acceptedAt := Or(m.acceptedAt, Some(now))))
    else None
  }

  function FailedRow(m: Msg, now: Time): Option<Msg> {
    if Open(m.status) then Some(m.(status := Failed, failedAt := Or(m.failedAt, Some(now)))) else None
  }

  function StatisticRow(m: Msg, pid: Option<string>, delivered: bool, sent: bool, now: Time): Option<Msg> {
    if Open(m.status) then
      Some(m.(status := if delivered then Delivered else if sent then Sent else m.status,
              pid := Or(m.pid, pid),
              acceptedAt := Or(m.acceptedAt, Some(now)),
              sentAt := if sent || delivered then Or(m.sentAt, Some(now)) else m.sentAt,
              deliveredAt := if delivered then Or(m.deliveredAt, Some(now)) else m.deliveredAt))
    else None
  }

  function UpdateAccepted(t: Table, id: Id, pid: Option<string>, now: Time): Try {
    Write(t, id, if id in t then AcceptedRow(t[id], pid, now) else None)
  }

  function UpdateFailed(t: Table, id: Id, now: Time): Try {
    Write(t, id, if id in t then FailedRow(t[id], now) else None)
  }

  function UpdateFromStatistic(t: Table, id: Id, pid: Option<string>, delivered: bool, sent: bool, now: Time): Try {
    Write(t, id, if id in t then StatisticRow(t[id], pid, delivered, sent, now) else None)
  }

  /** A provider id that is taken is dropped, and the update tried again without it. */
  function MarkAccepted(t: Table, id: Id, pid: Option<string>, now: Time): Try {
    var first := UpdateAccepted(t, id, pid, now);
    if first.report == UniqueViolation && pid.Some? then UpdateAccepted(t, id, None, now) else first
  }

  function ApplyStatistic(t: Table, id: Id, pid: Option<string>, delivered: bool, sent: bool, now: Time): Try {
    var first := UpdateFromStatistic(t, id, pid, delivered, sent, now);
    if first.report == UniqueViolation && pid.Some? then UpdateFromStatistic(t, id, None, delivered, sent, now)
      else first
  }

  // ---------------------------------------------------------------- runs

  datatype Step =
    | Enqueue(id: Id)
    | Inbound(id: Id, pid: Option<string>)
    | Accept(id: Id, pid: Option<string>)
    | Fail(id: Id)
    | Statistic(id: Id, pid: Option<string>, delivered: bool, sent: bool)
    | DeliveryReport(id: Id, smsId: string, failed: bool, delivered: bool, sent: bool)

  function Apply(t: Table, step: Step, now: Time): Table {
    match step
    case Enqueue(id) => if id in t then t else t[id := Msg(false, Queued, None, None, None, None, None)]
    case Inbound(id, pid) =>
      if id in t || (pid.Some? && Taken(t, id, pid.value)) then t
      else t[id := Msg(true, Delivered, pid, Some(now), None, Some(now), None)]
    case Accept(id, pid) => MarkAccepted(t, id, pid, now).table
    case Fail(id) => UpdateFailed(t, id, now).table
    case Statistic(id, pid, delivered, sent) => ApplyStatistic(t, id, pid, delivered, sent, now).table
    case DeliveryReport(id, pid, failed, delivered, sent) =>
      if failed then UpdateFailed(t, id, now).table
      else UpdateFromStatistic(t, id, Some(pid), delivered, sent, now).table
  }

  datatype Timed = Timed(step: Step, at: Time)

  function Run(t: Table, steps: seq<Timed>): Table
    decreases |steps|
  {
    if steps == [] then t else Run(Apply(t, steps[0].step, steps[0].at), steps[1..])
  }

  /** A clock that never goes back, from `from` on. */
  predicate Ordered(from: Time, steps: seq<Timed>)
    decreases |steps|
  {
    steps == [] || (from <= steps[0].at && Ordered(steps[0].at, steps[1..]))
  }

  function End(from: Time, steps: seq<Timed>): Time {
    if steps == [] then from else steps[|steps| - 1].at
  }

  // ---------------------------------------------------------------- what every row keeps

  function Rank(status: Status): nat {
    match status
    case Queued => 0
    case Accepted => 1
    case Sent => 2
    case Delivered => 3
    case Failed => 3
  }

  predicate Past(t: Option<Time>, now: Time) {
    t.None? || t.value <= now
  }

  predicate InOrder(a: Option<Time>, b: Option<Time>) {
    b.Some? ==> a.Some? && a.value <= b.value
  }

  /** Every status reached has its time, in the order of the statuses. */
  predicate MsgOk(m: Msg, now: Time) {
    && (m.status == Accepted ==> m.acceptedAt.Some?)
    && (m.status == Sent ==> m.sentAt.Some?)
    && (m.status == Delivered <==> m.deliveredAt.Some?)
    && (m.status == Failed <==> m.failedAt.Some?)
    && (m.inbound ==> m.status == Delivered && m.sentAt.None? && m.acceptedAt.Some?)
    && (!m.inbound ==> InOrder(m.acceptedAt, m.sentAt) && InOrder(m.sentAt, m.deliveredAt))
    && Past(m.acceptedAt, now) && Past(m.sentAt, now) && Past(m.deliveredAt, now) && Past(m.failedAt, now)
  }

  ghost predicate UniquePids(t: Table) {
    forall i, j :: i in t && j in t && t[i].pid.Some? && t[i].pid == t[j].pid ==> i == j
  }

  ghost predicate TableOk(t: Table, now: Time) {
    (forall id :: id in t ==> MsgOk(t[id], now)) && UniquePids(t)
  }

  /** How a row may change: up in rank, times set once, and not at all once delivered or failed. */
  predicate Evolves(m: Msg, n: Msg) {
    && Rank(m.status) <= Rank(n.status)
    && (!Open(m.status) ==> n == m)
    && n.inbound == m.inbound
    && (m.acceptedAt.Some? ==> n.acceptedAt == m.acceptedAt)
    && (m.sentAt.Some? ==> n.sentAt == m.sentAt)
    && (m.deliveredAt.Some? ==> n.deliveredAt == m.deliveredAt)
    && (m.failedAt.Some? ==> n.failedAt == m.failedAt)
    && (m.pid.Some? ==> n.pid.Some?)
  }

  lemma RowsEvolve(m: Msg, pid: Option<string>, delivered: bool, sent: bool, now: Time, later: Time)
    requires MsgOk(m, now) && now <= later
    ensures var r := AcceptedRow(m, pid, later); r.Some? ==> MsgOk(r.value, later) && Evolves(m, r.value)
    ensures var r := FailedRow(m, later); r.Some? ==> MsgOk(r.value, later) && Evolves(m, r.value)
    ensures var r := StatisticRow(m, pid, delivered, sent, later); r.Some? ==>
          MsgOk(r.value, later) && Evolves(m, r.value)
  {
  }

  /** Where each update leads from every status, and what it writes besides. */
  lemma UpdatesLand(m: Msg, pid: Option<string>, delivered: bool, sent: bool, now: Time)
    ensures var r := AcceptedRow(m, pid, now);
      && (r.Some? <==> m.status == Queued || m.status == Accepted)
      && (r.Some? ==>
            && r.value.status == Accepted
            && r.value.acceptedAt == (if m.acceptedAt.Some? then m.acceptedAt else Some(now))
            && r.value.pid == (if pid.Some? then pid else m.pid)
            && r.value.(status := m.status, acceptedAt := m.acceptedAt, pid := m.pid) == m)
    ensures var r := FailedRow(m, now);
      && (r.Some? <==> m.status in {Queued, Accepted, Sent})
      && (r.Some? ==>
            && r.value.status == Failed && r.value.failedAt == (if m.failedAt.Some? then m.failedAt else Some(now))
            && r.value.(status := m.status, failedAt := m.failedAt) == m)
    ensures var r := StatisticRow(m, pid, delivered, sent, now);
      && (r.Some? <==> m.status in {Queued, Accepted, Sent})
      && (r.Some? ==>
            && r.value.pid == (if m.pid.Some? then m.pid else pid)
            && r.value.acceptedAt == (if m.acceptedAt.Some? then m.acceptedAt else Some(now))
            && (delivered ==> r.value.status == Delivered && r.value.deliveredAt.Some? && r.value.sentAt.Some?)
            && (delivered && m.deliveredAt.None? ==> r.value.deliveredAt == Some(now))
            && (sent && !delivered ==> r.value.status == Sent && r.value.sentAt.Some?)
            && ((sent || delivered) && m.sentAt.None? ==> r.value.sentAt == Some(now))
            && (!sent && !delivered ==> r.value.status == m.status && r.value.sentAt == m.sentAt)
            && (!delivered ==> r.value.deliveredAt == m.deliveredAt)
            && r.value.failedAt == m.failedAt && r.value.inbound == m.inbound)
  {
  }

  lemma WriteKeeps(t: Table, id: Id, row: Option<Msg>, now: Time, later: Time)
    requires TableOk(t, now) && now <= later
    requires row.Some? ==> id in t && MsgOk(row.value, later) && Evolves(t[id], row.value)
    ensures var u := Write(t, id, row).table;
      TableOk(u, later) && u.Keys == t.Keys && forall i :: i in t ==> Evolves(t[i], u[i])
  {
  }

  ghost predicate GoodStep(t: Table, u: Table, later: Time) {
    TableOk(u, later) && t.Keys <= u.Keys && forall i :: i in t ==> Evolves(t[i], u[i])
  }

  lemma StepKeeps(t: Table, step: Step, now: Time, later: Time)
    requires TableOk(t, now) && now <= later
    ensures GoodStep(t, Apply(t, step, later), later)
  {
    hide GoodStep, TableOk, Taken, UpdateAccepted, UpdateFailed, UpdateFromStatistic;
    match step
    case Enqueue(id) => InsertKeeps(t, id, Msg(false, Queued, None, None, None, None, None), now, later);
    case Inbound(id, pid) =>
      InsertKeeps(t, id, Msg(true, Delivered, pid, Some(later), None, Some(later), None), now, later);
    case Accept(id, pid) => UpdatesKeep(t, id, pid, false, false, now, later); UpdatesKeep(t, id, None, false, false,
      now, later);
    case Fail(id) => UpdatesKeep(t, id, None, false, false, now, later);
    case Statistic(id, pid, delivered, sent) =>
      UpdatesKeep(t, id, pid, delivered, sent, now, later);
      UpdatesKeep(t, id, None, delivered, sent, now, later);
    case DeliveryReport(id, pid, failed, delivered, sent) => UpdatesKeep(t, id, Some(pid), delivered, sent, now, later);
  }

  lemma UpdatesKeep(t: Table, id: Id, pid: Option<string>, delivered: bool, sent: bool, now: Time, later: Time)
    requires TableOk(t, now) && now <= later
    ensures GoodStep(t, UpdateAccepted(t, id, pid, later).table, later)
    ensures GoodStep(t, UpdateFailed(t, id, later).table, later)
    ensures GoodStep(t, UpdateFromStatistic(t, id, pid, delivered, sent, later).table, later)
  {
    hide Write, Evolves, AcceptedRow, FailedRow, StatisticRow;
    if id in t {
      RowsEvolve(t[id], pid, delivered, sent, now, later);
      WriteKeeps(t, id, AcceptedRow(t[id], pid, later), now, later);
      WriteKeeps(t, id, FailedRow(t[id], later), now, later);
      WriteKeeps(t, id, StatisticRow(t[id], pid, delivered, sent, later), now, later);
    } else {
      WriteKeeps(t, id, None, now, later);
    }
  }

  lemma InsertKeeps(t: Table, id: Id, m: Msg, now: Time, later: Time)
    requires TableOk(t, now) && now <= later && MsgOk(m, later)
    ensures GoodStep(t, t, later)
    ensures id !in t && (m.pid.Some? ==> !Taken(t, id, m.pid.value)) ==> GoodStep(t, t[id := m], later)
  {
  }

  lemma EvolvesTransitive(a: Msg, b: Msg, c: Msg)
    requires Evolves(a, b) && Evolves(b, c)
    ensures Evolves(a, c)
  {
  }

  /** In every run: ranks never fall, final rows are frozen, times are set once and are there. */
  lemma {:induction false} RunKeeps(t: Table, from: Time, steps: seq<Timed>)
    requires TableOk(t, from) && Ordered(from, steps)
    ensures var u := Run(t, steps);
      TableOk(u, End(from, steps)) && t.Keys <= u.Keys && forall i :: i in t ==> Evolves(t[i], u[i])
    decreases |steps|
  {
    hide Apply, Evolves, MsgOk;
    if steps == [] {
      forall i | i in t ensures Evolves(t[i], t[i]) {
        EvolvesReflexive(t[i]);
      }
    } else {
      var now := steps[0].at;
      var s := Apply(t, steps[0].step, now);
      StepKeeps(t, steps[0].step, from, now);
      RunKeeps(s, now, steps[1..]);
      var u := Run(t, steps);
      forall i | i in t ensures Evolves(t[i], u[i]) {
        EvolvesTransitive(t[i], s[i], u[i]);
      }
    }
  }

  lemma EvolvesReflexive(m: Msg)
    ensures Evolves(m, m)
  {
  }

  /** Retrying without the id never meets the index again, so both callers always succeed or find no row. */
  lemma RetrySucceeds(t: Table, id: Id, pid: Option<string>, delivered: bool, sent: bool, now: Time)
    requires UniquePids(t)
    ensures MarkAccepted(t, id, pid, now).report != UniqueViolation
    ensures ApplyStatistic(t, id, pid, delivered, sent, now).report != UniqueViolation
    ensures id in t && t[id].status in {Queued, Accepted} ==> MarkAccepted(t, id, pid, now).report == Updated
    ensures id in t && Open(t[id].status) ==> ApplyStatistic(t, id, pid, delivered, sent, now).report == Updated
  {
  }

  /** A statistic match always leaves an open message accepted or further. */
  lemma StatisticThenAccept(t: Table, id: Id, pid: Option<string>, delivered: bool, sent: bool, now: Time)
    requires TableOk(t, now) && id in t && Open(t[id].status)
    ensures var u := MarkAccepted(ApplyStatistic(t, id, pid, delivered, sent, now).table, id, pid, now).table;
      id in u && Rank(u[id].status) >= 1 && u[id].acceptedAt.Some?
  {
    hide Write, ApplyStatistic, MarkAccepted, UniquePids;
    var s := ApplyStatistic(t, id, pid, delivered, sent, now).table;
    StepKeeps(t, Statistic(id, pid, delivered, sent), now, now);
    StatisticNeverFails(t, id, pid, delivered, sent, now);
    AcceptReaches(s, id, pid, now);
  }

  lemma StatisticNeverFails(t: Table, id: Id, pid: Option<string>, delivered: bool, sent: bool, now: Time)
    requires id in t && Open(t[id].status)
    ensures var s := ApplyStatistic(t, id, pid, delivered, sent, now).table; id in s && s[id].status != Failed
  {
  }

  lemma AcceptReaches(t: Table, id: Id, pid: Option<string>, now: Time)
    requires TableOk(t, now) && id in t && !(t[id].status == Failed && t[id].acceptedAt.None?)
    ensures var u := MarkAccepted(t, id, pid, now).table;
      id in u && Rank(u[id].status) >= 1 && u[id].acceptedAt.Some?
  {
    hide UniquePids;
    RetrySucceeds(t, id, pid, false, false, now);
  }

  /** No other row wants the provider id the report came by. */
  ghost predicate Reports(t: Table, id: Id, pid: string) {
    id in t && Open(t[id].status) && (t[id].pid.Some? || !Taken(t, id, pid))
  }

  lemma ReportLands(t: Table, id: Id, pid: string, sent: bool, now: Time, at: Time)
    requires TableOk(t, now) && now <= at && Reports(t, id, pid)
    ensures var u := Apply(t, DeliveryReport(id, pid, false, true, sent), at);
      id in u && u[id].status == Delivered && u[id].deliveredAt == Some(at)
    ensures var u := Apply(t, DeliveryReport(id, pid, true, false, sent), at);
      id in u && u[id].status == Failed && u[id].failedAt == Some(at)
    ensures var u := Apply(t, DeliveryReport(id, pid, false, false, true), at); id in u && u[id].status == Sent
    ensures var u := Apply(t, DeliveryReport(id, pid, false, false, false), at); id in u && u[id].status == t[id].status
  {
  }

  lemma StatisticLands(t: Table, id: Id, pid: Option<string>, sent: bool, now: Time, at: Time)
    requires TableOk(t, now) && now <= at && id in t && Open(t[id].status)
    ensures var u := Apply(t, Statistic(id, pid, true, sent), at);
      id in u && u[id].status == Delivered && u[id].deliveredAt == Some(at)
    ensures var u := Apply(t, Statistic(id, pid, false, true), at); id in u && u[id].status == Sent
  {
    RetrySucceeds(t, id, pid, true, sent, at);
    RetrySucceeds(t, id, pid, false, true, at);
  }

  /** In every run, what a report said of an open message stands: delivered then, delivered for ever. */
  lemma ReportStands(t: Table, id: Id, pid: string, sent: bool, now: Time, at: Time, steps: seq<Timed>)
    requires TableOk(t, now) && now <= at && Reports(t, id, pid) && Ordered(at, steps)
    ensures var u := Run(Apply(t, DeliveryReport(id, pid, false, true, sent), at), steps);
      id in u && u[id].status == Delivered && u[id].deliveredAt == Some(at)
    ensures var u := Run(Apply(t, DeliveryReport(id, pid, true, false, sent), at), steps);
      id in u && u[id].status == Failed && u[id].failedAt == Some(at)
  {
    hide Apply, MsgOk, Run, UniquePids;
    ReportLands(t, id, pid, sent, now, at);
    StepKeeps(t, DeliveryReport(id, pid, false, true, sent), now, at);
    RunKeeps(Apply(t, DeliveryReport(id, pid, false, true, sent), at), at, steps);
    StepKeeps(t, DeliveryReport(id, pid, true, false, sent), now, at);
    RunKeeps(Apply(t, DeliveryReport(id, pid, true, false, sent), at), at, steps);
  }

  /** And what reconciliation read of it. */
  lemma StatisticStands(t: Table, id: Id, pid: Option<string>, sent: bool, now: Time, at: Time, steps: seq<Timed>)
    requires TableOk(t, now) && now <= at && id in t && Open(t[id].status) && Ordered(at, steps)
    ensures var u := Run(Apply(t, Statistic(id, pid, true, sent), at), steps);
      id in u && u[id].status == Delivered && u[id].deliveredAt == Some(at)
  {
    hide Apply, MsgOk, Run, UniquePids;
    StatisticLands(t, id, pid, sent, now, at);
    StepKeeps(t, Statistic(id, pid, true, sent), now, at);
    RunKeeps(Apply(t, Statistic(id, pid, true, sent), at), at, steps);
  }

  /** New messages: an outbound one waits, an inbound one arrives delivered, unless its id is known. */
  lemma NewMessages(t: Table, id: Id, pid: Option<string>, at: Time)
    requires id !in t
    ensures Apply(t, Enqueue(id), at) == t[id := Msg(false, Queued, None, None, None, None, None)]
    ensures pid.None? || (forall other :: other in t ==> t[other].pid != pid) ==>
      Apply(t, Inbound(id, pid), at) == t[id := Msg(true, Delivered, pid, Some(at), None, Some(at), None)]
    ensures pid.Some? && (exists other :: other in t && t[other].pid == pid) ==> Apply(t, Inbound(id, pid), at) == t
  {
  }

  /** The table as the database keeps it. */
  class MessageTable {
    var rows: Table

    constructor ()
      ensures rows == map[]
    {
      rows := map[];
    }

    method TryAccepted(id: Id, pid: Option<string>, now: Time) returns (report: Report)
      modifies this
      ensures Try(rows, report) == UpdateAccepted(old(rows), id, pid, now)
    {
      if id !in rows || !(rows[id].status == Queued || rows[id].status == Accepted) {
        return NoRows;
      }
      var m := rows[id].(status := Accepted, acceptedAt := Or(rows[id].acceptedAt, Some(now)));
      if pid.Some? {
        m := m.(pid := pid);
      }
      if m.pid.Some? && Taken(rows, id, m.pid.value) {
        return UniqueViolation;
      }
      rows := rows[id := m];
      return Updated;
    }

    method Accept(id: Id, pid: Option<string>, now: Time) returns (report: Report)
      modifies this
      ensures Try(rows, report) == MarkAccepted(old(rows), id, pid, now)
    {
      report := TryAccepted(id, pid, now);
      if report == UniqueViolation && pid.Some? {
        report := TryAccepted(id, None, now);
      }
    }

    method TryFailed(id: Id, now: Time) returns (report: Report)
      modifies this
      ensures Try(rows, report) == UpdateFailed(old(rows), id, now)
    {
      if id !in rows || !Open(rows[id].status) {
        return NoRows;
      }
      if rows[id].pid.Some? && Taken(rows, id, rows[id].pid.value) {
        return UniqueViolation;
      }
      rows := rows[id := rows[id].(status := Failed, failedAt := Or(rows[id].failedAt, Some(now)))];
      return Updated;
    }

    method TryStatistic(id: Id, pid: Option<string>, delivered: bool, sent: bool, now: Time) returns (report: Report)
      modifies this
      ensures Try(rows, report) == UpdateFromStatistic(old(rows), id, pid, delivered, sent, now)
    {
      if id !in rows || !Open(rows[id].status) {
        return NoRows;
      }
      var m := rows[id].(pid := Or(rows[id].pid, pid), acceptedAt := Or(rows[id].acceptedAt, Some(now)));
      if sent || delivered {
        m := m.(sentAt := Or(m.sentAt, Some(now)), status := Sent);
      }
      if delivered {
        m := m.(deliveredAt := Or(m.deliveredAt, Some(now)), status := Delivered);
      }
      if m.pid.Some? && Taken(rows, id, m.pid.value) {
        return UniqueViolation;
      }
      rows := rows[id := m];
      return Updated;
    }

    method FromStatistic(id: Id, pid: Option<string>, delivered: bool, sent: bool, now: Time) returns (report: Report)
      modifies this
      ensures Try(rows, report) == ApplyStatistic(old(rows), id, pid, delivered, sent, now)
    {
      report := TryStatistic(id, pid, delivered, sent, now);
      if report == UniqueViolation && pid.Some? {
        report := TryStatistic(id, None, delivered, sent, now);
      }
    }
  }
}
