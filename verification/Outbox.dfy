/**
 * The send protocol of one outbox job, run by any number of workers.
 *
 * A state holds the job row, the program counter of every worker, the recorded send
 * attempts and the history of claims. A claim remembers what the worker read when it
 * locked the row (it works on that snapshot from then on), whether it went on to POST,
 * and how it ended. Every SQL statement and every provider call is one step; steps of
 * different workers interleave freely, and a worker may stop at any point (`Abandon`),
 * which stands for a crash as well as for a failed database write.
 */
module Outbox {
  import opened Common

  type Worker = nat

  datatype Status = Pending | Processing | Done | Retry | Uncertain | Dead

  /** The `last_error` column: the two markers the protocol reads back, or any other text. */
  datatype Note = NeedStat | NeedRetry | Other(text: string)

  datatype Row = Row(status: Status, attempt: nat, lockedBy: Option<Worker>, note: Note)

  datatype SendKind = Accepted | RateLimited | Rejected4xx | Fault5xx | Timeout

  /** What the call to the provider returned. Status 0: no HTTP answer at all. */
  datatype Reply = Success | NotConfigured | Failure(status: nat, timedOut: bool)

  datatype Record = Record(attempt: nat, kind: SendKind)

  datatype End = Held | Parked(status: Status) | Completed | Reclaimed

  datatype Claim = Claim(worker: Worker, attempt: nat, note: Note, posted: bool, end: End)

  /** Where a worker stands; `k` is the index of the claim it works on. */
  datatype Pc =
    | Idle
    | Ready(k: nat)
    | Sending(k: nat)
    | Touched(k: nat)
    | Posted(k: nat)
    | Answered(k: nat, reply: Reply)
    | Failing(k: nat)

  datatype Job = Job(row: Row, pcs: map<Worker, Pc>, claims: seq<Claim>, records: seq<Record>, marks: seq<nat>)

  /** The answer of the statistics query made for a job in doubt. */
  datatype Statistic = LookupError | Match(applied: bool) | NotFound(readOk: bool)

  datatype Step =
    | ClaimJob(w: Worker)
    | Drop(w: Worker, note: Note)
    | Check(w: Worker, found: Statistic)
    | Begin(w: Worker)
    | Touch(w: Worker)
    | Throttle(w: Worker, note: Note)
    | Post(w: Worker)
    | Answer(w: Worker, reply: Reply, recorded: bool)
    | Finish(w: Worker, markOk: bool, note: Note)
    | MarkFailed(w: Worker)
    | Abandon(w: Worker)
    | Reclaim

  const MAX_UNCERTAIN_SENDS: nat := 2

  // ---------------------------------------------------------------- pure decisions

  function Classify(reply: Reply): (kind: SendKind)
    ensures kind == Rejected4xx <==> reply.Failure? && 400 <= reply.status < 500 && reply.status != 429
    ensures kind == Timeout <==>
          reply.NotConfigured? || (reply.Failure? && reply.status < 400 && (reply.timedOut || reply.status == 0))
    ensures kind == Accepted <==> reply.Success?
    ensures kind == RateLimited <==> reply == Failure(429, true) || reply == Failure(429, false)
  {
    match reply
    case Success => Accepted
    case NotConfigured => Timeout
    case Failure(st, timedOut) =>
      if st == 429 then RateLimited
      else if 400 <= st < 500 then Rejected4xx
      else if st >= 500 then Fault5xx
      else if timedOut then Timeout
      else if st == 0 then Timeout
      else Fault5xx
  }

  predicate NeedStatistic(note: Note) {
    note == NeedStat || note == NeedRetry
  }

  predicate AllowUncertainRetry(attempt: nat, kind: Option<SendKind>) {
    attempt < MAX_UNCERTAIN_SENDS && kind != Some(Fault5xx)
  }

  /** The record a read of the latest attempt returns: highest attempt, latest inserted. */
  function Latest(records: seq<Record>): (r: Option<Record>)
    ensures r.None? <==> records == []
  {
    if records == [] then None
    else
      var rest := Latest(records[..|records| - 1]);
      var last := records[|records| - 1];
      if rest.Some? && rest.value.attempt > last.attempt then rest else Some(last)
  }

  function LatestKind(records: seq<Record>, readOk: bool): Option<SendKind> {
    if readOk && Latest(records).Some? then Some(Latest(records).value.kind) else None
  }

  // ---------------------------------------------------------------- steps

  function At(s: Job, w: Worker): Pc {
    if w in s.pcs then s.pcs[w] else Idle
  }

  function Go(s: Job, w: Worker, pc: Pc): Job {
    s.(pcs := s.pcs[w := pc])
  }

  predicate Owns(s: Job, w: Worker) {
    s.row.status == Processing && s.row.lockedBy == Some(w)
  }

  predicate Claimable(status: Status) {
    status == Pending || status == Retry || status == Uncertain
  }

  function Close(claims: seq<Claim>, end: End): seq<Claim> {
    if claims == [] then [] else claims[|claims| - 1 := claims[|claims| - 1].(end := end)]
  }

  /** The guarded park: it takes effect only while the worker holds the lock. */
  function Park(s: Job, w: Worker, status: Status, attempt: nat, note: Note): Job {
    if Owns(s, w) then s.(row := Row(status, attempt, None, note), claims := Close(s.claims, Parked(status))) else s
  }

  function Complete(s: Job, w: Worker): Job {
    if Owns(s, w) then s.(row := Row(Done, s.row.attempt, None, Other("")), claims := Close(s.claims, Completed)) else s
  }

  /** Park as dead; only the worker whose own park moved the row goes on to mark the message. */
  function FailDead(s: Job, w: Worker, k: nat, attempt: nat, note: Note): Job {
    Go(Park(s, w, Dead, attempt, note), w, if Owns(s, w) then Failing(k) else Idle)
  }

  function CheckUncertain(s: Job, w: Worker, k: nat, found: Statistic): Job
    requires k < |s.claims|
  {
    var c := s.claims[k];
    match found
    case LookupError => Go(Park(s, w, Uncertain, c.attempt, NeedStat), w, Idle)
    case Match(applied) =>
      if applied then Go(Complete(s, w), w, Idle) else Go(Park(s, w, Uncertain, c.attempt, NeedStat), w, Idle)
    case NotFound(readOk) =>
      if !AllowUncertainRetry(c.attempt, LatestKind(s.records, readOk)) then
        FailDead(s, w, k, c.attempt, Other("uncertain: not found in statistic after retry"))
      else if c.note == NeedRetry then Go(s, w, Sending(k))
      else Go(Park(s, w, Uncertain, c.attempt, NeedRetry), w, Idle)
  }

  function FinishSend(s: Job, w: Worker, k: nat, reply: Reply, markOk: bool, note: Note): Job
    requires k < |s.claims|
  {
    var c := s.claims[k];
    if reply.Success? then
      if markOk then Go(Complete(s, w), w, Idle) else Go(Park(s, w, Uncertain, c.attempt + 1, NeedStat), w, Idle)
    else if reply.NotConfigured? then Go(Park(s, w, Retry, c.attempt, note), w, Idle)
    else
      var kind := Classify(reply);
      if kind == Rejected4xx then FailDead(s, w, k, c.attempt + 1, note)
      else if kind == RateLimited then Go(Park(s, w, Retry, c.attempt + 1, note), w, Idle)
      else Go(Park(s, w, Uncertain, c.attempt + 1, NeedStat), w, Idle)
  }

  function ReclaimStale(s: Job): Job {
    if s.row.status == Processing then
      s.(row := Row(Uncertain, Max(s.row.attempt, 1), None, NeedStat), claims := Close(s.claims, Reclaimed))
    else s
  }

  /** One step; a step that is not enabled changes nothing. */
  function Apply(s: Job, step: Step): Job {
    match step
    case ClaimJob(w) =>
      if At(s, w) == Idle && Claimable(s.row.status) then
        Go(s, w, Ready(|s.claims|)).(
          row := s.row.(status := Processing, lockedBy := Some(w)),
          claims := s.claims + [Claim(w, s.row.attempt, s.row.note, false, Held)])
      else s
    case Drop(w, note) =>
      (match At(s, w)
       case Ready(k) => if k < |s.claims| then Go(Park(s, w, Dead, s.claims[k].attempt, note), w, Idle) else s
       case _ => s)
    case Check(w, found) =>
      (match At(s, w)
       case Ready(k) => if k < |s.claims| && NeedStatistic(s.claims[k].note) then CheckUncertain(s, w, k, found) else s
       case _ => s)
    case Begin(w) =>
      (match At(s, w)
       case Ready(k) => if k < |s.claims| && !NeedStatistic(s.claims[k].note) then Go(s, w, Sending(k)) else s
       case _ => s)
    case Touch(w) =>
      (match At(s, w)
       case Sending(k) => Go(s, w, if Owns(s, w) then Touched(k) else Idle)
       case _ => s)
    case Throttle(w, note) =>
      (match At(s, w)
       case Touched(k) => if k < |s.claims| then Go(Park(s, w, Retry, s.claims[k].attempt, note), w, Idle) else s
       case _ => s)
    case Post(w) =>
      (match At(s, w)
       case Touched(k) =>
         if k < |s.claims| then Go(s, w, Posted(k)).(claims := s.claims[k := s.claims[k].(posted := true)]) else s
       case _ => s)
    case Answer(w, reply, recorded) =>
      (match At(s, w)
       case Posted(k) =>
         if k < |s.claims| then
           var r := Record(s.claims[k].attempt + 1, Classify(reply));
           Go(s, w, Answered(k, reply)).(records := if recorded then s.records + [r] else s.records)
         else s
       case _ => s)
    case Finish(w, markOk, note) =>
      (match At(s, w)
       case Answered(k, reply) => if k < |s.claims| then FinishSend(s, w, k, reply, markOk, note) else s
       case _ => s)
    case MarkFailed(w) =>
      (match At(s, w)
       case Failing(k) => Go(s, w, Idle).(marks := s.marks + [k])
       case _ => s)
    case Abandon(w) => Go(s, w, Idle)
    case Reclaim => ReclaimStale(s)
  }

  function Run(s: Job, steps: seq<Step>): Job
    decreases |steps|
  {
    if steps == [] then s else Run(Apply(s, steps[0]), steps[1..])
  }

  const FRESH: Job := Job(Row(Pending, 0, None, Other("")), map[], [], [], [])

  // ---------------------------------------------------------------- counting over the history

  /** Claims whose POST ended parked uncertain, or is not resolved yet by the lock holder. */
  function InDoubtHere(claims: seq<Claim>): nat {
    if claims == [] then 0
    else
      var c := claims[|claims| - 1];
      InDoubtHere(claims[..|claims| - 1]) + (if c.posted && (c.end == Parked(Uncertain) || c.end == Held) then 1 else 0)
  }

  /** POSTs whose worker lost the lock: nobody waited for their outcome. */
  function Lost(claims: seq<Claim>): nat {
    if claims == [] then 0
    else
      var c := claims[|claims| - 1];
      Lost(claims[..|claims| - 1]) + (if c.posted && c.end == Reclaimed then 1 else 0)
  }

  function InDoubt(claims: seq<Claim>): nat {
    InDoubtHere(claims) + Lost(claims)
  }

  function Reclaims(claims: seq<Claim>): nat {
    if claims == [] then 0
    else Reclaims(claims[..|claims| - 1]) + (if claims[|claims| - 1].end == Reclaimed then 1 else 0)
  }

  // ---------------------------------------------------------------- invariant

  /** From here on the job is only looked up in the statistics, never sent again. */
  predicate Trapped(attempt: nat, note: Note) {
    attempt >= MAX_UNCERTAIN_SENDS && NeedStatistic(note)
  }

  predicate Final(status: Status) {
    status == Done || status == Dead
  }

  predicate LockOk(s: Job) {
    && (s.row.status == Processing <==> s.row.lockedBy.Some?)
    && (s.row.status == Processing ==>
          |s.claims| > 0 &&
          var c := s.claims[|s.claims| - 1];
          c.worker == s.row.lockedBy.value && c.end == Held && c.attempt == s.row.attempt && c.note == s.row.note)
    && (s.row.status != Processing && |s.claims| > 0 ==> s.claims[|s.claims| - 1].end != Held)
  }

  /** Every claim but the last is closed; snapshots never ran ahead of the row. */
  predicate ClaimsOk(s: Job) {
    forall i :: 0 <= i < |s.claims| ==>
      && (i < |s.claims| - 1 ==> s.claims[i].end != Held)
      && (s.claims[i].end == Reclaimed ==> s.row.attempt >= 1)
      && s.claims[i].attempt <= s.row.attempt
      && (s.claims[i].posted ==> !Trapped(s.claims[i].attempt, s.claims[i].note))
  }

  /** Claim `k` is the worker's own, and its latest. */
  predicate LatestClaim(claims: seq<Claim>, k: nat, w: Worker) {
    && k < |claims|
    && claims[k].worker == w
    && forall j :: k < j < |claims| ==> claims[j].worker != w
  }

  predicate PcOk(s: Job, w: Worker, pc: Pc) {
    pc.Idle? ||
    (&& LatestClaim(s.claims, pc.k, w)
     && var c := s.claims[pc.k];
       && (!pc.Failing? ==> c.end == Held || c.end == Reclaimed)
       && (pc.Sending? || pc.Touched? ==> !Trapped(c.attempt, c.note))
       && (pc.Posted? || pc.Answered? <==> !pc.Failing? && c.posted)
       && (pc.Failing? ==> s.row.status == Dead && c.end == Parked(Dead) && pc.k == |s.claims| - 1 && s.marks == []))
  }

  predicate PcsOk(s: Job) {
    forall w :: w in s.pcs ==> PcOk(s, w, s.pcs[w])
  }

  predicate MarksOk(s: Job) {
    && |s.marks| <= 1
    && (s.marks != [] ==>
          s.row.status == Dead && |s.claims| > 0 && s.marks[0] == |s.claims| - 1
            && s.claims[|s.claims| - 1].end == Parked(Dead))
  }

  predicate RecordsOk(s: Job) {
    forall i :: 0 <= i < |s.records| ==> s.records[i].attempt <= s.row.attempt + 1
  }

  /** The claims closed so far. */
  function Closed(s: Job): seq<Claim> {
    if s.row.status == Processing && |s.claims| > 0 then s.claims[..|s.claims| - 1] else s.claims
  }

  /** The sends left in doubt so far have been paid for with attempts. */
  predicate DoubtOk(s: Job) {
    var n := InDoubtHere(Closed(s));
    && n <= 2
    && (n >= 1 && !Final(s.row.status) ==> s.row.attempt >= 1)
    && (n == 2 && !Final(s.row.status) ==> Trapped(s.row.attempt, s.row.note))
  }

  predicate Inv(s: Job) {
    LockOk(s) && ClaimsOk(s) && PcsOk(s) && MarksOk(s) && RecordsOk(s) && DoubtOk(s)
  }
}
