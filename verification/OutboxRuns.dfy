/** What every step of the send protocol keeps, and the safety of whole runs. */
module OutboxRuns {
  import opened Common
  import opened Outbox

  // ---------------------------------------------------------------- counting lemmas

  lemma {:induction false} CountSame(a: seq<Claim>, b: seq<Claim>)
    requires |a| == |b|
    requires forall i :: 0 <= i < |a| ==> a[i].end == b[i].end && (a[i].posted == b[i].posted || a[i].end == Reclaimed)
    ensures InDoubtHere(a) == InDoubtHere(b)
  {
    if a != [] {
      CountSame(a[..|a| - 1], b[..|b| - 1]);
    }
  }

  /** What one more claim adds to the counts. */
  lemma CountAppend(a: seq<Claim>, c: Claim)
    ensures InDoubtHere(a + [c]) == InDoubtHere(a) + (if c.posted && (c.end == Parked(Uncertain) || c.end == Held)
        then 1 else 0)
    ensures Lost(a + [c]) == Lost(a) + (if c.posted && c.end == Reclaimed then 1 else 0)
    ensures Reclaims(a + [c]) == Reclaims(a) + (if c.end == Reclaimed then 1 else 0)
  {
    assert (a + [c])[..|a|] == a;
  }

  lemma ClosedByPark(s: Job, end: End)
    requires LockOk(s) && s.row.status == Processing
    ensures Close(s.claims, end) == Closed(s) + [s.claims[|s.claims| - 1].(end := end)]
    ensures InDoubtHere(Close(s.claims, end))
         == InDoubtHere(Closed(s)) + (if s.claims[|s.claims| - 1].posted && (end == Parked(Uncertain)
           || end == Held) then 1 else 0)
  {
    CountAppend(Closed(s), s.claims[|s.claims| - 1].(end := end));
  }

  // ---------------------------------------------------------------- pieces of a step

  lemma LatestKept(a: seq<Claim>, b: seq<Claim>, k: nat, w: Worker)
    requires LatestClaim(a, k, w) && |a| == |b|
    requires forall j :: 0 <= j < |a| ==> a[j].worker == b[j].worker
    ensures LatestClaim(b, k, w)
  {
  }

  lemma LatestGrown(a: seq<Claim>, c: Claim, k: nat, w: Worker)
    requires LatestClaim(a, k, w) && c.worker != w
    ensures LatestClaim(a + [c], k, w)
  {
  }

  lemma LatestNew(a: seq<Claim>, c: Claim)
    ensures LatestClaim(a + [c], |a|, c.worker)
  {
  }

  lemma LatestIsLast(claims: seq<Claim>, k: nat, w: Worker)
    requires LatestClaim(claims, k, w) && claims[|claims| - 1].worker == w
    ensures k == |claims| - 1
  {
  }

  lemma PcFacts(s: Job, w: Worker)
    requires Inv(s)
    ensures PcOk(s, w, At(s, w))
  {
    hide LockOk, ClaimsOk, MarksOk, RecordsOk, DoubtOk, LatestClaim, Trapped;
    if w in s.pcs {
      assert PcOk(s, w, s.pcs[w]);
    }
  }

  lemma GoKeepsInv(s: Job, w: Worker, pc: Pc)
    requires Inv(s) && PcOk(s, w, pc)
    ensures Inv(Go(s, w, pc))
  {
    hide LatestClaim, Trapped, InDoubtHere;
    var t := Go(s, w, pc);
    forall v | v in t.pcs ensures PcOk(t, v, t.pcs[v]) {
      if v != w {
        PcFacts(s, v);
      }
    }
  }

  // A lock holder closes its own claim: each part of the invariant by itself.

  function Closing(s: Job, w: Worker, row: Row, end: End, pc: Pc): Job {
    Go(s.(row := row, claims := Close(s.claims, end)), w, pc)
  }

  predicate MayClose(s: Job, w: Worker, row: Row, end: End, pc: Pc) {
    && Owns(s, w) && |s.claims| > 0
    && !row.status.Processing? && row.lockedBy.None? && row.attempt >= s.row.attempt
    && (end.Parked? || end.Completed?)
    && (pc == Idle || (pc == Failing(|s.claims| - 1) && row.status == Dead && end == Parked(Dead)))
  }

  lemma CloseClaims(s: Job, w: Worker, row: Row, end: End, pc: Pc)
    requires LockOk(s) && ClaimsOk(s) && MayClose(s, w, row, end, pc)
    ensures LockOk(Closing(s, w, row, end, pc)) && ClaimsOk(Closing(s, w, row, end, pc))
  {
    hide Trapped;
    var t := Closing(s, w, row, end, pc);
    var last := |s.claims| - 1;
    assert |t.claims| == |s.claims| && t.claims[last] == s.claims[last].(end := end);
    forall i | 0 <= i < |t.claims|
      ensures i < |t.claims| - 1 ==> t.claims[i].end != Held
      ensures t.claims[i].end == Reclaimed ==> t.row.attempt >= 1
      ensures t.claims[i].attempt <= t.row.attempt
      ensures t.claims[i].posted ==> !Trapped(t.claims[i].attempt, t.claims[i].note)
    {
      assert i < last ==> t.claims[i] == s.claims[i];
      assert s.claims[i].attempt <= s.row.attempt;
    }
  }

  lemma ClosePc(s: Job, w: Worker, row: Row, end: End, pc: Pc, v: Worker)
    requires LockOk(s) && MayClose(s, w, row, end, pc) && v != w && PcOk(s, v, At(s, v))
    ensures PcOk(Closing(s, w, row, end, pc), v, At(s, v))
  {
    hide Trapped;
    var t := Closing(s, w, row, end, pc);
    if !At(s, v).Idle? {
      var k := At(s, v).k;
      assert k != |s.claims| - 1;
      assert t.claims[k] == s.claims[k];
      LatestKept(s.claims, t.claims, k, v);
    }
  }

  lemma CloseOwnPc(s: Job, w: Worker, row: Row, end: End, pc: Pc)
    requires LockOk(s) && MarksOk(s) && MayClose(s, w, row, end, pc)
    ensures PcOk(Closing(s, w, row, end, pc), w, pc) && MarksOk(Closing(s, w, row, end, pc))
  {
    hide Trapped;
    assert s.marks == [];
  }

  lemma CloseDoubt(s: Job, w: Worker, row: Row, end: End, pc: Pc)
    requires LockOk(s) && ClaimsOk(s) && DoubtOk(s) && MayClose(s, w, row, end, pc)
    requires Trapped(s.row.attempt, s.row.note) && !Final(row.status) ==> NeedStatistic(row.note)
    requires s.claims[|s.claims| - 1].posted && end == Parked(Uncertain) ==>
          row.attempt > s.row.attempt && row.note == NeedStat
    ensures DoubtOk(Closing(s, w, row, end, pc))
  {
    hide InDoubtHere;
    ClosedByPark(s, end);
    var c := s.claims[|s.claims| - 1];
    assert c.posted ==> !Trapped(c.attempt, c.note);
    assert Closed(Closing(s, w, row, end, pc)) == Close(s.claims, end);
  }

  /** The end a lock holder gives to its own claim, and where it goes from there. */
  lemma CloseKeepsInv(s: Job, w: Worker, row: Row, end: End, pc: Pc)
    requires Inv(s) && MayClose(s, w, row, end, pc)
    requires Trapped(s.row.attempt, s.row.note) && !Final(row.status) ==> NeedStatistic(row.note)
    requires s.claims[|s.claims| - 1].posted && end == Parked(Uncertain) ==>
          row.attempt > s.row.attempt && row.note == NeedStat
    ensures Inv(Closing(s, w, row, end, pc))
  {
    hide LockOk, ClaimsOk, MarksOk, DoubtOk, PcOk, Trapped;
    var t := Closing(s, w, row, end, pc);
    CloseClaims(s, w, row, end, pc);
    CloseOwnPc(s, w, row, end, pc);
    CloseDoubt(s, w, row, end, pc);
    forall v | v in t.pcs ensures PcOk(t, v, t.pcs[v]) {
      if v != w {
        PcFacts(s, v);
        ClosePc(s, w, row, end, pc, v);
      }
    }
  }

  /** A worker that holds the lock works on the last claim, whose snapshot is still the row. */
  lemma OwnerFacts(s: Job, w: Worker)
    requires Inv(s) && !At(s, w).Idle?
    ensures At(s, w).k < |s.claims|
    ensures Owns(s, w) ==> !At(s, w).Failing? && At(s, w).k == |s.claims| - 1
    ensures Owns(s, w) ==> s.claims[At(s, w).k].attempt == s.row.attempt && s.claims[At(s, w).k].note == s.row.note
    ensures s.claims[At(s, w).k].posted ==> !Trapped(s.claims[At(s, w).k].attempt, s.claims[At(s, w).k].note)
    ensures At(s, w).Answered? ==> s.claims[At(s, w).k].posted
    ensures At(s, w).Ready? ==> !s.claims[At(s, w).k].posted
  {
    hide InDoubtHere, DoubtOk, RecordsOk, Trapped;
    PcFacts(s, w);
    if Owns(s, w) {
      LatestIsLast(s.claims, At(s, w).k, w);
    }
  }

  lemma ParkKeepsInv(s: Job, w: Worker, status: Status, attempt: nat, note: Note)
    requires Inv(s)
    requires status == Retry || status == Uncertain || status == Dead
    requires Owns(s, w) ==>
      && attempt >= s.row.attempt
      && (Trapped(s.row.attempt, s.row.note) && status != Dead ==> NeedStatistic(note))
      && (s.claims[|s.claims| - 1].posted && status == Uncertain ==> attempt > s.row.attempt && note == NeedStat)
    ensures Inv(Go(Park(s, w, status, attempt, note), w, Idle))
  {
    if Owns(s, w) {
      CloseKeepsInv(s, w, Row(status, attempt, None, note), Parked(status), Idle);
    } else {
      GoKeepsInv(s, w, Idle);
    }
  }

  lemma CompleteKeepsInv(s: Job, w: Worker)
    requires Inv(s)
    ensures Inv(Go(Complete(s, w), w, Idle))
  {
    if Owns(s, w) {
      CloseKeepsInv(s, w, Row(Done, s.row.attempt, None, Other("")), Completed, Idle);
    } else {
      GoKeepsInv(s, w, Idle);
    }
  }

  lemma FailDeadKeepsInv(s: Job, w: Worker, k: nat, attempt: nat, note: Note)
    requires Inv(s)
    requires Owns(s, w) ==> attempt >= s.row.attempt && k == |s.claims| - 1
    ensures Inv(FailDead(s, w, k, attempt, note))
  {
    if Owns(s, w) {
      CloseKeepsInv(s, w, Row(Dead, attempt, None, note), Parked(Dead), Failing(k));
    } else {
      GoKeepsInv(s, w, Idle);
    }
  }

  // A worker claims the job.

  predicate MayClaim(s: Job, w: Worker) {
    At(s, w) == Idle && Claimable(s.row.status)
  }

  function NewClaim(s: Job, w: Worker): Claim {
    Claim(w, s.row.attempt, s.row.note, false, Held)
  }

  lemma ClaimedShape(s: Job, w: Worker)
    requires MayClaim(s, w)
    ensures var t := Apply(s, ClaimJob(w));
      && t.claims == s.claims + [NewClaim(s, w)] && t.row == s.row.(status := Processing, lockedBy := Some(w))
      && t.records == s.records && t.marks == s.marks && t.pcs == s.pcs[w := Ready(|s.claims|)]
  {
  }

  lemma ClaimClaims(s: Job, w: Worker)
    requires LockOk(s) && ClaimsOk(s) && MayClaim(s, w)
    ensures LockOk(Apply(s, ClaimJob(w))) && ClaimsOk(Apply(s, ClaimJob(w)))
  {
    hide Trapped, Apply;
    ClaimedShape(s, w);
    var t := Apply(s, ClaimJob(w));
    forall i | 0 <= i < |t.claims|
      ensures i < |t.claims| - 1 ==> t.claims[i].end != Held
      ensures t.claims[i].end == Reclaimed ==> t.row.attempt >= 1
      ensures t.claims[i].attempt <= t.row.attempt
      ensures t.claims[i].posted ==> !Trapped(t.claims[i].attempt, t.claims[i].note)
    {
      if i < |s.claims| {
        assert t.claims[i] == s.claims[i];
        assert s.claims[i].attempt <= s.row.attempt;
      }
    }
  }

  lemma ClaimPc(s: Job, w: Worker, v: Worker)
    requires MayClaim(s, w) && v != w && PcOk(s, v, At(s, v))
    ensures PcOk(Apply(s, ClaimJob(w)), v, At(s, v))
  {
    hide Trapped, Apply, LatestClaim;
    ClaimedShape(s, w);
    if !At(s, v).Idle? {
      var k := At(s, v).k;
      LatestFacts(s.claims, k, v);
      LatestGrown(s.claims, NewClaim(s, w), k, v);
    }
  }

  lemma LatestFacts(claims: seq<Claim>, k: nat, w: Worker)
    requires LatestClaim(claims, k, w)
    ensures k < |claims| && claims[k].worker == w
  {
  }

  lemma ClaimDoubt(s: Job, w: Worker)
    requires DoubtOk(s) && MarksOk(s) && RecordsOk(s) && MayClaim(s, w)
    ensures var t := Apply(s, ClaimJob(w)); DoubtOk(t) && MarksOk(t) && RecordsOk(t) && PcOk(t, w, Ready(|s.claims|))
  {
    hide InDoubtHere, Trapped, Apply, LatestClaim;
    ClaimedShape(s, w);
    LatestNew(s.claims, NewClaim(s, w));
    LatestFacts(s.claims + [NewClaim(s, w)], |s.claims|, w);
    assert Closed(Apply(s, ClaimJob(w))) == s.claims;
  }

  lemma ClaimKeepsInv(s: Job, w: Worker)
    requires Inv(s)
    ensures Inv(Apply(s, ClaimJob(w)))
  {
    hide LockOk, ClaimsOk, MarksOk, RecordsOk, DoubtOk, PcOk;
    if MayClaim(s, w) {
      ClaimedShape(s, w);
      var t := Apply(s, ClaimJob(w));
      ClaimClaims(s, w);
      ClaimDoubt(s, w);
      forall v | v in t.pcs ensures PcOk(t, v, t.pcs[v]) {
        if v != w {
          PcFacts(s, v);
          ClaimPc(s, w, v);
        }
      }
    }
  }

  // A worker posts: only the mark on its own claim changes.

  lemma PostedShape(s: Job, w: Worker)
    requires At(s, w).Touched? && At(s, w).k < |s.claims|
    ensures var t, k := Apply(s, Post(w)), At(s, w).k;
      && t.row == s.row && t.records == s.records && t.marks == s.marks && t.pcs == s.pcs[w := Posted(k)]
      && t.claims == s.claims[k := s.claims[k].(posted := true)]
  {
  }

  lemma PostClaims(s: Job, w: Worker)
    requires LockOk(s) && ClaimsOk(s) && At(s, w).Touched? && PcOk(s, w, At(s, w))
    ensures LockOk(Apply(s, Post(w))) && ClaimsOk(Apply(s, Post(w)))
  {
    hide Trapped, Apply;
    PostedShape(s, w);
    var t := Apply(s, Post(w));
    forall i | 0 <= i < |t.claims|
      ensures i < |t.claims| - 1 ==> t.claims[i].end != Held
      ensures t.claims[i].end == Reclaimed ==> t.row.attempt >= 1
      ensures t.claims[i].attempt <= t.row.attempt
      ensures t.claims[i].posted ==> !Trapped(t.claims[i].attempt, t.claims[i].note)
    {
      assert i != At(s, w).k ==> t.claims[i] == s.claims[i];
      assert s.claims[i].attempt <= s.row.attempt;
    }
  }

  lemma PostDoubt(s: Job, w: Worker)
    requires LockOk(s) && ClaimsOk(s) && DoubtOk(s) && At(s, w).Touched? && PcOk(s, w, At(s, w))
    ensures DoubtOk(Apply(s, Post(w)))
  {
    hide InDoubtHere, Trapped, Apply;
    PostedShape(s, w);
    var t := Apply(s, Post(w));
    var a, b := Closed(s), Closed(t);
    assert |a| == |b|;
    forall i | 0 <= i < |a| ensures a[i].end == b[i].end && (a[i].posted == b[i].posted || a[i].end == Reclaimed) {
      assert a[i] == s.claims[i] && b[i] == t.claims[i];
      assert i < |s.claims| - 1 ==> s.claims[i].end != Held;
    }
    CountSame(a, b);
  }

  lemma PostedPc(s: Job, w: Worker, v: Worker)
    requires At(s, w).Touched? && PcOk(s, w, At(s, w)) && v != w && PcOk(s, v, At(s, v))
    ensures PcOk(Apply(s, Post(w)), v, At(s, v))
  {
    hide Trapped, Apply;
    PostedShape(s, w);
    var t := Apply(s, Post(w));
    if !At(s, v).Idle? {
      assert At(s, v).k != At(s, w).k;
      LatestKept(s.claims, t.claims, At(s, v).k, v);
    }
  }

  lemma PostedOwnPc(s: Job, w: Worker)
    requires At(s, w).Touched? && PcOk(s, w, At(s, w)) && MarksOk(s)
    ensures PcOk(Apply(s, Post(w)), w, Posted(At(s, w).k)) && MarksOk(Apply(s, Post(w)))
  {
    hide Trapped, Apply;
    PostedShape(s, w);
    LatestKept(s.claims, Apply(s, Post(w)).claims, At(s, w).k, w);
  }

  lemma PostKeepsInv(s: Job, w: Worker)
    requires Inv(s)
    ensures Inv(Apply(s, Post(w)))
  {
    hide LockOk, ClaimsOk, MarksOk, DoubtOk, PcOk;
    if At(s, w).Touched? && At(s, w).k < |s.claims| {
      PcFacts(s, w);
      PostedShape(s, w);
      var t := Apply(s, Post(w));
      PostClaims(s, w);
      PostDoubt(s, w);
      PostedOwnPc(s, w);
      forall v | v in t.pcs ensures PcOk(t, v, t.pcs[v]) {
        if v != w {
          PcFacts(s, v);
          PostedPc(s, w, v);
        }
      }
    }
  }

  lemma AnswerKeepsInv(s: Job, w: Worker, reply: Reply, recorded: bool)
    requires Inv(s)
    ensures Inv(Apply(s, Answer(w, reply, recorded)))
  {
    hide LockOk, ClaimsOk, MarksOk, RecordsOk, DoubtOk, Trapped, Classify, LatestClaim;
    if At(s, w).Posted? && At(s, w).k < |s.claims| {
      PcFacts(s, w);
      var k := At(s, w).k;
      AnsweredPc(s, w, reply);
      GoKeepsInv(s, w, Answered(k, reply));
      var g := Go(s, w, Answered(k, reply));
      RecordsGrow(g, Record(s.claims[k].attempt + 1, Classify(reply)), k);
    }
  }

  lemma AnsweredPc(s: Job, w: Worker, reply: Reply)
    requires At(s, w).Posted? && PcOk(s, w, At(s, w))
    ensures PcOk(s, w, Answered(At(s, w).k, reply))
  {
  }

  lemma RecordsGrow(s: Job, r: Record, k: nat)
    requires Inv(s) && k < |s.claims| && r.attempt == s.claims[k].attempt + 1
    ensures Inv(s.(records := s.records + [r]))
  {
    hide InDoubtHere, Trapped, LatestClaim, MarksOk, LockOk;
    var t := s.(records := s.records + [r]);
    assert s.claims[k].attempt <= s.row.attempt;
    forall v | v in t.pcs ensures PcOk(t, v, t.pcs[v]) {
      assert PcOk(s, v, s.pcs[v]);
    }
    SameLock(s, t);
  }

  lemma SameLock(s: Job, t: Job)
    requires t.row == s.row && t.claims == s.claims && t.marks == s.marks
    ensures LockOk(s) ==> LockOk(t)
    ensures MarksOk(s) ==> MarksOk(t)
  {
  }

  // A stale lock is taken back.

  lemma ReclaimClaims(s: Job)
    requires LockOk(s) && ClaimsOk(s) && MarksOk(s) && RecordsOk(s) && s.row.status == Processing
    ensures var t := ReclaimStale(s); LockOk(t) && ClaimsOk(t) && MarksOk(t) && RecordsOk(t)
  {
    hide Trapped;
    var t := ReclaimStale(s);
    forall i | 0 <= i < |t.claims|
      ensures i < |t.claims| - 1 ==> t.claims[i].end != Held
      ensures t.claims[i].end == Reclaimed ==> t.row.attempt >= 1
      ensures t.claims[i].attempt <= t.row.attempt
      ensures t.claims[i].posted ==> !Trapped(t.claims[i].attempt, t.claims[i].note)
    {
      assert i < |s.claims| - 1 ==> t.claims[i] == s.claims[i];
      assert s.claims[i].attempt <= s.row.attempt;
    }
  }

  lemma ReclaimDoubt(s: Job)
    requires LockOk(s) && DoubtOk(s) && s.row.status == Processing
    ensures DoubtOk(ReclaimStale(s))
  {
    hide InDoubtHere;
    ClosedByPark(s, Reclaimed);
    assert Closed(ReclaimStale(s)) == Close(s.claims, Reclaimed);
  }

  lemma ReclaimPc(s: Job, v: Worker)
    requires LockOk(s) && s.row.status == Processing && PcOk(s, v, At(s, v))
    ensures PcOk(ReclaimStale(s), v, At(s, v))
  {
    hide Trapped;
    var t := ReclaimStale(s);
    if !At(s, v).Idle? {
      var k := At(s, v).k;
      assert t.claims[k] == s.claims[k].(end := t.claims[k].end);
      LatestKept(s.claims, t.claims, k, v);
    }
  }

  lemma ReclaimKeepsInv(s: Job)
    requires Inv(s)
    ensures Inv(Apply(s, Reclaim))
  {
    hide LockOk, ClaimsOk, MarksOk, RecordsOk, DoubtOk, PcOk;
    if s.row.status == Processing {
      var t := ReclaimStale(s);
      ReclaimClaims(s);
      ReclaimDoubt(s);
      forall v | v in t.pcs ensures PcOk(t, v, t.pcs[v]) {
        PcFacts(s, v);
        ReclaimPc(s, v);
      }
    }
  }

  lemma MarkPc(s: Job, w: Worker, v: Worker)
    requires At(s, w).Failing? && PcOk(s, w, At(s, w)) && v != w && PcOk(s, v, At(s, v))
    ensures PcOk(Apply(s, MarkFailed(w)), v, At(s, v))
  {
    hide Trapped;
  }

  lemma MarkKeepsInv(s: Job, w: Worker)
    requires Inv(s)
    ensures Inv(Apply(s, MarkFailed(w)))
  {
    hide InDoubtHere, Trapped, LatestClaim;
    var t := Apply(s, MarkFailed(w));
    if At(s, w).Failing? {
      PcFacts(s, w);
      LatestFacts(s.claims, At(s, w).k, w);
      forall v | v in t.pcs ensures PcOk(t, v, t.pcs[v]) {
        if v != w {
          PcFacts(s, v);
          MarkPc(s, w, v);
        }
      }
    }
  }

  lemma ReadyToSend(s: Job, w: Worker)
    requires Inv(s) && At(s, w).Ready?
    ensures At(s, w).k < |s.claims|
    ensures !Trapped(s.claims[At(s, w).k].attempt, s.claims[At(s, w).k].note) ==> PcOk(s, w, Sending(At(s, w).k))
  {
    hide Trapped, InDoubtHere;
    PcFacts(s, w);
  }

  lemma CheckKeepsInv(s: Job, w: Worker, found: Statistic)
    requires Inv(s)
    ensures Inv(Apply(s, Check(w, found)))
  {
    hide Inv;
    if At(s, w).Ready? {
      var k := At(s, w).k;
      OwnerFacts(s, w);
      var c := s.claims[k];
      if NeedStatistic(c.note) {
        match found
        case LookupError => ParkKeepsInv(s, w, Uncertain, c.attempt, NeedStat);
        case Match(applied) =>
          if applied {
            CompleteKeepsInv(s, w);
          } else {
            ParkKeepsInv(s, w, Uncertain, c.attempt, NeedStat);
          }
        case NotFound(readOk) =>
          if !AllowUncertainRetry(c.attempt, LatestKind(s.records, readOk)) {
            FailDeadKeepsInv(s, w, k, c.attempt, Other("uncertain: not found in statistic after retry"));
          } else if c.note == NeedRetry {
            ReadyToSend(s, w);
            GoKeepsInv(s, w, Sending(k));
          } else {
            ParkKeepsInv(s, w, Uncertain, c.attempt, NeedRetry);
          }
      }
    }
  }

  lemma FinishKeepsInv(s: Job, w: Worker, markOk: bool, note: Note)
    requires Inv(s)
    ensures Inv(Apply(s, Finish(w, markOk, note)))
  {
    hide Inv;
    if At(s, w).Answered? {
      var k, reply := At(s, w).k, At(s, w).reply;
      OwnerFacts(s, w);
      var c := s.claims[k];
      if reply.Success? {
        if markOk {
          CompleteKeepsInv(s, w);
        } else {
          ParkKeepsInv(s, w, Uncertain, c.attempt + 1, NeedStat);
        }
      } else if reply.NotConfigured? {
        ParkKeepsInv(s, w, Retry, c.attempt, note);
      } else if Classify(reply) == Rejected4xx {
        FailDeadKeepsInv(s, w, k, c.attempt + 1, note);
      } else if Classify(reply) == RateLimited {
        ParkKeepsInv(s, w, Retry, c.attempt + 1, note);
      } else {
        ParkKeepsInv(s, w, Uncertain, c.attempt + 1, NeedStat);
      }
    }
  }

  lemma StepKeepsInv(s: Job, step: Step)
    requires Inv(s)
    ensures Inv(Apply(s, step))
  {
    hide Inv;
    match step
    case ClaimJob(w) => ClaimKeepsInv(s, w);
    case Drop(w, note) => DropKeepsInv(s, w, note);
    case Check(w, found) => CheckKeepsInv(s, w, found);
    case Begin(w) => BeginKeepsInv(s, w);
    case Touch(w) => TouchKeepsInv(s, w);
    case Throttle(w, note) => ThrottleKeepsInv(s, w, note);
    case Post(w) => PostKeepsInv(s, w);
    case Answer(w, reply, recorded) => AnswerKeepsInv(s, w, reply, recorded);
    case Finish(w, markOk, note) => FinishKeepsInv(s, w, markOk, note);
    case MarkFailed(w) => MarkKeepsInv(s, w);
    case Abandon(w) => IdleKeepsInv(s, w);
    case Reclaim => ReclaimKeepsInv(s);
  }

  lemma DropKeepsInv(s: Job, w: Worker, note: Note)
    requires Inv(s)
    ensures Inv(Apply(s, Drop(w, note)))
  {
    if At(s, w).Ready? {
      assert PcOk(s, w, s.pcs[w]);
      ParkKeepsInv(s, w, Dead, s.claims[At(s, w).k].attempt, note);
    }
  }

  lemma ThrottleKeepsInv(s: Job, w: Worker, note: Note)
    requires Inv(s)
    ensures Inv(Apply(s, Throttle(w, note)))
  {
    if At(s, w).Touched? {
      assert PcOk(s, w, s.pcs[w]);
      ParkKeepsInv(s, w, Retry, s.claims[At(s, w).k].attempt, note);
    }
  }

  lemma BeginKeepsInv(s: Job, w: Worker)
    requires Inv(s)
    ensures Inv(Apply(s, Begin(w)))
  {
    hide DoubtOk, LockOk, RecordsOk, MarksOk, ClaimsOk;
    if At(s, w).Ready? && At(s, w).k < |s.claims| && !NeedStatistic(s.claims[At(s, w).k].note) {
      assert PcOk(s, w, s.pcs[w]);
      GoKeepsInv(s, w, Sending(At(s, w).k));
    }
  }

  lemma TouchKeepsInv(s: Job, w: Worker)
    requires Inv(s)
    ensures Inv(Apply(s, Touch(w)))
  {
    hide DoubtOk, LockOk, RecordsOk, MarksOk, ClaimsOk;
    if At(s, w).Sending? {
      assert PcOk(s, w, s.pcs[w]);
      GoKeepsInv(s, w, if Owns(s, w) then Touched(At(s, w).k) else Idle);
    }
  }

  lemma IdleKeepsInv(s: Job, w: Worker)
    requires Inv(s)
    ensures Inv(Go(s, w, Idle))
  {
    GoKeepsInv(s, w, Idle);
  }

  lemma {:induction false} RunKeepsInv(s: Job, steps: seq<Step>)
    requires Inv(s)
    ensures Inv(Run(s, steps))
    decreases |steps|
  {
    if steps != [] {
      StepKeepsInv(s, steps[0]);
      RunKeepsInv(Apply(s, steps[0]), steps[1..]);
    }
  }

  lemma FreshInv()
    ensures Inv(FRESH)
  {
  }
}
