/** At-most-once results for SENDs under one key, over every interleaving. */
module SubmitSafety {
  import opened Common
  import opened Requests
  import opened Submit
  import opened SubmitRuns

  lemma EmptyInv()
    ensures Inv(EMPTY)
  {
  }

  /** At most one submitter of a key is between its save and its update, let alone in flight. */
  lemma OneInFlight(steps: seq<Step>, i: nat, j: nat)
    ensures var s := Run(EMPTY, steps);
      i < |s.subs| && j < |s.subs| && s.subs[i].key == s.subs[j].key && Active(s.subs[i].pc) && Active(s.subs[j].pc) ==>
        i == j
  {
    EmptyInv();
    RunKeepsInv(EMPTY, steps);
    var s := Run(EMPTY, steps);
    if i < |s.subs| && j < |s.subs| && i != j {
      assert SubOk(s.store, s.subs[i]) && SubOk(s.store, s.subs[j]) && Apart(s.subs[i], s.subs[j]);
    }
  }

  /** Every SEND ever started had a request row of its own. */
  lemma OneRowPerSend(steps: seq<Step>, j: nat, k: nat)
    ensures var s := Run(EMPTY, steps);
      j < |s.sends| && k < |s.sends| && s.sends[j].id == s.sends[k].id ==> j == k
  {
    EmptyInv();
    RunKeepsInv(EMPTY, steps);
  }

  /** Everyone told "accepted" for a key was told about the same request. */
  lemma AcceptedAgree(steps: seq<Step>, i: nat, j: nat)
    ensures var s := Run(EMPTY, steps);
      i < |s.subs| && j < |s.subs| && s.subs[i].key == s.subs[j].key &&
      s.subs[i].pc.Finished? && s.subs[i].pc.outcome.Accepted? && s.subs[j].pc.Finished?
        && s.subs[j].pc.outcome.Accepted?
      ==> s.subs[i].pc == s.subs[j].pc
  {
    EmptyInv();
    RunKeepsInv(EMPTY, steps);
    var s := Run(EMPTY, steps);
    if i < |s.subs| && j < |s.subs| {
      assert SubOk(s.store, s.subs[i]) && SubOk(s.store, s.subs[j]);
    }
  }

  /** A deduplicated save always finds the succeeded row: the way on to a SEND is never taken. */
  lemma DedupNeverSends(steps: seq<Step>, i: nat)
    ensures var s := Run(EMPTY, steps);
      i < |s.subs| && s.subs[i].pc.Deduped? ==>
        Apply(s, FindSucceeded(i)).subs[i].pc == Finished(Accepted(s.subs[i].pc.id))
  {
    EmptyInv();
    RunKeepsInv(EMPTY, steps);
    var s := Run(EMPTY, steps);
    if i < |s.subs| && s.subs[i].pc.Deduped? {
      assert SubOk(s.store, s.subs[i]);
    }
  }

  // ---------------------------------------------------------------- when a SEND can still start

  predicate Starts(s: Sys, step: Step, key: SendKey) {
    step.StartHttp? && step.i < |s.subs| && s.subs[step.i].pc.Stored? && s.subs[step.i].key == key
  }

  predicate RunStarts(s: Sys, steps: seq<Step>, key: SendKey)
    decreases |steps|
  {
    steps != [] && (Starts(s, steps[0], key) || RunStarts(Apply(s, steps[0]), steps[1..], key))
  }

  ghost predicate MayStart(s: Sys, key: SendKey) {
    exists steps :: RunStarts(s, steps, key)
  }

  /** The submitter works on the row and its SEND is not known to have succeeded. */
  predicate CanStillFail(sub: Submitter, id: nat) {
    Active(sub.pc) && sub.pc.id == id && !(sub.pc.Got? && sub.pc.ok)
  }

  /** The latest row settles its key for good. */
  predicate Shut(s: Sys, key: SendKey, id: nat) {
    && IsSend(s.store, key, id)
    && StatusOf(s.store, id) != Some(Failed)
    && forall i :: 0 <= i < |s.subs| ==> !CanStillFail(s.subs[i], id)
  }

  lemma ShutStep(s: Sys, step: Step, key: SendKey, id: nat)
    requires Inv(s) && Shut(s, key, id)
    ensures Shut(Apply(s, step), key, id) && !Starts(s, step, key)
    ensures StatusOf(s.store, id) == Some(Succeeded) ==> StatusOf(Apply(s, step).store, id) == Some(Succeeded)
  {
    hide Latest;
    if step.StartHttp? && step.i < |s.subs| && s.subs[step.i].pc.Stored? {
      assert SubOk(s.store, s.subs[step.i]);
    }
    if step.FindSucceeded? && step.i < |s.subs| {
      assert SubOk(s.store, s.subs[step.i]);
    }
    if step.Record? && step.i < |s.subs| {
      assert SubOk(s.store, s.subs[step.i]);
    }
  }

  lemma {:induction false} ShutRun(s: Sys, steps: seq<Step>, key: SendKey, id: nat)
    requires Inv(s) && Shut(s, key, id)
    ensures Inv(Run(s, steps)) && Shut(Run(s, steps), key, id) && !RunStarts(s, steps, key)
    ensures StatusOf(s.store, id) == Some(Succeeded) ==> StatusOf(Run(s, steps).store, id) == Some(Succeeded)
    decreases |steps|
  {
    hide Inv, Shut, Apply, StatusOf;
    if steps != [] {
      ShutStep(s, steps[0], key, id);
      StepKeepsInv(s, steps[0]);
      ShutRun(Apply(s, steps[0]), steps[1..], key, id);
    }
  }

  lemma LatestIfNotFailed(s: Sys, key: SendKey, id: nat)
    requires Inv(s) && IsSend(s.store, key, id) && StatusOf(s.store, id) != Some(Failed)
    ensures IsLatest(s.store, key, id)
  {
  }

  lemma SucceededIsShut(s: Sys, key: SendKey, id: nat)
    requires Inv(s) && IsSend(s.store, key, id) && StatusOf(s.store, id) == Some(Succeeded)
    ensures Shut(s, key, id)
  {
    forall i | 0 <= i < |s.subs| ensures !CanStillFail(s.subs[i], id) {
      assert SubOk(s.store, s.subs[i]);
    }
  }

  /** Once a SEND succeeded its row is the latest of the key for ever, and no SEND starts again. */
  lemma SucceededForever(before: seq<Step>, after: seq<Step>, key: SendKey, id: nat)
    requires IsSend(Run(EMPTY, before).store, key, id) && StatusOf(Run(EMPTY, before).store, id) == Some(Succeeded)
    ensures var s := Run(EMPTY, before);
      && !RunStarts(s, after, key)
      && IsLatest(Run(s, after).store, key, id)
      && StatusOf(Run(s, after).store, id) == Some(Succeeded)
  {
    hide Inv;
    EmptyInv();
    RunKeepsInv(EMPTY, before);
    var s := Run(EMPTY, before);
    SucceededIsShut(s, key, id);
    ShutRun(s, after, key, id);
    LatestIfNotFailed(Run(s, after), key, id);
  }

  /** A submitter that died after its save leaves a pending row that blocks the key for ever. */
  lemma DeadSubmitterBlocks(before: seq<Step>, after: seq<Step>, key: SendKey, id: nat)
    requires IsSend(Run(EMPTY, before).store, key, id) && StatusOf(Run(EMPTY, before).store, id) == Some(Pending)
    requires forall sub <- Run(EMPTY, before).subs :: Active(sub.pc) ==> sub.pc.id != id
    ensures var s := Run(EMPTY, before);
      && !RunStarts(s, after, key)
      && IsLatest(Run(s, after).store, key, id)
  {
    hide Inv;
    EmptyInv();
    RunKeepsInv(EMPTY, before);
    var s := Run(EMPTY, before);
    ShutRun(s, after, key, id);
    LatestIfNotFailed(Run(s, after), key, id);
  }

  /** Such a row is left by the very first submitter, if it dies right after its save. */
  lemma DeadSubmitterExists(tenant: string, ping: bool, item: string)
    requires tenant != ""
    ensures var s := Run(EMPTY, [Arrive(tenant, ping, item), Find(0), SaveStep(0), Die(0)]);
      && IsSend(s.store, KeyFor(tenant, ping, item), 1) && StatusOf(s.store, 1) == Some(Pending)
      && forall sub <- s.subs :: Active(sub.pc) ==> sub.pc.id != 1
  {
    var key := KeyFor(tenant, ping, item);
    var steps := [Arrive(tenant, ping, item), Find(0), SaveStep(0), Die(0)];
    var s1 := Apply(EMPTY, steps[0]);
    var s2 := Apply(s1, Find(0));
    assert s2.subs == [Submitter(key, Looked)] && s2.store == EMPTY.store;
    var s3 := Apply(s2, SaveStep(0));
    assert s3.subs == [Submitter(key, Stored(1))];
    var s4 := Apply(s3, Die(0));
    assert s4.subs == [Submitter(key, Finished(Refused))];
    assert steps[1..][1..][1..] == [Die(0)];
    assert Run(s3, [Die(0)]) == Run(s4, []) == s4;
    assert Run(s2, steps[1..][1..]) == Run(s3, steps[1..][1..][1..]);
    assert Run(s1, steps[1..]) == Run(s2, steps[1..][1..]);
  }

  // Ways to a SEND.

  lemma {:induction false} LaterStarts(s: Sys, a: seq<Step>, b: seq<Step>, key: SendKey)
    requires RunStarts(Run(s, a), b, key)
    ensures RunStarts(s, a + b, key)
    decreases |a|
  {
    hide Apply;
    if a == [] {
      assert a + b == b;
    } else {
      assert (a + b)[1..] == a[1..] + b;
      LaterStarts(Apply(s, a[0]), a[1..], b, key);
    }
  }

  function Newcomer(s: Sys, tenant: string, ping: bool, item: string): seq<Step> {
    var n := |s.subs|;
    [Arrive(tenant, ping, item), Find(n), SaveStep(n), StartHttp(n)]
  }

  lemma NewcomerStarts(s: Sys, tenant: string, ping: bool, item: string)
    requires var key := KeyFor(tenant, ping, item);
      tenant != "" && (Latest(s.store, key).Some? ==> StatusOf(s.store, Latest(s.store, key).value) == Some(Failed))
    ensures RunStarts(s, Newcomer(s, tenant, ping, item), KeyFor(tenant, ping, item))
  {
    var key, n := KeyFor(tenant, ping, item), |s.subs|;
    var s1 := Apply(s, Arrive(tenant, ping, item));
    var s2 := Apply(s1, Find(n));
    assert s2.subs[n] == Submitter(key, Looked) && s2.store == s.store;
    var s3 := Apply(s2, SaveStep(n));
    assert s3.subs[n].pc.Stored? && s3.subs[n].key == key;
    var steps := Newcomer(s, tenant, ping, item);
    assert RunStarts(s3, [StartHttp(n)], key);
    assert steps[1..][1..][1..] == [StartHttp(n)];
    assert RunStarts(s2, steps[1..][1..], key);
    assert RunStarts(s1, steps[1..], key);
  }

  lemma FailedThenNewcomer(s: Sys, i: nat, tenant: string, ping: bool, item: string)
    requires Inv(s) && i < |s.subs| && s.subs[i].pc.Got? && !s.subs[i].pc.ok
    requires s.subs[i].key == KeyFor(tenant, ping, item) && tenant != ""
    ensures MayStart(s, KeyFor(tenant, ping, item))
  {
    hide RunStarts;
    var key := KeyFor(tenant, ping, item);
    assert SubOk(s.store, s.subs[i]);
    var t := Apply(s, Record(i, ""));
    LatestAfterUpdate(s.store, s.subs[i].pc.id, Some(Failed), "", key);
    assert Run(s, [Record(i, "")]) == Run(t, []) == t;
    NewcomerStarts(t, tenant, ping, item);
    LaterStarts(s, [Record(i, "")], Newcomer(t, tenant, ping, item), key);
    MayStartBy(s, [Record(i, "")] + Newcomer(t, tenant, ping, item), key);
  }

  lemma MayStartBy(s: Sys, steps: seq<Step>, key: SendKey)
    requires RunStarts(s, steps, key)
    ensures MayStart(s, key)
  {
  }

  lemma MayStartLater(s: Sys, step: Step, key: SendKey)
    requires MayStart(Apply(s, step), key)
    ensures MayStart(s, key)
  {
    var steps :| RunStarts(Apply(s, step), steps, key);
    assert ([step] + steps)[1..] == steps;
    assert RunStarts(s, [step] + steps, key);
  }

  lemma HolderStarts(s: Sys, i: nat, tenant: string, ping: bool, item: string)
    requires Inv(s) && i < |s.subs| && Active(s.subs[i].pc) && !(s.subs[i].pc.Got? && s.subs[i].pc.ok)
    requires s.subs[i].key == KeyFor(tenant, ping, item) && tenant != ""
    ensures MayStart(s, KeyFor(tenant, ping, item))
  {
    hide Inv;
    var key := KeyFor(tenant, ping, item);
    if s.subs[i].pc.Stored? {
      assert RunStarts(s, [StartHttp(i)], key);
    } else if s.subs[i].pc.InFlight? {
      EndKeeps(s, i, false);
      FailedThenNewcomer(Apply(s, EndHttp(i, false)), i, tenant, ping, item);
      MayStartLater(s, EndHttp(i, false), key);
    } else {
      FailedThenNewcomer(s, i, tenant, ping, item);
    }
  }

  lemma NoTenantStep(s: Sys, step: Step, key: SendKey)
    requires Inv(s) && key.tenant == ""
    ensures !Starts(s, step, key)
  {
    if step.StartHttp? && step.i < |s.subs| {
      assert SubOk(s.store, s.subs[step.i]);
    }
  }

  lemma {:induction false} NoTenantNoStart(s: Sys, steps: seq<Step>, key: SendKey)
    requires Inv(s) && key.tenant == ""
    ensures !RunStarts(s, steps, key)
    decreases |steps|
  {
    if steps != [] {
      NoTenantStep(s, steps[0], key);
      StepKeepsInv(s, steps[0]);
      NoTenantNoStart(Apply(s, steps[0]), steps[1..], key);
    }
  }

  /** The exact condition, in any reachable state, for another SEND under the key. */
  lemma MayStartExactly(s: Sys, tenant: string, ping: bool, item: string)
    requires Inv(s)
    ensures var key := KeyFor(tenant, ping, item);
      MayStart(s, key) <==> tenant != "" && !exists id :: Shut(s, key, id)
  {
    hide Inv, RunStarts;
    var key := KeyFor(tenant, ping, item);
    if tenant == "" {
      forall steps ensures !RunStarts(s, steps, key) {
        NoTenantNoStart(s, steps, key);
      }
    } else if id :| Shut(s, key, id) {
      forall steps ensures !RunStarts(s, steps, key) {
        ShutRun(s, steps, key, id);
      }
    } else {
      OpenKeyStarts(s, tenant, ping, item);
    }
  }

  lemma OpenKeyStarts(s: Sys, tenant: string, ping: bool, item: string)
    requires Inv(s) && tenant != ""
    requires forall id :: !Shut(s, KeyFor(tenant, ping, item), id)
    ensures MayStart(s, KeyFor(tenant, ping, item))
  {
    hide RunStarts, Inv;
    var key := KeyFor(tenant, ping, item);
    var latest := Latest(s.store, key);
    if latest.Some? && StatusOf(s.store, latest.value) != Some(Failed) {
      assert !Shut(s, key, latest.value);
      var i :| 0 <= i < |s.subs| && CanStillFail(s.subs[i], latest.value);
      HolderKey(s, i, key);
      HolderStarts(s, i, tenant, ping, item);
    } else {
      NewcomerStarts(s, tenant, ping, item);
      MayStartBy(s, Newcomer(s, tenant, ping, item), key);
    }
  }

  lemma HolderKey(s: Sys, i: nat, key: SendKey)
    requires Inv(s) && i < |s.subs| && Active(s.subs[i].pc) && IsSend(s.store, key, s.subs[i].pc.id)
    ensures s.subs[i].key == key
  {
    assert SubOk(s.store, s.subs[i]);
  }

  // ---------------------------------------------------------------- what submitters are told

  /** Two SENDs have the same key exactly if tenant, check type and item are the same. */
  lemma KeysAreApart(tenant: string, ping: bool, item: string, tenant': string, ping': bool, item': string)
    ensures KeyFor(tenant, ping, item) == KeyFor(tenant', ping', item') <==>
      tenant == tenant' && ping == ping' && item == item'
    ensures KeyFor(tenant, true, item) == SendKey(tenant, "SEND:ping:" + item)
    ensures KeyFor(tenant, false, item) == SendKey(tenant, "SEND:hlr:" + item)
  {
    var a, b := KeyFor(tenant, ping, item).name, KeyFor(tenant', ping', item').name;
    assert a[5] == if ping then 'p' else 'h';
    assert b[5] == if ping' then 'p' else 'h';
    assert ping ==> a[10..] == item;
    assert !ping ==> a[9..] == item;
    assert ping' ==> b[10..] == item';
    assert !ping' ==> b[9..] == item';
  }

  /** What the store says of a key. */
  function KeyStatus(s: Sys, key: SendKey): Option<Status> {
    var latest := Latest(s.store, key);
    if latest.Some? then StatusOf(s.store, latest.value) else None
  }

  /** What a submitter meets at its first look: the earlier result, a refusal, or a free way. */
  lemma FirstLook(s: Sys, i: nat)
    requires i < |s.subs| && s.subs[i].pc == Start
    ensures var key, t := s.subs[i].key, Apply(s, Find(i));
      && (KeyStatus(s, key) == Some(Succeeded) ==> t.subs[i].pc == Finished(Accepted(Latest(s.store, key).value)))
      && (KeyStatus(s, key) == Some(Pending) ==> t.subs[i].pc == Finished(Refused))
      && (KeyStatus(s, key) in {None, Some(Failed)} ==> t.subs[i].pc == Looked)
      && t.store == s.store && t.sends == s.sends
  {
    hide Latest;
  }

  /** And at its save, which looks again: a new pending row, the earlier result, or a refusal. */
  lemma SecondLook(s: Sys, i: nat)
    requires i < |s.subs| && s.subs[i].pc == Looked && s.subs[i].key.name != ""
    ensures var key, t := s.subs[i].key, Apply(s, SaveStep(i));
      if key.tenant == "" then t.subs[i].pc == Finished(Refused) && t.store == s.store
      else
        && (KeyStatus(s, key) == Some(Succeeded) ==>
              t.subs[i].pc == Deduped(Latest(s.store, key).value) && t.store == s.store)
        && (KeyStatus(s, key) == Some(Pending) ==> t.subs[i].pc == Finished(Refused) && t.store == s.store)
        && (KeyStatus(s, key) in {None, Some(Failed)} ==>
              var n := s.store.seqNo + 1;
              && t.subs[i].pc == Stored(n) && t.store.seqNo == n
              && t.store.requests == s.store.requests[n := Request(true, key, Pending, n, "")])
  {
    hide Latest;
  }

  /** What the answer of the SEND leaves: the row as it went, with the provider's id, and the report. */
  lemma AnswerRecorded(s: Sys, i: nat, message: string)
    requires i < |s.subs| && s.subs[i].pc.Got? && s.subs[i].pc.id in s.store.requests
    ensures var pc, t := s.subs[i].pc, Apply(s, Record(i, message));
      var row := s.store.requests[pc.id];
      && t.subs[i].pc == Finished(if pc.ok then Accepted(pc.id) else Refused)
      && t.store.requests == s.store.requests[pc.id :=
           row.(status := if pc.ok then Succeeded else Failed,
                message := if message != "" then message else row.message)]
  {
  }

  /** Once a SEND of the key has succeeded, every submitter that runs to its end is told its id. */
  lemma LatecomersReuse(s: Sys, i: nat, id: nat)
    requires Inv(s) && i < |s.subs| && IsSend(s.store, s.subs[i].key, id) && StatusOf(s.store, id) == Some(Succeeded)
    ensures s.subs[i].pc == Start ==> Apply(s, Find(i)).subs[i].pc == Finished(Accepted(id))
    ensures s.subs[i].pc == Looked && s.subs[i].key.tenant != "" ==>
      Apply(Apply(s, SaveStep(i)), FindSucceeded(i)).subs[i].pc == Finished(Accepted(id))
  {
    LatestIfNotFailed(s, s.subs[i].key, id);
    assert SubOk(s.store, s.subs[i]);
  }

  /** The HTTP call: one SEND noted when it starts, its answer as it came when it ends. */
  lemma HttpCall(s: Sys, i: nat, ok: bool)
    requires i < |s.subs|
    ensures s.subs[i].pc.Stored? ==>
      var t := Apply(s, StartHttp(i));
      && t.subs[i].pc == InFlight(s.subs[i].pc.id) && t.sends == s.sends + [Sent(s.subs[i].key, s.subs[i].pc.id)]
      && t.store == s.store
    ensures s.subs[i].pc.InFlight? ==>
      var t := Apply(s, EndHttp(i, ok));
      t.subs[i].pc == Got(s.subs[i].pc.id, ok) && t.store == s.store && t.sends == s.sends
  {
  }

  /** A lost update changes the report not at all and the row not either; a death leaves no report. */
  lemma LostAndDead(s: Sys, i: nat)
    requires i < |s.subs|
    ensures s.subs[i].pc.Got? ==>
      var t := Apply(s, LoseRecord(i));
      t.subs[i].pc == Finished(if s.subs[i].pc.ok then Accepted(s.subs[i].pc.id) else Refused) && t.store == s.store
    ensures !s.subs[i].pc.Finished? ==>
      var t := Apply(s, Die(i)); t.subs[i].pc == Finished(Refused) && t.store == s.store && t.sends == s.sends
  {
  }

  /** Other requests and callbacks draw a number each; other requests keep their own row. */
  lemma OtherNumbers(s: Sys, key: SendKey, status: Status, id: nat, message: string)
    ensures Apply(s, Callback) == s.(store := s.store.(seqNo := s.store.seqNo + 1))
    ensures var n := s.store.seqNo + 1;
      Apply(s, Elsewhere(key, status)) ==
        s.(store := Store(s.store.requests[n := Request(false, key, status, n, "")], n))
    ensures id in s.store.requests && s.store.requests[id].send ==> Apply(s, ElsewhereUpdate(id, status, message)) == s
    ensures id in s.store.requests && !s.store.requests[id].send && message != "" ==>
      var row := s.store.requests[id].(status := status, message := message);
      Apply(s, ElsewhereUpdate(id, status, message)) ==
        s.(store := s.store.(requests := s.store.requests[id := row]))
  {
  }
}
