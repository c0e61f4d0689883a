/** What every interleaving of submitters keeps. */
module SubmitRuns {
  import opened Common
  import opened Requests
  import opened Submit

  lemma PcStep(s: Sys, i: nat, pc: Pc)
    requires Inv(s) && i < |s.subs|
    requires SubOk(s.store, Submitter(s.subs[i].key, pc))
    requires Active(pc) ==> Active(s.subs[i].pc) && pc.id == s.subs[i].pc.id && !pc.Stored?
    requires pc.Finished? && pc.outcome.Accepted? ==>
      StatusOf(s.store, pc.outcome.id) == Some(Succeeded) || (Active(s.subs[i].pc) && pc.outcome.id == s.subs[i].pc.id)
    ensures Inv(Go(s, i, pc))
  {
    var t := Go(s, i, pc);
    forall j, k | 0 <= j < |t.subs| && 0 <= k < |t.subs| && j != k ensures Apart(t.subs[j], t.subs[k]) {
      assert Apart(s.subs[j], s.subs[k]);
      assert SubOk(s.store, s.subs[j]) && SubOk(s.store, s.subs[k]);
    }
  }

  lemma FindKeeps(s: Sys, i: nat)
    requires Inv(s)
    ensures Inv(Apply(s, Find(i)))
  {
    if i < |s.subs| && s.subs[i].pc.Start? {
      var latest := Latest(s.store, s.subs[i].key);
      if latest.Some? && s.store.requests[latest.value].status == Succeeded {
        PcStep(s, i, Finished(Accepted(latest.value)));
      } else if latest.Some? && s.store.requests[latest.value].status == Pending {
        PcStep(s, i, Finished(Refused));
      } else {
        PcStep(s, i, Looked);
      }
    }
  }

  lemma FindSucceededKeeps(s: Sys, i: nat)
    requires Inv(s)
    ensures Inv(Apply(s, FindSucceeded(i)))
  {
    if i < |s.subs| && s.subs[i].pc.Deduped? {
      assert SubOk(s.store, s.subs[i]);
      PcStep(s, i, Finished(Accepted(s.subs[i].pc.id)));
    }
  }

  /** A row is stored for a key whose latest SEND failed, or that has none. */
  lemma InsertKeeps(s: Sys, i: nat)
    requires Inv(s) && i < |s.subs| && s.subs[i].pc.Looked?
    requires SaveOutcome(s.store, NewSend(s.subs[i].key)).Fresh?
    ensures Inv(Apply(s, SaveStep(i)))
  {
    var key := s.subs[i].key;
    var req := NewSend(key);
    var n := s.store.seqNo + 1;
    var t := Apply(s, SaveStep(i));
    forall k: SendKey ensures Latest(t.store, k) == if k == key then Some(n) else Latest(s.store, k) {
      LatestAfterInsert(s.store, req, k);
    }
    InsertRows(s, t, key);
    InsertSubs(s, t, i);
  }

  lemma InsertRows(s: Sys, t: Sys, key: SendKey)
    requires Inv(s) && t.store == Insert(s.store, NewSend(key))
    requires forall k: SendKey :: Latest(t.store, k) == if k == key then Some(s.store.seqNo + 1) else Latest(s.store, k)
    requires Latest(s.store, key).Some? ==> StatusOf(s.store, Latest(s.store, key).value) == Some(Failed)
    ensures StoreOk(t.store) && RowsOk(t.store)
  {
    forall id | id in t.store.requests && t.store.requests[id].send && t.store.requests[id].status != Failed
      ensures IsLatest(t.store, t.store.requests[id].key, id)
    {
      if id != s.store.seqNo + 1 {
        assert IsLatest(s.store, s.store.requests[id].key, id);
      }
    }
  }

  lemma InsertSubs(s: Sys, t: Sys, i: nat)
    requires Inv(s) && i < |s.subs| && s.subs[i].pc.Looked? && s.subs[i].key.tenant != ""
    requires var key, n := s.subs[i].key, s.store.seqNo + 1;
      && t == Go(s, i, Stored(n)).(store := Insert(s.store, NewSend(key)))
      && (forall k: SendKey :: Latest(t.store, k) == if k == key then Some(n) else Latest(s.store, k))
      && (Latest(s.store, key).Some? ==> StatusOf(s.store, Latest(s.store, key).value) == Some(Failed))
    ensures SubsOk(t) && AllApart(t) && SendsOk(t)
  {
    forall j | 0 <= j < |t.subs| ensures SubOk(t.store, t.subs[j]) {
      assert SubOk(s.store, s.subs[j]);
    }
    forall j, k | 0 <= j < |t.subs| && 0 <= k < |t.subs| && j != k ensures Apart(t.subs[j], t.subs[k]) {
      assert Apart(s.subs[j], s.subs[k]);
      assert SubOk(s.store, s.subs[j]) && SubOk(s.store, s.subs[k]);
    }
  }

  lemma SaveKeeps(s: Sys, i: nat)
    requires Inv(s)
    ensures Inv(Apply(s, SaveStep(i)))
  {
    if i < |s.subs| && s.subs[i].pc.Looked? {
      match SaveOutcome(s.store, NewSend(s.subs[i].key))
      case Fresh(_) => InsertKeeps(s, i);
      case Reused(id) => PcStep(s, i, Deduped(id));
      case Conflict => PcStep(s, i, Finished(Refused));
      case NoTenant => PcStep(s, i, Finished(Refused));
    }
  }

  lemma StartKeeps(s: Sys, i: nat)
    requires Inv(s)
    ensures Inv(Apply(s, StartHttp(i)))
  {
    if i < |s.subs| && s.subs[i].pc.Stored? {
      var id := s.subs[i].pc.id;
      assert SubOk(s.store, s.subs[i]);
      PcStep(s, i, InFlight(id));
      forall k | 0 <= k < |s.subs| && k != i && s.subs[k].pc.Stored? ensures s.subs[k].pc.id != id {
        assert Apart(s.subs[k], s.subs[i]);
      }
    }
  }

  lemma EndKeeps(s: Sys, i: nat, ok: bool)
    requires Inv(s)
    ensures Inv(Apply(s, EndHttp(i, ok)))
  {
    if i < |s.subs| && s.subs[i].pc.InFlight? {
      assert SubOk(s.store, s.subs[i]);
      PcStep(s, i, Got(s.subs[i].pc.id, ok));
    }
  }

  lemma FinishKeeps(s: Sys, i: nat)
    requires Inv(s)
    ensures Inv(Apply(s, LoseRecord(i))) && Inv(Apply(s, Die(i)))
  {
    if i < |s.subs| && !s.subs[i].pc.Finished? {
      var pc := s.subs[i].pc;
      assert SubOk(s.store, s.subs[i]);
      PcStep(s, i, Finished(Refused));
      if pc.Got? && pc.ok {
        PcStep(s, i, Finished(Accepted(pc.id)));
      }
    }
  }

  /** Changing the status of a row nobody else works on. */
  lemma UpdateKeeps(s: Sys, id: nat, status: Status, message: string)
    requires Inv(s) && id in s.store.requests
    requires forall i :: 0 <= i < |s.subs| && s.store.requests[id].send ==>
      && (Active(s.subs[i].pc) ==> s.subs[i].pc.id != id)
      && (s.subs[i].pc.Finished? && s.subs[i].pc.outcome.Accepted? && s.subs[i].pc.outcome.id == id
        ==> status == Succeeded)
    requires s.store.requests[id].send ==> s.store.requests[id].status == Pending
    ensures Inv(s.(store := Update(s.store, id, Some(status), message)))
  {
    var t := s.(store := Update(s.store, id, Some(status), message));
    forall key: SendKey ensures Latest(t.store, key) == Latest(s.store, key) {
      LatestAfterUpdate(s.store, id, Some(status), message, key);
    }
    forall i | 0 <= i < |t.subs| ensures SubOk(t.store, t.subs[i]) {
      assert SubOk(s.store, s.subs[i]);
    }
  }

  lemma RecordKeeps(s: Sys, i: nat, message: string)
    requires Inv(s)
    ensures Inv(Apply(s, Record(i, message)))
  {
    if i < |s.subs| && s.subs[i].pc.Got? {
      var pc := s.subs[i].pc;
      FinishKeeps(s, i);
      var t := Apply(s, LoseRecord(i));
      var status := if pc.ok then Succeeded else Failed;
      assert SubOk(s.store, s.subs[i]);
      forall k | 0 <= k < |t.subs|
        ensures Active(t.subs[k].pc) ==> t.subs[k].pc.id != pc.id
        ensures t.subs[k].pc.Finished? && t.subs[k].pc.outcome.Accepted? && t.subs[k].pc.outcome.id == pc.id
            ==> status == Succeeded
      {
        assert k != i ==> Apart(s.subs[i], s.subs[k]);
      }
      UpdateKeeps(t, pc.id, status, message);
      assert Apply(s, Record(i, message)) == t.(store := Update(t.store, pc.id, Some(status), message));
    }
  }

  /** Numbers drawn by requests that are no SEND, and by callbacks, disturb nothing. */
  lemma OtherRowKeeps(s: Sys, st: Store)
    requires Inv(s) && StoreOk(st)
    requires forall key: SendKey :: Latest(st, key) == Latest(s.store, key)
    requires forall id :: id in s.store.requests ==> id in st.requests && st.requests[id] == s.store.requests[id]
    requires forall id :: id in st.requests && id !in s.store.requests ==> !st.requests[id].send
    ensures Inv(s.(store := st))
  {
    var t := s.(store := st);
    forall i | 0 <= i < |t.subs| ensures SubOk(t.store, t.subs[i]) {
      assert SubOk(s.store, s.subs[i]);
    }
  }

  lemma ElsewhereKeeps(s: Sys, key: SendKey, status: Status)
    requires Inv(s)
    ensures Inv(Apply(s, Elsewhere(key, status))) && Inv(Apply(s, Callback))
  {
    var req := Request(false, key, status, 0, "");
    LatestAfterInsert(s.store, req, key);
    forall k: SendKey
      ensures Latest(Insert(s.store, req), k) == Latest(s.store, k)
      ensures Latest(Bump(s.store), k) == Latest(s.store, k)
    {
      LatestAfterInsert(s.store, req, k);
      LatestAfterBump(s.store, k);
    }
    OtherRowKeeps(s, Insert(s.store, req));
    OtherRowKeeps(s, Bump(s.store));
  }

  lemma ArriveKeeps(s: Sys, tenant: string, ping: bool, item: string)
    requires Inv(s)
    ensures Inv(Apply(s, Arrive(tenant, ping, item)))
  {
    var t := Apply(s, Arrive(tenant, ping, item));
    forall i, j | 0 <= i < |t.subs| && 0 <= j < |t.subs| && i != j ensures Apart(t.subs[i], t.subs[j]) {
      assert i < |s.subs| && j < |s.subs| ==> Apart(s.subs[i], s.subs[j]);
    }
  }

  lemma StepKeepsInv(s: Sys, step: Step)
    requires Inv(s)
    ensures Inv(Apply(s, step))
  {
    hide Inv;
    match step
    case Arrive(tenant, ping, item) => ArriveKeeps(s, tenant, ping, item);
    case Find(i) => FindKeeps(s, i);
    case SaveStep(i) => SaveKeeps(s, i);
    case FindSucceeded(i) => FindSucceededKeeps(s, i);
    case StartHttp(i) => StartKeeps(s, i);
    case EndHttp(i, ok) => EndKeeps(s, i, ok);
    case Record(i, message) => RecordKeeps(s, i, message);
    case LoseRecord(i) => FinishKeeps(s, i);
    case Die(i) => FinishKeeps(s, i);
    case Elsewhere(key, status) => ElsewhereKeeps(s, key, status);
    case ElsewhereUpdate(id, status, message) =>
      if id in s.store.requests && !s.store.requests[id].send {
        UpdateKeeps(s, id, status, message);
      }
    case Callback => ElsewhereKeeps(s, SendKey("", ""), Pending);
  }

  lemma {:induction false} RunKeepsInv(s: Sys, steps: seq<Step>)
    requires Inv(s)
    ensures Inv(Run(s, steps))
    decreases |steps|
  {
    hide Inv, Apply;
    if steps != [] {
      StepKeepsInv(s, steps[0]);
      RunKeepsInv(Apply(s, steps[0]), steps[1..]);
    }
  }
}
