/** The in-memory store of provider requests: its values, and the class that updates them. */
module Requests {
  import opened Common

  datatype Status = Pending | Succeeded | Failed

  /** What a SEND is deduplicated by; the provider code is one constant. */
  datatype SendKey = SendKey(tenant: string, name: string)

  /** A stored request: a SEND under its key, or any other call to the provider. */
  datatype Request = Request(send: bool, key: SendKey, status: Status, seqNo: nat, message: string)

  /** Ids are "req_<n>" for the n-th number drawn from the counter; `n` stands for the id. */
  datatype Store = Store(requests: map<nat, Request>, seqNo: nat)

  datatype Saved = Fresh(id: nat) | Reused(id: nat) | Conflict | NoTenant

  predicate IsSend(st: Store, key: SendKey, id: nat) {
    id in st.requests && st.requests[id].send && st.requests[id].key == key
  }

  predicate StoreOk(st: Store) {
    forall id :: id in st.requests ==> 1 <= id <= st.seqNo && st.requests[id].seqNo == id
  }

  /** The newest SEND of the key numbered at most `n`. */
  function LatestUpTo(st: Store, key: SendKey, n: nat): (r: Option<nat>)
    ensures r.Some? ==> 1 <= r.value <= n && IsSend(st, key, r.value)
    ensures forall id: nat :: 1 <= id <= n && IsSend(st, key, id) ==> r.Some? && id <= r.value
  {
    if n == 0 then None
    else if IsSend(st, key, n) then Some(n)
    else LatestUpTo(st, key, n - 1)
  }

  function Latest(st: Store, key: SendKey): (r: Option<nat>)
    ensures r.Some? ==> IsSend(st, key, r.value)
    ensures StoreOk(st) ==> forall id: nat :: IsSend(st, key, id) ==> r.Some? && id <= r.value
  {
    LatestUpTo(st, key, st.seqNo)
  }

  function Insert(st: Store, req: Request): Store {
    var n := st.seqNo + 1;
    Store(st.requests[n := req.(seqNo := n)], n)
  }

  /** A SEND under a key that succeeded is not stored again, one in flight is refused. */
  function SaveOutcome(st: Store, req: Request): Saved {
    if req.send && req.key.name != "" then
      if req.key.tenant == "" then NoTenant
      else
        var latest := Latest(st, req.key);
        if latest.Some? && st.requests[latest.value].status == Succeeded then Reused(latest.value)
        else if latest.Some? && st.requests[latest.value].status == Pending then Conflict
        else Fresh(st.seqNo + 1)
    else Fresh(st.seqNo + 1)
  }

  function Save(st: Store, req: Request): Store {
    if SaveOutcome(st, req).Fresh? then Insert(st, req) else st
  }

  /** A missing id is ignored; an empty patch field keeps the stored value. */
  function Update(st: Store, id: nat, status: Option<Status>, message: string): Store {
    if id !in st.requests then st
    else
      var r := st.requests[id];
      var r1 := if status.Some? then r.(status := status.value) else r;
      var r2 := if message != "" then r1.(message := message) else r1;
      st.(requests := st.requests[id := r2])
  }

  function Bump(st: Store): Store {
    st.(seqNo := st.seqNo + 1)
  }

  lemma {:induction false} LatestUpToFrame(a: Store, b: Store, key: SendKey, n: nat)
    requires forall id: nat :: 1 <= id <= n ==> IsSend(a, key, id) == IsSend(b, key, id)
    ensures LatestUpTo(a, key, n) == LatestUpTo(b, key, n)
  {
    if n > 0 {
      LatestUpToFrame(a, b, key, n - 1);
    }
  }

  lemma {:induction false} LatestAfterUpdate(st: Store, id: nat, status: Option<Status>, message: string, key: SendKey)
    ensures Latest(Update(st, id, status, message), key) == Latest(st, key)
  {
    LatestUpToFrame(st, Update(st, id, status, message), key, st.seqNo);
  }

  lemma {:induction false} LatestAfterInsert(st: Store, req: Request, key: SendKey)
    requires StoreOk(st)
    ensures StoreOk(Insert(st, req))
    ensures Latest(Insert(st, req), key) == if req.send && req.key == key then Some(st.seqNo + 1) else Latest(st, key)
  {
    LatestUpToFrame(st, Insert(st, req), key, st.seqNo);
  }

  /** A save is answered by the newest SEND of its key alone; one without a key is always stored. */
  lemma SaveDecides(st: Store, req: Request, id: nat)
    requires StoreOk(st)
    ensures var named := req.send && req.key.name != "";
            var newest := named && req.key.tenant != "" && IsSend(st, req.key, id)
              && forall x: nat :: IsSend(st, req.key, x) ==> x <= id;
            && (SaveOutcome(st, req) == NoTenant <==> named && req.key.tenant == "")
            && (SaveOutcome(st, req) == Reused(id) <==> newest && st.requests[id].status == Succeeded)
            && (newest ==> (SaveOutcome(st, req) == Conflict <==> st.requests[id].status == Pending))
            && (!named ==> SaveOutcome(st, req) == Fresh(st.seqNo + 1))
            && (SaveOutcome(st, req).Fresh? ==>
                  Save(st, req).requests == st.requests[st.seqNo + 1 := req.(seqNo := st.seqNo + 1)])
            && (!SaveOutcome(st, req).Fresh? ==> Save(st, req) == st)
  {
  }

  /** A patch touches one row and of it only the fields it names. */
  lemma PatchKeeps(st: Store, id: nat, status: Option<Status>, message: string)
    ensures var after := Update(st, id, status, message);
            && after.seqNo == st.seqNo && after.requests.Keys == st.requests.Keys
            && (forall x :: x in st.requests && x != id ==> after.requests[x] == st.requests[x])
            && (id in st.requests ==>
                  && after.requests[id].(status := Pending, message := "") ==
                       st.requests[id].(status := Pending, message := "")
                  && (if status.Some? then Some(after.requests[id].status) == status
                      else after.requests[id].status == st.requests[id].status)
                  && after.requests[id].message == if message == "" then st.requests[id].message else message)
  {
  }

  lemma LatestAfterBump(st: Store, key: SendKey)
    requires StoreOk(st)
    ensures Latest(Bump(st), key) == Latest(st, key)
  {
    LatestUpToFrame(st, Bump(st), key, st.seqNo);
  }

  /** The store as the program keeps it: a map of records and a counter, updated in place. */
  class Memory {
    var requests: map<nat, Request>
    var seqNo: nat

    function State(): Store
      reads this
    {
      Store(requests, seqNo)
    }

    constructor ()
      ensures State() == Store(map[], 0) && StoreOk(State())
    {
      requests := map[];
      seqNo := 0;
    }

    /** The scan over the records in no particular order, keeping the highest number seen. */
    method LatestSend(key: SendKey) returns (best: Option<nat>)
      ensures StoreOk(State()) ==> best == Latest(State(), key)
    {
      best := None;
      var rest := requests.Keys;
      while rest != {}
        invariant rest <= requests.Keys
        invariant best.Some? ==> IsSend(State(), key, best.value)
        invariant forall id :: IsSend(State(), key, id) && id !in rest ==>
          best.Some? && requests[id].seqNo <= requests[best.value].seqNo
        decreases |rest|
      {
        var id :| id in rest;
        rest := rest - {id};
        if requests[id].send && requests[id].key == key {
          if best.None? || requests[id].seqNo >= requests[best.value].seqNo {
            best := Some(id);
          }
        }
      }
    }

    method FindLatestSend(key: SendKey) returns (r: Option<Request>)
      ensures StoreOk(State()) ==>
        r == (match Latest(State(), key) case None => None case Some(id) => Some(requests[id]))
    {
      var id := LatestSend(key);
      r := if id.Some? && id.value in requests then Some(requests[id.value]) else None;
    }

    method FindSucceededSend(key: SendKey) returns (r: Option<Request>)
      ensures StoreOk(State()) ==>
        (r.Some? <==> exists id ::
              Latest(State(), key) == Some(id) && requests[id].status == Succeeded && r == Some(requests[id]))
    {
      var id := LatestSend(key);
      if id.Some? && id.value in requests && requests[id.value].status == Succeeded {
        r := Some(requests[id.value]);
      } else {
        r := None;
      }
    }

    method SaveRequest(req: Request) returns (saved: Saved)
      modifies this
      ensures old(StoreOk(State())) ==>
        StoreOk(State()) && saved == SaveOutcome(old(State()), req) && State() == Save(old(State()), req)
    {
      ghost var before := State();
      if req.key.name != "" && req.send {
        if req.key.tenant == "" {
          return NoTenant;
        }
        var existing := LatestSend(req.key);
        if existing.Some? && existing.value in requests && requests[existing.value].status == Succeeded {
          return Reused(existing.value);
        }
        if existing.Some? && existing.value in requests && requests[existing.value].status == Pending {
          return Conflict;
        }
      }
      seqNo := seqNo + 1;
      var id := seqNo;
      requests := requests[id := req.(seqNo := seqNo)];
      saved := Fresh(id);
      assert State() == Insert(before, req);
    }

    method UpdateRequest(id: nat, status: Option<Status>, message: string)
      modifies this
      ensures State() == Update(old(State()), id, status, message)
      ensures old(StoreOk(State())) ==> StoreOk(State())
    {
      if id !in requests {
        return;
      }
      var current := requests[id];
      if status.Some? {
        current := current.(status := status.value);
      }
      if message != "" {
        current := current.(message := message);
      }
      requests := requests[id := current];
    }
  }
}
