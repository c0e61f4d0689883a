/**
 * Concurrent submitters of checks to the provider, over the shared request store.
 *
 * Each submitter walks through find, save, HTTP SEND and update; the steps of any number
 * of submitters, for any keys, interleave, and a submitter may die anywhere. The history
 * keeps one entry for every SEND that was started: its key and its request id.
 */
module Submit {
  import opened Common
  import opened Requests

  datatype Outcome = Accepted(id: nat) | Refused

  datatype Pc =
    | Start
    | Looked
    | Deduped(id: nat)
    | Stored(id: nat)
    | InFlight(id: nat)
    | Got(id: nat, ok: bool)
    | Finished(outcome: Outcome)

  datatype Submitter = Submitter(key: SendKey, pc: Pc)

  datatype Sent = Sent(key: SendKey, id: nat)

  datatype Sys = Sys(store: Store, subs: seq<Submitter>, sends: seq<Sent>)

  /** `Elsewhere` is any other stored request, `Callback` a stored callback: both draw a number. */
  datatype Step =
    | Arrive(tenant: string, ping: bool, item: string)
    | Find(i: nat)
    | SaveStep(i: nat)
    | FindSucceeded(i: nat)
    | StartHttp(i: nat)
    | EndHttp(i: nat, ok: bool)
    | Record(i: nat, message: string)
    | LoseRecord(i: nat)
    | Die(i: nat)
    | Elsewhere(key: SendKey, status: Status)
    | ElsewhereUpdate(id: nat, status: Status, message: string)
    | Callback

  /** The key of a SEND: its tenant, and the check type with the item's own key. */
  function KeyFor(tenant: string, ping: bool, item: string): SendKey {
    SendKey(tenant, "SEND:" + (if ping then "ping" else "hlr") + ":" + item)
  }

  function Go(s: Sys, i: nat, pc: Pc): Sys
    requires i < |s.subs|
  {
    s.(subs := s.subs[i := s.subs[i].(pc := pc)])
  }

  function NewSend(key: SendKey): Request {
    Request(true, key, Pending, 0, "")
  }

  function Look(s: Sys, i: nat): Sys
    requires i < |s.subs|
  {
    var latest := Latest(s.store, s.subs[i].key);
    if latest.Some? && s.store.requests[latest.value].status == Succeeded
      then Go(s, i, Finished(Accepted(latest.value)))
    else if latest.Some? && s.store.requests[latest.value].status == Pending then Go(s, i, Finished(Refused))
    else Go(s, i, Looked)
  }

  function StoreSend(s: Sys, i: nat): Sys
    requires i < |s.subs|
  {
    var req := NewSend(s.subs[i].key);
    match SaveOutcome(s.store, req)
    case Fresh(id) => Go(s, i, Stored(id)).(store := Save(s.store, req))
    case Reused(id) => Go(s, i, Deduped(id))
    case _ => Go(s, i, Finished(Refused))
  }

  /** After a deduplicated save: reuse the succeeded row; without one the code would send. */
  function Reuse(s: Sys, i: nat, id: nat): Sys
    requires i < |s.subs|
  {
    var latest := Latest(s.store, s.subs[i].key);
    if latest.Some? && s.store.requests[latest.value].status == Succeeded
      then Go(s, i, Finished(Accepted(latest.value)))
    else Go(s, i, Stored(id))
  }

  /** One step; a step that is not enabled changes nothing. */
  function Apply(s: Sys, step: Step): Sys {
    match step
    case Arrive(tenant, ping, item) => s.(subs := s.subs + [Submitter(KeyFor(tenant, ping, item), Start)])
    case Find(i) => if i < |s.subs| && s.subs[i].pc.Start? then Look(s, i) else s
    case SaveStep(i) => if i < |s.subs| && s.subs[i].pc.Looked? then StoreSend(s, i) else s
    case FindSucceeded(i) => if i < |s.subs| && s.subs[i].pc.Deduped? then Reuse(s, i, s.subs[i].pc.id) else s
    case StartHttp(i) =>
      if i < |s.subs| && s.subs[i].pc.Stored? then
        Go(s, i, InFlight(s.subs[i].pc.id)).(sends := s.sends + [Sent(s.subs[i].key, s.subs[i].pc.id)])
      else s
    case EndHttp(i, ok) => if i < |s.subs| && s.subs[i].pc.InFlight? then Go(s, i, Got(s.subs[i].pc.id, ok)) else s
    case Record(i, message) =>
      if i < |s.subs| && s.subs[i].pc.Got? then
        var pc := s.subs[i].pc;
        Go(s, i, Finished(if pc.ok then Accepted(pc.id) else Refused)).(
          store := Update(s.store, pc.id, Some(if pc.ok then Succeeded else Failed), message))
      else s
    case LoseRecord(i) =>
      if i < |s.subs| && s.subs[i].pc.Got? then
        Go(s, i, Finished(if s.subs[i].pc.ok then Accepted(s.subs[i].pc.id) else Refused))
      else s
    case Die(i) => if i < |s.subs| && !s.subs[i].pc.Finished? then Go(s, i, Finished(Refused)) else s
    case Elsewhere(key, status) => s.(store := Insert(s.store, Request(false, key, status, 0, "")))
    case ElsewhereUpdate(id, status, message) =>
      if id in s.store.requests && !s.store.requests[id].send
        then s.(store := Update(s.store, id, Some(status), message)) else s
    case Callback => s.(store := Bump(s.store))
  }

  function Run(s: Sys, steps: seq<Step>): Sys
    decreases |steps|
  {
    if steps == [] then s else Run(Apply(s, steps[0]), steps[1..])
  }

  const EMPTY: Sys := Sys(Store(map[], 0), [], [])

  // ---------------------------------------------------------------- invariant

  predicate Active(pc: Pc) {
    pc.Stored? || pc.InFlight? || pc.Got?
  }

  predicate IsLatest(st: Store, key: SendKey, id: nat) {
    IsSend(st, key, id) && Latest(st, key) == Some(id)
  }

  function StatusOf(st: Store, id: nat): Option<Status> {
    if id in st.requests then Some(st.requests[id].status) else None
  }

  /** Every SEND row that has not failed is the latest of its key. */
  predicate RowsOk(st: Store) {
    forall id :: id in st.requests && st.requests[id].send && st.requests[id].status != Failed ==>
      IsLatest(st, st.requests[id].key, id)
  }

  predicate SubOk(st: Store, sub: Submitter) {
    && sub.key.name != ""
    && (Active(sub.pc) ==> sub.key.tenant != "")
    && (Active(sub.pc) ==> IsLatest(st, sub.key, sub.pc.id) && StatusOf(st, sub.pc.id) == Some(Pending))
    && (sub.pc.Deduped? ==> IsLatest(st, sub.key, sub.pc.id) && StatusOf(st, sub.pc.id) == Some(Succeeded))
    && (sub.pc.Finished? && sub.pc.outcome.Accepted? ==>
          IsSend(st, sub.key, sub.pc.outcome.id) && StatusOf(st, sub.pc.outcome.id) != Some(Failed))
  }

  predicate SubsOk(s: Sys) {
    forall i :: 0 <= i < |s.subs| ==> SubOk(s.store, s.subs[i])
  }

  /** No two submitters work on one row, and a row reported accepted has no one working on it. */
  predicate Apart(a: Submitter, b: Submitter) {
    && (Active(a.pc) && Active(b.pc) ==> a.pc.id != b.pc.id)
    && (Active(a.pc) && b.pc.Finished? && b.pc.outcome.Accepted? ==> a.pc.id != b.pc.outcome.id)
  }

  predicate AllApart(s: Sys) {
    forall i, j :: 0 <= i < |s.subs| && 0 <= j < |s.subs| && i != j ==> Apart(s.subs[i], s.subs[j])
  }

  /** Every SEND started belongs to a row of its own, whose submitter is past the start. */
  predicate SendsOk(s: Sys) {
    && (forall k :: 0 <= k < |s.sends| ==> IsSend(s.store, s.sends[k].key, s.sends[k].id))
    && (forall k, i ::
          0 <= k < |s.sends| && 0 <= i < |s.subs| && s.subs[i].pc.Stored? ==> s.subs[i].pc.id != s.sends[k].id)
    && (forall j, k :: 0 <= j < k < |s.sends| ==> s.sends[j].id != s.sends[k].id)
  }

  predicate Inv(s: Sys) {
    StoreOk(s.store) && RowsOk(s.store) && SubsOk(s) && AllApart(s) && SendsOk(s)
  }
}
