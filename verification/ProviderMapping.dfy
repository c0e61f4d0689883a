/** How a provider answer becomes a lifecycle and a result (internal/smsc/mapper.go). */
module ProviderMapping {
  import opened Common
  import opened Books

  datatype Lifecycle = AcceptedCycle | PendingCycle | CompletedCycle | FailedCycle

  /** A field of the answer: missing, present without a finite number, or a number. */
  datatype Field = Absent | Text | Number(value: real)

  datatype Reply =
    | NotAnObject
    | NonJson
    | Object(errorCode: bool, hasId: bool, status: Field, err: Field, error: string)

  datatype Mapped = Mapped(lifecycle: Lifecycle, result: ResultStatus)

  function MapStatus(status: Field, err: Field, error: string): Mapped {
    if !status.Number? && !err.Number? && error == "" then Mapped(PendingCycle, Unknown)
    else if status.Number? && status.value == -3.0 then Mapped(FailedCycle, ProviderError)
    else if status.Number? && (status.value == -1.0 || status.value == -2.0 || status.value == 0.0) then
      Mapped(PendingCycle, StillPending)
    else if status.Number? && (status.value == 1.0 || status.value == 2.0) then
      if !err.Number? then Mapped(PendingCycle, StillPending)
      else if err.value == 0.0 then Mapped(CompletedCycle, Reachable)
      else Mapped(CompletedCycle, Unreachable)
    else if status.Number? && status.value >= 3.0 then Mapped(CompletedCycle, Unreachable)
    else if err.Number? then
      if err.value == 0.0 then Mapped(CompletedCycle, Reachable) else Mapped(CompletedCycle, Unreachable)
    else if error != "" then Mapped(FailedCycle, ProviderError)
    else Mapped(PendingCycle, StillPending)
  }

  function MapResponse(reply: Reply): Mapped {
    match reply
    case NotAnObject => Mapped(FailedCycle, ProviderError)
    case NonJson => Mapped(FailedCycle, ProviderError)
    case Object(errorCode, hasId, status, err, error) =>
      if errorCode then Mapped(FailedCycle, ProviderError)
      else if hasId && status.Absent? && err.Absent? then Mapped(AcceptedCycle, StillPending)
      else MapStatus(status, err, error)
  }

  /** Every answer, well formed or not, maps to one of six consistent pairs. */
  lemma MappedConsistently(reply: Reply)
    ensures var m := MapResponse(reply);
      && (m.lifecycle.CompletedCycle? <==> m.result.Reachable? || m.result.Unreachable?)
      && (m.lifecycle.FailedCycle? <==> m.result.ProviderError?)
      && (m.lifecycle.AcceptedCycle? ==> m.result.StillPending?)
      && (m.result.Unknown? ==> m.lifecycle.PendingCycle?)
      && (FinalResult(m.result) <==> m.lifecycle.CompletedCycle? || m.lifecycle.FailedCycle?)
  {
  }

  /** Reachable exactly on err 0, unless the status says pending, failed, or 3 and above. */
  lemma ReachableExactly(status: Field, err: Field, error: string)
    ensures MapStatus(status, err, error).result.Reachable? <==>
            && err == Number(0.0)
            && (status.Number? ==> status.value < 3.0 && status.value !in {-3.0, -2.0, -1.0, 0.0})
    ensures MapStatus(status, err, error).result.Unknown? <==> !status.Number? && !err.Number? && error == ""
  {
  }

  /** The code as a number, if it is one of these. */
  predicate OneOf(f: Field, codes: set<real>) {
    f.Number? && f.value in codes
  }

  /** Exactly which codes mean what: no branch of the mapping is left open. */
  lemma StatusExactly(status: Field, err: Field, error: string)
    ensures var result := MapStatus(status, err, error).result;
      var silent := !OneOf(status, {-3.0, -2.0, -1.0, 0.0, 1.0, 2.0}) && !(status.Number? && status.value >= 3.0);
      && (result == StillPending <==>
            || OneOf(status, {-2.0, -1.0, 0.0})
            || (OneOf(status, {1.0, 2.0}) && !err.Number?)
            || (status.Number? && silent && !err.Number? && error == ""))
      && (result == Unreachable <==>
            || (status.Number? && status.value >= 3.0)
            || ((OneOf(status, {1.0, 2.0}) || silent) && err.Number? && err.value != 0.0))
      && (result == Reachable <==> (OneOf(status, {1.0, 2.0}) || silent) && err == Number(0.0))
      && (result == ProviderError <==> OneOf(status, {-3.0}) || (silent && !err.Number? && error != ""))
      && (result == Unknown <==> !status.Number? && !err.Number? && error == "")
  {
  }

  /** Exactly which answers fail outright, which only acknowledge, and which are judged by their codes. */
  lemma ResponseExactly(reply: Reply)
    ensures var m := MapResponse(reply);
      && (reply.NotAnObject? || reply.NonJson? || (reply.Object? && reply.errorCode) ==>
            m == Mapped(FailedCycle, ProviderError))
      && (m.lifecycle.AcceptedCycle? <==>
            reply.Object? && !reply.errorCode && reply.hasId && reply.status.Absent? && reply.err.Absent?)
      && (m.lifecycle.AcceptedCycle? ==> m.result == StillPending)
      && (reply.Object? && !reply.errorCode && !m.lifecycle.AcceptedCycle? ==>
            m == MapStatus(reply.status, reply.err, reply.error))
  {
  }

  /** And which item status each result of the codes leads to. */
  lemma ItemStatusExactly(status: Field, err: Field, error: string)
    ensures var m := MapStatus(status, err, error);
      && (StatusFor(m.lifecycle) == Completed <==> m.result == Reachable || m.result == Unreachable)
      && (StatusFor(m.lifecycle) == Failed <==> m.result == ProviderError)
      && (StatusFor(m.lifecycle) == Pending <==> m.result == StillPending || m.result == Unknown)
    ensures StatusFor(AcceptedCycle) == Pending
  {
  }

  function StatusFor(lifecycle: Lifecycle): ItemStatus {
    match lifecycle
    case AcceptedCycle => Pending
    case PendingCycle => Pending
    case CompletedCycle => Completed
    case FailedCycle => Failed
  }

  /** preferResultStatus: a settled result survives a missing or pending one. */
  function PreferResult(incoming: ResultStatus, existing: Option<ResultStatus>): ResultStatus {
    if existing.Some? && !existing.value.StillPending? && incoming.StillPending? then existing.value else incoming
  }

  /** What an answer's result becomes after the optional second look at the details. */
  function EnrichedResult(result: ResultStatus, rich: Option<Reply>): ResultStatus {
    if rich.None? then result else PreferResult(MapResponse(rich.value).result, Some(result))
  }

  /** Exactly when a second look leaves the result alone: it says pending, and the first said more. */
  lemma PreferExactly(incoming: ResultStatus, existing: Option<ResultStatus>)
    ensures incoming != StillPending ==> PreferResult(incoming, existing) == incoming
    ensures incoming == StillPending && existing.Some? && existing.value != StillPending ==>
      PreferResult(incoming, existing) == existing.value
    ensures incoming == StillPending && (existing.None? || existing == Some(StillPending)) ==>
      PreferResult(incoming, existing) == StillPending
    ensures EnrichedResult(incoming, None) == incoming
    ensures forall rich ::
      EnrichedResult(incoming, Some(rich)) == PreferResult(MapResponse(rich).result, Some(incoming))
  {
  }
}
