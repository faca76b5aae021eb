/** Stages 4 to 11 of the Gateway pipeline (src/numi/gateway/domain/tool_call_handler.py) over the
    approval table, as a transition system.

    One tool call is three steps, `Submit` (everything up to and including verification), `Execute`
    (the call to the Execution Service) and `Finish` (consuming the approval). Any number of calls may
    be between steps at once, and decisions arrive at any moment through the approvals router. `log` is
    a history of what happened; no step reads it. */
module Gateway {
  import opened Basics
  import opened Approval
  import opened Policy

  /** The handler always builds its engine with the default time to live. */
  const TTL_SECONDS := 600
  const TTL := TTL_SECONDS * MICROSECONDS

  /** The outcome of stages 1 to 7 when none of them refuses: the action, and what policy asks of it. */
  datatype Evaluated = Evaluated(key: ActionKey, requestId: string, decision: PolicyDecision, dual: bool)

  /** `Failure(None)` is a failed result without an error code; `Raised` is a client that never got a
      result, or a code outside the vocabulary: the request ends in an exception and nothing is committed. */
  datatype ExecResult = Success | Failure(code: Option<FailureCode>) | Raised

  datatype InFlight = InFlight(key: ActionKey, gate: Option<string>, succeeded: bool)

  datatype Entry =
    | Refused(h: nat, code: FailureCode, at: Time)
    | Created(id: string, key: ActionKey, dual: bool, at: Time)
    | Signed(id: string, approver: string, from: Status, to: Status, at: Time)
    | Rejected(id: string, approver: string, at: Time)
    | Verified(h: nat, id: string, key: ActionKey, at: Time)
    | Executed(h: nat, key: ActionKey, gate: Option<string>, result: ExecResult, at: Time)
    | Consumed(id: string, at: Time)

  datatype State = State(
    records: map<string, Record>, events: seq<Event>, inflight: map<nat, InFlight>, log: seq<Entry>, clock: Time)

  /** A Gateway that has not been asked anything yet. */
  predicate Initial(s: State) {
    s.records == map[] && s.events == [] && s.inflight == map[] && s.log == []
  }

  datatype Step =
    | Submit(h: nat, approvalId: string, stages: Result<Evaluated>, newId: string, now: Time)
    | Execute(h: nat, result: ExecResult, now: Time)
    | Finish(h: nat, now: Time)
    | Decide(id: string, approver: string, decision: Decision, now: Time)

  /** The clock does not run backwards, `new_id` never repeats, and a call does its steps in order. */
  predicate Enabled(s: State, t: Step) {
    s.clock <= t.now &&
    match t
    case Submit(h, _, _, newId, _) => h !in s.inflight && newId != "" && newId !in s.records
    case Execute(h, _, _) => h in s.inflight && !s.inflight[h].succeeded
    case Finish(h, _) => h in s.inflight && s.inflight[h].succeeded
    case Decide(_, _, _, _) => true
  }

  function Refuse(s: State, h: nat, code: FailureCode, now: Time): State {
    s.(log := s.log + [Refused(h, code, now)], clock := now)
  }

  function SubmitNext(s: State, h: nat, approvalId: string, e: Evaluated, newId: string, now: Time): State {
    match e.decision
    case DENY => Refuse(s, h, POLICY_DENIED, now)
    case ALLOW => s.(inflight := s.inflight[h := InFlight(e.key, None, false)], clock := now)
    case REQUIRES_APPROVAL =>
      if approvalId == "" then
        s.(records := s.records[newId := NewRecord(e.requestId, e.key, e.dual, now, TTL_SECONDS)],
           events := s.events + [Event(newId, CreatedEvent, Some(e.key.actor), now)],
           log := s.log + [Created(newId, e.key, e.dual, now)],
           clock := now)
      else if approvalId !in s.records then
        Refuse(s, h, APPROVAL_INVALID, now)
      else
        var o := VerifyOn(approvalId, s.records[approvalId], e.key, now);
        var s1 := s.(records := s.records[approvalId := o.record], events := s.events + o.events);
        if o.error.Some? then Refuse(s1, h, o.error.value, now)
        else s1.(inflight := s.inflight[h := InFlight(e.key, Some(approvalId), false)],
                 log := s.log + [Verified(h, approvalId, e.key, now)],
                 clock := now)
  }

  function ExecuteNext(s: State, h: nat, result: ExecResult, now: Time): State
    requires h in s.inflight
  {
    var f := s.inflight[h];
    s.(inflight := if result.Success? && f.gate.Some? then s.inflight[h := f.(succeeded := true)] else s.inflight - {h},
       log := s.log + [Executed(h, f.key, f.gate, result, now)],
       clock := now)
  }

  function FinishNext(s: State, h: nat, now: Time): State
    requires h in s.inflight
  {
    match s.inflight[h].gate
    case None => s.(inflight := s.inflight - {h}, clock := now)
    case Some(id) =>
      if id !in s.records then s.(inflight := s.inflight - {h}, clock := now)
      else
        var o := MarkOn(id, s.records[id], now);
        s.(records := s.records[id := o.record], events := s.events + o.events,
           inflight := s.inflight - {h}, log := s.log + [Consumed(id, now)], clock := now)
  }

  /** The approvals router commits an accepted decision and rolls a refused one back. */
  function DecideNext(s: State, id: string, approver: string, decision: Decision, now: Time): State {
    if id !in s.records then s.(clock := now)
    else
      var r := s.records[id];
      var o := DecideOn(id, r, approver, decision, now);
      if o.error.Some? then s.(clock := now)
      else s.(records := s.records[id := o.record], events := s.events + o.events,
              log := s.log + [if decision.APPROVE? then Signed(id, approver, r.status, o.record.status, now)
                              else Rejected(id, approver, now)],
              clock := now)
  }

  function Next(s: State, t: Step): State
    requires Enabled(s, t)
  {
    match t
    case Submit(h, approvalId, stages, newId, now) =>
      (match stages
       case Err(code) => Refuse(s, h, code, now)
       case Ok(e) => SubmitNext(s, h, approvalId, e, newId, now))
    case Execute(h, result, now) => ExecuteNext(s, h, result, now)
    case Finish(h, now) => FinishNext(s, h, now)
    case Decide(id, approver, decision, now) => DecideNext(s, id, approver, decision, now)
  }

  /** Every step of the run is enabled where it is taken. */
  predicate Runs(s: State, steps: seq<Step>)
    decreases |steps|
  {
    steps == [] || (Enabled(s, steps[0]) && Runs(Next(s, steps[0]), steps[1..]))
  }

  function After(s: State, steps: seq<Step>): State
    requires Runs(s, steps)
    decreases |steps|
  {
    if steps == [] then s else After(Next(s, steps[0]), steps[1..])
  }
}
