/** `ToolCallHandler.handle` as it runs: stages 4 to 11 in order, on the engine's table, in one database
    session that is committed unless an exception escapes. It is proved to take the three steps of one
    call, and to tell a refusal from a failed attempt only as far as the code does. */
module ToolCallHandling {
  import opened Basics
  import opened Approval
  import opened Policy
  import opened Gateway
  import opened GatewayAccounting

  datatype CallStatus = EXECUTED_CALL | APPROVAL_REQUIRED_CALL | DENIED_CALL | FAILED_CALL

  datatype Response = Response(status: CallStatus, approvalId: Option<string>, failureCode: Option<FailureCode>)

  const EXECUTION_CODES := {EXECUTION_FAILED, EXECUTION_TIMEOUT, DATABASE_UNAVAILABLE}

  function Refusal(code: FailureCode): Response {
    Response(if code in EXECUTION_CODES then FAILED_CALL else DENIED_CALL, None, Some(code))
  }

  function CodeOf(result: ExecResult): FailureCode
    requires result.Failure?
  {
    if result.code.Some? then result.code.value else EXECUTION_FAILED
  }

  datatype Call = Call(h: nat, approvalId: string, stages: Result<Evaluated>, newId: string,
                       result: ExecResult, t1: Time, t2: Time, t3: Time)

  /** The clock does not run backwards and `new_id` is fresh. */
  predicate Admissible(s: State, c: Call) {
    Enabled(s, Submit(c.h, c.approvalId, c.stages, c.newId, c.t1)) && c.t1 <= c.t2 <= c.t3
  }

  function Submitted(s: State, c: Call): State
    requires Admissible(s, c)
  {
    Next(s, Submit(c.h, c.approvalId, c.stages, c.newId, c.t1))
  }

  /** The call got as far as the Execution Service. */
  predicate Attempted(s: State, c: Call)
    requires Admissible(s, c)
  {
    c.h in Submitted(s, c).inflight
  }

  /** The rest of an attempted call: execution, and consumption if it succeeded behind an approval. */
  function Performed(s: State, c: Call): State
    requires c.h in s.inflight && !s.inflight[c.h].succeeded && s.clock <= c.t2 <= c.t3
  {
    var s' := Next(s, Execute(c.h, c.result, c.t2));
    if c.h !in s'.inflight then s' else Next(s', Finish(c.h, c.t3))
  }

  /** The call's steps, one after the other. */
  function Handled(s: State, c: Call): State
    requires Admissible(s, c)
  {
    if Attempted(s, c) then Performed(Submitted(s, c), c) else Submitted(s, c)
  }

  function StepsOf(s: State, c: Call): seq<Step>
    requires Admissible(s, c)
  {
    [Submit(c.h, c.approvalId, c.stages, c.newId, c.t1)] +
    if !Attempted(s, c) then []
    else [Execute(c.h, c.result, c.t2)] +
         if c.h !in Next(Submitted(s, c), Execute(c.h, c.result, c.t2)).inflight then [] else [Finish(c.h, c.t3)]
  }

  /** Calls handled one at a time are an atomic run, so `UsedAtMostOnce` and `ApprovalsConserved` speak of them. */
  lemma HandlingIsAtomic(s: State, c: Call)
    requires Admissible(s, c) && s.inflight == map[]
    ensures AtomicRuns(s, StepsOf(s, c)) && Runs(s, StepsOf(s, c))
    ensures After(s, StepsOf(s, c)) == Handled(s, c)
    ensures Handled(s, c).inflight == map[]
  {
    var a, x, f := Submit(c.h, c.approvalId, c.stages, c.newId, c.t1), Execute(c.h, c.result, c.t2), Finish(c.h, c.t3);
    var s1 := Submitted(s, c);
    assert s1.inflight.Keys <= {c.h};
    if c.h !in s1.inflight {
      assert s1.inflight == map[];
      FirstStep(s, a, []);
    } else {
      var s2 := Next(s1, x);
      if c.h !in s2.inflight {
        assert s2.inflight == map[];
        FirstStep(s, a, [x]);
        FirstStep(s1, x, []);
      } else {
        assert Next(s2, f).inflight == map[];
        FirstStep(s, a, [x, f]);
        FirstStep(s1, x, [f]);
        FirstStep(s2, f, []);
      }
    }
  }

  /** The call as it stands once it is let through. */
  function Underway(c: Call): InFlight
    requires c.stages.Ok?
  {
    InFlight(c.stages.value.key, if c.stages.value.decision == REQUIRES_APPROVAL then Some(c.approvalId) else None,
             false)
  }

  /** Nothing refuses the call, and policy allows it outright or it names a granted approval of the identical action
      that is still in its window. */
  predicate MayRun(c: Call, records: map<string, Record>) {
    && c.stages.Ok?
    && var e := c.stages.value;
    || e.decision == ALLOW
    || (&& e.decision == REQUIRES_APPROVAL && c.approvalId != "" && c.approvalId in records
        && records[c.approvalId].status == APPROVED && c.t1 <= records[c.approvalId].expiresAt
        && records[c.approvalId].key == e.key)
  }

  /** How a call that may not run is answered. */
  predicate Stopped(c: Call, records: map<string, Record>, r: Response) {
    if c.stages.Err? then r == Refusal(c.stages.code)
    else if c.stages.value.decision == DENY then r == Response(DENIED_CALL, None, Some(POLICY_DENIED))
    else if c.approvalId == "" then r == Response(APPROVAL_REQUIRED_CALL, Some(c.newId), None)
    else if c.approvalId !in records then r == Response(DENIED_CALL, None, Some(APPROVAL_INVALID))
    else r == Response(DENIED_CALL, None, VerifyOn(c.approvalId, records[c.approvalId], c.stages.value.key, c.t1).error)
  }

  /** A call reaches execution exactly when nothing in stages 1 to 7 refuses it and policy allows it outright, or asks
      for approval and it names an approval of the identical action that is granted and still in its window. */
  lemma AttemptedIff(s: State, c: Call)
    requires Admissible(s, c)
    ensures Attempted(s, c) <==>
            && c.stages.Ok?
            && var e := c.stages.value;
            || e.decision == ALLOW
            || (&& e.decision == REQUIRES_APPROVAL && c.approvalId != "" && c.approvalId in s.records
                && s.records[c.approvalId].status == APPROVED && c.t1 <= s.records[c.approvalId].expiresAt
                && s.records[c.approvalId].key == e.key)
  {
    hide ExecuteNext, FinishNext, DecideNext;
  }

  /** What a call does to the approvals table: it asks for one, uses one up by succeeding, lets one lapse by coming too
      late, and nothing else. */
  lemma HandledRecords(s: State, c: Call)
    requires Admissible(s, c)
    ensures var records, id := Handled(s, c).records, c.approvalId;
            var gated := c.stages.Ok? && c.stages.value.decision == REQUIRES_APPROVAL;
            && (gated && id == "" ==>
                  var e := c.stages.value;
                  records == s.records[c.newId := Record(e.requestId, e.key, e.dual, PENDING, None, None, None,
                                                         c.t1, c.t1 + 600 * 1_000_000)])
            && (gated && id != "" && MayRun(c, s.records) && c.result.Success? ==>
                  records == s.records[id := s.records[id].(status := EXECUTED)])
            && (gated && id != "" && id in s.records && !MayRun(c, s.records) ==>
                  var r := s.records[id];
                  records == if r.status in {PENDING, AWAITING_SECOND_APPROVAL, APPROVED} && c.t1 > r.expiresAt
                             then s.records[id := r.(status := EXPIRED)] else s.records)
            && (!gated || (id != "" && id !in s.records) || (id != "" && MayRun(c, s.records) && !c.result.Success?) ==>
                  records == s.records)
  {
    hide DecideNext;
    AttemptedIff(s, c);
    if c.stages.Ok? && c.stages.value.decision == REQUIRES_APPROVAL && c.approvalId in s.records {
      assert s.records[c.approvalId := s.records[c.approvalId]] == s.records;
    }
  }

  /** A call that may run is executed, once and as evaluated; any other is not. */
  lemma HandledExecutions(s: State, c: Call)
    requires Admissible(s, c)
    ensures var added := Handled(s, c).log[|s.log|..];
            && s.log <= Handled(s, c).log
            && (MayRun(c, s.records) ==>
                  && Executed(c.h, c.stages.value.key, Underway(c).gate, c.result, c.t2) in added
                  && forall i, j :: 0 <= i < j < |added| ==> !(added[i].Executed? && added[j].Executed?))
            && (!MayRun(c, s.records) ==> forall x :: x in added ==> !x.Executed?)
  {
    hide DecideNext;
    AttemptedIff(s, c);
    var s1 := Submitted(s, c);
    if MayRun(c, s.records) {
      var s2 := Next(s1, Execute(c.h, c.result, c.t2));
      assert s2.log[|s1.log|] == s2.log[|s.log|..][|s1.log| - |s.log|];
      assert s2.log <= Handled(s, c).log;
    }
  }

  class ToolCallHandler {
    const approvals: ApprovalEngine
    var log: seq<Entry>
    var clock: Time

    constructor (approvals: ApprovalEngine)
      ensures this.approvals == approvals && log == [] && clock == 0
    {
      this.approvals := approvals;
      log, clock := [], 0;
    }

    /** The Gateway between calls. */
    function Now(): State
      reads this, approvals
    {
      State(approvals.records, approvals.events, map[], log, clock)
    }

    /** Everything before execution: the answer of a call that stops here, none for one that goes on. */
    method Admit(c: Call) returns (answer: Option<Response>)
      requires approvals.ttlSeconds == TTL_SECONDS && Admissible(Now(), c)
      modifies this, approvals
      ensures var s := Submitted(old(Now()), c);
              && approvals.records == s.records && approvals.events == s.events && log == s.log && clock == s.clock
      ensures answer.None? <==> MayRun(c, old(approvals.records))
      ensures answer.None? ==>
                && approvals.records == old(approvals.records) && approvals.events == old(approvals.events)
                && Submitted(old(Now()), c).inflight == map[c.h := Underway(c)] && clock == c.t1
      ensures answer.Some? ==> Stopped(c, old(approvals.records), answer.value)
      ensures answer.Some? ==> !Attempted(old(Now()), c)
    {
      hide ExecuteNext, FinishNext, DecideNext, LapseOn;
      clock := c.t1;
      if c.stages.Err? {
        log := log + [Refused(c.h, c.stages.code, c.t1)];
        return Some(Refusal(c.stages.code));
      }
      var e := c.stages.value;
      if e.decision == DENY {
        log := log + [Refused(c.h, POLICY_DENIED, c.t1)];
        return Some(Refusal(POLICY_DENIED));
      }
      if e.decision == REQUIRES_APPROVAL {
        if c.approvalId == "" {
          approvals.Create(c.newId, e.requestId, e.key, e.dual, c.t1);
          log := log + [Created(c.newId, e.key, e.dual, c.t1)];
          return Some(Response(APPROVAL_REQUIRED_CALL, Some(c.newId), None));
        }
        var verified := approvals.VerifyForExecution(c.approvalId, e.key, c.t1);
        if verified.Err? {
          log := log + [Refused(c.h, verified.code, c.t1)];
          return Some(Refusal(verified.code));
        }
        log := log + [Verified(c.h, c.approvalId, e.key, c.t1)];
      }
      return None;
    }

    /** Execution and what follows it. */
    method Perform(c: Call, ghost s: State) returns (res: Option<Response>)
      requires c.stages.Ok? && s == Now().(inflight := map[c.h := Underway(c)]) && clock <= c.t2 <= c.t3
      requires Underway(c).gate.Some? ==> c.approvalId in approvals.records
      modifies this, approvals
      ensures var s' := Performed(s, c);
              && approvals.records == s'.records && approvals.events == s'.events && log == s'.log && clock == s'.clock
      ensures match c.result
              case Success => res == Some(Response(EXECUTED_CALL, None, None))
              case Failure(_) => res == Some(Refusal(CodeOf(c.result)))
              case Raised => res.None? && approvals.records == s.records && approvals.events == s.events
    {
      hide SubmitNext, DecideNext;
      var gated := c.stages.value.decision == REQUIRES_APPROVAL;
      clock := c.t2;
      log := log + [Executed(c.h, c.stages.value.key, if gated then Some(c.approvalId) else None, c.result, c.t2)];
      if c.result.Raised? {
        return None;
      }
      if c.result.Failure? {
        return Some(Refusal(CodeOf(c.result)));
      }
      if gated {
        var _ := approvals.MarkExecuted(c.approvalId, c.t3);
        clock := c.t3;
        log := log + [Consumed(c.approvalId, c.t3)];
      }
      return Some(Response(EXECUTED_CALL, None, None));
    }

    /** `None` is an exception that is not a `NumiError`: the session is rolled back. */
    method Handle(c: Call) returns (res: Option<Response>)
      requires approvals.ttlSeconds == TTL_SECONDS && Admissible(Now(), c)
      modifies this, approvals
      ensures var s := Handled(old(Now()), c);
              && approvals.records == s.records && approvals.events == s.events && log == s.log && clock == s.clock
      // a call runs exactly as policy and approvals say, and its result is what it is answered
      ensures MayRun(c, old(approvals.records)) ==>
                match c.result
                case Success => res == Some(Response(EXECUTED_CALL, None, None))
                case Failure(_) => res == Some(Refusal(CodeOf(c.result)))
                case Raised => res.None?
      ensures !MayRun(c, old(approvals.records)) ==> res.Some? && Stopped(c, old(approvals.records), res.value)
    {
      hide Next;
      var committedRecords, committedEvents := approvals.records, approvals.events;
      ghost var s := Submitted(Now(), c);
      var answer := Admit(c);
      if answer.Some? {
        return answer;
      }
      res := Perform(c, s);
      if res.None? {
        approvals.records, approvals.events := committedRecords, committedEvents;
      }
    }
  }

  /** "DENIED is a policy fact" fails of some attempted calls: one that fails with a code outside the three, such as
      TOOL_NOT_AVAILABLE for a diagnostic an adapter does not implement, is answered like a refusal. */
  lemma FailedAttemptAnsweredAsRefusal(result: ExecResult)
    requires result.Failure?
    ensures Refusal(CodeOf(result)).status == DENIED_CALL <==>
            result.code.Some? && result.code.value !in EXECUTION_CODES
    ensures Refusal(CodeOf(Failure(Some(TOOL_NOT_AVAILABLE)))).status == DENIED_CALL
  {
  }
}
