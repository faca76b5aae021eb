/** The orchestrator's methods as they run, updating the fields of one investigation and its conversation,
    each proved to take the step the functions of module Investigation describe. */
module InvestigationLoop {
  import opened Basics
  import opened Investigation

  class Investigator {
    const problem: string
    const playbook: Option<seq<PlaybookStep>>
    const readOnly: bool
    var status: Stage
    var turnCount: nat
    var clarificationCount: nat
    var observations: nat
    var playbookStep: nat
    var pendingCheck: Option<PendingCheck>
    var lastCheck: Option<Verdict>
    var transcript: seq<TranscriptEntry>
    var evidence: seq<string>
    var actions: seq<ActionTaken>
    var findings: seq<string>
    var recommendations: seq<string>

    var context: Json
    var pending: Option<PendingApproval>

    var hist: History

    constructor (problem: string, playbook: Option<seq<PlaybookStep>>, readOnly: bool, context: Json)
      ensures View() == World(Inquiry(problem, INVESTIGATING, 0, 0, 0, playbook, 0, readOnly, None, None, [], [], [],
                                      [], []),
                              Conversation(context, None), History(0, 0, [], [], []))
    {
      this.problem, this.playbook, this.readOnly := problem, playbook, readOnly;
      status, turnCount, clarificationCount, observations, playbookStep := INVESTIGATING, 0, 0, 0, 0;
      pendingCheck, lastCheck := None, None;
      transcript, evidence, actions, findings, recommendations := [], [], [], [], [];
      this.context, pending := context, None;
      hist := History(0, 0, [], [], []);
    }

    function State(): Inquiry
      reads this
    {
      Inquiry(problem, status, turnCount, clarificationCount, observations, playbook, playbookStep, readOnly,
              pendingCheck, lastCheck, transcript, evidence, actions, findings, recommendations)
    }

    function View(): World
      reads this
    {
      World(State(), Conversation(context, pending), hist)
    }

    method Log(entry: TranscriptEntry, line: string)
      modifies this`transcript, this`evidence
      ensures State() == Logged(old(State()), entry, line)
    {
      transcript := transcript + [entry];
      evidence := evidence + [line];
    }

    method AppendEvidenceOnce(text: string)
      modifies this`evidence
      ensures evidence == AppendOnce(old(evidence), text)
      ensures old(evidence) != [] && old(evidence)[|old(evidence)| - 1] == text ==> evidence == old(evidence)
      ensures old(evidence) == [] || old(evidence)[|old(evidence)| - 1] != text ==> evidence == old(evidence) + [text]
    {
      if evidence == [] || evidence[|evidence| - 1] != text {
        evidence := evidence + [text];
      }
    }

    /** A playbook step that is not available is skipped for good, at no cost. */
    method NextPlaybookAction(env: Env) returns (a: Option<Action>)
      modifies this`playbookStep
      ensures (playbookStep, a) == PlaybookAction(old(State()), env)
    {
      if playbook.None? {
        return None;
      }
      var steps := playbook.value;
      while playbookStep < |steps|
        invariant NextStep(steps, playbookStep, env.available) == NextStep(steps, old(playbookStep), env.available)
        decreases |steps| - playbookStep
      {
        var step := steps[playbookStep];
        playbookStep := playbookStep + 1;
        if step.toolId in env.available {
          return Some(ProposeToolCall(step.toolId, step.arguments, map[], step.purpose));
        }
      }
      return None;
    }

    method UpdatePendingVerification(x: Execution, env: Env)
      requires x.tracked == Tracks(x.toolId, env.operationTypes)
      modifies this`pendingCheck, this`lastCheck
      ensures (pendingCheck, lastCheck) == CheckStep(old((pendingCheck, lastCheck)), x)
    {
      if pendingCheck.Some? && x.toolId in Rechecks(pendingCheck.value.toolId) {
        var stillPresent := StillShows(x.toolId, pendingCheck.value.sessionId, x.rows);
        lastCheck := Some(if stillPresent then UNRESOLVED else RESOLVED);
        pendingCheck := None;
        return;
      }
      if Rechecks(x.toolId) == {} {
        return;
      }
      var isWrite := env.operationTypes.None? ||
                     (x.toolId in env.operationTypes.value && env.operationTypes.value[x.toolId] == WRITE);
      if !isWrite {
        return;
      }
      pendingCheck := Some(PendingCheck(x.toolId, x.sessionId, x.reason));
      lastCheck := None;
    }

    method SubmitAndRelay(a: Action, env: Env) returns (reply: Option<Reply>)
      requires a.ProposeToolCall?
      modifies this
      ensures (View(), reply) == Investigation.SubmitAndRelay(old(View()), a, env)
    {
      hide Text, Stripped, Relay;
      if readOnly && !ConfirmedRead(a.toolId, env.operationTypes) {
        Log(TranscriptEntry(ReadOnlyGuard, Text(Guarding), Dropped(a.toolId)), Text(NotSubmitted(a.toolId)));
        hist := hist.(proposals := hist.proposals + [Proposal(a.toolId, false, true)]);
        return None;
      }
      var arguments := Stripped(a.toolId, a.arguments, env.allowedArguments);
      var request := Request(a.toolId, arguments, context + a.target, a.reason, env.requestId(|hist.sent|), env.sender);
      var response := env.gateway(|hist.sent|);
      hist := hist.(sent := hist.sent + [request],
                    proposals := hist.proposals + [Proposal(a.toolId, true, response.ApprovalRequired? && readOnly)]);
      reply := RelayResponse(request, response, env);
    }

    method RememberDatabase(request: Request, response: ToolResponse)
      modifies this`context
      ensures Conversation(context, pending) == Remembered(old(Conversation(context, pending)), request, response)
    {
      if "database" in request.target && request.target["database"] != ""
         && !response.NoResponse? && !(response.Denied? && response.code == INVALID_TARGET) {
        context := context["database" := request.target["database"]];
      }
    }

    method RelayResponse(request: Request, response: ToolResponse, env: Env) returns (reply: Option<Reply>)
      modifies this
      ensures (View(), reply) == Relay(old(View()), request, response, env)
    {
      hide Text, CheckStep, ExecutionOf, Logged, Remembered;
      var tool, reason := request.toolId, request.reason;
      RememberDatabase(request, response);
      if response.NoResponse? {
        Log(TranscriptEntry(tool, reason, Failure(response.error, None)), Text(TimedOut(tool, response.error)));
        return Some(Reply(ERROR_REPLY, None, false));
      }
      match response
      case ApprovalRequired(id) =>
        if readOnly {
          Log(TranscriptEntry(ReadOnlyGuard, Text(Declining), Dropped(tool)), Text(NotRequested(tool)));
          return None;
        }
        pending := Some(PendingApproval(id, tool, request));
        return Some(Reply(APPROVAL_CARD, Some(id), false));
      case Denied(code, message) =>
        if code in SELF_CORRECTABLE && turnCount < MAX_TURNS {
          Log(TranscriptEntry(tool, reason, Failure(message, Some(code))), Text(Refused(tool, code, message)));
          return None;
        }
        return Some(Reply(DENIED_REPLY, None, false));
      case Failed(message) =>
        Log(TranscriptEntry(tool, reason, Failure(message, None)), Text(Fell(tool, message)));
        return None;
      case Executed(rows, message, affected) =>
        RecordExecution(request, rows, Text(Told(tool, message, affected)), env);
        return None;
    }

    method RecordExecution(request: Request, rows: seq<Json>, line: string, env: Env)
      modifies this`transcript, this`evidence, this`actions, this`pendingCheck, this`lastCheck, this`hist
      ensures var x, before := ExecutionOf(request, rows, env), old(State());
              var logged := Logged(before, TranscriptEntry(request.toolId, request.reason, Rows(rows)), line);
              var checked := CheckStep((before.pendingCheck, before.lastCheck), x);
              && State() == logged.(actions := logged.actions + [ActionTaken(request.toolId, rows)],
                                    pendingCheck := checked.0, lastCheck := checked.1)
              && hist == old(hist).(executed := old(hist).executed + [x])
    {
      hide CheckStep;
      Log(TranscriptEntry(request.toolId, request.reason, Rows(rows)), line);
      actions := actions + [ActionTaken(request.toolId, rows)];
      var x := ExecutionOf(request, rows, env);
      UpdatePendingVerification(x, env);
      hist := hist.(executed := hist.executed + [x]);
    }

    method Reject(tool: ToolId, why: Phrase, result: Payload, note: Phrase)
      modifies this`transcript, this`evidence
      ensures State() == Rejected(old(State()), tool, why, result, note)
    {
      hide Text;
      transcript := transcript + [TranscriptEntry(tool, Text(why), result)];
      AppendEvidenceOnce(Text(note));
    }

    method FinalizeConclude(c: Action, env: Env, finalChance: bool) returns (reply: Option<Reply>)
      requires c.Conclude?
      modifies this
      ensures (View(), reply) == Investigation.FinalizeConclude(old(View()), c, env, finalChance)
    {
      hide Text, Ungrounded, Rejected, Accepted, ConclusionStage, IsConcluded;
      var ungrounded := Ungrounded(c, State(), env);
      if ungrounded != [] {
        Reject(GroundingCheck, Grounding, RejectedNames(ungrounded), DraftNaming(ungrounded));
        return None;
      }
      if !finalChance && pendingCheck.Some? {
        var tool := pendingCheck.value.toolId;
        Reject(VerificationCheck, Verifying, RejectedPending(tool), DraftUnverified(tool));
        return None;
      }
      if !finalChance {
        var review := env.review(hist.reviewCalls);
        hist := hist.(reviewCalls := hist.reviewCalls + 1);
        if review.Some? && !review.value.sound {
          var issue := review.value.issue;
          Reject(SelfCritiqueCheck, Reviewing, RejectedReview(issue), DraftUnsound(issue));
          return None;
        }
      }
      Accept(c);
      return Some(Reply(OK, None, true));
    }

    method Accept(c: Action)
      requires c.Conclude?
      modifies this`status, this`findings, this`recommendations
      ensures State() == Accepted(old(State()), c)
    {
      hide ConclusionStage;
      assert findings + [] == findings && recommendations + [] == recommendations;
      status := ConclusionStage(State());
      if Given(c.rootCause) {
        findings := findings + [c.rootCause.value];
      }
      if Given(c.recommendation) {
        recommendations := recommendations + [c.recommendation.value];
      }
    }

    method AskBack() returns (reply: Option<Reply>)
      modifies this`observations, this`clarificationCount, this`status
      ensures (View(), reply) == Clarify(old(View()))
    {
      hide ConclusionStage;
      observations := 0;
      clarificationCount := clarificationCount + 1;
      if clarificationCount > MAX_CLARIFICATIONS {
        status := ConclusionStage(State());
        return Some(FALLBACK);
      }
      status := AWAITING_CLARIFICATION;
      return Some(Reply(CLARIFICATION, None, false));
    }

    method ActOn(action: Action, env: Env) returns (reply: Option<Reply>)
      modifies this
      ensures (View(), reply) == Act(old(View()), action, env)
    {
      hide Investigation.SubmitAndRelay, Investigation.FinalizeConclude, ConclusionStage, IsConcluded, Clarify;
      if action.AskClarification? {
        reply := AskBack();
        return;
      }
      turnCount := turnCount + 1;
      clarificationCount := 0;
      match action
      case RecordObservation(text) =>
        observations := observations + 1;
        evidence := evidence + [text];
        return None;
      case ProposeToolCall(_, _, _, _) =>
        observations := 0;
        reply := SubmitAndRelay(action, env);
      case Conclude(_, _, _) =>
        observations := 0;
        reply := FinalizeConclude(action, env, false);
    }

    lemma StatusIsNoStep(inv: Inquiry, env: Env)
      ensures PlaybookAction(inv.(status := INVESTIGATING), env) == PlaybookAction(inv, env)
    {
    }

    /** The body of the loop. */
    method TakeTurn(env: Env) returns (reply: Option<Reply>)
      modifies this
      ensures (View(), reply) == Turn(old(View()), env)
    {
      hide Investigation.SubmitAndRelay, Act, PlaybookAction, ConclusionStage, IsConcluded;
      ghost var start := State();
      status := INVESTIGATING;
      StatusIsNoStep(start, env);
      var step := NextPlaybookAction(env);
      if step.Some? {
        turnCount := turnCount + 1;
        reply := SubmitAndRelay(step.value, env);
        return;
      }
      if observations >= MAX_OBSERVATIONS {
        status := ConclusionStage(State());
        return Some(FALLBACK);
      }
      var action := env.model(hist.modelCalls);
      hist := hist.(modelCalls := hist.modelCalls + 1);
      reply := ActOn(action, env);
    }

    /** One last call, with no tools on offer, so that what was found can still be reported. */
    method TakeLastChance(env: Env) returns (reply: Reply)
      modifies this
      ensures (View(), reply) == LastChance(old(View()), env)
    {
      hide Investigation.FinalizeConclude;
      var action := env.model(hist.modelCalls);
      hist := hist.(modelCalls := hist.modelCalls + 1);
      if action.Conclude? {
        var accepted := FinalizeConclude(action, env, true);
        if accepted.Some? {
          return accepted.value;
        }
      }
      status := ConclusionStage(State());
      return FALLBACK;
    }

    method RunInvestigationLoop(env: Env) returns (reply: Reply)
      modifies this
      ensures (View(), reply) == Run(old(View()), env)
    {
      hide Turn, LastChance;
      while turnCount < MAX_TURNS
        invariant Run(View(), env) == Run(old(View()), env)
        decreases if turnCount < MAX_TURNS then MAX_TURNS - turnCount else 0
      {
        var answer := TakeTurn(env);
        if answer.Some? {
          return answer.value;
        }
      }
      reply := TakeLastChance(env);
    }

    /** The rest of `handle_approval_decision` once the approval of `card` is answered. */
    method AnswerApproval(answer: ApproveAnswer) returns (resubmits: bool)
      modifies this`pending
      ensures (View(), resubmits) == CardAnswered(old(View()), answer)
    {
      if !answer.FullyApproved? {
        return false;
      }
      pending := None;
      return true;
    }

    /** The rest of it once the resubmitted request is answered. */
    method AnswerResubmission(card: PendingApproval, response: ToolResponse)
      modifies this`actions
      ensures View() == CardResubmitted(old(View()), card, response)
    {
      if response.Executed? {
        actions := actions + [ActionTaken(card.toolId, response.rows)];
      }
    }

    /** With nothing else touching the conversation while the Gateway is asked. */
    method HandleApprovalDecision(reject: bool, answer: ApproveAnswer, response: ToolResponse)
      returns (resubmitted: Option<PendingApproval>, reply: ReplyKind)
      modifies this`pending, this`actions
      ensures (View(), resubmitted, reply) == AnswerCard(old(View()), reject, answer, response)
    {
      if pending.None? {
        return None, ERROR_REPLY;
      }
      var card := pending.value;
      if reject {
        pending := None;
        return None, OK;
      }
      var resubmits := AnswerApproval(answer);
      if !resubmits {
        return None, if answer.ApproveError? then ERROR_REPLY else OK;
      }
      AnswerResubmission(card, response);
      return Some(card), if response.Executed? then OK else ERROR_REPLY;
    }
  }
}
