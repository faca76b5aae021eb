/** The investigation loop of src/numi/agent/orchestrator.py as functions on its state.

    The model, the Gateway and the reviewing model are streams of answers, indexed by how many have been
    asked for; quantifying over streams quantifies over every behaviour, however adaptive. */
module Investigation {
  import opened Basics

  const MAX_TURNS: nat := 6
  const MAX_OBSERVATIONS: nat := 2
  const MAX_CLARIFICATIONS: nat := 4

  type Json = map<string, string>

  /** Tool names. The ones the loop treats specially are named; `Other` is any other text. */
  datatype ToolId =
    | KillSession | CancelQuery
    | GetBlockingSessions | GetSessions | GetRunningQueries
    | GroundingCheck | VerificationCheck | SelfCritiqueCheck | ReadOnlyGuard
    | Other(name: string)

  datatype OperationType = READ | WRITE | PRIVILEGED

  datatype Stage =
    | INVESTIGATING | AWAITING_CLARIFICATION
    | CONCLUDED_VERIFIED | CONCLUDED_UNRESOLVED | CONCLUDED_UNVERIFIED | CONCLUDED_NO_ACTION

  predicate IsConcluded(s: Stage) {
    s != INVESTIGATING && s != AWAITING_CLARIFICATION
  }

  datatype Action =
    | AskClarification(question: string)
    | RecordObservation(text: string)
    | ProposeToolCall(toolId: ToolId, arguments: Json, target: Json, reason: string)
    | Conclude(summary: string, rootCause: Option<string>, recommendation: Option<string>)

  datatype Payload =
    | Rows(rows: seq<Json>)
    | Failure(message: string, code: Option<FailureCode>)
    | Dropped(toolId: ToolId)
    | RejectedNames(names: seq<string>)
    | RejectedPending(toolId: ToolId)
    | RejectedReview(issue: Option<string>)

  datatype TranscriptEntry = TranscriptEntry(toolId: ToolId, reason: string, result: Payload)

  /** `NoResponse` is an exception while submitting; `affected` is the summary of what a write did. */
  datatype ToolResponse =
    | Executed(rows: seq<Json>, message: string, affected: string)
    | ApprovalRequired(approvalId: string)
    | Denied(code: FailureCode, message: string)
    | Failed(message: string)
    | NoResponse(error: string)

  const SELF_CORRECTABLE := {INVALID_ARGUMENTS, INVALID_TARGET, TOOL_NOT_FOUND}

  datatype Review = Review(sound: bool, issue: Option<string>)

  datatype PlaybookStep = PlaybookStep(toolId: ToolId, purpose: string, arguments: Json)

  datatype Verdict = RESOLVED | UNRESOLVED

  datatype PendingCheck = PendingCheck(toolId: ToolId, sessionId: Option<string>, reason: string)

  datatype ActionTaken = ActionTaken(toolId: ToolId, rows: seq<Json>)

  datatype Inquiry = Inquiry(
    problem: string, status: Stage, turnCount: nat, clarificationCount: nat, observations: nat,
    playbook: Option<seq<PlaybookStep>>, playbookStep: nat, readOnly: bool,
    pendingCheck: Option<PendingCheck>, lastCheck: Option<Verdict>,
    transcript: seq<TranscriptEntry>, evidence: seq<string>, actions: seq<ActionTaken>,
    findings: seq<string>, recommendations: seq<string>)

  /** Who is speaking: the conversation and the account on its channel. */
  datatype Sender = Sender(conversationId: string, channel: string, account: string)

  datatype Request = Request(
    toolId: ToolId, arguments: Json, target: Json, reason: string, requestId: string, sender: Sender)

  datatype PendingApproval = PendingApproval(approvalId: string, toolId: ToolId, request: Request)

  datatype Conversation = Conversation(context: Json, pending: Option<PendingApproval>)

  /** What became of one proposal: sent to the Gateway, or logged by the read-only guard, or both. */
  datatype Proposal = Proposal(toolId: ToolId, submitted: bool, dropped: bool)

  /** One executed call, and whether the loop tracks it as a write that needs a re-check. */
  datatype Execution = Execution(toolId: ToolId, sessionId: Option<string>, reason: string, rows: seq<Json>,
                                 tracked: bool)

  /** What happened so far. The loop reads of it only how many answers of each stream it has used up. */
  datatype History = History(
    modelCalls: nat, reviewCalls: nat, sent: seq<Request>, proposals: seq<Proposal>, executed: seq<Execution>)

  datatype World = World(inv: Inquiry, conv: Conversation, hist: History)

  datatype ReplyKind = OK | APPROVAL_CARD | DENIED_REPLY | ERROR_REPLY | CLARIFICATION

  /** `report` marks a reply built from an accepted conclusion. */
  datatype Reply = Reply(kind: ReplyKind, card: Option<string>, report: bool)

  /** What a conclusion's identifiers are looked up in. */
  datatype Haystack = Haystack(transcript: seq<TranscriptEntry>, problem: string, evidence: seq<string>)

  /** `names` finds the CamelCase identifiers of a text, in order; `occurs` looks one up ignoring case;
      `review` is absent when the review is disabled or fails. */
  datatype Env = Env(
    sender: Sender, requestId: nat -> string,
    available: seq<ToolId>,
    allowedArguments: Option<map<ToolId, set<string>>>,
    operationTypes: Option<map<ToolId, OperationType>>,
    model: nat -> Action, gateway: nat -> ToolResponse, review: nat -> Option<Review>,
    names: string -> seq<string>, occurs: (string, Haystack) -> bool)

  // ---------------------------------------------------------------- texts

  function Name(t: ToolId): string {
    match t
    case KillSession => "database.kill_session"
    case CancelQuery => "database.cancel_query"
    case GetBlockingSessions => "database.get_blocking_sessions"
    case GetSessions => "database.get_sessions"
    case GetRunningQueries => "database.get_running_queries"
    case GroundingCheck => "internal.grounding_check"
    case VerificationCheck => "internal.verification_check"
    case SelfCritiqueCheck => "internal.self_critique_check"
    case ReadOnlyGuard => "internal.readonly_guard"
    case Other(name) => name
  }

  function Join(names: seq<string>): string {
    if names == [] then "" else if |names| == 1 then names[0] else names[0] + ", " + Join(names[1..])
  }

  function CodeName(code: FailureCode): string {
    match code
    case UNAUTHORIZED => "UNAUTHORIZED"
    case AUTHENTICATION_FAILED => "AUTHENTICATION_FAILED"
    case TOOL_NOT_FOUND => "TOOL_NOT_FOUND"
    case TOOL_NOT_AVAILABLE => "TOOL_NOT_AVAILABLE"
    case INVALID_ARGUMENTS => "INVALID_ARGUMENTS"
    case INVALID_TARGET => "INVALID_TARGET"
    case POLICY_DENIED => "POLICY_DENIED"
    case CHANGE_TICKET_REQUIRED => "CHANGE_TICKET_REQUIRED"
    case RATE_LIMITED => "RATE_LIMITED"
    case APPROVAL_REQUIRED => "APPROVAL_REQUIRED"
    case APPROVAL_EXPIRED => "APPROVAL_EXPIRED"
    case APPROVAL_INVALID => "APPROVAL_INVALID"
    case APPROVAL_MISMATCH => "APPROVAL_MISMATCH"
    case APPROVAL_ALREADY_DECIDED => "APPROVAL_ALREADY_DECIDED"
    case SEPARATION_OF_DUTIES_VIOLATION => "SEPARATION_OF_DUTIES_VIOLATION"
    case EXECUTION_FAILED => "EXECUTION_FAILED"
    case EXECUTION_TIMEOUT => "EXECUTION_TIMEOUT"
    case DATABASE_UNAVAILABLE => "DATABASE_UNAVAILABLE"
  }

  /** Everything the loop itself writes into the transcript and the evidence. */
  datatype Phrase =
    | Guarding | Declining | Grounding | Verifying | Reviewing
    | NotSubmitted(tool: ToolId) | NotRequested(tool: ToolId)
    | TimedOut(tool: ToolId, error: string) | Refused(tool: ToolId, code: FailureCode, message: string)
    | Fell(tool: ToolId, message: string) | Told(tool: ToolId, message: string, affected: string)
    | DraftNaming(names: seq<string>) | DraftUnverified(tool: ToolId) | DraftUnsound(issue: Option<string>)

  const DRAFT_NAMING := "(a draft conclusion naming"

  function Text(p: Phrase): string {
    match p
    case Guarding => "Enforcing read-only mode on an unattended, scheduled run."
    case Declining => "Declining an approval card on an unattended, scheduled run."
    case Grounding => "Verifying the conclusion before reporting it."
    case Verifying => "Verifying the remediation's real-world effect before reporting it."
    case Reviewing => "A second review of the conclusion before reporting it."
    case NotSubmitted(t) =>
      "(a proposed " + Name(t) + " was not submitted — this scheduled run is read-only and never executes an action)"
    case NotRequested(t) =>
      "(" + Name(t) + " requires DBA approval — not requested, because this scheduled run never asks for one)"
    case TimedOut(t, error) => Name(t) + " did not respond in time: " + error
    case Refused(t, code, message) => Name(t) + " was rejected (" + CodeName(code) + "): " + message
    case Fell(t, message) => Name(t) + " failed: " + message
    case Told(t, message, affected) => Name(t) + ": " + message + affected
    case DraftNaming(names) => DRAFT_NAMING
        + (" " + Join(names) + " was rejected — not found in any evidence gathered)")
    case DraftUnverified(t) =>
      "(a draft conclusion after " + Name(t) + " was rejected — not yet independently verified)"
    case DraftUnsound(issue) =>
      "(a draft conclusion was rejected on review — "
      + (if Given(issue) then issue.value else "did not follow from the evidence") + ")"
  }

  /** Python truth of an optional text. */
  predicate Given(o: Option<string>) {
    o.Some? && o.value != ""
  }

  function AppendOnce(evidence: seq<string>, text: string): seq<string> {
    if evidence == [] || evidence[|evidence| - 1] != text then evidence + [text] else evidence
  }

  // ---------------------------------------------------------------- grounding

  /** What the loop itself said about rejected names never grounds them. */
  function Lookup(inv: Inquiry): Haystack {
    Haystack(RealTranscript(inv.transcript), inv.problem, RealEvidence(inv.evidence))
  }

  function RealTranscript(ts: seq<TranscriptEntry>): seq<TranscriptEntry> {
    if ts == [] then []
    else RealTranscript(ts[..|ts| - 1]) + if ts[|ts| - 1].toolId == GroundingCheck then [] else [ts[|ts| - 1]]
  }

  function RealEvidence(es: seq<string>): seq<string> {
    if es == [] then []
    else RealEvidence(es[..|es| - 1]) + if DRAFT_NAMING <= es[|es| - 1] then [] else [es[|es| - 1]]
  }

  function Claimed(c: Action): string
    requires c.Conclude?
  {
    var parts := (if c.summary != "" then [c.summary] else []) +
                 (if Given(c.rootCause) then [c.rootCause.value] else []) +
                 (if Given(c.recommendation) then [c.recommendation.value] else []);
    Spaced(parts)
  }

  function Spaced(parts: seq<string>): string {
    if parts == [] then "" else if |parts| == 1 then parts[0] else parts[0] + " " + Spaced(parts[1..])
  }

  function Ungrounded(c: Action, inv: Inquiry, env: Env): seq<string>
    requires c.Conclude?
  {
    Unseen(env.names(Claimed(c)), {}, Lookup(inv), env)
  }

  /** The names not found, each once, in order of first mention. */
  function Unseen(names: seq<string>, seen: set<string>, hay: Haystack, env: Env): seq<string> {
    if names == [] then []
    else if names[0] in seen then Unseen(names[1..], seen, hay, env)
    else (if env.occurs(names[0], hay) then [] else [names[0]]) + Unseen(names[1..], seen + {names[0]}, hay, env)
  }

  // ---------------------------------------------------------------- verification of writes

  /** The read-only re-checks of a tracked write; none for any other tool. */
  function Rechecks(write: ToolId): set<ToolId> {
    match write
    case KillSession => {GetBlockingSessions, GetSessions}
    case CancelQuery => {GetBlockingSessions, GetRunningQueries, GetSessions}
    case _ => {}
  }

  function RowText(row: Json, key: string): string {
    if key in row then row[key] else "None"
  }

  /** The re-check's own rows still show the session the write was aimed at. */
  predicate StillShows(tool: ToolId, sessionId: Option<string>, rows: seq<Json>) {
    Given(sessionId) &&
    exists i :: 0 <= i < |rows| &&
      if tool == GetBlockingSessions
      then RowText(rows[i], "blocked_session_id") == sessionId.value
          || RowText(rows[i], "blocking_session_id") == sessionId.value
      else RowText(rows[i], "session_id") == sessionId.value
  }

  predicate Tracks(tool: ToolId, types: Option<map<ToolId, OperationType>>) {
    Rechecks(tool) != {} && (types.None? || (tool in types.value && types.value[tool] == WRITE))
  }

  /** One executed call's effect on (pending re-check, last verdict). */
  function CheckStep(c: (Option<PendingCheck>, Option<Verdict>), x: Execution)
    : (Option<PendingCheck>, Option<Verdict>)
  {
    if c.0.Some? && x.toolId in Rechecks(c.0.value.toolId) then
      (None, Some(if StillShows(x.toolId, c.0.value.sessionId, x.rows) then UNRESOLVED else RESOLVED))
    else if x.tracked then (Some(PendingCheck(x.toolId, x.sessionId, x.reason)), None)
    else c
  }

  function ConclusionStage(inv: Inquiry): Stage {
    if inv.lastCheck == Some(RESOLVED) then CONCLUDED_VERIFIED
    else if inv.lastCheck == Some(UNRESOLVED) then CONCLUDED_UNRESOLVED
    else if inv.pendingCheck.Some? then CONCLUDED_UNVERIFIED
    else CONCLUDED_NO_ACTION
  }

  // ---------------------------------------------------------------- one proposal

  predicate ConfirmedRead(tool: ToolId, types: Option<map<ToolId, OperationType>>) {
    types.Some? && tool in types.value && types.value[tool] == READ
  }

  function Stripped(tool: ToolId, arguments: Json, allowed: Option<map<ToolId, set<string>>>): Json {
    if allowed.None? || tool !in allowed.value then arguments
    else map k | k in arguments && k in allowed.value[tool] :: arguments[k]
  }

  function Logged(inv: Inquiry, entry: TranscriptEntry, line: string): Inquiry {
    inv.(transcript := inv.transcript + [entry], evidence := inv.evidence + [line])
  }

  /** Counters, mode, playbook and stage are the loop's own: submitting a call leaves them alone. */
  predicate Steady(a: Inquiry, b: Inquiry) {
    && b.problem == a.problem && b.status == a.status && b.turnCount == a.turnCount
    && b.clarificationCount == a.clarificationCount && b.observations == a.observations
    && b.playbook == a.playbook && b.playbookStep == a.playbookStep && b.readOnly == a.readOnly
  }

  /** The read-only guard stops the proposal before a request is built. */
  predicate Guarded(w: World, a: Action, env: Env)
    requires a.ProposeToolCall?
  {
    w.inv.readOnly && !ConfirmedRead(a.toolId, env.operationTypes)
  }

  function RequestOf(w: World, a: Action, env: Env): Request
    requires a.ProposeToolCall?
  {
    Request(a.toolId, Stripped(a.toolId, a.arguments, env.allowedArguments), w.conv.context + a.target, a.reason,
            env.requestId(|w.hist.sent|), env.sender)
  }

  function Dropping(w: World, a: Action): World
    requires a.ProposeToolCall?
  {
    w.(inv := Logged(w.inv, TranscriptEntry(ReadOnlyGuard, Text(Guarding), Dropped(a.toolId)),
                     Text(NotSubmitted(a.toolId))),
       hist := w.hist.(proposals := w.hist.proposals + [Proposal(a.toolId, false, true)]))
  }

  function Sending(w: World, request: Request, response: ToolResponse): World {
    w.(hist := w.hist.(sent := w.hist.sent + [request],
                       proposals := w.hist.proposals
                                    + [Proposal(request.toolId, true, response.ApprovalRequired? && w.inv.readOnly)]))
  }

  function SubmitAndRelay(w: World, a: Action, env: Env): (r: (World, Option<Reply>))
    requires a.ProposeToolCall?
    ensures Steady(w.inv, r.0.inv)
  {
    if Guarded(w, a, env) then (Dropping(w, a), None)
    else
      var request, response := RequestOf(w, a, env), env.gateway(|w.hist.sent|);
      Relay(Sending(w, request, response), request, response, env)
  }

  /** The database a request named is remembered unless the Gateway refused the target itself. */
  function Remembered(conv: Conversation, request: Request, response: ToolResponse): Conversation {
    if "database" in request.target && request.target["database"] != ""
       && !response.NoResponse? && !(response.Denied? && response.code == INVALID_TARGET)
    then conv.(context := conv.context["database" := request.target["database"]]) else conv
  }

  function ExecutionOf(request: Request, rows: seq<Json>, env: Env): Execution {
    Execution(request.toolId, if "session_id" in request.arguments then Some(request.arguments["session_id"]) else None,
              request.reason, rows, Tracks(request.toolId, env.operationTypes))
  }

  function Relay(w: World, request: Request, response: ToolResponse, env: Env): (r: (World, Option<Reply>))
    ensures Steady(w.inv, r.0.inv)
  {
    var tool, reason := request.toolId, request.reason;
    var w1 := w.(conv := Remembered(w.conv, request, response));
    match response
    case NoResponse(error) =>
      (w1.(inv := Logged(w.inv, TranscriptEntry(tool, reason, Failure(error, None)), Text(TimedOut(tool, error)))),
       Some(Reply(ERROR_REPLY, None, false)))
    case ApprovalRequired(id) =>
      if w.inv.readOnly then
        (w1.(inv := Logged(w.inv, TranscriptEntry(ReadOnlyGuard, Text(Declining), Dropped(tool)),
                           Text(NotRequested(tool)))), None)
      else
        (w1.(conv := w1.conv.(pending := Some(PendingApproval(id, tool, request)))),
         Some(Reply(APPROVAL_CARD, Some(id), false)))
    case Denied(code, message) =>
      if code in SELF_CORRECTABLE && w.inv.turnCount < MAX_TURNS then
        (w1.(inv := Logged(w.inv, TranscriptEntry(tool, reason, Failure(message, Some(code))),
                           Text(Refused(tool, code, message)))), None)
      else (w1, Some(Reply(DENIED_REPLY, None, false)))
    case Failed(message) =>
      (w1.(inv := Logged(w.inv, TranscriptEntry(tool, reason, Failure(message, None)), Text(Fell(tool, message)))),
       None)
    case Executed(rows, message, affected) =>
      var x := ExecutionOf(request, rows, env);
      var logged := Logged(w.inv, TranscriptEntry(tool, reason, Rows(rows)), Text(Told(tool, message, affected)));
      var checked := CheckStep((w.inv.pendingCheck, w.inv.lastCheck), x);
      (w1.(inv := logged.(actions := logged.actions + [ActionTaken(tool, rows)], pendingCheck := checked.0,
                          lastCheck := checked.1),
           hist := w.hist.(executed := w.hist.executed + [x])), None)
  }

  // ---------------------------------------------------------------- one conclusion

  function Rejected(inv: Inquiry, tool: ToolId, why: Phrase, result: Payload, note: Phrase): Inquiry {
    inv.(transcript := inv.transcript + [TranscriptEntry(tool, Text(why), result)],
         evidence := AppendOnce(inv.evidence, Text(note)))
  }

  function Accepted(inv: Inquiry, c: Action): Inquiry
    requires c.Conclude?
  {
    inv.(status := ConclusionStage(inv),
         findings := inv.findings + (if Given(c.rootCause) then [c.rootCause.value] else []),
         recommendations := inv.recommendations + (if Given(c.recommendation) then [c.recommendation.value] else []))
  }

  /** An accepted conclusion's reply, or none when it is rejected. */
  function FinalizeConclude(w: World, c: Action, env: Env, finalChance: bool): (r: (World, Option<Reply>))
    requires c.Conclude?
    ensures r.1.None? ==> Steady(w.inv, r.0.inv)
    ensures r.1.Some? ==> r.1 == Some(Reply(OK, None, true)) && r.0.inv.status == ConclusionStage(w.inv)
                          && r.0.inv.turnCount == w.inv.turnCount
  {
    var ungrounded := Ungrounded(c, w.inv, env);
    if ungrounded != [] then
      (w.(inv := Rejected(w.inv, GroundingCheck, Grounding, RejectedNames(ungrounded), DraftNaming(ungrounded))), None)
    else if !finalChance && w.inv.pendingCheck.Some? then
      var tool := w.inv.pendingCheck.value.toolId;
      (w.(inv := Rejected(w.inv, VerificationCheck, Verifying, RejectedPending(tool), DraftUnverified(tool))), None)
    else
      var review := if finalChance then None else env.review(w.hist.reviewCalls);
      var w1 := if finalChance then w else w.(hist := w.hist.(reviewCalls := w.hist.reviewCalls + 1));
      if review.Some? && !review.value.sound then
        var issue := review.value.issue;
        (w1.(inv := Rejected(w.inv, SelfCritiqueCheck, Reviewing, RejectedReview(issue), DraftUnsound(issue))), None)
      else
        (w1.(inv := Accepted(w.inv, c)), Some(Reply(OK, None, true)))
  }

  // ---------------------------------------------------------------- the loop

  /** The first remaining playbook step whose tool is available, and the position after it. */
  function NextStep(steps: seq<PlaybookStep>, from: nat, available: seq<ToolId>): (r: (nat, Option<PlaybookStep>))
    ensures from <= r.0 <= |steps| || r == (from, None)
    ensures r.1.Some? ==> from < r.0 <= |steps| && r.1.value == steps[r.0 - 1] && r.1.value.toolId in available
    ensures forall i :: from <= i < |steps| && i < (if r.1.Some? then r.0 - 1 else |steps|) ==>
            steps[i].toolId !in available
    decreases |steps| - from
  {
    if from >= |steps| then (from, None)
    else if steps[from].toolId in available then (from + 1, Some(steps[from]))
    else NextStep(steps, from + 1, available)
  }

  function PlaybookAction(inv: Inquiry, env: Env): (r: (nat, Option<Action>))
    ensures r.1.Some? ==> r.1.value.ProposeToolCall? && r.1.value.toolId in env.available && r.0 > inv.playbookStep
  {
    if inv.playbook.None? then (inv.playbookStep, None)
    else
      var (at, step) := NextStep(inv.playbook.value, inv.playbookStep, env.available);
      (at, if step.None? then None
           else Some(ProposeToolCall(step.value.toolId, step.value.arguments, map[], step.value.purpose)))
  }

  const FALLBACK := Reply(OK, None, false)

  /** A turn is charged, and every count but the model's persistence starts over. */
  function Charged(inv: Inquiry): Inquiry {
    inv.(turnCount := inv.turnCount + 1, clarificationCount := 0, observations := 0)
  }

  function Clarify(w: World): (World, Option<Reply>) {
    var inv := w.inv.(observations := 0, clarificationCount := w.inv.clarificationCount + 1);
    if inv.clarificationCount > MAX_CLARIFICATIONS then
      (w.(inv := inv.(status := ConclusionStage(inv))), Some(FALLBACK))
    else
      (w.(inv := inv.(status := AWAITING_CLARIFICATION)), Some(Reply(CLARIFICATION, None, false)))
  }

  /** What the loop does with the model's answer. */
  function Act(w: World, action: Action, env: Env): (r: (World, Option<Reply>))
    ensures r.0.inv.turnCount == w.inv.turnCount + if action.AskClarification? then 0 else 1
    ensures r.1.None? ==> !action.AskClarification? && r.0.inv.clarificationCount == 0 && r.0.inv.status == w.inv.status
  {
    match action
    case AskClarification(_) => Clarify(w)
    case RecordObservation(text) =>
      (w.(inv := Charged(w.inv).(observations := w.inv.observations + 1, evidence := w.inv.evidence + [text])), None)
    case ProposeToolCall(_, _, _, _) => SubmitAndRelay(w.(inv := Charged(w.inv)), action, env)
    case Conclude(_, _, _) => FinalizeConclude(w.(inv := Charged(w.inv)), action, env, false)
  }

  /** One pass through the body of the loop. */
  function Turn(w0: World, env: Env): (r: (World, Option<Reply>))
    ensures r.0.inv.turnCount <= w0.inv.turnCount + 1
    ensures r.1.None? ==> r.0.inv.turnCount == w0.inv.turnCount + 1
  {
    var (at, step) := PlaybookAction(w0.inv, env);
    var w := w0.(inv := w0.inv.(status := INVESTIGATING, playbookStep := at));
    if step.Some? then
      SubmitAndRelay(w.(inv := w.inv.(turnCount := w.inv.turnCount + 1)), step.value, env)
    else if w.inv.observations >= MAX_OBSERVATIONS then
      (w.(inv := w.inv.(status := ConclusionStage(w.inv))), Some(FALLBACK))
    else
      Act(w.(hist := w.hist.(modelCalls := w.hist.modelCalls + 1)), env.model(w.hist.modelCalls), env)
  }

  /** The one call left after the turn budget is spent. */
  function LastChance(w: World, env: Env): (World, Reply) {
    var action := env.model(w.hist.modelCalls);
    var w1 := w.(hist := w.hist.(modelCalls := w.hist.modelCalls + 1));
    var (w2, reply) := if action.Conclude? then FinalizeConclude(w1, action, env, true) else (w1, None);
    if reply.Some? then (w2, reply.value)
    else (w2.(inv := w2.inv.(status := ConclusionStage(w2.inv))), FALLBACK)
  }

  function Run(w: World, env: Env): (World, Reply)
    decreases if w.inv.turnCount < MAX_TURNS then MAX_TURNS - w.inv.turnCount else 0
  {
    if w.inv.turnCount >= MAX_TURNS then LastChance(w, env)
    else
      var (w1, reply) := Turn(w, env);
      if reply.Some? then (w1, reply.value) else Run(w1, env)
  }

  // ---------------------------------------------------------------- the DBA's answer to an approval card

  /** What the Gateway's approvals endpoint answered. */
  datatype ApproveAnswer = ApproveError | AwaitingSecondApproval | FullyApproved

  /** `handle_approval_decision` reads the card, asks the Gateway, and goes on with what it read. Between the
      three anything may happen to the conversation: what follows is said of the state found then. */
  function CardDropped(w: World): World {
    w.(conv := w.conv.(pending := None))
  }

  /** The approval is answered: the state, and whether the card's request is resubmitted. */
  function CardAnswered(w: World, answer: ApproveAnswer): (World, bool) {
    if answer.FullyApproved? then (CardDropped(w), true) else (w, false)
  }

  /** The resubmitted request is answered. */
  function CardResubmitted(w: World, card: PendingApproval, response: ToolResponse): World {
    if response.Executed? then w.(inv := w.inv.(actions := w.inv.actions + [ActionTaken(card.toolId, response.rows)]))
    else w
  }

  /** An answer to a card with which nothing else interferes: the state after it, the request it resubmitted, the
      reply. */
  function AnswerCard(w: World, reject: bool, answer: ApproveAnswer, response: ToolResponse)
    : (World, Option<PendingApproval>, ReplyKind)
  {
    match w.conv.pending
    case None => (w, None, ERROR_REPLY)
    case Some(card) =>
      if reject then (CardDropped(w), None, OK)
      else
        var (w1, resubmits) := CardAnswered(w, answer);
        if !resubmits then (w1, None, if answer.ApproveError? then ERROR_REPLY else OK)
        else (CardResubmitted(w1, card, response), Some(card), if response.Executed? then OK else ERROR_REPLY)
  }
}
