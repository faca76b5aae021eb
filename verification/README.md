# Verified model of Numi's approval Gateway and investigation Agent

Numi is a database assistant in two halves. A Gateway decides which tool calls may run, puts the dangerous
ones behind approvals bound to the exact action, and executes them. An Agent drives a language model through
a bounded investigation and relays what the Gateway answers. This project models the parts of both where the
interesting facts are about whole runs, and proves them with Dafny. `dafny verify dfyconfig.toml` checks
everything.

| files | what they model |
|---|---|
| `Approval`, `Policy` | approval records and the engine that changes them; the policy decision table and the maintenance window |
| `Gateway`, `GatewaySafety`, `GatewayAccounting`, `GatewayRejection` | tool calls and decisions as a transition system with overlapping calls; binding, separation of duties, conservation of approvals, finality of rejections |
| `ToolCallHandler`, `Resubmission` | `handle` as it runs, and the Agent's stored request meeting the Gateway again |
| `Investigation`, `InvestigationLoop` | the investigation loop as functions, and as the object that updates its fields step by step |
| `InvestigationBounds`, `InvestigationChecks`, `InvestigationReadOnly`, `InvestigationGrounding`, `ConversationCards` | what holds of every run of the loop |
| `InvestigationOutcomes` | what each step of the loop comes to, said of its inputs |
| `Composition`, `CompositionSafety`, `CompositionAnswers` | the Agent and the Gateway together: turns of the loop, answers to approval cards and other traffic, interleaved |
| `RateLimit` | the two windowed counters and the five-budget limiter |
| `FallbackWalk`, `GeminiFallback` | provider fallback inside one deadline, and model switching with cooldowns |
| `Scrubber`, `DataMinimizer`, `ServerReference`, `Recall` | text and row transformations against simple specifications |
| `Basics`, `Sequences` | shared vocabulary |

How the model is built:

- The language model, the Gateway as the Agent sees it, and the reviewing model are infinite streams of
  answers indexed by how many have been asked for. A theorem about all streams is a theorem about every
  behaviour, however it reacts to what it is told.
- A tool call is three steps, submit, execute and finish, and any number of calls may be between steps.
  Theorems about `Runs` hold for every interleaving; theorems about `SerialRuns` exclude only a call verified while
  another one behind the same approval is in flight; theorems about `AtomicRuns` take each call as one step.
- An answer to an approval card ends a step at every await of `handle_approval_decision`, so that any number of
  answers to one card may be under way; theorems about `OneAtATime` exclude that.
- Where the source updates fields, the model has a class whose methods are proved equal to a function of the
  old state; the theorems are then about that function.
- Clocks, fresh identifiers, execution results, rows and lookup failures are inputs.

## Where the code and its documentation differ, or a promise has a condition

The model follows the code, and the exact condition is a lemma.

- `decide` lists APPROVED and REJECTED as already decided but not EXECUTED (`approval.py` line 209), although
  the module promises that an already-decided approval is never reused. A used record can be approved again,
  and then used again, exactly when its window is still open and the signature is admissible
  (`Approval.UsedRecordDecision`, `GatewayAccounting.SecondUseIff`).
- Nothing locks an approval between verification and consumption: two overlapping calls can both run on one
  grant, and its uses then exceed its grants (`GatewayAccounting.OverlapBreaksConservation`). Conservation is
  therefore stated for runs in which calls behind one approval do not overlap; decisions may come at any moment.
- Nothing locks a card between reading and clearing it: two overlapping approvals of one card resubmit it twice when
  the second meets the used record (`CompositionAnswers.OverlappingAnswersResubmitTwice`, with the exact condition
  in `CompositionAnswers.ResubmitsAgainIff`).
- `handle` says that only three codes can follow an execution attempt, but the Execution Service also returns
  TOOL_NOT_AVAILABLE and TOOL_NOT_FOUND (`src/numi/execution/service.py` lines 150-179 and 250), and such an
  attempt is answered DENIED (`ToolCallHandling.FailedAttemptAnsweredAsRefusal`).
- In an unattended run a READ tool that policy puts behind approval is both submitted and listed among the
  dropped proposals (`InvestigationReadOnly.ProposalDisposed`); every other proposal is one or the other. The list
  can have a blank entry too many only when the catalog lends the guard's own name to a READ tool
  (`InvestigationReadOnly.GuardNameTaken`).
- Policy fails closed only as far as the configured default is DENY (`Policy.Judge`).
- A negative row cap reports truncation of an empty result, and keeps dropping rows on every pass
  (`DataMinimizer.TruncatedIffDropped`, `DataMinimizer.IdempotentIff`).

## Model

| member | source | states |
|---|---|---|
| `GatewaySafety.GatedExecutionIsBound` | src/numi/gateway/domain/tool_call_handler.py:252-326 | In every run, with any overlap of calls and decisions, an execution behind approval rests on a verification of its own against a record created earlier by the same actor for the identical tool, version, target, arguments, environment, database and risk, granted before and neither rejected nor consumed in between, no later than creation plus time to live |
| `GatewaySafety.DualRecordsSeparated` | src/numi/gateway/domain/approval.py:229-282 | In every reachable state a dual record that is APPROVED or EXECUTED names two approvers, different from each other and from the requester |
| `GatewaySafety.DualExecutionsSigned` | src/numi/gateway/domain/approval.py:195-336 | Every execution behind a dual approval is preceded by two accepted approvals of different people, neither the requester |
| `GatewaySafety.RunKeepsInv` | src/numi/gateway/domain/tool_call_handler.py:168-393 | The history explains every record, every call in flight and every execution, after any run |
| `GatewaySafety.NextKeepsInv` | src/numi/gateway/domain/tool_call_handler.py:168-393 | Each single step (submit, execute, finish, decide) keeps that invariant |
| `GatewayAccounting.ApprovalsConserved` | src/numi/gateway/domain/approval.py:195-336 | With decisions at any moment and calls behind one approval not overlapping, the successful executions behind an approval are its entries into APPROVED: all of them once it is used, all but one while it stands approved with no call behind it; and it is granted at most once more than it is approved after a use |
| `GatewayAccounting.UsedAtMostOnce` | src/numi/gateway/domain/tool_call_handler.py:326-337 | With calls atomic and no approval given to a used record, an approval is used at most once |
| `GatewayAccounting.AtomicIsSerial` | src/numi/gateway/domain/tool_call_handler.py:97-166 | Taking each call as one step is a special case of calls not overlapping behind one approval |
| `GatewayAccounting.SecondUseIff` | src/numi/gateway/domain/approval.py:204-218 | A used record serves a second execution, with nothing overlapping, exactly when its window is open and the new signature is admissible |
| `GatewayAccounting.OverlapUsesTwice` | src/numi/gateway/domain/tool_call_handler.py:284-337 | From any standing approval two overlapping calls both execute on its one grant |
| `GatewayAccounting.OverlapBreaksConservation` | src/numi/gateway/domain/tool_call_handler.py:284-337 | From every new Gateway a run with two overlapping calls ends with two uses of one grant |
| `GatewayAccounting.FailureConsumesNothing` | src/numi/gateway/domain/tool_call_handler.py:326-337 | A verified call whose execution fails leaves every record as it was, and the approval lets the same action through again exactly until its window ends |
| `GatewayRejection.RejectionIsFinal` | src/numi/gateway/domain/approval.py:204-227 | In every run in which calls behind one approval do not overlap, nothing signs, verifies or executes behind an approval once it was rejected |
| `GatewayRejection.RejectionRejects` | src/numi/gateway/domain/approval.py:215-227 | A rejection on record is an accepted one, and leaves the record REJECTED |
| `GatewayRejection.DecisionIsCommitted` | src/numi/gateway/api/routers/approvals.py:65-116 | An accepted decision is committed and a refused one leaves the table and the history as they were |
| `Approval.LapseOutcome` | src/numi/gateway/domain/approval.py:175-193 | Only an open record lapses, only after its last moment, and all that changes is that it is expired, with one event |
| `Approval.DecisionOutcome` | src/numi/gateway/domain/approval.py:195-282 | When a decision is accepted; that a rejection leaves the record REJECTED; that an approval leaves it APPROVED exactly if it is single or has its first signature and AWAITING_SECOND_APPROVAL otherwise; and each reason for a refusal |
| `Approval.DecideOn` | src/numi/gateway/domain/approval.py:195-282 | No decision changes what the record is for or when it ends, and a refused one at most lets it lapse |
| `Approval.VerificationOutcome` | src/numi/gateway/domain/approval.py:284-325 | Exactly when a verification passes, and exactly when it is refused as a mismatch, expired, not granted yet or invalid |
| `Approval.VerifyOn` | src/numi/gateway/domain/approval.py:284-325 | A verification that passes changes nothing, and one that does not at most lets the record lapse |
| `Approval.UsedRecordDecision` | src/numi/gateway/domain/approval.py:209-218 | A decided record refuses a further decision exactly when it has not been used, or a dual record refuses this signature |
| `Approval.DatabaseIdSharedIff` | src/numi/gateway/domain/tool_call_handler.py:254-263 | Two databases share a joined id exactly when they are the same, or one server's id goes on from the other's with a slash; so ids without a slash are told apart |
| `Approval.ApprovalEngine.Create` | src/numi/gateway/domain/approval.py:132-167 | The table gains one pending record that expires after the time to live, and one event; nothing else changes |
| `Approval.ApprovalEngine.ExpireIfNeeded` | src/numi/gateway/domain/approval.py:175-193 | The update in place is the lapse of that one record |
| `Approval.ApprovalEngine.Decide` | src/numi/gateway/domain/approval.py:195-282 | The update in place, the events and the error are those of the decision function, unknown ids included |
| `Approval.ApprovalEngine.VerifyForExecution` | src/numi/gateway/domain/approval.py:284-325 | The update in place, the events and the error are those of the verification function |
| `Approval.ApprovalEngine.MarkExecuted` | src/numi/gateway/domain/approval.py:327-336 | The record is marked used and nothing else in the table changes |
| `Policy.WindowIsArc` | src/numi/gateway/domain/policy_engine.py:45-65 | A configured window, wrapping midnight or not, holds exactly when (now - start) mod day is at most (end - start) mod day; without one there is no restriction |
| `Policy.Judge` | src/numi/gateway/domain/policy_engine.py:84-139 | DENY exactly when the table, or the default where it is silent, says so; ALLOW exactly when it says ALLOW, the window does not hold the tool back and critical load does not either |
| `Policy.EntryIff` | src/numi/gateway/domain/policy_engine.py:97-105 | The table speaks for exactly the (environment, tool, role) triples it lists |
| `Policy.Evaluate` | src/numi/gateway/domain/policy_engine.py:84-139 | The step-by-step evaluation decides as that function, and its reasons name the missing entry, either escalation and the missing ticket exactly when they apply |
| `ToolCallHandling.HandlingIsAtomic` | src/numi/gateway/domain/tool_call_handler.py:97-393 | A call handled alone is an atomic run of the transition system that ends with nothing in flight |
| `ToolCallHandling.AttemptedIff` | src/numi/gateway/domain/tool_call_handler.py:252-297 | A call reaches execution exactly when nothing before refuses it and policy allows it, or asks for approval and it names a granted approval of the identical action still in its window |
| `ToolCallHandling.HandledRecords` | src/numi/gateway/domain/tool_call_handler.py:264-337 | What a call does to the approvals table: asks for one for 600 seconds, uses one up by succeeding, lets one lapse by coming late, and nothing else |
| `ToolCallHandling.HandledExecutions` | src/numi/gateway/domain/tool_call_handler.py:290-337 | A call that may run is executed once, as evaluated; any other is not |
| `ToolCallHandling.ToolCallHandler.Admit` | src/numi/gateway/domain/tool_call_handler.py:252-288 | The call goes on exactly if it may run, and is otherwise answered with the approval it needs or the code it is refused with |
| `ToolCallHandling.ToolCallHandler.Perform` | src/numi/gateway/domain/tool_call_handler.py:290-337 | From execution on they are those of execution and consumption; a call that raises changes no record |
| `ToolCallHandling.ToolCallHandler.Handle` | src/numi/gateway/domain/tool_call_handler.py:97-393 | A call that may run is answered EXECUTED, its failure, or an exception exactly as execution ends; any other as it is stopped; and the table, events and history are those of the call's steps |
| `ToolCallHandling.FailedAttemptAnsweredAsRefusal` | src/numi/gateway/domain/tool_call_handler.py:109-139 | Attempted calls that fail with a code outside the three execution codes are answered DENIED, and no others |
| `Resubmission.ResubmissionNeverMismatches` | src/numi/gateway/domain/tool_call_handler.py:254-288 | A request stopped for approval and sent again after any run of the Gateway is never refused as a mismatch, and passes exactly if the record stands approved in its window |
| `Resubmission.KeysSharedIff` | src/numi/gateway/domain/tool_call_handler.py:254-263 | Exactly when two actions share a key: same actor, tool version, target, arguments, environment and risk, and the same database up to slashes in server ids |
| `Resubmission.StagesPassIff` | src/numi/gateway/domain/tool_call_handler.py:168-250 | Exactly what gets a request past the first seven stages, what it is evaluated to, and how identity and resolution failures are passed on |
| `Resubmission.BoundRequestNeverMismatches` | src/numi/gateway/domain/approval.py:284-325 | A request sent under an approval of the action it stands for is never refused as a mismatch, whatever policy, rate limit and clock say by then |
| `Resubmission.CreatedForRequest` | src/numi/gateway/domain/tool_call_handler.py:264-283 | The approval a request is stopped for is of the action it stands for |
| `Resubmission.RunKeepsIdentities` | src/numi/gateway/domain/approval.py:132-336 | No run changes what a record is for, its window, or takes back its second signature |
| `InvestigationBounds.RunAdvances` | src/numi/agent/orchestrator.py:1047-1226 | Every call of the loop concludes the investigation or strictly advances (turns, clarifications), and submits no more calls than it charges turns |
| `InvestigationBounds.LifeIsBounded` | src/numi/agent/orchestrator.py:1059-1226 | Over a whole investigation at most 30 calls of the loop do not conclude it and at most 6 tool calls are submitted, for any model and any Gateway |
| `InvestigationBounds.SomeRunAdvancesByOne` | src/numi/agent/orchestrator.py:1084-1226 | From every position some model and Gateway advance by exactly one place, submitting a call for every turn charged |
| `InvestigationBounds.LifeBoundIsMet` | src/numi/agent/orchestrator.py:1059-1226 | The bounds are met: some life has 31 calls of the loop, 30 of which do not conclude it, and 6 submissions |
| `InvestigationChecks.FoldIsDecided` | src/numi/agent/orchestrator.py:1909-1960 | The re-check automaton ends where the latest tracked write and the first matching re-check after it decide |
| `InvestigationChecks.DecidedOnce` | src/numi/agent/orchestrator.py:1909-1960 | That description determines both fields |
| `InvestigationChecks.RunKeepsChecks` | src/numi/agent/orchestrator.py:1047-1226 | Whatever the loop does, the two fields stay the fold over its executed calls |
| `InvestigationChecks.StageIsRecorded` | src/numi/agent/orchestrator.py:2526-2549 | A stage any call of the loop ends in is the one the two fields name |
| `InvestigationChecks.ChecksAreDecided` | src/numi/agent/orchestrator.py:2526-2549 | After any call the fields are never both set; a concluded investigation is recorded UNVERIFIED exactly if a tracked write was never re-checked, NO_ACTION exactly if there was none, VERIFIED or UNRESOLVED exactly as the first re-check of the latest write found |
| `InvestigationChecks.ReportedUnverifiedOnlyAtTheEnd` | src/numi/agent/orchestrator.py:1369-1416 | A run that does not come to its last chance reports no UNVERIFIED conclusion; one that does ends as that last chance ends, after the whole turn budget |
| `InvestigationReadOnly.RunStaysSilent` | src/numi/agent/orchestrator.py:1633-1692 | In an unattended run every proposal is submitted exactly when the catalog classifies its tool READ and dropped exactly when it does not or the Gateway asked for approval; only READ tools are sent, the guard log lists the dropped ones in order, no approval is stored, no card returned, and a conclusion is CONCLUDED_NO_ACTION |
| `InvestigationReadOnly.ProposalDisposed` | src/numi/agent/orchestrator.py:1755-1801 | Exactly when a proposal is submitted and exactly when it is logged as dropped |
| `InvestigationReadOnly.GuardNameTaken` | src/numi/agent/orchestrator.py:2159-2173 | Were the guard's own name a READ tool, running it would add a blank entry to the dropped proposals |
| `InvestigationGrounding.InsistenceNeverGrounds` | src/numi/agent/orchestrator.py:1325-1367 | From any point of any run, any k consecutive identical ungrounded conclusions are each rejected for the same names: the lookup is unchanged, with k more transcript entries and at most one more line of evidence |
| `InvestigationGrounding.InsistenceIsNeverReported` | src/numi/agent/orchestrator.py:1208-1226 | A model that insists through the turn budget and the last chance is rejected to the end and nothing is reported |
| `InvestigationGrounding.LookupIgnoresRejection` | src/numi/agent/orchestrator.py:137-169 | A grounding rejection leaves what identifiers are looked up in unchanged |
| `InvestigationGrounding.UnseenExactly` | src/numi/agent/orchestrator.py:137-169 | A name is reported once, and exactly if it is claimed and not found |
| `InvestigationGrounding.GroundedIff` | src/numi/agent/orchestrator.py:1325-1367 | A conclusion passes the grounding check exactly if every identifier it claims is found |
| `InvestigationOutcomes.AcceptedIff` | src/numi/agent/orchestrator.py:1297-1464 | A conclusion is accepted exactly when every identifier it claims is found and, unless it is the last chance, no write waits for its re-check and the second review is absent or sound |
| `InvestigationOutcomes.ReportedIsAccepted` | src/numi/agent/orchestrator.py:1047-1464 | In every run a reported conclusion is the model's last answer, was grounded, and unless taken at the last chance had nothing pending and was not judged unsound |
| `InvestigationOutcomes.ConclusionLeaves` | src/numi/agent/orchestrator.py:1325-1464 | What an accepted conclusion adds, and by which check a rejected one is sent back |
| `InvestigationOutcomes.AllIsClaimed` | src/numi/agent/orchestrator.py:157-159 | Summary, root cause and recommendation are all searched for identifiers |
| `InvestigationOutcomes.LookupIs` | src/numi/agent/orchestrator.py:152-156 | Identifiers are looked up in all of the transcript, evidence and problem but what the grounding check itself wrote |
| `InvestigationOutcomes.SentIs` | src/numi/agent/orchestrator.py:1589-1709 | Exactly when a proposal is sent, with which arguments and with which target |
| `InvestigationOutcomes.RelayOutcome` | src/numi/agent/orchestrator.py:1710-1907 | For each answer of the Gateway, whether the loop goes on, what it replies if not, and what it stores |
| `InvestigationOutcomes.RememberedIs` | src/numi/agent/orchestrator.py:1734-1753 | Exactly when a database named in a request is remembered |
| `InvestigationOutcomes.RecheckIs` | src/numi/agent/orchestrator.py:325-348 | Which executed calls re-check a write, and that the verdict is unresolved exactly if some row still shows the session |
| `InvestigationOutcomes.TrackedIs` | src/numi/agent/orchestrator.py:1941-1960 | Which executed calls are writes to be re-checked, and what is noted of them |
| `InvestigationOutcomes.TurnIs` | src/numi/agent/orchestrator.py:1059-1121 | A turn proposes the next available playbook step as written, else ends after two observations, else asks the model once |
| `InvestigationOutcomes.ActIs` | src/numi/agent/orchestrator.py:1111-1185 | What each kind of answer of the model costs and does; the fifth question in a row is not asked |
| `InvestigationOutcomes.LastChanceIs` | src/numi/agent/orchestrator.py:1190-1226 | The last chance is one more model call, reported exactly if it concludes and is grounded |
| `InvestigationOutcomes.AnswerIs` | src/numi/agent/orchestrator.py:1962-2033 | An answer drops the card exactly when it rejects it or completes its approval, and resubmits exactly in the second case |
| `ConversationCards.RunCards` | src/numi/agent/orchestrator.py:1803-1830 | A call of the loop returns a card only for the last request it sent, under the id that was answered, and stores that request as it was sent |
| `Composition.RunIsPasses` | src/numi/agent/orchestrator.py:1047-1226 | A call of the loop is a sequence of the passes the joint system interleaves |
| `Composition.BodyReadsRequest` | src/numi/agent/orchestrator.py:1694-1709 | Two requests read alike at the Gateway exactly when they agree on everything but the reason given |
| `CompositionSafety.JointNextKeepsInv` | src/numi/agent/orchestrator.py:1962-2033 | Every step of Agent or Gateway keeps: each card relayed names an approval of exactly the action its stored request stands for, and each resubmission done or owed has a grant of its own |
| `CompositionSafety.JointRunKeepsInv` | src/numi/agent/orchestrator.py:1962-2033 | So does every joint run |
| `CompositionAnswers.ResubmissionsMatch` | src/numi/agent/orchestrator.py:1994-2001 | In every joint run no resubmission is refused as a mismatch, and it passes exactly if the record stands approved in its window |
| `CompositionAnswers.ResubmissionsAreGranted` | src/numi/agent/orchestrator.py:1966-2001 | In every joint run what is resubmitted was relayed as a card, unchanged, and of each approval no oftener than it was granted: once, and once more for every approval after a use |
| `CompositionAnswers.ResubmittedOncePerCard` | src/numi/agent/orchestrator.py:1966-2001 | When no used record is approved, each card is resubmitted at most once, so resubmissions never outnumber APPROVAL_REQUIRED replies |
| `CompositionAnswers.ResubmitsAgainIff` | src/numi/agent/orchestrator.py:1966-2001 | An answer to a card already granted resubmits it exactly if the record was used meanwhile and the new approver may sign it |
| `CompositionAnswers.OneAtATimeResubmitsOnce` | src/numi/agent/orchestrator.py:1966-2001 | With the answers of a conversation one at a time, each card is resubmitted at most once, whatever is approved after a use |
| `CompositionAnswers.OverlappingAnswersResubmitTwice` | src/numi/agent/orchestrator.py:1966-2001 | Two answers that both read the card before either drops it resubmit it twice, and it is executed twice |
| `InvestigationLoop.Investigator.NextPlaybookAction` | src/numi/agent/orchestrator.py:1478-1502 | The position moves to just after the first available step, or to the end |
| `InvestigationLoop.Investigator.AppendEvidenceOnce` | src/numi/agent/orchestrator.py:1228-1244 | A line is added unless it repeats the last one |
| `InvestigationLoop.Investigator.UpdatePendingVerification` | src/numi/agent/orchestrator.py:1909-1960 | The two fields take one step of the re-check automaton |
| `InvestigationLoop.Investigator.SubmitAndRelay` | src/numi/agent/orchestrator.py:1623-1907 | The fields after a proposal, and the reply, are those of the functional description |
| `InvestigationLoop.Investigator.FinalizeConclude` | src/numi/agent/orchestrator.py:1297-1464 | The fields after a conclusion, accepted or rejected, are those of the functional description |
| `InvestigationLoop.Investigator.RunInvestigationLoop` | src/numi/agent/orchestrator.py:1047-1226 | The loop over mutable fields computes `Run`, which every theorem above is about |
| `InvestigationLoop.Investigator.AnswerApproval` | src/numi/agent/orchestrator.py:1975-1999 | What hearing the approval's answer does: only full approval drops the card and resubmits |
| `InvestigationLoop.Investigator.AnswerResubmission` | src/numi/agent/orchestrator.py:2019-2033 | What hearing the resubmission's answer does to whatever state is found then |
| `InvestigationLoop.Investigator.HandleApprovalDecision` | src/numi/agent/orchestrator.py:1962-2033 | The whole of it when nothing else touches the conversation meanwhile |
| `RateLimit.RedisCountsNoLess` | src/numi/common/rate_limit_backend.py:27-53 | Every Redis reset coincides with an in-memory reset, so the Redis count is never the smaller one |
| `RateLimit.RedisGrantsNoMore` | src/numi/common/rate_limit_backend.py:27-53 | Over any timed sequence of calls Redis grants no more than memory does, in any span |
| `RateLimit.MemoryWindowBound` | src/numi/common/rate_limit_backend.py:31-38 | Any half-open span of one window's length holds at most 2 * limit - 1 granted calls of a key; with limit 1, grants are a window apart |
| `RateLimit.RedisWindowBound` | src/numi/common/rate_limit_backend.py:48-53 | The same bound for Redis |
| `RateLimit.WindowBoundIsMet` | src/numi/common/rate_limit_backend.py:31-38 | For every limit and window some calls reach the bound |
| `RateLimit.MemoryCountsSince` | src/numi/common/rate_limit_backend.py:31-38 | The in-memory count is exactly the calls since the one the window runs from |
| `RateLimit.RedisCountsSince` | src/numi/common/rate_limit_backend.py:48-53 | The Redis count is exactly the calls since the last gap of a full window |
| `RateLimit.KeysAreConcerns` | src/numi/gateway/domain/rate_limiter.py:41-68 | A call is charged to exactly the five budgets of its own user, conversation, tool, database and environment in its own tier, in that order |
| `RateLimit.CheckPassesIff` | src/numi/gateway/domain/rate_limiter.py:59-74 | A check passes exactly when every budget it concerns still has room for it |
| `RateLimit.ReachesIff` | src/numi/gateway/domain/rate_limiter.py:68-74 | Budgets are charged in order, up to and including the first that refuses |
| `RateLimit.PassesAreGrants` | src/numi/gateway/domain/rate_limiter.py:41-74 | A check that passes was granted by each budget it concerns at the moment that budget was charged |
| `RateLimit.ChargedAtMostOnce` | src/numi/gateway/domain/rate_limiter.py:59-74 | A check charges each of its keys at most once, all of them when it passes, and no others |
| `RateLimit.EveryBudgetHolds` | src/numi/gateway/domain/rate_limiter.py:41-74 | On either backend, in any run, for each tier and each user, conversation, tool, database and environment: at most 2 * limit - 1 passing checks a minute are by it |
| `RateLimit.InMemoryRateLimitBackend.IncrementAndCheck` | src/numi/common/rate_limit_backend.py:31-38 | One bucket takes one step, the others none, and the answer compares its count with the limit |
| `RateLimit.RedisRateLimitBackend.IncrementAndCheck` | src/numi/common/rate_limit_backend.py:48-53 | The same for the counter and its renewed expiry |
| `RateLimit.RateLimiter.CheckCall` | src/numi/gateway/domain/rate_limiter.py:41-74 | Charges in order and stops at the first refusal, on either backend |
| `FallbackWalk.DeadlineHolds` | src/numi/agent/llm/fallback.py:224-300 | No walk outlasts the deadline by more than the slowest factory; with factories that take no time it never does |
| `FallbackWalk.WalkEndsIff` | src/numi/agent/llm/fallback.py:236-300 | Provider i answers exactly when everyone before it is lost, time is left, and it is built and answers within its offer; an uncaught error escapes on the same terms; those listed as failed could not be built, were cut off or said they were unavailable |
| `FallbackWalk.DisclosureIsExact` | src/numi/agent/llm/fallback.py:224-300 | An event is recorded exactly when a provider other than the primary answers (`WalkEndsIff` says when), listing exactly the names before it; a walk nobody answers names the primary and records nothing |
| `FallbackWalk.FullShares` | src/numi/agent/llm/fallback.py:94-131 | When deadline / n is at least 5 seconds everyone reached is offered the full share, and a walk nobody answers has tried everyone |
| `FallbackWalk.FullSharesIff` | src/numi/agent/llm/fallback.py:94-131 | That promise holds of every chain of n exactly when the share reaches the floor or n is 1 |
| `FallbackWalk.CrossProviderFallback.Run` | src/numi/agent/llm/fallback.py:224-300 | The loop computes the walk and records its event, and nothing else |
| `GeminiFallback.GeminiProvider.NextFallbackModel` | src/numi/agent/llm/gemini_provider.py:192-199 | The first chain model that is not the current one and is off cooldown, or none when there is none |
| `GeminiFallback.GeminiProvider.WithModelFallback` | src/numi/agent/llm/gemini_provider.py:201-233 | The calls made, the model left current, the clock and the cooldowns are those of a trace |
| `GeminiFallback.RequestIsBounded` | src/numi/agent/llm/gemini_provider.py:169-233 | At most three calls and 24 seconds of call time; each switch goes to another chain model off cooldown |
| `GeminiFallback.EndsAsLastCall` | src/numi/agent/llm/gemini_provider.py:212-220 | A request returns, or raises an error of its own, exactly when its last call does so within 8 seconds; every call before timed out or met an unavailable model |
| `GeminiFallback.SwitchesGoToFirstFree` | src/numi/agent/llm/gemini_provider.py:192-233 | Every switch goes to the first other chain model not on cooldown, a model without one being free; the error surfaces early only when all others are on cooldown |
| `GeminiFallback.OutlastingTriesDistinct` | src/numi/agent/llm/gemini_provider.py:201-233 | If every recorded cooldown outlasts the call, no model is tried twice and all tried are on cooldown when the error is raised |
| `GeminiFallback.CooldownOutlastsIff` | src/numi/agent/llm/gemini_provider.py:104-111 | A cooldown is the delay the error names up to 120 seconds, or 60, and outlasts the call exactly when none or one over 24 seconds is named |
| `GeminiFallback.ReturnsToFirstIff` | src/numi/agent/llm/gemini_provider.py:192-233 | A request that begins with the head of the chain and makes three calls returns to it exactly when its cooldown is over once the second call has failed |
| `Scrubber.ScrubIsIdempotent` | src/numi/gateway/domain/query_scrubber.py:126-151 | Scrubbing twice is scrubbing once, no literal is left, and a text is left alone exactly if it holds none |
| `Scrubber.QuotesLeftAreParity` | src/numi/gateway/domain/query_scrubber.py:126-151 | The quotes left are the parity of the quotes there were, so at most one and no complete quoted run |
| `Scrubber.LiteralSplits` | src/numi/gateway/domain/query_scrubber.py:126-128 | A quoted literal that begins outside quotes splits the text into parts scrubbed on their own, whatever it holds |
| `Scrubber.LiteralContentsAreForgotten` | src/numi/gateway/domain/query_scrubber.py:126-151 | Texts that differ only inside one literal scrub to the same text |
| `Scrubber.WordScrubbedIffNumber` | src/numi/gateway/domain/query_scrubber.py:126-129 | A run of word characters and dots is replaced exactly if it is a number as a whole, and otherwise copied |
| `Scrubber.SeparatorIsCopied` | src/numi/gateway/domain/query_scrubber.py:126-151 | Every other character but a quote is copied, and what follows is scrubbed on its own |
| `Scrubber.QuotedMatchIsLongest` | src/numi/gateway/domain/query_scrubber.py:126-128 | The backtracking branch for quotes matches up to the last quote with only pairs before it |
| `Scrubber.NumberMatchIff` | src/numi/gateway/domain/query_scrubber.py:126-129 | The branch for numbers matches exactly a number that ends where the word ends |
| `DataMinimizer.Minimize` | src/numi/gateway/domain/data_policy.py:194-249 | The nested loops with early exit compute filter, cut and clean; masked and scrubbed names are exactly those that were |
| `DataMinimizer.MinimizeRow` | src/numi/gateway/domain/data_policy.py:212-242 | One row of that, with the flag raised exactly when an eligible field was left out |
| `DataMinimizer.OutputIsSafe` | src/numi/gateway/domain/data_policy.py:204-249 | No cap is exceeded, every sensitive name carries the mask, and every field stands for an eligible one of the same row |
| `DataMinimizer.KeptIff` | src/numi/gateway/domain/data_policy.py:215-222 | A field is kept exactly if it is eligible and fewer eligible fields than the cap precede it |
| `DataMinimizer.KeptInOrder` | src/numi/gateway/domain/data_policy.py:213-241 | A kept field stands in the output at the place it has among the eligible ones |
| `DataMinimizer.RowsAreCapped` | src/numi/gateway/domain/data_policy.py:205-207 | Exactly how many rows come out, for a requested, a configured, a zero and a negative cap |
| `DataMinimizer.ReportedNamesIff` | src/numi/gateway/domain/data_policy.py:223-249 | Reported as masked are exactly the sensitive names that come out, as scrubbed exactly the free text that came out changed |
| `DataMinimizer.TruncatedIffDropped` | src/numi/gateway/domain/data_policy.py:205-222 | The flag is true exactly when a cap dropped something, unless a negative cap meets no rows |
| `DataMinimizer.IdempotentIff` | src/numi/gateway/domain/data_policy.py:204-249 | For an idempotent scrubber a second pass changes nothing exactly when the cap is not negative or no row was left |
| `DataMinimizer.FallbackPassIsIdempotent` | src/numi/gateway/domain/data_policy.py:227-238 | The pass with the fallback scrubber is idempotent on all rows |
| `ServerReference.NormalizedAlikeIff` | src/numi/common/server_reference.py:33-45 | Two references normalize alike exactly when they read as the same letters and numbers |
| `ServerReference.NormalizeIsIdempotent` | src/numi/common/server_reference.py:33-45 | A normalized reference is its own normal form and names the same thing |
| `ServerReference.CollapseAround` | src/numi/common/server_reference.py:45 | Each run of digits is written as its value and what is around it is collapsed on its own |
| `ServerReference.LettersAreKept` | src/numi/common/server_reference.py:45 | Without digits a reference stays as it is |
| `ServerReference.DecimalOfValue` | src/numi/common/server_reference.py:45 | Digits without padding are written back as they are |
| `ServerReference.SeparatorsAreIgnored` | src/numi/common/server_reference.py:44 | Separators may be added anywhere |
| `ServerReference.PaddingIgnoredIff` | src/numi/common/server_reference.py:45 | Zeros put before a digit change nothing exactly when the digits they follow, if any, are zeros |
| `Recall.RecentIsExact` | src/numi/gateway/domain/investigation_store.py:95-115 | Fetching one row too many and then excluding is excluding first and then taking the limit |
| `Recall.RecallIsExactIff` | src/numi/gateway/domain/investigation_memory.py:26-66 | Recall is a prefix of the exact answer, and all of it exactly when enough of the first 4 * limit rows are concluded or none after them is |
| `Recall.RecallIsNewest` | src/numi/gateway/domain/investigation_memory.py:26-66 | Everything recalled is concluded, about this server and not excluded, and nothing of the kind left out is newer |
| `Recall.RecallIsLimited` | src/numi/gateway/domain/investigation_memory.py:33-66 | No more than the limit, and nothing for a limit that is not positive or a failed lookup |

## Left out

- SHA-256 and JSON canonicalization: the action hash is taken to be injective, so the hashed fields stand for it.
- GatewayAccounting.ApprovalsConserved: is stated for runs in which no call is verified while another call behind the same approval is between verification and consumption; `OverlapBreaksConservation` shows why.
- Resubmission.ResubmissionNeverMismatches: identity mapping, registry, catalog and tool definitions are fixed between the two submissions, and risk and authorization are uninterpreted functions of the request.
- CompositionAnswers.ResubmissionsMatch: a turn of the loop is one step for its own conversation, so an answer to a card is heard before or after it and not while its tool call is under way; the Gateway does move meanwhile.
- CompositionAnswers.OneAtATimeResubmitsOnce: no two answers of the conversation are under way at once, which the source does not enforce; without that, `ResubmitsAgainIff` gives the exact condition.
- Uniqueness of `new_id` and clocks that do not run backwards are assumed of the runtime.
- RateLimit.RedisRateLimitBackend.IncrementAndCheck: the Redis server is modelled as counter and deadline; whether a key is gone at the very instant of its deadline is left open, and the pipeline is one step.
- RateLimit.RateLimiter.CheckCall: keys are tuples, so two names that render to one key string are not modelled.
- ToolCallHandling.ToolCallHandler.Handle: audit records, security events, latency and the rows of a successful result are not modelled, and stages 1 to 7 enter as their outcome.
- InvestigationLoop.Investigator.SubmitAndRelay: the message texts for the model inside transcript entries, reply texts, tracing, alerts and saved investigation records are not modelled; tool names are the ones the loop knows, or any other text.
- InvestigationLoop.Investigator.HandleApprovalDecision: is one step here; `Composition` splits it at every await. The approver's identity checks are the approvals endpoint's.
- Writes executed after an approval card do not feed the re-check automaton in the source, so the re-check theorems speak of calls executed by the loop itself.
- InvestigationGrounding.LookupIgnoresRejection: identifier extraction and case-insensitive search are arbitrary functions of the text and the haystack.
- The sqlglot path of the scrubber: only the regular-expression fallback is modelled, over arbitrary digit and word classes that agree on the few characters the pattern itself uses.
- DataMinimizer.Minimize: field patterns are the predicates they compile to, values that are not text are opaque, and names are returned as sets rather than sorted lists.
- ServerReference.NormalizedAlikeIff: lower-casing acts one character at a time, and Python's limit on the digits `int` accepts is not modelled.
- Recall.RecallIsExactIff: the table is given newest first, and records that share a creation time are in whatever order the query returns them.
- FallbackWalk.CrossProviderFallback.Run: logging and `fallback_notice_text` are not modelled, and the runner is taken to cut a call off exactly at the time it was given.
- GeminiFallback.GeminiProvider.WithModelFallback: time passes only in calls, and which errors count as availability errors is an input.
- HTTP applications, Slack and Teams senders, service tokens, SQL adapters, discovery, digests, prompts and intent extraction: input and output, or small case analyses that would only add easy members.
- Nothing was executed: the proofs are about the model.
