/** What each step of the loop comes to, said of its inputs: which conclusions are accepted, what is sent, what an
    answer leads to, and what an answer to an approval card does. */
module InvestigationOutcomes {
  import opened Basics
  import opened Sequences
  import opened Investigation
  import opened InvestigationGrounding
  import opened InvestigationChecks

  // ---------------------------------------------------------------- conclusions

  /** A conclusion is accepted exactly when every identifier it claims is found and, unless it is the last chance,
      no write waits for its re-check and the second review, if there is one, finds it sound. */
  lemma AcceptedIff(w: World, c: Action, env: Env, finalChance: bool)
    requires c.Conclude?
    ensures var review := env.review(w.hist.reviewCalls);
            FinalizeConclude(w, c, env, finalChance).1.Some? <==>
            && (forall n :: n in env.names(Claimed(c)) ==> env.occurs(n, Lookup(w.inv)))
            && (finalChance || (w.inv.pendingCheck.None? && (review.None? || review.value.sound)))
  {
    hide Text, Rejected, Accepted, Lookup, Claimed, Unseen;
    GroundedIff(c, w.inv, env);
    hide Ungrounded;
  }

  /** What an accepted conclusion leaves, and which check a rejected one is sent back by. */
  lemma ConclusionLeaves(w: World, c: Action, env: Env, finalChance: bool)
    requires c.Conclude?
    ensures var (w', reply) := FinalizeConclude(w, c, env, finalChance);
            var grounded := forall n :: n in env.names(Claimed(c)) ==> env.occurs(n, Lookup(w.inv));
            && (reply.Some? ==>
                  && reply == Some(Reply(OK, None, true))
                  && w'.inv.transcript == w.inv.transcript && w'.inv.evidence == w.inv.evidence
                  && w'.inv.findings == w.inv.findings
                                        + (if c.rootCause.Some?
                                           && c.rootCause.value != "" then [c.rootCause.value] else [])
                  && w'.inv.recommendations ==
                     w.inv.recommendations
                     + (if c.recommendation.Some?
                        && c.recommendation.value != "" then [c.recommendation.value] else []))
            && (reply.None? ==>
                  && |w'.inv.transcript| == |w.inv.transcript| + 1
                  && w'.inv.transcript[..|w.inv.transcript|] == w.inv.transcript
                  && w'.inv.transcript[|w.inv.transcript|].toolId ==
                     (if !grounded then GroundingCheck
                      else if w.inv.pendingCheck.Some? then VerificationCheck else SelfCritiqueCheck))
            && w'.hist == w.hist.(reviewCalls := w.hist.reviewCalls
                                                 + if grounded && !finalChance
                                                     && w.inv.pendingCheck.None? then 1 else 0)
            && w'.conv == w.conv
  {
    hide Text, Lookup, Claimed, Unseen, ConclusionStage, AppendOnce;
    GroundedIff(c, w.inv, env);
    hide Ungrounded;
  }

  predicate Contains(s: string, t: string) {
    exists i :: 0 <= i <= |s| && t <= s[i..]
  }

  /** Everything a conclusion says is searched for identifiers. */
  lemma AllIsClaimed(c: Action)
    requires c.Conclude?
    ensures Contains(Claimed(c), c.summary)
    ensures c.rootCause.Some? ==> Contains(Claimed(c), c.rootCause.value)
    ensures c.recommendation.Some? ==> Contains(Claimed(c), c.recommendation.value)
  {
    var all := Claimed(c);
    assert "" <= all[0..];
    var parts := (if c.summary != "" then [c.summary] else []) +
                 (if Given(c.rootCause) then [c.rootCause.value] else []) +
                 (if Given(c.recommendation) then [c.recommendation.value] else []);
    forall i | 0 <= i < |parts| ensures Contains(Spaced(parts), parts[i]) {
      SpacedContains(parts, i);
    }
    assert c.summary != "" ==> parts[0] == c.summary;
    assert Given(c.recommendation) ==> parts[|parts| - 1] == c.recommendation.value;
    assert Given(c.rootCause) ==> c.rootCause.value in parts;
  }

  lemma {:induction false} SpacedContains(parts: seq<string>, i: nat)
    requires i < |parts|
    ensures Contains(Spaced(parts), parts[i])
    decreases |parts|
  {
    var s := Spaced(parts);
    if i == 0 {
      assert parts[0] <= s[0..];
    } else {
      SpacedContains(parts[1..], i - 1);
      var rest, n := Spaced(parts[1..]), |parts[0]| + 1;
      var k :| 0 <= k <= |rest| && parts[i] <= rest[k..];
      assert s == (parts[0] + " ") + rest;
      assert s[n + k..] == rest[k..];
    }
  }

  /** Identifiers are looked up in the whole transcript but the grounding check's own entries, in the whole evidence but
      its own lines, and in the problem as it was put. */
  lemma LookupIs(inv: Inquiry)
    ensures Lookup(inv).transcript == Filter(inv.transcript, (t: TranscriptEntry) => t.toolId != GroundingCheck)
    ensures Lookup(inv).evidence == Filter(inv.evidence, (e: string) => !("(a draft conclusion naming" <= e))
    ensures Lookup(inv).problem == inv.problem
  {
    TranscriptFiltered(inv.transcript);
    EvidenceFiltered(inv.evidence);
  }

  lemma {:induction false} TranscriptFiltered(ts: seq<TranscriptEntry>)
    ensures RealTranscript(ts) == Filter(ts, (t: TranscriptEntry) => t.toolId != GroundingCheck)
  {
    if ts != [] {
      var n, keep := |ts| - 1, (t: TranscriptEntry) => t.toolId != GroundingCheck;
      TranscriptFiltered(ts[..n]);
      assert ts == ts[..n] + [ts[n]];
      FilterConcat(ts[..n], [ts[n]], keep);
    }
  }

  lemma {:induction false} EvidenceFiltered(es: seq<string>)
    ensures RealEvidence(es) == Filter(es, (e: string) => !("(a draft conclusion naming" <= e))
  {
    if es != [] {
      var n, keep := |es| - 1, (e: string) => !("(a draft conclusion naming" <= e);
      EvidenceFiltered(es[..n]);
      assert es == es[..n] + [es[n]];
      FilterConcat(es[..n], [es[n]], keep);
    }
  }

  /** A conclusion the loop reports is one the model gave last, every identifier of which was found; and unless the run
      came to its last chance, no write waited for its re-check and the second review did not find it unsound. */
  lemma {:induction false} ReportedIsAccepted(w: World, env: Env)
    ensures var (w', reply) := Run(w, env);
            reply.report ==>
              && w'.hist.modelCalls > 0
              && var c := env.model(w'.hist.modelCalls - 1);
              && c.Conclude? && (forall n :: n in env.names(Claimed(c)) ==> env.occurs(n, Lookup(w'.inv)))
              && (AtLastChance(w, env).None? ==>
                    && w'.inv.pendingCheck.None? && w'.hist.reviewCalls > 0
                    && var review := env.review(w'.hist.reviewCalls - 1);
                       review.None? || review.value.sound)
    decreases if w.inv.turnCount < MAX_TURNS then MAX_TURNS - w.inv.turnCount else 0
  {
    hide Turn, LastChance, Lookup, Claimed;
    if w.inv.turnCount >= MAX_TURNS {
      LastReportIsAccepted(w, env);
    } else {
      TurnReportIsAccepted(w, env);
      var (w1, reply) := Turn(w, env);
      if reply.None? {
        ReportedIsAccepted(w1, env);
      }
    }
  }

  /** The report of one conclusion, asked for as the latest model call. */
  lemma ReportIsAccepted(w: World, c: Action, env: Env, finalChance: bool)
    requires c.Conclude?
    ensures var (w', reply) := FinalizeConclude(w, c, env, finalChance);
            && w'.hist.modelCalls == w.hist.modelCalls
            && (reply.Some? ==>
                  && (forall n :: n in env.names(Claimed(c)) ==> env.occurs(n, Lookup(w'.inv)))
                  && (!finalChance ==>
                        && w'.inv.pendingCheck.None? && w'.hist.reviewCalls == w.hist.reviewCalls + 1
                        && (env.review(w.hist.reviewCalls).None? || env.review(w.hist.reviewCalls).value.sound)))
  {
    hide Text, Rejected, Claimed, Ungrounded, RealTranscript, RealEvidence;
    GroundedIff(c, w.inv, env);
  }

  lemma LastReportIsAccepted(w: World, env: Env)
    ensures var (w', reply) := LastChance(w, env);
            reply.report ==>
              && w'.hist.modelCalls == w.hist.modelCalls + 1 && env.model(w.hist.modelCalls).Conclude?
              && forall n :: n in env.names(Claimed(env.model(w.hist.modelCalls))) ==> env.occurs(n, Lookup(w'.inv))
  {
    hide FinalizeConclude, Claimed, Lookup;
    var c := env.model(w.hist.modelCalls);
    if c.Conclude? {
      ReportIsAccepted(w.(hist := w.hist.(modelCalls := w.hist.modelCalls + 1)), c, env, true);
    }
  }

  lemma TurnReportIsAccepted(w0: World, env: Env)
    ensures var (w', reply) := Turn(w0, env);
            reply.Some? && reply.value.report ==>
              && w'.hist.modelCalls == w0.hist.modelCalls + 1 && w'.inv.pendingCheck.None?
              && w'.hist.reviewCalls == w0.hist.reviewCalls + 1
              && var c, review := env.model(w0.hist.modelCalls), env.review(w0.hist.reviewCalls);
              && c.Conclude? && (forall n :: n in env.names(Claimed(c)) ==> env.occurs(n, Lookup(w'.inv)))
              && (review.None? || review.value.sound)
  {
    hide SubmitAndRelay, PlaybookAction, FinalizeConclude, Claimed, Lookup;
    var (at, step) := PlaybookAction(w0.inv, env);
    var w := w0.(inv := w0.inv.(status := INVESTIGATING, playbookStep := at));
    if step.Some? {
      RelayNeverReports(w.(inv := w.inv.(turnCount := w.inv.turnCount + 1)), step.value, env);
    } else {
      var action, w1 := env.model(w.hist.modelCalls), w.(hist := w.hist.(modelCalls := w.hist.modelCalls + 1));
      var w2 := w1.(inv := Charged(w1.inv));
      if action.ProposeToolCall? {
        RelayNeverReports(w2, action, env);
      } else if action.Conclude? {
        ReportIsAccepted(w2, action, env, false);
      }
    }
  }

  // ---------------------------------------------------------------- proposals

  /** What is sent for a proposal that is not stopped by the read-only guard: the tool proposed; of its arguments those
      its schema declares, or all when there is none; the conversation's target, with the proposal's own winning. */
  lemma SentIs(w: World, a: Action, env: Env)
    requires a.ProposeToolCall?
    ensures var guarded := w.inv.readOnly
                           && !(env.operationTypes.Some? && a.toolId in env.operationTypes.value
                                && env.operationTypes.value[a.toolId] == READ);
            var sent := SubmitAndRelay(w, a, env).0.hist.sent;
            if guarded then sent == w.hist.sent
            else
              && |sent| == |w.hist.sent| + 1 && sent[..|w.hist.sent|] == w.hist.sent
              && var q := sent[|w.hist.sent|];
              && q.toolId == a.toolId && q.reason == a.reason && q.sender == env.sender
              && (forall k :: k in q.arguments <==>
                    k in a.arguments && (env.allowedArguments.Some? && a.toolId in env.allowedArguments.value ==>
                                           k in env.allowedArguments.value[a.toolId]))
              && (forall k :: k in q.arguments ==> q.arguments[k] == a.arguments[k])
              && (forall k :: k in q.target <==> k in a.target || k in w.conv.context)
              && (forall k :: k in q.target ==>
                    q.target[k] == if k in a.target then a.target[k] else w.conv.context[k])
  {
    hide Text, Logged, CheckStep, ExecutionOf, Remembered;
  }

  /** What the loop makes of an answer: whether it goes on, what it replies if not, and what it keeps. */
  lemma RelayOutcome(w: World, request: Request, response: ToolResponse, env: Env)
    ensures var (w', reply) := Relay(w, request, response, env);
            var goesOn := match response
                          case NoResponse(_) => false
                          case ApprovalRequired(_) => w.inv.readOnly
                          case Denied(code, _) =>
                            w.inv.turnCount < 6 && code in {INVALID_ARGUMENTS, INVALID_TARGET, TOOL_NOT_FOUND}
                          case Failed(_) => true
                          case Executed(_, _, _) => true;
            && (reply.None? <==> goesOn)
            && (reply.Some? ==>
                  reply.value == match response
                                 case NoResponse(_) => Reply(ERROR_REPLY, None, false)
                                 case ApprovalRequired(id) => Reply(APPROVAL_CARD, Some(id), false)
                                 case _ => Reply(DENIED_REPLY, None, false))
            && (w'.conv.pending == if response.ApprovalRequired? && !w.inv.readOnly
                                   then Some(PendingApproval(response.approvalId, request.toolId, request))
                                   else w.conv.pending)
            && w'.inv.actions == w.inv.actions
                                 + (if response.Executed? then [ActionTaken(request.toolId, response.rows)] else [])
            && (goesOn || response.NoResponse? ==>
                  && |w'.inv.transcript| == |w.inv.transcript| + 1 && |w'.inv.evidence| == |w.inv.evidence| + 1
                  && w'.inv.transcript[..|w.inv.transcript|] == w.inv.transcript
                  && w'.inv.evidence[..|w.inv.evidence|] == w.inv.evidence
                  && (response.Executed? ==>
                        w'.inv.transcript[|w.inv.transcript|] ==
                        TranscriptEntry(request.toolId, request.reason, Rows(response.rows))))
            && (!goesOn && !response.NoResponse? ==>
                  w'.inv.transcript == w.inv.transcript && w'.inv.evidence == w.inv.evidence)
  {
    hide Text, CheckStep, ExecutionOf;
    assert w.inv.actions + [] == w.inv.actions;
  }

  /** A database named in a request is remembered for the conversation, except when nothing came back or the Gateway
      refused the target itself. */
  lemma RememberedIs(w: World, request: Request, response: ToolResponse, env: Env)
    ensures var context := Relay(w, request, response, env).0.conv.context;
            var learns := "database" in request.target && request.target["database"] != "" && !response.NoResponse?
                          && !(response.Denied? && response.code == INVALID_TARGET);
            context == if learns then w.conv.context["database" := request.target["database"]] else w.conv.context
  {
    hide Text, CheckStep, ExecutionOf, Logged;
  }

  // ---------------------------------------------------------------- re-checks

  /** A row of a re-check shows the session: as blocked or blocking where blocking is listed, as itself elsewhere. */
  predicate RowShows(tool: ToolId, row: Json, session: string) {
    if tool == GetBlockingSessions then
      || ("blocked_session_id" in row && row["blocked_session_id"] == session)
      || ("blocking_session_id" in row && row["blocking_session_id"] == session)
      || (session == "None" && !("blocked_session_id" in row && "blocking_session_id" in row))
    else
      ("session_id" in row && row["session_id"] == session) || (session == "None" && "session_id" !in row)
  }

  /** Which executed calls re-check a write, and their verdict: unresolved exactly if some row still shows the session
      the write was aimed at. */
  lemma RecheckIs(c: (Option<PendingCheck>, Option<Verdict>), x: Execution)
    requires c.0.Some?
    ensures var write, session := c.0.value.toolId, c.0.value.sessionId;
            var recheck := || (write == KillSession && x.toolId in {GetBlockingSessions, GetSessions})
                           || (write == CancelQuery
                               && x.toolId in {GetBlockingSessions, GetSessions, GetRunningQueries});
            && (recheck ==>
                  var shown := && session.Some? && session.value != ""
                               && exists row :: row in x.rows && RowShows(x.toolId, row, session.value);
                  CheckStep(c, x) == (None, Some(if shown then UNRESOLVED else RESOLVED)))
            && (!recheck && !x.tracked ==> CheckStep(c, x) == c)
  {
    if c.0.value.sessionId.Some? {
      forall i | 0 <= i < |x.rows|
        ensures RowShows(x.toolId, x.rows[i], c.0.value.sessionId.value) <==>
                if x.toolId == GetBlockingSessions
                then || RowText(x.rows[i], "blocked_session_id") == c.0.value.sessionId.value
                     || RowText(x.rows[i], "blocking_session_id") == c.0.value.sessionId.value
                else RowText(x.rows[i], "session_id") == c.0.value.sessionId.value
      {
      }
    }
  }

  /** Which executed calls are writes to be re-checked, and what is noted of them. */
  lemma TrackedIs(request: Request, rows: seq<Json>, env: Env)
    ensures var x := ExecutionOf(request, rows, env);
            && (x.tracked <==>
                  && request.toolId in {KillSession, CancelQuery}
                  && (env.operationTypes.Some? ==> request.toolId in env.operationTypes.value
                                                   && env.operationTypes.value[request.toolId] == WRITE))
            && x.toolId == request.toolId && x.rows == rows && x.reason == request.reason
            && (x.sessionId == if "session_id" in request.arguments then Some(request.arguments["session_id"])
                else None)
            && (x.tracked ==> CheckStep((None, None), x) == (Some(PendingCheck(x.toolId, x.sessionId, x.reason)), None))
  {
  }

  // ---------------------------------------------------------------- turns

  /** What a turn does first: a playbook step that is available is proposed as written; else two observations in a row
      end the call; else the model is asked. */
  lemma TurnIs(w: World, env: Env)
    ensures var (w', reply) := Turn(w, env);
            var (at, step) := if w.inv.playbook.Some?
                then NextStep(w.inv.playbook.value, w.inv.playbookStep, env.available)
                              else (w.inv.playbookStep, None);
            var here := w.inv.(status := INVESTIGATING, playbookStep := at);
            match step
            case Some(s) =>
              (w', reply) == SubmitAndRelay(w.(inv := here.(turnCount := w.inv.turnCount + 1)),
                                            ProposeToolCall(s.toolId, s.arguments, map[], s.purpose), env)
            case None =>
              if w.inv.observations >= 2 then
                w' == w.(inv := here.(status := ConclusionStage(w.inv))) && reply == Some(Reply(OK, None, false))
              else
                (w', reply) == Act(w.(inv := here, hist := w.hist.(modelCalls := w.hist.modelCalls + 1)),
                                   env.model(w.hist.modelCalls), env)
  {
    hide SubmitAndRelay, Act, NextStep;
  }

  /** What each of the model's answers costs and does. A question costs no turn, and the fifth in a row is not asked. */
  lemma ActIs(w: World, a: Action, env: Env)
    ensures var (w', reply) := Act(w, a, env);
            var charged := w.(inv := w.inv.(turnCount := w.inv.turnCount + 1, clarificationCount := 0,
                                            observations := 0));
            match a
            case AskClarification(_) =>
              && w'.inv.clarificationCount == w.inv.clarificationCount + 1 && w'.inv.turnCount == w.inv.turnCount
              && w'.inv.observations == 0
              && (if w.inv.clarificationCount < 4
                  then w'.inv.status == AWAITING_CLARIFICATION && reply == Some(Reply(CLARIFICATION, None, false))
                  else w'.inv.status == ConclusionStage(w.inv) && reply == Some(Reply(OK, None, false)))
            case RecordObservation(text) =>
              && w' == charged.(inv := charged.inv.(observations := w.inv.observations + 1,
                                                    evidence := w.inv.evidence + [text]))
              && reply.None?
            case ProposeToolCall(_, _, _, _) => (w', reply) == SubmitAndRelay(charged, a, env)
            case Conclude(_, _, _) => (w', reply) == FinalizeConclude(charged, a, env, false)
  {
    hide SubmitAndRelay, FinalizeConclude;
  }

  /** The last chance is one more model call. It is reported exactly if it concludes and every identifier is found;
      whatever else it is, the call ends in the plain fallback. */
  lemma LastChanceIs(w: World, env: Env)
    ensures var (w', reply) := LastChance(w, env);
            var a := env.model(w.hist.modelCalls);
            && w'.hist.modelCalls == w.hist.modelCalls + 1 && w'.inv.turnCount == w.inv.turnCount
            && reply == Reply(OK, None, a.Conclude? && forall n :: n in env.names(Claimed(a)) ==>
                              env.occurs(n, Lookup(w.inv)))
  {
    hide Text, Rejected, Accepted, Lookup, Claimed, Unseen, ConclusionStage;
    var a := env.model(w.hist.modelCalls);
    if a.Conclude? {
      var asked := w.(hist := w.hist.(modelCalls := w.hist.modelCalls + 1));
      AcceptedIff(asked, a, env, true);
    }
    hide Ungrounded;
  }

  // ---------------------------------------------------------------- answers to a card

  /** An answer to a card drops it exactly when it rejects it or completes its approval, resubmits it exactly in the
      second case, and adds to the actions exactly when the resubmission executed. */
  lemma AnswerIs(w: World, reject: bool, answer: ApproveAnswer, response: ToolResponse)
    ensures var (w', sent, kind) := AnswerCard(w, reject, answer, response);
            match w.conv.pending
            case None => w' == w && sent.None? && kind == ERROR_REPLY
            case Some(card) =>
              var approved := !reject && answer == FullyApproved;
              && w'.conv.context == w.conv.context
              && (w'.conv.pending == if reject || approved then None else Some(card))
              && (sent == if approved then Some(card) else None)
              && w'.inv == w.inv.(actions := w.inv.actions
                                             + if approved && response.Executed?
                                               then [ActionTaken(card.toolId, response.rows)] else [])
              && w'.hist == w.hist
              && (kind == ERROR_REPLY <==> !reject && (answer == ApproveError || (approved && !response.Executed?)))
              && kind in {OK, ERROR_REPLY}
  {
    assert w.inv.actions + [] == w.inv.actions;
  }
}
