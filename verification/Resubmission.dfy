/** What a tool-call request meets in stages 1 to 7 of the Gateway, and what the same request meets when it is
    sent again under the approval it was answered with.

    A deployment fixes everything stages 1 to 6 read besides the request: identity mapping, tool definitions,
    registry and catalog (through `resolve`, which ends with authorization). None of it reads the request's
    `approval_id`. Policy, rate limits and the wall clock may be different at every request. */
module Resubmission {
  import opened Basics
  import opened Approval
  import opened Policy
  import opened Gateway
  import opened GatewaySafety

  /** A tool-call request without its `approval_id`. */
  datatype Body = Body(
    toolId: string, toolVersion: Option<string>, arguments: Json, target: Json, conversationId: string,
    requestId: string, channel: string, account: string, changeId: string)

  datatype Resolved = Resolved(
    tool: Tool, target: Json, arguments: Json, environment: string, serverId: string, database: string,
    riskLevel: string, role: string, window: Option<Window>)

  datatype Deployment = Deployment(
    identify: (string, string) -> Option<string>, resolve: (string, Body) -> Result<Resolved>)

  function KeyOf(actor: string, r: Resolved): ActionKey {
    ActionKey(actor, r.tool.toolId, r.tool.version, r.target, r.arguments, r.environment,
              DatabaseId(r.serverId, r.database), r.riskLevel)
  }

  /** The action a request stands for, if it can be made out. */
  function KeyFor(d: Deployment, body: Body): Option<ActionKey> {
    match d.identify(body.channel, body.account)
    case None => None
    case Some(actor) =>
      match d.resolve(actor, body)
      case Err(_) => None
      case Ok(r) => Some(KeyOf(actor, r))
  }

  /** Stages 1 to 7: `withinRate` is the limiter's answer, `localNow` the wall clock of the window. */
  function Stages(d: Deployment, policy: Config, body: Body, withinRate: bool, localNow: int): Result<Evaluated> {
    match d.identify(body.channel, body.account)
    case None => Err(AUTHENTICATION_FAILED)
    case Some(actor) =>
      match d.resolve(actor, body)
      case Err(code) => Err(code)
      case Ok(r) =>
        var decision := Judge(policy, r.environment, r.tool, r.role, r.window, false, localNow);
        if !withinRate then Err(RATE_LIMITED)
        else if decision == DENY then Err(POLICY_DENIED)
        else if NeedsChangeTicket(policy, r.environment, r.tool.toolId) && body.changeId == "" then
          Err(CHANGE_TICKET_REQUIRED)
        else Ok(Evaluated(KeyOf(actor, r), body.requestId, decision, NeedsTwoApprovers(policy, r.tool)))
  }

  /** A request that gets past stages 1 to 7 is evaluated for the action it stands for. */
  lemma StagesEvaluateKey(d: Deployment, policy: Config, body: Body, withinRate: bool, localNow: int)
    ensures var stages := Stages(d, policy, body, withinRate, localNow);
            && (stages.Ok? ==> KeyFor(d, body) == Some(stages.value.key))
            && (KeyFor(d, body).Some? && stages.Err? ==>
                stages.code in {RATE_LIMITED, POLICY_DENIED, CHANGE_TICKET_REQUIRED})
  {
  }

  /** What gets a request past stages 1 to 7, and what it is evaluated to. */
  lemma StagesPassIff(d: Deployment, policy: Config, body: Body, withinRate: bool, localNow: int)
    ensures var stages := Stages(d, policy, body, withinRate, localNow);
            match d.identify(body.channel, body.account)
            case None => stages == Err(AUTHENTICATION_FAILED)
            case Some(actor) =>
              match d.resolve(actor, body)
              case Err(code) => stages == Err(code)
              case Ok(r) =>
                var decision := Judge(policy, r.environment, r.tool, r.role, r.window, false, localNow);
                var ticket := r.environment in policy.changeTicketRequired
                              && r.tool.toolId in policy.changeTicketRequired[r.environment];
                && (stages.Ok? <==> withinRate && decision != DENY && (ticket ==> body.changeId != ""))
                && (stages.Ok? ==>
                      && stages.value.requestId == body.requestId && stages.value.decision == decision
                      && (stages.value.dual <==>
                          r.tool.requiresDualApproval || r.tool.toolId in policy.dualApprovalRequired))
  {
  }

  /** Equal action keys are of one actor, one tool version, and the same target, arguments, environment and risk; and
      of one database, unless one server's id goes on from the other's with a slash. */
  lemma KeysSharedIff(a1: string, r1: Resolved, a2: string, r2: Resolved)
    ensures KeyOf(a1, r1) == KeyOf(a2, r2) <==>
            && a1 == a2 && r1.tool.toolId == r2.tool.toolId && r1.tool.version == r2.tool.version
            && r1.target == r2.target && r1.arguments == r2.arguments
            && r1.environment == r2.environment && r1.riskLevel == r2.riskLevel
            && (|| (r1.serverId == r2.serverId && r1.database == r2.database)
                || ReadsOn(r1.serverId, r1.database, r2.serverId, r2.database)
                || ReadsOn(r2.serverId, r2.database, r1.serverId, r1.database))
  {
    hide ReadsOn, DatabaseId;
    DatabaseIdSharedIff(r1.serverId, r1.database, r2.serverId, r2.database);
  }

  lemma NextKeepsIdentities(s: State, t: Step)
    requires Enabled(s, t)
    ensures RecordsContinue(s.records, Next(s, t).records)
  {
    match t
    case Submit(_, _, _, _, _) => SubmitKeepsIdentities(s, t);
    case Decide(_, _, _, _) => DecideKeepsIdentities(s, t);
    case _ => hide SubmitNext, DecideNext;
  }

  lemma SubmitKeepsIdentities(s: State, t: Step)
    requires Enabled(s, t) && t.Submit?
    ensures RecordsContinue(s.records, Next(s, t).records)
  {
    hide ExecuteNext, FinishNext, DecideNext;
  }

  lemma DecideKeepsIdentities(s: State, t: Step)
    requires Enabled(s, t) && t.Decide?
    ensures RecordsContinue(s.records, Next(s, t).records)
  {
    hide SubmitNext, ExecuteNext, FinishNext;
  }

  lemma {:induction false} RunKeepsIdentities(s: State, steps: seq<Step>)
    requires Runs(s, steps)
    ensures RecordsContinue(s.records, After(s, steps).records)
    decreases |steps|
  {
    if steps != [] {
      NextKeepsIdentities(s, steps[0]);
      RunKeepsIdentities(Next(s, steps[0]), steps[1..]);
    }
  }

  /** A request sent under an approval of the action it stands for is never refused as a mismatch. When policy still
      asks for approval it is let through exactly if the record stands approved within its window. */
  lemma BoundRequestNeverMismatches(
      d: Deployment, policy: Config, body: Body, rate: bool, localNow: int, s: State, h: nat, id: string,
      newId: string, t: Time)
    requires id != "" && id in s.records && KeyFor(d, body) == Some(s.records[id].key)
    requires Enabled(s, Submit(h, id, Stages(d, policy, body, rate, localNow), newId, t))
    ensures var stages := Stages(d, policy, body, rate, localNow);
            var s' := Next(s, Submit(h, id, stages, newId, t));
            && s.log <= s'.log && Refused(h, APPROVAL_MISMATCH, t) !in s'.log[|s.log|..]
            && (stages.Ok? && stages.value.decision == REQUIRES_APPROVAL ==>
                  (h in s'.inflight <==> s.records[id].status == APPROVED && t <= s.records[id].expiresAt))
  {
    hide Stages, KeyFor, ExecuteNext, FinishNext, DecideNext;
    StagesEvaluateKey(d, policy, body, rate, localNow);
  }

  /** The record an unapproved request is stopped for is of the action it stands for. */
  lemma CreatedForRequest(
      d: Deployment, policy: Config, body: Body, rate: bool, localNow: int, s: State, h: nat, id: string, t: Time)
    requires var ask := Submit(h, "", Stages(d, policy, body, rate, localNow), id, t);
             Enabled(s, ask) && id in Next(s, ask).records
    ensures var ask := Submit(h, "", Stages(d, policy, body, rate, localNow), id, t);
            id !in s.records && KeyFor(d, body) == Some(Next(s, ask).records[id].key)
  {
    hide Stages, KeyFor, ExecuteNext, FinishNext, DecideNext;
    StagesEvaluateKey(d, policy, body, rate, localNow);
  }

  /** A request answered APPROVAL_REQUIRED and sent again with the approval's id after any run of the Gateway. */
  lemma ResubmissionNeverMismatches(
      d: Deployment, s0: State, body: Body, policy0: Config, rate0: bool, now0: int, h0: nat, id: string, t0: Time,
      steps: seq<Step>, policy1: Config, rate1: bool, now1: int, h1: nat, newId: string, t1: Time)
    requires var ask := Submit(h0, "", Stages(d, policy0, body, rate0, now0), id, t0);
             && Enabled(s0, ask) && id in Next(s0, ask).records
             && Runs(Next(s0, ask), steps)
             && Enabled(After(Next(s0, ask), steps), Submit(h1, id, Stages(d, policy1, body, rate1, now1), newId, t1))
    ensures var s := After(Next(s0, Submit(h0, "", Stages(d, policy0, body, rate0, now0), id, t0)), steps);
            var stages := Stages(d, policy1, body, rate1, now1);
            var s' := Next(s, Submit(h1, id, stages, newId, t1));
            && s.log <= s'.log && Refused(h1, APPROVAL_MISMATCH, t1) !in s'.log[|s.log|..]
            && (stages.Ok? && stages.value.decision == REQUIRES_APPROVAL ==>
                  id in s.records
                  && (h1 in s'.inflight <==> s.records[id].status == APPROVED && t1 <= s.records[id].expiresAt))
  {
    hide Stages, KeyFor, Next, Runs, After;
    CreatedForRequest(d, policy0, body, rate0, now0, s0, h0, id, t0);
    var s1 := Next(s0, Submit(h0, "", Stages(d, policy0, body, rate0, now0), id, t0));
    RunKeepsIdentities(s1, steps);
    BoundRequestNeverMismatches(d, policy1, body, rate1, now1, After(s1, steps), h1, id, newId, t1);
  }
}
