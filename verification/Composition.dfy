/** The Agent and the Gateway together: one conversation, its loop and the answers to its cards, against a Gateway
    that serves anyone else at the same time. */
module Composition {
  import opened Basics
  import opened Approval
  import opened Policy
  import opened Gateway
  import opened GatewaySafety
  import opened GatewayAccounting
  import opened Resubmission
  import Agent = Investigation
  import Cards = ConversationCards

  type Card = Agent.PendingApproval

  /** The request as the Gateway reads it; the Agent names no tool version and no change. */
  function BodyOf(q: Agent.Request): Body {
    Body(Agent.Name(q.toolId), None, q.arguments, q.target, q.sender.conversationId, q.requestId,
         q.sender.channel, q.sender.account, "")
  }

  /** Two requests read alike exactly when they say the same of the action and of who asks; only the reason given for
      them is not read. */
  lemma BodyReadsRequest(p: Agent.Request, q: Agent.Request)
    ensures BodyOf(p) == BodyOf(q) <==>
            && Agent.Name(p.toolId) == Agent.Name(q.toolId) && p.arguments == q.arguments && p.target == q.target
            && p.requestId == q.requestId && p.sender == q.sender
    ensures BodyOf(p).arguments == p.arguments && BodyOf(p).target == p.target
            && BodyOf(p).toolId == Agent.Name(p.toolId)
  {
  }

  /** What a submission meets besides its request. */
  datatype Moment = Moment(policy: Config, withinRate: bool, localNow: int, h: nat, newId: string, now: Time)

  function SubmissionOf(d: Deployment, q: Agent.Request, approvalId: string, m: Moment): Step {
    Submit(m.h, approvalId, Stages(d, m.policy, BodyOf(q), m.withinRate, m.localNow), m.newId, m.now)
  }

  /** Where the answer to a card stands: the card was read; the Gateway has answered the approval or the rejection;
      the Agent has dropped the card and is about to resubmit; the request was resubmitted. */
  datatype Phase =
    | Deciding | Decided(answer: Agent.ApproveAnswer) | TurnedDown | Resubmitting | Resubmitted

  datatype Answering = Answering(card: Card, phase: Phase)

  /** `answers` are the calls of `handle_approval_decision` under way; `cards` and `resubmitted` are history. */
  datatype Joint = Joint(
    agent: Agent.World, gateway: State, answers: map<nat, Answering>, cards: seq<Card>, resubmitted: seq<Card>)

  /** Every await of `handle_approval_decision` ends a step, so any number of answers may be between steps. `refused`
      is the approvals endpoint turning the approver away before the engine is asked. `Pass` is one turn of the loop or
      its last chance, with what the Gateway does until the Agent has its answer. */
  datatype JointStep =
    | GatewayMoves(step: Step)
    | NewInquiry(inv: Agent.Inquiry)
    | Pass(env: Agent.Env, at: Moment, meanwhile: seq<Step>)
    | ReadCard(a: nat)
    | Approve(a: nat, approver: string, refused: bool, now: Time)
    | HearApproval(a: nat)
    | Reject(a: nat, approver: string, refused: bool, now: Time)
    | HearRejection(a: nat)
    | Resubmit(a: nat, at: Moment)
    | HearResubmission(a: nat, response: Agent.ToolResponse)
    | LoseAnswer(a: nat)

  function PassOf(w: Agent.World, env: Agent.Env): (Agent.World, Option<Agent.Reply>) {
    if w.inv.turnCount >= Agent.MAX_TURNS then (var (w', reply) := Agent.LastChance(w, env); (w', Some(reply)))
    else Agent.Turn(w, env)
  }

  /** The request a pass sends, if it sends one. */
  function Sent(w: Agent.World, w': Agent.World): Option<Agent.Request> {
    if |w.hist.sent| < |w'.hist.sent| then Some(w'.hist.sent[|w'.hist.sent| - 1]) else None
  }

  /** The Agent is told of an approval exactly the one the submission was stopped for, if it is told anything. */
  predicate Relayed(s: State, t: Step, response: Agent.ToolResponse)
    requires t.Submit? && Enabled(s, t)
  {
    var s' := Next(s, t);
    match response
    case ApprovalRequired(id) => id == t.newId && id in s'.records
    case Executed(_, _, _) => t.h in s'.inflight
    case Denied(_, _) => t.newId !in s'.records
    case Failed(_) => t.newId !in s'.records
    case NoResponse(_) => true
  }

  /** The approvals endpoint's answer to an approval. */
  function ApprovalAnswer(s: State, id: string, approver: string, now: Time): Agent.ApproveAnswer {
    if id !in s.records then Agent.ApproveError
    else
      var o := DecideOn(id, s.records[id], approver, APPROVE, now);
      if o.error.Some? then Agent.ApproveError
      else if o.record.status == AWAITING_SECOND_APPROVAL then Agent.AwaitingSecondApproval
      else Agent.FullyApproved
  }

  predicate InPhase(j: Joint, a: nat, phase: Phase) {
    a in j.answers && j.answers[a].phase == phase
  }

  predicate JointEnabled(d: Deployment, j: Joint, t: JointStep) {
    match t
    case GatewayMoves(step) => Enabled(j.gateway, step)
    case NewInquiry(_) => true
    case Pass(env, at, meanwhile) =>
      (match Sent(j.agent, PassOf(j.agent, env).0)
       case None => true
       case Some(q) =>
         var ask := SubmissionOf(d, q, "", at);
         && Enabled(j.gateway, ask) && Runs(Next(j.gateway, ask), meanwhile)
         && Relayed(j.gateway, ask, env.gateway(|PassOf(j.agent, env).0.hist.sent| - 1)))
    case ReadCard(a) => a !in j.answers && j.agent.conv.pending.Some?
    case Approve(a, approver, refused, now) =>
      InPhase(j, a, Deciding)
          && (refused || Enabled(j.gateway, Step.Decide(j.answers[a].card.approvalId, approver, APPROVE, now)))
    case HearApproval(a) => a in j.answers && j.answers[a].phase.Decided?
    case Reject(a, approver, refused, now) =>
      InPhase(j, a, Deciding)
          && (refused || Enabled(j.gateway, Step.Decide(j.answers[a].card.approvalId, approver, REJECT, now)))
    case HearRejection(a) => InPhase(j, a, TurnedDown)
    case Resubmit(a, at) =>
      InPhase(j, a, Resubmitting)
      && Enabled(j.gateway, SubmissionOf(d, j.answers[a].card.request, j.answers[a].card.approvalId, at))
    case HearResubmission(a, _) => InPhase(j, a, Resubmitted)
    case LoseAnswer(a) => a in j.answers
  }

  function To(j: Joint, a: nat, phase: Phase): map<nat, Answering>
    requires a in j.answers
  {
    j.answers[a := Answering(j.answers[a].card, phase)]
  }

  function PassNext(d: Deployment, j: Joint, env: Agent.Env, at: Moment, meanwhile: seq<Step>): Joint
    requires JointEnabled(d, j, Pass(env, at, meanwhile))
  {
    var (w', reply) := PassOf(j.agent, env);
    j.(agent := w',
       gateway := match Sent(j.agent, w')
                  case None => j.gateway
                  case Some(q) => After(Next(j.gateway, SubmissionOf(d, q, "", at)), meanwhile),
       cards := j.cards + if reply.Some? && reply.value.card.Some? && w'.conv.pending.Some?
                          then [w'.conv.pending.value] else [])
  }

  function JointNext(d: Deployment, j: Joint, t: JointStep): Joint
    requires JointEnabled(d, j, t)
  {
    match t
    case GatewayMoves(step) => j.(gateway := Next(j.gateway, step))
    case NewInquiry(inv) => j.(agent := j.agent.(inv := inv))
    case Pass(env, at, meanwhile) => PassNext(d, j, env, at, meanwhile)
    case ReadCard(a) => j.(answers := j.answers[a := Answering(j.agent.conv.pending.value, Deciding)])
    case Approve(a, approver, refused, now) =>
      var id := j.answers[a].card.approvalId;
      if refused then j.(answers := To(j, a, Decided(Agent.ApproveError)))
      else j.(gateway := Next(j.gateway, Step.Decide(id, approver, APPROVE, now)),
              answers := To(j, a, Decided(ApprovalAnswer(j.gateway, id, approver, now))))
    case HearApproval(a) =>
      var (w', resubmits) := Agent.CardAnswered(j.agent, j.answers[a].phase.answer);
      j.(agent := w', answers := if resubmits then To(j, a, Resubmitting) else j.answers - {a})
    case Reject(a, approver, refused, now) =>
      j.(gateway := if refused then j.gateway
                    else Next(j.gateway, Step.Decide(j.answers[a].card.approvalId, approver, REJECT, now)),
         answers := To(j, a, TurnedDown))
    case HearRejection(a) => j.(agent := Agent.CardDropped(j.agent), answers := j.answers - {a})
    case Resubmit(a, at) =>
      var card := j.answers[a].card;
      j.(gateway := Next(j.gateway, SubmissionOf(d, card.request, card.approvalId, at)),
         answers := To(j, a, Resubmitted),
         resubmitted := j.resubmitted + [card])
    case HearResubmission(a, response) =>
      j.(agent := Agent.CardResubmitted(j.agent, j.answers[a].card, response), answers := j.answers - {a})
    case LoseAnswer(a) => j.(answers := j.answers - {a})
  }

  predicate JointRuns(d: Deployment, j: Joint, steps: seq<JointStep>)
    decreases |steps|
  {
    steps == [] || (JointEnabled(d, j, steps[0]) && JointRuns(d, JointNext(d, j, steps[0]), steps[1..]))
  }

  function JointAfter(d: Deployment, j: Joint, steps: seq<JointStep>): Joint
    requires JointRuns(d, j, steps)
    decreases |steps|
  {
    if steps == [] then j else JointAfter(d, JointNext(d, j, steps[0]), steps[1..])
  }

  /** A conversation without a card, on a Gateway that has not been asked anything. */
  predicate JointInitial(j: Joint) {
    Initial(j.gateway) && j.agent.conv.pending.None? && j.answers == map[] && j.cards == [] && j.resubmitted == []
  }

  // ---------------------------------------------------------------- the passes of a call of the loop

  function Passes(w: Agent.World, env: Agent.Env, n: nat): Agent.World
    decreases n
  {
    if n == 0 then w else Passes(PassOf(w, env).0, env, n - 1)
  }

  /** A call of the loop is its passes, one after the other. */
  lemma {:induction false} RunIsPasses(w: Agent.World, env: Agent.Env) returns (n: nat)
    ensures Agent.Run(w, env).0 == Passes(w, env, n)
    decreases if w.inv.turnCount < Agent.MAX_TURNS then Agent.MAX_TURNS - w.inv.turnCount else 0
  {
    hide Agent.Turn, Agent.LastChance;
    var (w1, reply) := PassOf(w, env);
    n := 1;
    assert Passes(w, env, 1) == Passes(w1, env, 0);
    if reply.None? {
      n := RunIsPasses(w1, env);
      n := n + 1;
    }
  }

  /** What a pass does to the conversation's card. */
  lemma PassCards(w: Agent.World, env: Agent.Env)
    ensures var (w', reply) := PassOf(w, env);
            && |w'.hist.sent| <= |w.hist.sent| + 1
            && Cards.CardMatches(w, w', if reply.Some? then reply.value else Agent.FALLBACK, env)
  {
    hide Agent.Turn, Agent.LastChance;
    if w.inv.turnCount >= Agent.MAX_TURNS {
      Cards.LastChanceCards(w, env);
    } else {
      Cards.TurnCards(w, env);
    }
  }
}
