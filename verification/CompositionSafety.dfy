/** What holds of every joint run of the Agent and the Gateway: resubmissions are of the action approved, and their
    number is bounded by what was granted. */
module CompositionSafety {
  import opened Basics
  import opened Approval
  import opened Policy
  import opened Gateway
  import opened GatewaySafety
  import opened GatewayAccounting
  import opened Resubmission
  import opened Composition
  import Agent = Investigation
  import Cards = ConversationCards

  // ---------------------------------------------------------------- the Gateway's side

  ghost predicate Sound(s: State) {
    Inv(s) && forall id :: GrantsCounted(s, id)
  }

  /** What a card needs of the Gateway only ever grows. */
  ghost predicate Follows(s: State, s': State) {
    && Sound(s')
    && RecordsContinue(s.records, s'.records)
    && forall id :: Grants(s.log, id) <= Grants(s'.log, id)
  }

  lemma NextFollows(s: State, t: Step)
    requires Sound(s) && Enabled(s, t)
    ensures Follows(s, Next(s, t))
  {
    var s' := Next(s, t);
    NextKeepsInv(s, t);
    NextKeepsIdentities(s, t);
    LogGrows(s, t);
    hide Next, Inv, RecordsContinue, Grants, GrantsCounted;
    forall id ensures GrantsCounted(s', id) && Grants(s.log, id) <= Grants(s'.log, id) {
      KnownSeparated(s, id);
      GrantsCountedNext(s, t, id);
      if s'.log != s.log {
        CountsGrow(s.log, s'.log[|s.log|], id);
      }
    }
  }

  lemma KnownSeparated(s: State, id: string)
    requires Inv(s)
    ensures id in s.records ==> Separated(s.records[id])
  {
    hide RecordLogged, CallLogged, EntryExplained;
  }

  lemma LogGrows(s: State, t: Step)
    requires Enabled(s, t)
    ensures var s' := Next(s, t);
            s'.log == s.log || (|s'.log| == |s.log| + 1 && s'.log == s.log + [s'.log[|s.log|]])
  {
  }

  lemma {:induction false} RunFollows(s: State, steps: seq<Step>)
    requires Sound(s) && Runs(s, steps)
    ensures Follows(s, After(s, steps))
    decreases |steps|
  {
    if steps != [] {
      NextFollows(s, steps[0]);
      hide Next, Enabled, Sound;
      RunFollows(Next(s, steps[0]), steps[1..]);
    }
  }

  lemma InitiallySound(s: State)
    requires Initial(s)
    ensures Sound(s)
  {
    InitiallyInv(s);
    hide Inv;
    forall id ensures GrantsCounted(s, id) {
    }
  }

  // ---------------------------------------------------------------- cards and records

  /** The approval on the card is of the action the stored request stands for. */
  ghost predicate CardBound(d: Deployment, s: State, c: Card) {
    && c.approvalId != "" && c.approvalId in s.records
    && KeyFor(d, BodyOf(c.request)) == Some(s.records[c.approvalId].key)
  }

  predicate DistinctIds(cards: seq<Card>) {
    forall i, j :: 0 <= i < j < |cards| ==> cards[i].approvalId != cards[j].approvalId
  }

  function Times(cards: seq<Card>, id: string): nat {
    if cards == [] then 0 else Times(cards[..|cards| - 1], id) + if cards[|cards| - 1].approvalId == id then 1 else 0
  }

  /** The answers that were told, or are about to be told, that the approval is complete, and did not resubmit yet. */
  predicate IsOwed(x: Answering, id: string) {
    x.card.approvalId == id && (x.phase == Decided(Agent.FullyApproved) || x.phase.Resubmitting?)
  }

  function Owed(answers: map<nat, Answering>, id: string): set<nat> {
    set a | a in answers && IsOwed(answers[a], id)
  }

  /** Each resubmission, done or owed, has a grant of its own. */
  ghost predicate GrantsCover(j: Joint) {
    forall id :: Times(j.resubmitted, id) + |Owed(j.answers, id)| <= Grants(j.gateway.log, id)
  }

  /** Whatever the conversation still holds of a card was relayed. */
  predicate AllRelayed(j: Joint) {
    && (j.agent.conv.pending.Some? ==> j.agent.conv.pending.value in j.cards)
    && (forall a :: a in j.answers ==> j.answers[a].card in j.cards)
    && forall c :: c in j.resubmitted ==> c in j.cards
  }

  ghost predicate JointInv(d: Deployment, j: Joint) {
    && Sound(j.gateway)
    && (forall c :: c in j.cards ==> CardBound(d, j.gateway, c))
    && DistinctIds(j.cards) && AllRelayed(j) && GrantsCover(j)
  }

  lemma BoundFollows(d: Deployment, s: State, s': State, cards: seq<Card>)
    requires Follows(s, s') && forall c :: c in cards ==> CardBound(d, s, c)
    ensures forall c :: c in cards ==> CardBound(d, s', c)
  {
    hide Sound, KeyFor;
  }

  lemma TimesGrow(cards: seq<Card>, c: Card, id: string)
    ensures Times(cards + [c], id) == Times(cards, id) + if c.approvalId == id then 1 else 0
  {
    assert (cards + [c])[..|cards|] == cards;
  }

  lemma OwedEnds(answers: map<nat, Answering>, a: nat, id: string)
    ensures |Owed(answers - {a}, id)| == |Owed(answers, id)| - if a in answers && IsOwed(answers[a], id) then 1 else 0
  {
    hide IsOwed;
    assert Owed(answers - {a}, id) == Owed(answers, id) - {a};
  }

  lemma OwedMoves(answers: map<nat, Answering>, a: nat, x: Answering, id: string)
    ensures |Owed(answers[a := x], id)| == |Owed(answers - {a}, id)| + if IsOwed(x, id) then 1 else 0
  {
    hide IsOwed;
    var rest := Owed(answers - {a}, id);
    assert a !in rest;
    assert Owed(answers[a := x], id) == if IsOwed(x, id) then rest + {a} else rest;
  }

  // ---------------------------------------------------------------- the steps

  lemma GatewayKeepsInv(d: Deployment, j: Joint, s': State)
    requires JointInv(d, j) && Follows(j.gateway, s')
    ensures JointInv(d, j.(gateway := s'))
  {
    BoundFollows(d, j.gateway, s', j.cards);
    hide Sound, CardBound;
  }

  /** A step after which one answer stands differently without being newly owed a resubmission, or is over. */
  lemma AnswerKeepsInv(d: Deployment, j: Joint, j': Joint, a: nat)
    requires JointInv(d, j) && j'.gateway == j.gateway && j'.cards == j.cards && j'.resubmitted == j.resubmitted
    requires j'.agent.conv.pending.Some? ==> j'.agent.conv.pending == j.agent.conv.pending
    requires j'.answers == if a in j'.answers then j.answers[a := j'.answers[a]] else j.answers - {a}
    requires a in j'.answers ==>
               && j'.answers[a].card in j.cards
               && forall id :: IsOwed(j'.answers[a], id) ==> a in j.answers && IsOwed(j.answers[a], id)
    ensures JointInv(d, j')
  {
    hide Sound, CardBound, IsOwed, Owed;
    forall id ensures Times(j'.resubmitted, id) + |Owed(j'.answers, id)| <= Grants(j'.gateway.log, id) {
      OwedEnds(j.answers, a, id);
      if a in j'.answers {
        OwedMoves(j.answers, a, j'.answers[a], id);
      }
    }
  }

  /** The Agent moved on without a new card. */
  lemma AgentKeepsInv(d: Deployment, j: Joint, w': Agent.World)
    requires JointInv(d, j) && (w'.conv.pending.Some? ==> w'.conv.pending == j.agent.conv.pending)
    ensures JointInv(d, j.(agent := w'))
  {
    hide Sound, CardBound, Times, Owed;
  }

  /** A card was relayed that no card shares its id with. */
  lemma NewCardKeepsInv(d: Deployment, j: Joint, w': Agent.World, c: Card)
    requires JointInv(d, j) && w'.conv.pending == Some(c) && CardBound(d, j.gateway, c)
    requires forall x :: x in j.cards ==> x.approvalId != c.approvalId
    ensures JointInv(d, j.(agent := w', cards := j.cards + [c]))
  {
    hide Sound, CardBound, Times, Owed;
  }

  lemma PassKeepsInv(d: Deployment, j: Joint, t: JointStep)
    requires JointInv(d, j) && JointEnabled(d, j, t) && t.Pass?
    ensures JointInv(d, JointNext(d, j, t))
  {
    hide Sound, CardBound, GrantsCover, KeyFor, PassOf, Next, Enabled, Runs, After, Stages, JointInv;
    PassCards(j.agent, t.env);
    var (w', reply) := PassOf(j.agent, t.env);
    assert j.cards + [] == j.cards;
    match Sent(j.agent, w')
    case None => AgentKeepsInv(d, j, w');
    case Some(q) =>
      var ask := SubmissionOf(d, q, "", t.at);
      var s1 := Next(j.gateway, ask);
      var s2 := After(s1, t.meanwhile);
      SoundIn(d, j);
      NextFollows(j.gateway, ask);
      RunFollows(s1, t.meanwhile);
      FollowsOn(j.gateway, s1, s2);
      GatewayKeepsInv(d, j, s2);
      if reply.Some? && reply.value.card.Some? {
        CardIsNew(d, j, q, t.at, reply.value.card.value, t.env.gateway(|w'.hist.sent| - 1), s2);
        NewCardKeepsInv(d, j.(gateway := s2), w', w'.conv.pending.value);
      } else {
        AgentKeepsInv(d, j.(gateway := s2), w');
      }
  }

  lemma SoundIn(d: Deployment, j: Joint)
    requires JointInv(d, j)
    ensures Sound(j.gateway)
  {
  }

  /** An approval answered to a request is of the action the request stands for, and of no card relayed before. */
  lemma CardIsNew(d: Deployment, j: Joint, q: Agent.Request, m: Moment, id: string, response: Agent.ToolResponse,
                  s2: State)
    requires JointInv(d, j) && Enabled(j.gateway, SubmissionOf(d, q, "", m))
    requires response == Agent.ApprovalRequired(id) && Relayed(j.gateway, SubmissionOf(d, q, "", m), response)
    requires Follows(Next(j.gateway, SubmissionOf(d, q, "", m)), s2)
    ensures CardBound(d, s2, Agent.PendingApproval(id, q.toolId, q))
    ensures forall x :: x in j.cards ==> x.approvalId != id
  {
    hide Sound, KeyFor, Next, Stages, GrantsCover;
    CreatedForRequest(d, m.policy, BodyOf(q), m.withinRate, m.localNow, j.gateway, m.h, m.newId, m.now);
  }

  lemma FollowsOn(s: State, s1: State, s2: State)
    requires Follows(s, s1) && Follows(s1, s2)
    ensures Follows(s, s2)
  {
    hide Sound;
  }

  lemma ApprovalIsGrant(s: State, id: string, approver: string, now: Time)
    requires Enabled(s, Step.Decide(id, approver, APPROVE, now))
    requires ApprovalAnswer(s, id, approver, now).FullyApproved?
    ensures Grants(Next(s, Step.Decide(id, approver, APPROVE, now)).log, id) == Grants(s.log, id) + 1
  {
    hide Grants, SubmitNext, ExecuteNext, FinishNext;
    var s' := Next(s, Step.Decide(id, approver, APPROVE, now));
    CountsGrow(s.log, s'.log[|s.log|], id);
  }

  lemma ApproveKeepsInv(d: Deployment, j: Joint, t: JointStep)
    requires JointInv(d, j) && JointEnabled(d, j, t) && t.Approve?
    ensures JointInv(d, JointNext(d, j, t))
  {
    hide Sound, CardBound, Next, Enabled, Times, Owed, Grants, ApprovalAnswer;
    var j', a := JointNext(d, j, t), t.a;
    if t.refused {
      AnswerKeepsInv(d, j, j', a);
    } else {
      var id := j.answers[a].card.approvalId;
      var step := Step.Decide(id, t.approver, APPROVE, t.now);
      NextFollows(j.gateway, step);
      GatewayKeepsInv(d, j, j'.gateway);
      if ApprovalAnswer(j.gateway, id, t.approver, t.now).FullyApproved? {
        ApprovalIsGrant(j.gateway, id, t.approver, t.now);
      }
      forall x ensures Times(j'.resubmitted, x) + |Owed(j'.answers, x)| <= Grants(j'.gateway.log, x) {
        OwedEnds(j.answers, a, x);
        OwedMoves(j.answers, a, j'.answers[a], x);
      }
    }
  }

  lemma ResubmitKeepsInv(d: Deployment, j: Joint, t: JointStep)
    requires JointInv(d, j) && JointEnabled(d, j, t) && t.Resubmit?
    ensures JointInv(d, JointNext(d, j, t))
  {
    hide Sound, CardBound, Next, Enabled, Times, Owed, Grants, Stages;
    var j', a := JointNext(d, j, t), t.a;
    var card := j.answers[a].card;
    NextFollows(j.gateway, SubmissionOf(d, card.request, card.approvalId, t.at));
    GatewayKeepsInv(d, j, j'.gateway);
    forall x ensures Times(j'.resubmitted, x) + |Owed(j'.answers, x)| <= Grants(j'.gateway.log, x) {
      OwedEnds(j.answers, a, x);
      OwedMoves(j.answers, a, j'.answers[a], x);
      TimesGrow(j.resubmitted, card, x);
    }
  }

  lemma RejectKeepsInv(d: Deployment, j: Joint, t: JointStep)
    requires JointInv(d, j) && JointEnabled(d, j, t) && t.Reject?
    ensures JointInv(d, JointNext(d, j, t))
  {
    hide Sound, CardBound, Next, Enabled, Times, Owed, Grants, GrantsCover;
    var j' := JointNext(d, j, t);
    if !t.refused {
      NextFollows(j.gateway, Step.Decide(j.answers[t.a].card.approvalId, t.approver, REJECT, t.now));
      GatewayKeepsInv(d, j, j'.gateway);
    }
    AnswerKeepsInv(d, j.(gateway := j'.gateway), j', t.a);
  }

  lemma JointNextKeepsInv(d: Deployment, j: Joint, t: JointStep)
    requires JointInv(d, j) && JointEnabled(d, j, t)
    ensures JointInv(d, JointNext(d, j, t))
  {
    hide Sound, CardBound, Next, Times, Owed, Grants, GrantsCover, PassNext;
    match t
    case GatewayMoves(step) =>
      NextFollows(j.gateway, step);
      GatewayKeepsInv(d, j, Next(j.gateway, step));
    case NewInquiry(inv) => AgentKeepsInv(d, j, j.agent.(inv := inv));
    case Pass(_, _, _) => PassKeepsInv(d, j, t);
    case Approve(_, _, _, _) => ApproveKeepsInv(d, j, t);
    case Reject(_, _, _, _) => RejectKeepsInv(d, j, t);
    case Resubmit(_, _) => ResubmitKeepsInv(d, j, t);
    case _ => AnswerKeepsInv(d, j, JointNext(d, j, t), t.a);
  }

  lemma {:induction false} JointRunKeepsInv(d: Deployment, j: Joint, steps: seq<JointStep>)
    requires JointInv(d, j) && JointRuns(d, j, steps)
    ensures JointInv(d, JointAfter(d, j, steps))
    decreases |steps|
  {
    hide JointInv, JointNext, JointEnabled;
    if steps != [] {
      JointNextKeepsInv(d, j, steps[0]);
      JointRunKeepsInv(d, JointNext(d, j, steps[0]), steps[1..]);
    }
  }

  lemma JointInitiallyInv(d: Deployment, j: Joint)
    requires JointInitial(j)
    ensures JointInv(d, j)
  {
    InitiallySound(j.gateway);
    hide Sound;
    assert forall id :: Owed(j.answers, id) == {};
  }
}
