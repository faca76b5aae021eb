/** Answers to approval cards in joint runs of the Agent and the Gateway: what is resubmitted, how often, and exactly
    when one card is resubmitted twice. */
module CompositionAnswers {
  import opened Basics
  import opened Approval
  import opened Policy
  import opened Gateway
  import opened GatewaySafety
  import opened GatewayAccounting
  import opened Resubmission
  import opened Composition
  import opened CompositionSafety
  import Agent = Investigation

  /** In every joint run, with answers, turns of the loop and other traffic interleaved at will, a resubmission is
      never refused as a mismatch. When policy still asks for approval it is let through exactly if the record stands
      approved within its window. */
  lemma ResubmissionsMatch(d: Deployment, j0: Joint, steps: seq<JointStep>, a: nat, m: Moment)
    requires JointInitial(j0) && JointRuns(d, j0, steps) && JointEnabled(d, JointAfter(d, j0, steps), Resubmit(a, m))
    ensures var j := JointAfter(d, j0, steps);
            var card, s, s' := j.answers[a].card, j.gateway, JointNext(d, j, Resubmit(a, m)).gateway;
            var stages := Stages(d, m.policy, BodyOf(card.request), m.withinRate, m.localNow);
            && card in j.cards
            && s.log <= s'.log && Refused(m.h, APPROVAL_MISMATCH, m.now) !in s'.log[|s.log|..]
            && (stages.Ok? && stages.value.decision == REQUIRES_APPROVAL ==>
                  card.approvalId in s.records
                  && (m.h in s'.inflight <==>
                      s.records[card.approvalId].status == APPROVED && m.now <= s.records[card.approvalId].expiresAt))
  {
    hide Sound, GrantsCover, KeyFor, Next, Stages, JointRuns, JointAfter;
    JointInitiallyInv(d, j0);
    JointRunKeepsInv(d, j0, steps);
    var j := JointAfter(d, j0, steps);
    var card := j.answers[a].card;
    assert CardBound(d, j.gateway, card);
    BoundRequestNeverMismatches(d, m.policy, BodyOf(card.request), m.withinRate, m.localNow,
                                j.gateway, m.h, card.approvalId, m.newId, m.now);
  }

  // ---------------------------------------------------------------- how often

  /** What is resubmitted was relayed as a card, unchanged, and of every approval no oftener than it was granted: once,
      and once more for every approval given to it after a use. */
  lemma ResubmissionsAreGranted(d: Deployment, j0: Joint, steps: seq<JointStep>, id: string)
    requires JointInitial(j0) && JointRuns(d, j0, steps)
    ensures var j := JointAfter(d, j0, steps);
            && (forall c :: c in j.resubmitted ==> c in j.cards) && DistinctIds(j.cards)
            && Times(j.resubmitted, id) <= Grants(j.gateway.log, id) <= 1 + Regrants(j.gateway.log, id)
  {
    hide CardBound, JointRuns, JointAfter, Inv;
    JointInitiallyInv(d, j0);
    JointRunKeepsInv(d, j0, steps);
    var j := JointAfter(d, j0, steps);
    assert GrantsCounted(j.gateway, id);
  }

  lemma {:induction false} TimesCountsCards(cards: seq<Card>, c: Card)
    ensures multiset(cards)[c] <= Times(cards, c.approvalId)
  {
    if cards != [] {
      var n := |cards| - 1;
      TimesCountsCards(cards[..n], c);
      assert cards == cards[..n] + [cards[n]];
    }
  }

  lemma SmallerBag<T>(a: multiset<T>, b: multiset<T>)
    requires a <= b
    ensures |a| <= |b|
  {
    assert b == a + (b - a);
  }

  /** In every joint run that gives no approval to a used record, each card is resubmitted at most once, so
      resubmissions never outnumber APPROVAL_REQUIRED replies. */
  lemma ResubmittedOncePerCard(d: Deployment, j0: Joint, steps: seq<JointStep>)
    requires JointInitial(j0) && JointRuns(d, j0, steps)
    requires forall id :: Regrants(JointAfter(d, j0, steps).gateway.log, id) == 0
    ensures var j := JointAfter(d, j0, steps);
            multiset(j.resubmitted) <= multiset(j.cards) && |j.resubmitted| <= |j.cards|
  {
    var j := JointAfter(d, j0, steps);
    hide JointRuns, JointAfter, Times, Grants, Regrants;
    forall c ensures multiset(j.resubmitted)[c] <= multiset(j.cards)[c] {
      ResubmissionsAreGranted(d, j0, steps, c.approvalId);
      TimesCountsCards(j.resubmitted, c);
      assert c in j.resubmitted ==> c in multiset(j.cards);
    }
    SmallerBag(multiset(j.resubmitted), multiset(j.cards));
  }

  /** Exactly when an answer to a card whose approval was already granted resubmits it: the record was used in the
      meantime, and the new approver may sign it. */
  lemma ResubmitsAgainIff(d: Deployment, j0: Joint, steps: seq<JointStep>, a: nat, approver: string, now: Time)
    requires JointInitial(j0) && JointRuns(d, j0, steps)
    requires var j := JointAfter(d, j0, steps);
             && JointEnabled(d, j, Approve(a, approver, false, now))
             && Grants(j.gateway.log, j.answers[a].card.approvalId) > 0
    ensures var j := JointAfter(d, j0, steps);
            var id := j.answers[a].card.approvalId;
            && id in j.gateway.records
            && (ApprovalAnswer(j.gateway, id, approver, now).FullyApproved? <==>
                j.gateway.records[id].status == EXECUTED && MaySign(j.gateway.records[id], approver))
  {
    hide CardBound, JointRuns, JointAfter, GrantsCover, Grants, Regrants, RecordLogged, CallLogged, EntryExplained;
    JointInitiallyInv(d, j0);
    JointRunKeepsInv(d, j0, steps);
    var j := JointAfter(d, j0, steps);
    var id := j.answers[a].card.approvalId;
    assert GrantsCounted(j.gateway, id);
    KnownSeparated(j.gateway, id);
  }

  // ---------------------------------------------------------------- answers one at a time

  /** The conversation's answers do not overlap: a card is read only when no answer is under way. */
  predicate OneAtATime(d: Deployment, j: Joint, steps: seq<JointStep>)
    requires JointRuns(d, j, steps)
    decreases |steps|
  {
    steps == [] ||
    ((steps[0].ReadCard? ==> j.answers == map[]) && OneAtATime(d, JointNext(d, j, steps[0]), steps[1..]))
  }

  /** Nothing resubmitted can be resubmitted again. */
  ghost predicate OnceEach(j: Joint) {
    && (forall a, b :: a in j.answers && b in j.answers ==> a == b)
    && (forall i, k :: 0 <= i < k < |j.resubmitted| ==> j.resubmitted[i] != j.resubmitted[k])
    && (j.agent.conv.pending.Some? ==> j.agent.conv.pending.value !in j.resubmitted)
    && forall a :: a in j.answers && !j.answers[a].phase.Resubmitted? ==>
         && j.answers[a].card !in j.resubmitted
         && (j.answers[a].phase.Resubmitting? ==> j.agent.conv.pending != Some(j.answers[a].card))
  }

  lemma NextKeepsOnce(d: Deployment, j: Joint, t: JointStep)
    requires JointInv(d, j) && OnceEach(j) && JointEnabled(d, j, t) && (t.ReadCard? ==> j.answers == map[])
    ensures OnceEach(JointNext(d, j, t))
  {
    hide Next, Enabled, ApprovalAnswer, Sound, CardBound, GrantsCover, PassNext, Stages;
    if t.Pass? {
      PassKeepsOnce(d, j, t);
    }
  }

  lemma PassKeepsOnce(d: Deployment, j: Joint, t: JointStep)
    requires JointInv(d, j) && OnceEach(j) && JointEnabled(d, j, t) && t.Pass?
    ensures OnceEach(JointNext(d, j, t))
  {
    hide Next, After, Runs, Enabled, Sound, CardBound, GrantsCover, PassOf, Stages;
    PassCards(j.agent, t.env);
    var (w', reply) := PassOf(j.agent, t.env);
    if reply.Some? && reply.value.card.Some? {
      JointNextKeepsInv(d, j, t);
      var c := w'.conv.pending.value;
      var cards := JointNext(d, j, t).cards;
      assert cards == j.cards + [c] && DistinctIds(cards);
      assert forall i :: 0 <= i < |j.cards| ==>
             cards[i] == j.cards[i] && cards[i].approvalId != cards[|j.cards|].approvalId;
    }
  }

  lemma {:induction false} RunKeepsOnce(d: Deployment, j: Joint, steps: seq<JointStep>)
    requires JointInv(d, j) && OnceEach(j) && JointRuns(d, j, steps) && OneAtATime(d, j, steps)
    ensures OnceEach(JointAfter(d, j, steps))
    decreases |steps|
  {
    hide JointInv, OnceEach, JointNext, JointEnabled;
    if steps != [] {
      NextKeepsOnce(d, j, steps[0]);
      JointNextKeepsInv(d, j, steps[0]);
      RunKeepsOnce(d, JointNext(d, j, steps[0]), steps[1..]);
    }
  }

  /** With answers one at a time each card is resubmitted at most once, whatever is approved after a use. */
  lemma OneAtATimeResubmitsOnce(d: Deployment, j0: Joint, steps: seq<JointStep>)
    requires JointInitial(j0) && JointRuns(d, j0, steps) && OneAtATime(d, j0, steps)
    ensures var j := JointAfter(d, j0, steps);
            && (forall i, k :: 0 <= i < k < |j.resubmitted| ==> j.resubmitted[i] != j.resubmitted[k])
            && forall c :: c in j.resubmitted ==> c in j.cards
  {
    hide Sound, CardBound, GrantsCover, JointRuns, JointAfter, OneAtATime;
    JointInitiallyInv(d, j0);
    JointRunKeepsInv(d, j0, steps);
    RunKeepsOnce(d, j0, steps);
  }

  // ---------------------------------------------------------------- overlapping answers

  /** The record of a card that a single approver can grant now, for the first time or again after a use. */
  predicate Grantable(s: State, id: string, t: Time) {
    && id != "" && id in s.records && s.clock <= t <= s.records[id].expiresAt
    && !s.records[id].dual && s.records[id].status in {PENDING, EXECUTED}
  }

  /** The moment suits a resubmission under the card: policy asks for approval and the identifiers are fresh. */
  predicate Suits(d: Deployment, s: State, c: Card, m: Moment) {
    && c.approvalId in s.records && m.h !in s.inflight && m.newId != "" && m.newId !in s.records
    && var stages := Stages(d, m.policy, BodyOf(c.request), m.withinRate, m.localNow);
       stages.Ok? && stages.value.decision == REQUIRES_APPROVAL && stages.value.key == s.records[c.approvalId].key
  }

  /** One answer that goes through: approved, resubmitted, executed and consumed. */
  function Through(a: nat, approver: string, m: Moment): seq<JointStep> {
    [Approve(a, approver, false, m.now), HearApproval(a), Resubmit(a, m),
     GatewayMoves(Execute(m.h, Success, m.now)), GatewayMoves(Finish(m.h, m.now))]
  }

  /** What the Gateway makes of it. */
  lemma GatewayGoesThrough(d: Deployment, s: State, c: Card, approver: string, m: Moment)
    requires Grantable(s, c.approvalId, m.now) && Suits(d, s, c, m)
    ensures var id, t := c.approvalId, m.now;
            var grant, ask := Step.Decide(id, approver, APPROVE, t), SubmissionOf(d, c.request, id, m);
            && Enabled(s, grant) && ApprovalAnswer(s, id, approver, t).FullyApproved?
            && Runs(s, [grant, ask, Execute(m.h, Success, t), Finish(m.h, t)])
            && var s' := After(s, [grant, ask, Execute(m.h, Success, t), Finish(m.h, t)]);
            && s'.inflight == s.inflight && s'.clock == t && s'.records.Keys == s.records.Keys
            && s'.records[id].key == s.records[id].key && s'.records[id].expiresAt == s.records[id].expiresAt
            && s'.records[id].status == EXECUTED && !s'.records[id].dual
            && Uses(s'.log, id) == Uses(s.log, id) + 1
  {
    hide Uses, Grants, Regrants, Stages, Runs, After, AtomicRuns;
    var id, t := c.approvalId, m.now;
    var grant, ask := Step.Decide(id, approver, APPROVE, t), SubmissionOf(d, c.request, id, m);
    var s1 := Next(s, grant);
    GrantedNow(s, id, approver, t);
    SubmitVerifies(s1, ask, id, ask.stages.value);
    var s2 := Next(s1, ask);
    CountsGrow(s1.log, Verified(m.h, id, ask.stages.value.key, t), id);
    UsedThrough(s2, Execute(m.h, Success, t), Finish(m.h, t), id, ask.stages.value.key);
    ConsumedNow(s2, m.h, id, t);
    FourSteps(s, grant, ask, Execute(m.h, Success, t), Finish(m.h, t));
    hide Next, Enabled;
    assert s2.inflight - {m.h} == s.inflight;
  }

  lemma GrantedNow(s: State, id: string, approver: string, t: Time)
    requires Grantable(s, id, t)
    ensures var s', r := Next(s, Step.Decide(id, approver, APPROVE, t)), s.records[id];
            && ApprovalAnswer(s, id, approver, t).FullyApproved?
            && s'.inflight == s.inflight && s'.clock == t && s'.records.Keys == s.records.Keys
            && s'.records[id].status == APPROVED && s'.records[id].key == r.key && !s'.records[id].dual
            && s'.records[id].expiresAt == r.expiresAt && Uses(s'.log, id) == Uses(s.log, id)
  {
    hide Uses, Grants, Regrants, SubmitNext, ExecuteNext, FinishNext;
    CountsGrow(s.log, Signed(id, approver, s.records[id].status, APPROVED, t), id);
  }

  lemma ConsumedNow(s: State, h: nat, id: string, t: Time)
    requires h in s.inflight && s.inflight[h].gate == Some(id) && !s.inflight[h].succeeded && id in s.records
             && s.clock <= t
    ensures var s' := Next(Next(s, Execute(h, Success, t)), Finish(h, t));
            && s'.inflight == s.inflight - {h} && s'.clock == t && s'.records.Keys == s.records.Keys
            && s'.records[id] == s.records[id].(status := EXECUTED)
  {
    hide SubmitNext, DecideNext;
  }

  lemma RunsUnfold(s: State, t1: Step, t2: Step, t3: Step, t4: Step)
    requires Runs(s, [t1, t2, t3, t4])
    ensures Enabled(s, t1) && Enabled(Next(s, t1), t2) && Enabled(Next(Next(s, t1), t2), t3)
    ensures Enabled(Next(Next(Next(s, t1), t2), t3), t4)
    ensures After(s, [t1, t2, t3, t4]) == Next(Next(Next(Next(s, t1), t2), t3), t4)
  {
    hide Next, Enabled, AtomicRuns;
    assert [t1, t2, t3, t4] == [t1] + ([t2] + ([t3] + ([t4] + [])));
    FirstStep(s, t1, [t2] + ([t3] + ([t4] + [])));
    FirstStep(Next(s, t1), t2, [t3] + ([t4] + []));
    FirstStep(Next(Next(s, t1), t2), t3, [t4] + []);
    FirstStep(Next(Next(Next(s, t1), t2), t3), t4, []);
    NoSteps(Next(Next(Next(Next(s, t1), t2), t3), t4));
  }

  lemma FirstJointStep(d: Deployment, j: Joint, t: JointStep, rest: seq<JointStep>)
    requires JointEnabled(d, j, t) && JointRuns(d, JointNext(d, j, t), rest)
    ensures JointRuns(d, j, [t] + rest) && JointAfter(d, j, [t] + rest) == JointAfter(d, JointNext(d, j, t), rest)
  {
    hide JointEnabled, JointNext;
    assert ([t] + rest)[1..] == rest;
  }

  lemma GoesThrough(d: Deployment, j: Joint, a: nat, approver: string, m: Moment)
    requires InPhase(j, a, Deciding)
    requires Grantable(j.gateway, j.answers[a].card.approvalId, m.now) && Suits(d, j.gateway, j.answers[a].card, m)
    ensures var steps, c := Through(a, approver, m), j.answers[a].card;
            && JointRuns(d, j, steps)
            && var j' := JointAfter(d, j, steps);
            && j'.resubmitted == j.resubmitted + [c] && j'.answers == j.answers[a := Answering(c, Resubmitted)]
            && j'.gateway.inflight == j.gateway.inflight && j'.gateway.records.Keys == j.gateway.records.Keys
            && j'.gateway.records[c.approvalId].key == j.gateway.records[c.approvalId].key
            && j'.gateway.records[c.approvalId].expiresAt == j.gateway.records[c.approvalId].expiresAt
            && Grantable(j'.gateway, c.approvalId, m.now)
            && Uses(j'.gateway.log, c.approvalId) == Uses(j.gateway.log, c.approvalId) + 1
  {
    hide Next, Enabled, ApprovalAnswer, Stages, Suits, JointRuns, JointAfter, Uses, Runs, After;
    var c := j.answers[a].card;
    GatewayGoesThrough(d, j.gateway, c, approver, m);
    RunsUnfold(j.gateway, Step.Decide(c.approvalId, approver, APPROVE, m.now),
               SubmissionOf(d, c.request, c.approvalId, m),
               Execute(m.h, Success, m.now), Finish(m.h, m.now));
    var t1, t2, t3 := Approve(a, approver, false, m.now), HearApproval(a), Resubmit(a, m);
    var t4, t5 := GatewayMoves(Execute(m.h, Success, m.now)), GatewayMoves(Finish(m.h, m.now));
    var j1 := JointNext(d, j, t1);
    var j2 := JointNext(d, j1, t2);
    var j3 := JointNext(d, j2, t3);
    var j4 := JointNext(d, j3, t4);
    var j5 := JointNext(d, j4, t5);
    assert Through(a, approver, m) == [t1] + ([t2] + ([t3] + ([t4] + ([t5] + []))));
    NoJointSteps(d, j5);
    FirstJointStep(d, j4, t5, []);
    FirstJointStep(d, j3, t4, [t5] + []);
    FirstJointStep(d, j2, t3, [t4] + ([t5] + []));
    FirstJointStep(d, j1, t2, [t3] + ([t4] + ([t5] + [])));
    FirstJointStep(d, j, t1, [t2] + ([t3] + ([t4] + ([t5] + []))));
  }

  lemma NoJointSteps(d: Deployment, j: Joint)
    ensures JointRuns(d, j, []) && JointAfter(d, j, []) == j
  {
  }

  lemma {:induction false} JointRunsOn(d: Deployment, j: Joint, a: seq<JointStep>, b: seq<JointStep>)
    requires JointRuns(d, j, a) && JointRuns(d, JointAfter(d, j, a), b)
    ensures JointRuns(d, j, a + b) && JointAfter(d, j, a + b) == JointAfter(d, JointAfter(d, j, a), b)
    decreases |a|
  {
    hide JointEnabled, JointNext;
    if a == [] {
      assert a + b == b;
    } else {
      JointRunsOn(d, JointNext(d, j, a[0]), a[1..], b);
      assert a + b == [a[0]] + (a[1..] + b);
      FirstJointStep(d, j, a[0], a[1..] + b);
    }
  }

  /** Two answers that both read the card before either drops it resubmit it twice, and the Gateway executes it twice:
      the second approval meets the used record. */
  lemma OverlappingAnswersResubmitTwice(
      d: Deployment, j: Joint, a1: nat, a2: nat, c: Card, approver1: string, approver2: string, m1: Moment, m2: Moment)
    requires a1 != a2 && a1 !in j.answers && a2 !in j.answers && j.agent.conv.pending == Some(c)
    requires Grantable(j.gateway, c.approvalId, m1.now) && m1.now <= m2.now <= j.gateway.records[c.approvalId].expiresAt
    requires Suits(d, j.gateway, c, m1) && Suits(d, j.gateway, c, m2)
    ensures var steps := [ReadCard(a1)] + ([ReadCard(a2)] + (Through(a1, approver1, m1) + Through(a2, approver2, m2)));
            && JointRuns(d, j, steps)
            && var j' := JointAfter(d, j, steps);
            && j'.resubmitted == j.resubmitted + [c, c]
            && Uses(j'.gateway.log, c.approvalId) == Uses(j.gateway.log, c.approvalId) + 2
  {
    hide JointRuns, JointAfter, Uses, Stages;
    var j1 := JointNext(d, j, ReadCard(a1));
    var j2 := JointNext(d, j1, ReadCard(a2));
    GoesThrough(d, j2, a1, approver1, m1);
    var j3 := JointAfter(d, j2, Through(a1, approver1, m1));
    GoesThrough(d, j3, a2, approver2, m2);
    JointRunsOn(d, j2, Through(a1, approver1, m1), Through(a2, approver2, m2));
    FirstJointStep(d, j1, ReadCard(a2), Through(a1, approver1, m1) + Through(a2, approver2, m2));
    FirstJointStep(d, j, ReadCard(a1), [ReadCard(a2)] + (Through(a1, approver1, m1) + Through(a2, approver2, m2)));
  }
}
