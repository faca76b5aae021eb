/** How long one investigation can go on, for any model and any Gateway: calls of the loop, and tool
    calls submitted by it, over its whole life. */
module InvestigationBounds {
  import opened Basics
  import opened Investigation

  predicate Bounded(inv: Inquiry) {
    inv.turnCount <= MAX_TURNS && inv.clarificationCount <= MAX_CLARIFICATIONS
  }

  /** (6 - turns, 4 - clarifications) got strictly smaller, lexicographically. */
  predicate Closer(a: Inquiry, b: Inquiry) {
    b.turnCount > a.turnCount || (b.turnCount == a.turnCount && b.clarificationCount > a.clarificationCount)
  }

  /** The position of a bounded inquiry in that order. */
  function Rank(inv: Inquiry): nat {
    if inv.turnCount >= MAX_TURNS then 30 else 5 * inv.turnCount + inv.clarificationCount
  }

  lemma RankFollows(a: Inquiry, b: Inquiry)
    requires Bounded(a) && Bounded(b) && a.turnCount < MAX_TURNS && Closer(a, b)
    ensures Rank(a) < Rank(b) <= 30
  {
    if b.turnCount > a.turnCount {
      assert 5 * b.turnCount >= 5 * (a.turnCount + 1);
    }
  }

  lemma TurnAdvances(w: World, env: Env)
    requires Bounded(w.inv) && w.inv.turnCount < MAX_TURNS
    ensures var (w', reply) := Turn(w, env);
            && (IsConcluded(w'.inv.status) || (Bounded(w'.inv) && Closer(w.inv, w'.inv)))
            && (reply.None? ==> w'.inv.status == INVESTIGATING)
            && w'.inv.turnCount <= MAX_TURNS
  {
    hide SubmitAndRelay, FinalizeConclude;
  }

  lemma SubmissionIsCharged(w: World, a: Action, env: Env)
    requires a.ProposeToolCall?
    ensures |w.hist.sent| <= |SubmitAndRelay(w, a, env).0.hist.sent| <= |w.hist.sent| + 1
  {
    hide Logged, CheckStep, ExecutionOf, Remembered, Text;
  }

  lemma ConclusionSubmitsNothing(w: World, c: Action, env: Env, finalChance: bool)
    requires c.Conclude?
    ensures |FinalizeConclude(w, c, env, finalChance).0.hist.sent| == |w.hist.sent|
  {
    hide Rejected, Text, Ungrounded, ConclusionStage;
  }

  lemma TurnCharges(w: World, env: Env)
    ensures var (w', reply) := Turn(w, env);
            |w.hist.sent| <= |w'.hist.sent| <= |w.hist.sent| + (w'.inv.turnCount - w.inv.turnCount)
  {
    hide SubmitAndRelay, FinalizeConclude, PlaybookAction;
    var (at, step) := PlaybookAction(w.inv, env);
    var w1 := w.(inv := w.inv.(status := INVESTIGATING, playbookStep := at));
    if step.Some? {
      SubmissionIsCharged(w1.(inv := w1.inv.(turnCount := w1.inv.turnCount + 1)), step.value, env);
    } else {
      var action := env.model(w.hist.modelCalls);
      var w2 := w1.(hist := w1.hist.(modelCalls := w1.hist.modelCalls + 1));
      var w3 := w2.(inv := Charged(w2.inv));
      if action.ProposeToolCall? {
        SubmissionIsCharged(w3, action, env);
      } else if action.Conclude? {
        ConclusionSubmitsNothing(w3, action, env, false);
      }
    }
  }

  /** Every call of the loop concludes the investigation or strictly advances it, and submits no more
      tool calls than it charges turns. */
  lemma {:induction false} RunAdvances(w: World, env: Env)
    requires Bounded(w.inv)
    ensures var w' := Run(w, env).0;
            && (IsConcluded(w'.inv.status) || (Bounded(w'.inv) && Closer(w.inv, w'.inv) && w.inv.turnCount < MAX_TURNS))
            && |w'.hist.sent| - |w.hist.sent| <= w'.inv.turnCount - w.inv.turnCount
            && w'.inv.turnCount <= MAX_TURNS
    decreases MAX_TURNS - w.inv.turnCount
  {
    if w.inv.turnCount < MAX_TURNS {
      TurnAdvances(w, env);
      TurnCharges(w, env);
      var (w1, reply) := Turn(w, env);
      hide Turn;
      if reply.None? {
        RunAdvances(w1, env);
      }
    }
  }

  // ---------------------------------------------------------------- a whole life

  datatype Visit = Visit(before: World, env: Env)

  function Outcome(v: Visit): World {
    Run(v.before, v.env).0
  }

  /** Between two calls anything may happen to the investigation and its conversation except that the
      loop's own counts change. */
  predicate Meanwhile(a: World, b: World) {
    b.inv.turnCount == a.inv.turnCount && b.inv.clarificationCount == a.inv.clarificationCount
    && |b.hist.sent| == |a.hist.sent|
  }

  /** Successive calls of the loop on one new investigation, each model and Gateway its own; a concluded
      investigation is not resumed. */
  ghost predicate Life(visits: seq<Visit>) {
    && (visits != [] ==> visits[0].before.inv.turnCount == 0 && visits[0].before.inv.clarificationCount == 0
                         && |visits[0].before.hist.sent| == 0)
    && Follows(visits)
  }

  ghost predicate Follows(visits: seq<Visit>) {
    forall i {:trigger visits[i]} :: 1 <= i < |visits| ==> Resumes(visits[i - 1], visits[i])
  }

  predicate Resumes(v: Visit, v': Visit) {
    !IsConcluded(Outcome(v).inv.status) && Meanwhile(Outcome(v), v'.before)
  }

  lemma {:induction false} LifeAdvances(visits: seq<Visit>, n: nat)
    requires Life(visits) && n < |visits|
    ensures Bounded(visits[n].before.inv) && n <= Rank(visits[n].before.inv) <= 30
    ensures |visits[n].before.hist.sent| <= visits[n].before.inv.turnCount
    decreases n
  {
    hide Run;
    if n > 0 {
      LifeAdvances(visits, n - 1);
      RunAdvances(visits[n - 1].before, visits[n - 1].env);
      var a, b, c := visits[n - 1].before, Outcome(visits[n - 1]), visits[n].before;
      assert Resumes(visits[n - 1], visits[n]) && Meanwhile(b, c);
      RankFollows(a.inv, b.inv);
      assert Rank(c.inv) == Rank(b.inv);
    }
  }

  /** Over its whole life an investigation sees at most 30 calls of the loop that do not conclude it, and
      the loop submits at most 6 tool calls. */
  lemma LifeIsBounded(visits: seq<Visit>)
    requires Life(visits) && visits != []
    ensures var last := Outcome(visits[|visits| - 1]);
            && |visits| <= 31
            && (!IsConcluded(last.inv.status) ==> |visits| <= 30)
            && |last.hist.sent| <= 6
  {
    hide Run;
    var n := |visits| - 1;
    LifeAdvances(visits, n);
    RunAdvances(visits[n].before, visits[n].env);
    if !IsConcluded(Outcome(visits[n]).inv.status) {
      RankFollows(visits[n].before.inv, Outcome(visits[n]).inv);
    }
  }

  /** A model that asks while it may and is then refused by policy. */
  function Dawdling(env: Env, clarifications: nat): Env {
    env.(available := [],
         model := (i: nat) => if clarifications < MAX_CLARIFICATIONS then AskClarification("?")
                              else ProposeToolCall(Other(""), map[], map[], ""),
         gateway := (i: nat) => Denied(POLICY_DENIED, ""))
  }

  /** Freeform and attended, with room for an observation. */
  predicate Open(inv: Inquiry) {
    inv.playbook.None? && !inv.readOnly && inv.observations < MAX_OBSERVATIONS
  }

  /** From any position short of the last, some model and Gateway advance the investigation by exactly one place
      without concluding it, submitting a call for every turn charged. */
  lemma SomeRunAdvancesByOne(w: World, env: Env)
    requires Bounded(w.inv) && w.inv.turnCount < MAX_TURNS && Open(w.inv)
    ensures var w' := Run(w, Dawdling(env, w.inv.clarificationCount)).0;
            && !IsConcluded(w'.inv.status)
            && Rank(w'.inv) == Rank(w.inv) + 1
            && Open(w'.inv) && |w'.hist.sent| - |w.hist.sent| == w'.inv.turnCount - w.inv.turnCount
  {
    var env' := Dawdling(env, w.inv.clarificationCount);
    var w1 := w.(inv := w.inv.(status := INVESTIGATING), hist := w.hist.(modelCalls := w.hist.modelCalls + 1));
    FreeformTurn(w, env');
    DawdlingAct(w1, env', w.inv.clarificationCount, env);
    hide Turn, Act;
    assert Run(w, env').0 == Turn(w, env').0;
  }

  /** n calls of the loop, one after the other, with nothing in between. */
  function Dawdle(w: World, env: Env, n: nat): (visits: seq<Visit>)
    ensures |visits| == n && (n > 0 ==> visits[0] == Visit(w, Dawdling(env, w.inv.clarificationCount)))
    decreases n
  {
    if n == 0 then []
    else
      var v := Visit(w, Dawdling(env, w.inv.clarificationCount));
      [v] + Dawdle(Outcome(v), env, n - 1)
  }

  lemma {:induction false} DawdleGoesOn(w: World, env: Env, n: nat)
    requires Bounded(w.inv) && Open(w.inv) && Rank(w.inv) + n <= 30
    ensures var visits := Dawdle(w, env, n + 1);
            && Follows(visits)
            && var before := visits[n].before;
            && Bounded(before.inv) && Rank(before.inv) == Rank(w.inv) + n
            && |before.hist.sent| - |w.hist.sent| == before.inv.turnCount - w.inv.turnCount
    decreases n
  {
    hide Run, Dawdling;
    if n > 0 {
      var v := Visit(w, Dawdling(env, w.inv.clarificationCount));
      SomeRunAdvancesByOne(w, env);
      RunAdvances(w, v.env);
      var w' := Outcome(v);
      RankFollows(w.inv, w'.inv);
      var rest := Dawdle(w', env, n);
      DawdleGoesOn(w', env, n - 1);
      FollowsOn(v, rest);
      hide Outcome;
      assert Dawdle(w, env, n + 1) == [v] + rest;
    }
  }

  lemma FollowsOn(v: Visit, rest: seq<Visit>)
    requires rest != [] && Follows(rest) && rest[0].before == Outcome(v) && !IsConcluded(Outcome(v).inv.status)
    ensures Follows([v] + rest)
  {
    var visits := [v] + rest;
    assert Resumes(v, rest[0]);
    hide Outcome, Resumes;
    forall i {:trigger visits[i]} | 1 <= i < |visits| ensures Resumes(visits[i - 1], visits[i]) {
      if i > 1 {
        assert visits[i] == rest[i - 1] && visits[i - 1] == rest[i - 2];
      }
    }
  }

  /** The bounds are met: some life has 31 calls of the loop, of which 30 do not conclude, and 6 submissions. */
  lemma LifeBoundIsMet(w: World, env: Env)
    requires Open(w.inv) && w.inv.turnCount == 0 && w.inv.clarificationCount == 0 && w.hist.sent == []
    ensures var visits := Dawdle(w, env, 31);
            && Life(visits) && |visits[30].before.hist.sent| == 6
            && forall i :: 0 <= i < 30 ==> !IsConcluded(Outcome(visits[i]).inv.status)
  {
    hide Run, Dawdle;
    DawdleGoesOn(w, env, 30);
    var visits := Dawdle(w, env, 31);
    forall i | 0 <= i < 30 ensures !IsConcluded(Outcome(visits[i]).inv.status) {
      assert Resumes(visits[i], visits[i + 1]);
    }
  }

  lemma FreeformTurn(w: World, env: Env)
    requires w.inv.playbook.None? && w.inv.observations < MAX_OBSERVATIONS
    ensures Turn(w, env) ==
            Act(w.(inv := w.inv.(status := INVESTIGATING), hist := w.hist.(modelCalls := w.hist.modelCalls + 1)),
                                env.model(w.hist.modelCalls), env)
  {
    hide Act;
  }

  lemma DawdlingAct(w: World, env': Env, clarifications: nat, env: Env)
    requires env' == Dawdling(env, clarifications) && clarifications == w.inv.clarificationCount <= MAX_CLARIFICATIONS
    requires Bounded(w.inv) && w.inv.turnCount < MAX_TURNS && Open(w.inv)
    requires w.inv.status == INVESTIGATING && w.hist.modelCalls > 0
    ensures var (w', reply) := Act(w, env'.model(w.hist.modelCalls - 1), env');
            && reply.Some? && !IsConcluded(w'.inv.status)
            && Rank(w'.inv) == Rank(w.inv) + 1
            && Open(w'.inv) && |w'.hist.sent| - |w.hist.sent| == w'.inv.turnCount - w.inv.turnCount
  {
    if clarifications == MAX_CLARIFICATIONS {
      RefusedTurn(w.(inv := Charged(w.inv)), env'.model(w.hist.modelCalls - 1), env');
    }
    hide SubmitAndRelay, FinalizeConclude;
  }

  lemma RefusedTurn(w: World, a: Action, env: Env)
    requires a == ProposeToolCall(Other(""), map[], map[], "") && !w.inv.readOnly
    requires env.gateway(|w.hist.sent|) == Denied(POLICY_DENIED, "")
    ensures var (w', reply) := SubmitAndRelay(w, a, env);
            w'.inv == w.inv && |w'.hist.sent| == |w.hist.sent| + 1 && reply.Some?
  {
    hide Text;
  }
}
