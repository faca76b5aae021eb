/** The write-then-recheck automaton: what the loop records about the real-world effect of its writes is
    decided by its executed calls alone. */
module InvestigationChecks {
  import opened Basics
  import opened Investigation

  type Checks = (Option<PendingCheck>, Option<Verdict>)

  function Fold(executed: seq<Execution>): Checks {
    if executed == [] then (None, None)
    else CheckStep(Fold(executed[..|executed| - 1]), executed[|executed| - 1])
  }

  /** Only writes with a re-check are tracked. */
  predicate TrackedHaveRechecks(executed: seq<Execution>) {
    forall i :: 0 <= i < |executed| && executed[i].tracked ==> Rechecks(executed[i].toolId) != {}
  }

  predicate LatestWrite(executed: seq<Execution>, w: nat) {
    && w < |executed| && executed[w].tracked
    && forall i :: w < i < |executed| ==> !executed[i].tracked
  }

  predicate IsRecheckOf(executed: seq<Execution>, w: nat, i: nat)
    requires w < |executed| && i < |executed|
  {
    executed[i].toolId in Rechecks(executed[w].toolId)
  }

  predicate FirstRecheck(executed: seq<Execution>, w: nat, r: nat) {
    && w < r < |executed| && IsRecheckOf(executed, w, r)
    && forall i: nat :: w < i < r ==> !IsRecheckOf(executed, w, i)
  }

  predicate NeverRechecked(executed: seq<Execution>, w: nat)
    requires w < |executed|
  {
    forall i: nat :: w < i < |executed| ==> !IsRecheckOf(executed, w, i)
  }

  function VerdictOf(write: Execution, recheck: Execution): Verdict {
    if StillShows(recheck.toolId, write.sessionId, recheck.rows) then UNRESOLVED else RESOLVED
  }

  /** The checks as the executed calls decide them: by the latest tracked write and the first matching
      re-check after it, whatever else was executed. */
  ghost predicate Decided(executed: seq<Execution>, c: Checks) {
    || ((forall i :: 0 <= i < |executed| ==> !executed[i].tracked) && c == (None, None))
    || (exists w: nat :: LatestWrite(executed, w) && NeverRechecked(executed, w)
                         && c == (Some(PendingCheck(executed[w].toolId, executed[w].sessionId, executed[w].reason)),
                                  None))
    || (exists w: nat, r: nat :: LatestWrite(executed, w) && FirstRecheck(executed, w, r)
                                 && c == (None, Some(VerdictOf(executed[w], executed[r]))))
  }

  lemma {:induction false} FoldIsDecided(executed: seq<Execution>)
    requires TrackedHaveRechecks(executed)
    ensures Decided(executed, Fold(executed))
    decreases |executed|
  {
    if executed != [] {
      var n := |executed| - 1;
      var before, x := executed[..n], executed[n];
      assert executed == before + [x];
      FoldIsDecided(before);
      DecidedStep(before, x, Fold(before));
    }
  }

  lemma DecidedStep(before: seq<Execution>, x: Execution, c: Checks)
    requires TrackedHaveRechecks(before + [x]) && Decided(before, c)
    ensures Decided(before + [x], CheckStep(c, x))
  {
    var after, n := before + [x], |before|;
    assert after[n] == x && forall i :: 0 <= i < n ==> after[i] == before[i];
    assert forall v: nat, i: nat :: v < n && i < n ==> IsRecheckOf(after, v, i) == IsRecheckOf(before, v, i);
    if c.0.Some? && x.toolId in Rechecks(c.0.value.toolId) {
      var w: nat :| LatestWrite(before, w) && NeverRechecked(before, w)
                    && c == (Some(PendingCheck(before[w].toolId, before[w].sessionId, before[w].reason)), None);
      assert Rechecks(x.toolId) == {};
      assert LatestWrite(after, w) && FirstRecheck(after, w, n);
    } else if x.tracked {
      assert LatestWrite(after, n) && NeverRechecked(after, n);
    } else if w: nat :| LatestWrite(before, w) && NeverRechecked(before, w)
                        && c == (Some(PendingCheck(before[w].toolId, before[w].sessionId, before[w].reason)), None) {
      assert LatestWrite(after, w) && NeverRechecked(after, w);
    } else if w: nat, r: nat :| LatestWrite(before, w) && FirstRecheck(before, w, r)
                                && c == (None, Some(VerdictOf(before[w], before[r]))) {
      assert LatestWrite(after, w) && FirstRecheck(after, w, r);
    }
  }

  /** There is one way to be decided, so `Decided` is a definition of the checks. */
  lemma DecidedOnce(executed: seq<Execution>, c1: Checks, c2: Checks)
    requires Decided(executed, c1) && Decided(executed, c2)
    ensures c1 == c2
  {
    assert forall w1: nat, w2: nat :: LatestWrite(executed, w1) && LatestWrite(executed, w2) ==> w1 == w2;
    assert forall w: nat, r1: nat, r2: nat :: FirstRecheck(executed, w, r1) && FirstRecheck(executed, w, r2) ==>
           r1 == r2;
  }

  // ---------------------------------------------------------------- the loop keeps them

  ghost predicate ChecksMatch(w: World) {
    && TrackedHaveRechecks(w.hist.executed)
    && (w.inv.pendingCheck, w.inv.lastCheck) == Fold(w.hist.executed)
  }

  /** The checks and the executed calls move together, and only when a call is executed. */
  predicate ChecksStep(w: World, w': World) {
    || (w'.hist.executed == w.hist.executed && w'.inv.pendingCheck == w.inv.pendingCheck
        && w'.inv.lastCheck == w.inv.lastCheck)
    || (&& |w'.hist.executed| == |w.hist.executed| + 1
        && var x := w'.hist.executed[|w.hist.executed|];
        && w'.hist.executed == w.hist.executed + [x]
        && (x.tracked ==> Rechecks(x.toolId) != {})
        && (w'.inv.pendingCheck, w'.inv.lastCheck) == CheckStep((w.inv.pendingCheck, w.inv.lastCheck), x))
  }

  lemma ChecksStepKeeps(w: World, w': World)
    requires ChecksMatch(w) && ChecksStep(w, w')
    ensures ChecksMatch(w')
  {
    if w'.hist.executed != w.hist.executed {
      assert w'.hist.executed[..|w'.hist.executed| - 1] == w.hist.executed;
    }
  }

  lemma RelaySteps(w: World, request: Request, response: ToolResponse, env: Env)
    ensures ChecksStep(w, Relay(w, request, response, env).0)
  {
    hide CheckStep, Remembered, Text;
  }

  lemma SubmitKeepsChecks(w: World, a: Action, env: Env)
    requires a.ProposeToolCall? && ChecksMatch(w)
    ensures ChecksMatch(SubmitAndRelay(w, a, env).0)
  {
    hide Relay, CheckStep, Fold, Text;
    if !Guarded(w, a, env) {
      hide RequestOf;
      var request, response := RequestOf(w, a, env), env.gateway(|w.hist.sent|);
      var w1 := Sending(w, request, response);
      RelaySteps(w1, request, response, env);
      ChecksStepKeeps(w1, Relay(w1, request, response, env).0);
    }
  }

  /** Concluding, accepted or not, leaves the checks alone. */
  lemma ConcludeKeepsChecks(w: World, c: Action, env: Env, finalChance: bool)
    requires c.Conclude?
    ensures var w' := FinalizeConclude(w, c, env, finalChance).0;
            w'.inv.pendingCheck == w.inv.pendingCheck && w'.inv.lastCheck == w.inv.lastCheck
                && w'.hist.executed == w.hist.executed
  {
    hide Text, Ungrounded, AppendOnce, ConclusionStage;
  }

  lemma TurnKeepsChecks(w0: World, env: Env)
    requires ChecksMatch(w0)
    ensures ChecksMatch(Turn(w0, env).0)
  {
    hide SubmitAndRelay, Act, PlaybookAction, Fold, ConclusionStage;
    var (at, step) := PlaybookAction(w0.inv, env);
    var w := w0.(inv := w0.inv.(status := INVESTIGATING, playbookStep := at));
    if step.Some? {
      SubmitKeepsChecks(w.(inv := w.inv.(turnCount := w.inv.turnCount + 1)), step.value, env);
    } else {
      var w1 := w.(hist := w.hist.(modelCalls := w.hist.modelCalls + 1));
      ActKeepsChecks(w1, env.model(w.hist.modelCalls), env);
    }
  }

  lemma ActKeepsChecks(w: World, action: Action, env: Env)
    requires ChecksMatch(w)
    ensures ChecksMatch(Act(w, action, env).0)
  {
    hide SubmitAndRelay, FinalizeConclude, Fold, ConclusionStage;
    match action
    case ProposeToolCall(_, _, _, _) => SubmitKeepsChecks(w.(inv := Charged(w.inv)), action, env);
    case Conclude(_, _, _) => ConcludeKeepsChecks(w.(inv := Charged(w.inv)), action, env, false);
    case _ =>
  }

  lemma {:induction false} RunKeepsChecks(w: World, env: Env)
    requires ChecksMatch(w)
    ensures ChecksMatch(Run(w, env).0)
    decreases if w.inv.turnCount < MAX_TURNS then MAX_TURNS - w.inv.turnCount else 0
  {
    if w.inv.turnCount >= MAX_TURNS {
      var action := env.model(w.hist.modelCalls);
      if action.Conclude? {
        ConcludeKeepsChecks(w.(hist := w.hist.(modelCalls := w.hist.modelCalls + 1)), action, env, true);
      }
      hide FinalizeConclude;
    } else {
      TurnKeepsChecks(w, env);
      var (w1, reply) := Turn(w, env);
      hide Turn;
      if reply.None? {
        RunKeepsChecks(w1, env);
      }
    }
  }

  /** A stage the loop ends in is the one its two fields name. */
  lemma {:induction false} StageIsRecorded(w: World, env: Env)
    ensures var w' := Run(w, env).0; IsConcluded(w'.inv.status) ==> w'.inv.status == ConclusionStage(w'.inv)
    decreases if w.inv.turnCount < MAX_TURNS then MAX_TURNS - w.inv.turnCount else 0
  {
    if w.inv.turnCount >= MAX_TURNS {
      LastChanceRecordsStage(w, env);
      hide LastChance;
    } else {
      TurnRecordsStage(w, env);
      var (w1, reply) := Turn(w, env);
      hide Turn;
      if reply.None? {
        StageIsRecorded(w1, env);
      }
    }
  }

  lemma LastChanceRecordsStage(w: World, env: Env)
    ensures var w' := LastChance(w, env).0; w'.inv.status == ConclusionStage(w'.inv)
  {
    hide Text, Ungrounded, AppendOnce, Rejected;
  }

  lemma TurnRecordsStage(w0: World, env: Env)
    ensures var (w', reply) := Turn(w0, env);
            reply.Some? && IsConcluded(w'.inv.status) ==> w'.inv.status == ConclusionStage(w'.inv)
  {
    hide Text, Ungrounded, AppendOnce, Rejected, SubmitAndRelay, PlaybookAction;
  }

  /** After any call of the loop the two fields are what the executed calls decide. They are never both
      set, so the stage reads the same whichever it tests first. A concluded investigation is recorded as
      UNVERIFIED exactly if a tracked write was never re-checked, as NO_ACTION exactly if there was none, and as
      VERIFIED or UNRESOLVED exactly as the first re-check of the latest write found. */
  lemma ChecksAreDecided(w: World, env: Env)
    requires ChecksMatch(w)
    ensures var w' := Run(w, env).0;
            var executed := w'.hist.executed;
            && Decided(executed, (w'.inv.pendingCheck, w'.inv.lastCheck))
            && (w'.inv.pendingCheck.None? || w'.inv.lastCheck.None?)
            && (IsConcluded(w'.inv.status) ==>
                  && (w'.inv.status == CONCLUDED_UNVERIFIED <==>
                      exists i: nat :: LatestWrite(executed, i) && NeverRechecked(executed, i))
                  && (w'.inv.status == CONCLUDED_NO_ACTION <==>
                      forall i :: 0 <= i < |executed| ==> !executed[i].tracked)
                  && (w'.inv.status == CONCLUDED_VERIFIED <==> RecheckedAs(executed, RESOLVED))
                  && (w'.inv.status == CONCLUDED_UNRESOLVED <==> RecheckedAs(executed, UNRESOLVED)))
  {
    RunKeepsChecks(w, env);
    StageIsRecorded(w, env);
    var w' := Run(w, env).0;
    hide Run;
    FoldIsDecided(w'.hist.executed);
    NeverBothChecked(w'.hist.executed, Fold(w'.hist.executed));
  }

  ghost predicate RecheckedAs(executed: seq<Execution>, v: Verdict) {
    exists w: nat, r: nat :: LatestWrite(executed, w) && FirstRecheck(executed, w, r)
        && VerdictOf(executed[w], executed[r]) == v
  }

  lemma NeverBothChecked(executed: seq<Execution>, c: Checks)
    requires Decided(executed, c)
    ensures c.0.None? || c.1.None?
    ensures c.0.Some? <==> exists i: nat :: LatestWrite(executed, i) && NeverRechecked(executed, i)
    ensures c == (None, None) <==> forall i :: 0 <= i < |executed| ==> !executed[i].tracked
    ensures forall v :: c.1 == Some(v) <==> RecheckedAs(executed, v)
  {
    assert forall w1: nat, w2: nat :: LatestWrite(executed, w1) && LatestWrite(executed, w2) ==> w1 == w2;
    assert forall w: nat, r1: nat, r2: nat :: FirstRecheck(executed, w, r1) && FirstRecheck(executed, w, r2) ==>
           r1 == r2;
  }

  /** The world in which the run comes to its last chance, if it does. */
  function AtLastChance(w: World, env: Env): Option<World>
    decreases if w.inv.turnCount < MAX_TURNS then MAX_TURNS - w.inv.turnCount else 0
  {
    if w.inv.turnCount >= MAX_TURNS then Some(w)
    else
      var (w1, reply) := Turn(w, env);
      if reply.Some? then None else AtLastChance(w1, env)
  }

  /** A conclusion reported as UNVERIFIED was accepted at the last chance, after the whole turn budget: a run that
      ends in one of its turns reports no such conclusion. */
  lemma {:induction false} ReportedUnverifiedOnlyAtTheEnd(w: World, env: Env)
    requires w.inv.turnCount <= MAX_TURNS
    ensures var (w', reply) := Run(w, env);
            match AtLastChance(w, env)
            case Some(last) => last.inv.turnCount == MAX_TURNS && LastChance(last, env) == (w', reply)
            case None => reply.report ==> w'.inv.status != CONCLUDED_UNVERIFIED
    decreases MAX_TURNS - w.inv.turnCount
  {
    if w.inv.turnCount < MAX_TURNS {
      TurnReportsVerified(w, env);
      var (w1, reply) := Turn(w, env);
      hide Turn, LastChance;
      if reply.None? {
        ReportedUnverifiedOnlyAtTheEnd(w1, env);
      }
    } else {
      hide LastChance;
    }
  }

  lemma TurnReportsVerified(w0: World, env: Env)
    ensures var (w', reply) := Turn(w0, env);
            reply.Some? && reply.value.report ==> w'.inv.status != CONCLUDED_UNVERIFIED
  {
    hide SubmitAndRelay, PlaybookAction, FinalizeConclude;
    var (at, step) := PlaybookAction(w0.inv, env);
    var w := w0.(inv := w0.inv.(status := INVESTIGATING, playbookStep := at));
    if step.Some? {
      RelayNeverReports(w.(inv := w.inv.(turnCount := w.inv.turnCount + 1)), step.value, env);
    } else {
      var action, w1 := env.model(w.hist.modelCalls), w.(hist := w.hist.(modelCalls := w.hist.modelCalls + 1));
      var w2 := w1.(inv := Charged(w1.inv));
      if action.ProposeToolCall? {
        RelayNeverReports(w2, action, env);
      } else if action.Conclude? {
        EarlyConclusionIsVerified(w2, action, env);
      }
    }
  }

  lemma EarlyConclusionIsVerified(w: World, c: Action, env: Env)
    requires c.Conclude?
    ensures var (w', reply) := FinalizeConclude(w, c, env, false);
            reply.Some? ==> w'.inv.status != CONCLUDED_UNVERIFIED
  {
    hide Text, Ungrounded, Rejected;
  }

  lemma RelayNeverReports(w: World, a: Action, env: Env)
    requires a.ProposeToolCall?
    ensures SubmitAndRelay(w, a, env).1.Some? ==> !SubmitAndRelay(w, a, env).1.value.report
  {
    hide Text, Logged, CheckStep, ExecutionOf, RequestOf;
  }
}
