/** How often one approval can be used: conservation of approvals over whole runs, and the exact
    point where "an approval is used once" stops being true of the code. */
module GatewayAccounting {
  import opened Basics
  import opened Approval
  import opened Policy
  import opened Gateway
  import opened GatewaySafety

  predicate IsUse(e: Entry, id: string) {
    e.Executed? && e.gate == Some(id) && e.result.Success?
  }

  /** A grant given to a record that had already been used. */
  predicate IsRegrant(e: Entry, id: string) {
    IsGrant(e, id) && e.from == EXECUTED
  }

  function Uses(log: seq<Entry>, id: string): nat {
    if log == [] then 0 else Uses(log[..|log| - 1], id) + if IsUse(log[|log| - 1], id) then 1 else 0
  }

  function Grants(log: seq<Entry>, id: string): nat {
    if log == [] then 0 else Grants(log[..|log| - 1], id) + if IsGrant(log[|log| - 1], id) then 1 else 0
  }

  function Regrants(log: seq<Entry>, id: string): nat {
    if log == [] then 0 else Regrants(log[..|log| - 1], id) + if IsRegrant(log[|log| - 1], id) then 1 else 0
  }

  lemma CountsGrow(log: seq<Entry>, e: Entry, id: string)
    ensures Uses(log + [e], id) == Uses(log, id) + if IsUse(e, id) then 1 else 0
    ensures Grants(log + [e], id) == Grants(log, id) + if IsGrant(e, id) then 1 else 0
    ensures Regrants(log + [e], id) == Regrants(log, id) + if IsRegrant(e, id) then 1 else 0
  {
    assert (log + [e])[..|log|] == log;
  }

  // ---------------------------------------------------------------- grants, in every run

  /** A record is granted once, and once more for every approval given to it after a use. */
  predicate GrantsCounted(s: State, id: string) {
    && Grants(s.log, id) <= 1 + Regrants(s.log, id)
    && (id !in s.records || s.records[id].status in {PENDING, AWAITING_SECOND_APPROVAL} ==> Grants(s.log, id) == 0)
  }

  lemma GrantsCountedNext(s: State, t: Step, id: string)
    requires GrantsCounted(s, id) && Enabled(s, t)
    requires id in s.records ==> Separated(s.records[id])
    ensures GrantsCounted(Next(s, t), id)
  {
    hide Grants, Regrants;
    var s' := Next(s, t);
    if s'.log != s.log {
      CountsGrow(s.log, s'.log[|s.log|], id);
    }
    if t.Submit? && t.stages.Ok? {
      SubmitGrantsNothing(s, t, id);
      hide Next;
    } else if t.Decide? {
      DecisionGrants(s, t, id);
      hide Next;
    }
  }

  /** A grant opens a record that was never granted, or reopens a used one. */
  lemma DecisionGrants(s: State, t: Step, id: string)
    requires Enabled(s, t) && t.Decide? && (id in s.records ==> Separated(s.records[id]))
    ensures var s' := Next(s, t);
            && (id in s'.records <==> id in s.records)
            && (s'.log == s.log ==> s'.records == s.records)
            && (s'.log != s.log ==>
                  var e := s'.log[|s.log|];
                  && s'.log == s.log + [e]
                  && (IsGrant(e, id) ==>
                      id in s.records && e.from == s.records[id].status && Undecided(e.from)
                          && s'.records[id].status == APPROVED)
                  && (id in s.records && s'.records[id].status in {PENDING, AWAITING_SECOND_APPROVAL} ==>
                        !IsGrant(e, id) && s.records[id].status in {PENDING, AWAITING_SECOND_APPROVAL}))
  {
  }

  lemma SubmitGrantsNothing(s: State, t: Step, id: string)
    requires Enabled(s, t) && t.Submit? && t.stages.Ok?
    ensures var s' := Next(s, t);
            && (id in s.records ==> id in s'.records && s'.records[id].status in {s.records[id].status, EXPIRED})
            && (id !in s.records && id in s'.records ==> s'.records[id].status == PENDING)
            && (s'.log == s.log || (s'.log == s.log + [s'.log[|s.log|]] && !s'.log[|s.log|].Signed?
                                    && !s'.log[|s.log|].Executed?))
  {
  }

  lemma {:induction false} GrantsCountedAlways(s: State, steps: seq<Step>, id: string)
    requires Inv(s) && GrantsCounted(s, id) && Runs(s, steps)
    ensures GrantsCounted(After(s, steps), id)
    decreases |steps|
  {
    if steps != [] {
      hide RecordLogged, EntryExplained, CallLogged;
      GrantsCountedNext(s, steps[0], id);
      NextKeepsInv(s, steps[0]);
      GrantsCountedAlways(Next(s, steps[0]), steps[1..], id);
    }
  }

  // ---------------------------------------------------------------- uses, when calls do not overlap

  ghost predicate Held(s: State, id: string) {
    exists h :: h in s.inflight && s.inflight[h].gate == Some(id)
  }

  /** A call behind `id` has executed and not consumed it yet. */
  ghost predicate Spent(s: State, id: string) {
    exists h :: h in s.inflight && s.inflight[h].gate == Some(id) && s.inflight[h].succeeded
  }

  /** The step verifies a call against `id`. */
  predicate Verifies(t: Step, id: string) {
    t.Submit? && t.approvalId == id && t.stages.Ok? && t.stages.value.decision == REQUIRES_APPROVAL
  }

  /** No call is verified against an approval while another one behind it is between verification and
      consumption. Decisions, and everything else, happen at any moment. */
  ghost predicate SerialRuns(s: State, steps: seq<Step>)
    decreases |steps|
  {
    steps == [] ||
    (&& Enabled(s, steps[0])
     && (forall id :: Verifies(steps[0], id) ==> !Held(s, id))
     && SerialRuns(Next(s, steps[0]), steps[1..]))
  }

  /** The tool calls of the run are atomic: submissions and decisions happen with nothing in flight. */
  ghost predicate AtomicRuns(s: State, steps: seq<Step>)
    decreases |steps|
  {
    steps == [] ||
    (&& Enabled(s, steps[0])
     && (steps[0].Submit? || steps[0].Decide? ==> s.inflight == map[])
     && AtomicRuns(Next(s, steps[0]), steps[1..]))
  }

  lemma {:induction false} AtomicIsSerial(s: State, steps: seq<Step>)
    requires AtomicRuns(s, steps)
    ensures SerialRuns(s, steps)
    decreases |steps|
  {
    if steps != [] {
      AtomicIsSerial(Next(s, steps[0]), steps[1..]);
    }
  }

  lemma {:induction false} SerialIsRun(s: State, steps: seq<Step>)
    requires SerialRuns(s, steps)
    ensures Runs(s, steps)
    decreases |steps|
  {
    if steps != [] {
      SerialIsRun(Next(s, steps[0]), steps[1..]);
    }
  }

  /** The books of one approval balance: a grant that stands unused is the one that is not spent yet, and a lapsed
      record may have died with it; apart from that every grant was used. */
  ghost predicate Balanced(s: State, id: string) {
    var uses, grants := Uses(s.log, id), Grants(s.log, id);
    && uses <= grants <= uses + 1
    && (id in s.records && s.records[id].status == APPROVED && !Spent(s, id) ==> grants == uses + 1)
    && (id in s.records && s.records[id].status == APPROVED && Spent(s, id) ==> grants == uses)
    && (id !in s.records || s.records[id].status in {PENDING, AWAITING_SECOND_APPROVAL, REJECTED, EXECUTED} ==>
        grants == uses)
    && (Held(s, id) ==> id in s.records && s.records[id].status == APPROVED)
    && AtMostOneHolds(s, id)
  }

  ghost predicate AtMostOneHolds(s: State, id: string) {
    forall h1, h2 ::
      h1 in s.inflight && h2 in s.inflight && s.inflight[h1].gate == Some(id) == s.inflight[h2].gate ==>
        h1 == h2
  }

  lemma BalancedNext(s: State, t: Step, id: string)
    requires Balanced(s, id) && Enabled(s, t) && (Verifies(t, id) ==> !Held(s, id))
    ensures Balanced(Next(s, t), id)
  {
    match t
    case Submit(_, _, _, _, _) => BalancedSubmit(s, t, id);
    case Execute(_, _, _) => BalancedExecute(s, t, id);
    case Finish(_, _) => BalancedFinish(s, t, id);
    case Decide(_, _, _, _) => BalancedDecide(s, t, id);
  }

  lemma BalancedSubmit(s: State, t: Step, id: string)
    requires Balanced(s, id) && Enabled(s, t) && (Verifies(t, id) ==> !Held(s, id)) && t.Submit?
    ensures Balanced(Next(s, t), id)
  {
    hide ExecuteNext, FinishNext, DecideNext, Held, Spent, AtMostOneHolds, Uses, Grants, Regrants;
    var s' := Next(s, t);
    if s'.log != s.log {
      CountsGrow(s.log, s'.log[|s.log|], id);
    }
    SubmitHolds(s, t, id);
    HoldsBySubmit(s, t, id);
    if t.stages.Ok? {
      SubmitGrantsNothing(s, t, id);
      hide Next;
    }
  }

  lemma HoldsBySubmit(s: State, t: Step, id: string)
    requires Enabled(s, t) && t.Submit? && AtMostOneHolds(s, id) && (Verifies(t, id) ==> !Held(s, id))
    ensures var s' := Next(s, t);
            && AtMostOneHolds(s', id) && Spent(s', id) == Spent(s, id) && (Held(s, id) ==> Held(s', id))
            && (Held(s', id) && !Held(s, id) ==>
                Verifies(t, id) && id in s.records && s.records[id].status == APPROVED && s'.records == s.records)
  {
    SubmitHolds(s, t, id);
    hide Next, Verifies;
  }

  /** A submission puts at most its own call in flight, unexecuted, behind a standing approval. */
  lemma SubmitHolds(s: State, t: Step, id: string)
    requires Enabled(s, t) && t.Submit?
    ensures var s' := Next(s, t);
            && (forall h :: h in s.inflight ==> h in s'.inflight && s'.inflight[h] == s.inflight[h])
            && (forall h :: h in s'.inflight && h !in s.inflight ==>
                  h == t.h && !s'.inflight[h].succeeded
                  && (s'.inflight[h].gate == Some(id) ==>
                      Verifies(t, id) && id in s.records && s.records[id].status == APPROVED
                          && s'.records == s.records))
            && (id in s.records && !Verifies(t, id) ==> id in s'.records && s'.records[id] == s.records[id])
  {
  }

  /** Executing a call behind `id` spends it or lets go of it; any other call leaves it alone. */
  lemma ExecuteHolds(s: State, t: Step, id: string)
    requires Enabled(s, t) && t.Execute? && AtMostOneHolds(s, id)
    ensures var s' := Next(s, t);
            && AtMostOneHolds(s', id)
            && if s.inflight[t.h].gate == Some(id)
               then Held(s, id) && !Spent(s, id) && Held(s', id) == t.result.Success?
                   && Spent(s', id) == t.result.Success?
               else Held(s', id) == Held(s, id) && Spent(s', id) == Spent(s, id)
  {
    hide SubmitNext, FinishNext, DecideNext;
    var s' := Next(s, t);
    assert forall h :: h in s.inflight && h != t.h ==> h in s'.inflight && s'.inflight[h] == s.inflight[h];
    assert forall h :: h in s'.inflight ==> h in s.inflight && s'.inflight[h].gate == s.inflight[h].gate;
  }

  lemma BalancedExecute(s: State, t: Step, id: string)
    requires Balanced(s, id) && Enabled(s, t) && t.Execute?
    ensures Balanced(Next(s, t), id)
  {
    hide SubmitNext, FinishNext, DecideNext, Held, Spent, AtMostOneHolds, Uses, Grants, Regrants;
    var s' := Next(s, t);
    CountsGrow(s.log, s'.log[|s.log|], id);
    ExecuteHolds(s, t, id);
  }

  /** Finishing a call behind `id` lets go of it; any other call leaves it alone. */
  lemma FinishHolds(s: State, t: Step, id: string)
    requires Enabled(s, t) && t.Finish? && AtMostOneHolds(s, id)
    ensures var s' := Next(s, t);
            && AtMostOneHolds(s', id)
            && if s.inflight[t.h].gate == Some(id)
               then Held(s, id) && Spent(s, id) && !Held(s', id) && !Spent(s', id)
               else Held(s', id) == Held(s, id) && Spent(s', id) == Spent(s, id)
  {
    hide SubmitNext, ExecuteNext, DecideNext, MarkOn;
    var s' := Next(s, t);
    assert forall h :: h in s'.inflight <==> h in s.inflight && h != t.h;
    assert forall h :: h in s'.inflight ==> s'.inflight[h] == s.inflight[h];
  }

  lemma BalancedFinish(s: State, t: Step, id: string)
    requires Balanced(s, id) && Enabled(s, t) && t.Finish?
    ensures Balanced(Next(s, t), id)
  {
    hide SubmitNext, ExecuteNext, DecideNext, Held, Spent, AtMostOneHolds, Uses, Grants, Regrants;
    var s' := Next(s, t);
    if s'.log != s.log {
      CountsGrow(s.log, s'.log[|s.log|], id);
    }
    FinishHolds(s, t, id);
  }

  lemma DecideHolds(s: State, t: Step, id: string)
    requires Enabled(s, t) && t.Decide?
    ensures var s' := Next(s, t);
            && Held(s', id) == Held(s, id) && Spent(s', id) == Spent(s, id) && (Spent(s, id) ==> Held(s, id))
            && AtMostOneHolds(s', id) == AtMostOneHolds(s, id)
  {
    hide SubmitNext, ExecuteNext, FinishNext, DecideOn;
    assert Next(s, t).inflight == s.inflight;
  }

  /** An accepted decision is on an undecided record, and is a grant iff it leaves the record approved. */
  lemma DecideBooks(s: State, t: Step, id: string)
    requires Enabled(s, t) && t.Decide?
    ensures var s' := Next(s, t);
            && (s'.log == s.log ==> s'.records == s.records)
            && (s'.log != s.log ==>
                  var e := s'.log[|s.log|];
                  && s'.log == s.log + [e] && !e.Executed? && (id in s'.records <==> id in s.records)
                  && if id != t.id then !IsGrant(e, id) && (id in s.records ==> s'.records[id] == s.records[id])
                     else id in s.records && Undecided(s.records[id].status)
                          && s'.records[id].status in {APPROVED, AWAITING_SECOND_APPROVAL, REJECTED}
                          && (IsGrant(e, id) <==> s'.records[id].status == APPROVED))
  {
    hide SubmitNext, ExecuteNext, FinishNext;
  }

  lemma BalancedDecide(s: State, t: Step, id: string)
    requires Balanced(s, id) && Enabled(s, t) && t.Decide?
    ensures Balanced(Next(s, t), id)
  {
    hide Next, Held, Spent, AtMostOneHolds, Uses, Grants, Regrants;
    var s' := Next(s, t);
    DecideBooks(s, t, id);
    if s'.log != s.log {
      CountsGrow(s.log, s'.log[|s.log|], id);
    }
    DecideHolds(s, t, id);
  }

  lemma {:induction false} BalancedAlways(s: State, steps: seq<Step>, id: string)
    requires Balanced(s, id) && SerialRuns(s, steps)
    ensures Runs(s, steps) && Balanced(After(s, steps), id)
    decreases |steps|
  {
    SerialIsRun(s, steps);
    if steps != [] {
      BalancedNext(s, steps[0], id);
      BalancedAlways(Next(s, steps[0]), steps[1..], id);
    }
  }

  /** Conservation of approvals. In every run in which calls behind one approval do not overlap, decisions coming at
      any moment: the successful executions behind an approval are its entries into APPROVED, all of them once it is
      used, all but one while it stands approved with no call behind it; and it is granted at most once more than
      it is approved after a use. */
  lemma ApprovalsConserved(s0: State, steps: seq<Step>, id: string)
    requires Initial(s0) && SerialRuns(s0, steps)
    ensures Runs(s0, steps)
    ensures var s := After(s0, steps);
            var uses, grants := Uses(s.log, id), Grants(s.log, id);
            && uses <= grants <= uses + 1 && grants <= 1 + Regrants(s.log, id)
            && (id in s.records && s.records[id].status == APPROVED && !Held(s, id) ==> grants == uses + 1)
            && (id in s.records && s.records[id].status in {REJECTED, EXECUTED} ==> grants == uses)
  {
    hide RecordLogged, EntryExplained, CallLogged;
    BalancedAlways(s0, steps, id);
    InitiallyInv(s0);
    GrantsCountedAlways(s0, steps, id);
  }

  /** Used at most once, in every run where calls are atomic and no approval is given to a used record. */
  lemma UsedAtMostOnce(s0: State, steps: seq<Step>, id: string)
    requires Initial(s0) && AtomicRuns(s0, steps)
    ensures Runs(s0, steps)
    ensures Regrants(After(s0, steps).log, id) == 0 ==> Uses(After(s0, steps).log, id) <= 1
  {
    AtomicIsSerial(s0, steps);
    ApprovalsConserved(s0, steps, id);
  }

  // ---------------------------------------------------------------- where it stops

  lemma FirstStep(s: State, t: Step, rest: seq<Step>)
    ensures Runs(s, [t] + rest) <==> Enabled(s, t) && Runs(Next(s, t), rest)
    ensures Runs(s, [t] + rest) ==> After(s, [t] + rest) == After(Next(s, t), rest)
    ensures AtomicRuns(s, [t] + rest) <==>
            Enabled(s, t) && (t.Submit? || t.Decide? ==> s.inflight == map[]) && AtomicRuns(Next(s, t), rest)
  {
    assert ([t] + rest)[1..] == rest;
  }

  lemma FourSteps(s: State, a: Step, b: Step, c: Step, d: Step)
    requires Enabled(s, a) && Enabled(Next(s, a), b) && Enabled(Next(Next(s, a), b), c)
             && Enabled(Next(Next(Next(s, a), b), c), d)
    ensures Runs(s, [a, b, c, d]) && After(s, [a, b, c, d]) == Next(Next(Next(Next(s, a), b), c), d)
    ensures AtomicRuns(s, [a, b, c, d]) <==>
            && (a.Submit? || a.Decide? ==> s.inflight == map[])
            && (b.Submit? || b.Decide? ==> Next(s, a).inflight == map[])
            && (c.Submit? || c.Decide? ==> Next(Next(s, a), b).inflight == map[])
            && (d.Submit? || d.Decide? ==> Next(Next(Next(s, a), b), c).inflight == map[])
  {
    hide Next, Enabled;
    var s1 := Next(s, a);
    var s2 := Next(s1, b);
    var s3 := Next(s2, c);
    assert [a, b, c, d] == [a] + [b, c, d] && [b, c, d] == [b] + [c, d] && [c, d] == [c] + [d] && [d] == [d] + [];
    FirstStep(s, a, [b, c, d]);
    FirstStep(s1, b, [c, d]);
    FirstStep(s2, c, [d]);
    FirstStep(s3, d, []);
  }

  lemma Reopens(s: State, t: Step)
    requires Enabled(s, t) && t.Decide? && t.decision == APPROVE && t.id in s.records
             && s.records[t.id].status == EXECUTED
    requires s.records[t.id].dual ==> s.records[t.id].approver1.Some?
    ensures var s', r := Next(s, t), s.records[t.id];
            && s'.inflight == s.inflight && s'.clock == t.now && s'.records.Keys == s.records.Keys
            && s'.records[t.id].key == r.key && s'.records[t.id].expiresAt == r.expiresAt
            && if MaySign(r, t.approver)
               then s'.records[t.id].status == APPROVED
                   && s'.log == s.log + [Signed(t.id, t.approver, EXECUTED, APPROVED, t.now)]
               else s'.records[t.id].status == EXECUTED && s'.log == s.log
  {
  }

  lemma LetThrough(s: State, t: Step)
    requires Enabled(s, t) && t.Submit? && t.approvalId != "" && t.approvalId in s.records && t.stages.Ok?
    requires t.stages.value.decision == REQUIRES_APPROVAL && t.stages.value.key == s.records[t.approvalId].key
    ensures var s', r := Next(s, t), s.records[t.approvalId];
            if r.status == APPROVED && t.now <= r.expiresAt
            then && s'.inflight == s.inflight[t.h := InFlight(r.key, Some(t.approvalId), false)]
                 && s'.log == s.log + [Verified(t.h, t.approvalId, r.key, t.now)]
                 && t.approvalId in s'.records && s'.clock == t.now
            else s'.inflight == s.inflight
  {
  }

  /** A call in flight behind a record that executes and finishes is one use of it. */
  lemma UsedThrough(s: State, x: Step, f: Step, id: string, key: ActionKey)
    requires Enabled(s, x) && x.Execute? && x.result.Success? && f == Finish(x.h, f.now) && f.now >= x.now
    requires s.inflight[x.h] == InFlight(key, Some(id), false) && id in s.records
    ensures Enabled(Next(s, x), f) && Uses(Next(Next(s, x), f).log, id) == Uses(s.log, id) + 1
  {
    hide Uses, Grants, Regrants, DecideNext, SubmitNext, MarkOn;
    CountsGrow(s.log, Executed(x.h, key, Some(id), Success, x.now), id);
    CountsGrow(Next(s, x).log, Consumed(id, f.now), id);
  }

  /** "An approved-but-already-used approval can never authorize a second execution" fails of a used
      record exactly when its window is still open and the new signature is admissible: approving it
      once more and submitting the same action runs it again, with nothing overlapping. */
  lemma SecondUseIff(s: State, id: string, approver: string, h: nat, e: Evaluated, newId: string, t1: Time, t2: Time,
                     t3: Time, t4: Time)
    requires s.inflight == map[] && s.clock <= t1 <= t2 <= t3 <= t4
    requires id != "" && id in s.records && s.records[id].status == EXECUTED
    requires s.records[id].dual ==> s.records[id].approver1.Some?
    requires newId != "" && newId !in s.records
    requires e.decision == REQUIRES_APPROVAL && e.key == s.records[id].key
    ensures var steps := [Step.Decide(id, approver, APPROVE, t1), Submit(h, id, Ok(e), newId, t2),
                          Execute(h, Success, t3), Finish(h, t4)];
            && (AtomicRuns(s, steps) <==> MaySign(s.records[id], approver) && t2 <= s.records[id].expiresAt)
            && (AtomicRuns(s, steps) ==> Runs(s, steps) && Uses(After(s, steps).log, id) == Uses(s.log, id) + 1)
  {
    hide Uses, Grants, Regrants, AtomicRuns, Runs, After, DecideNext, SubmitNext, MarkOn;
    var d, u := Step.Decide(id, approver, APPROVE, t1), Submit(h, id, Ok(e), newId, t2);
    var x, f := Execute(h, Success, t3), Finish(h, t4);
    var s1 := Next(s, d);
    Reopens(s, d);
    var s2 := Next(s1, u);
    LetThrough(s1, u);
    if h in s2.inflight {
      FourSteps(s, d, u, x, f);
      CountsGrow(s.log, Signed(id, approver, EXECUTED, APPROVED, t1), id);
      CountsGrow(s1.log, Verified(h, id, e.key, t2), id);
      UsedThrough(s2, x, f, id, e.key);
    } else {
      assert [d, u, x, f] == [d] + [u, x, f] && [u, x, f] == [u] + [x, f] && [x, f] == [x] + [f];
      FirstStep(s, d, [u, x, f]);
      FirstStep(s1, u, [x, f]);
      FirstStep(s2, x, [f]);
    }
  }

  /** A standing approval lets the identical action through. */
  lemma SubmitVerifies(s: State, t: Step, id: string, e: Evaluated)
    requires Enabled(s, t) && t.Submit? && t.approvalId == id && t.stages == Ok(e) && id != "" && id in s.records
    requires e.decision == REQUIRES_APPROVAL && e.key == s.records[id].key
    requires s.records[id].status == APPROVED && t.now <= s.records[id].expiresAt
    ensures var s' := Next(s, t);
            && s'.inflight == s.inflight[t.h := InFlight(e.key, Some(id), false)]
            && s'.records == s.records && s'.clock == t.now && s'.log == s.log + [Verified(t.h, id, e.key, t.now)]
  {
    hide ExecuteNext, FinishNext, DecideNext;
  }

  /** Two calls verified against one approval before either executes. */
  function Overlapping(id: string, h1: nat, h2: nat, e: Evaluated, newId: string, t: Time): seq<Step> {
    [Submit(h1, id, Ok(e), newId, t), Submit(h2, id, Ok(e), newId, t), Execute(h1, Success, t), Execute(h2, Success, t)]
  }

  /** From any state with a standing approval, two overlapping calls are both verified against its one grant, and
      both execute behind it. */
  lemma OverlapUsesTwice(s: State, id: string, h1: nat, h2: nat, e: Evaluated, newId: string, t: Time)
    requires h1 != h2 && h1 !in s.inflight && h2 !in s.inflight
    requires id != "" && id in s.records && s.records[id].status == APPROVED && s.clock <= t <= s.records[id].expiresAt
    requires newId != "" && newId !in s.records
    requires e.decision == REQUIRES_APPROVAL && e.key == s.records[id].key
    ensures var steps := Overlapping(id, h1, h2, e, newId, t);
            && Runs(s, steps)
            && Uses(After(s, steps).log, id) == Uses(s.log, id) + 2
            && Grants(After(s, steps).log, id) == Grants(s.log, id)
  {
    hide Uses, Grants, Regrants, Runs, After, SubmitNext, FinishNext, DecideNext;
    var a, b := Submit(h1, id, Ok(e), newId, t), Submit(h2, id, Ok(e), newId, t);
    var c, d := Execute(h1, Success, t), Execute(h2, Success, t);
    SubmitVerifies(s, a, id, e);
    var s1 := Next(s, a);
    SubmitVerifies(s1, b, id, e);
    var s2 := Next(s1, b);
    var s3 := Next(s2, c);
    FourSteps(s, a, b, c, d);
    CountsGrow(s.log, Verified(h1, id, e.key, t), id);
    CountsGrow(s1.log, Verified(h2, id, e.key, t), id);
    CountsGrow(s2.log, Executed(h1, e.key, Some(id), Success, t), id);
    CountsGrow(s3.log, Executed(h2, e.key, Some(id), Success, t), id);
  }

  /** A failed execution consumes nothing: whatever went wrong, the table is as before the call, and
      the same action is let through again for as long as the approval is open. */
  lemma FailureConsumesNothing(s: State, id: string, h: nat, e: Evaluated, newId: string, result: ExecResult,
                               t1: Time, t2: Time, t3: Time)
    requires Enabled(s, Submit(h, id, Ok(e), newId, t1)) && t1 <= t2 <= t3
    requires id != "" && e.decision == REQUIRES_APPROVAL && !result.Success?
    requires h in Next(s, Submit(h, id, Ok(e), newId, t1)).inflight
    ensures var s1 := Next(s, Submit(h, id, Ok(e), newId, t1));
            var s2 := Next(s1, Execute(h, result, t2));
            && s2.records == s.records && s2.inflight == s.inflight
            && (h in Next(s2, Submit(h, id, Ok(e), newId, t3)).inflight <==> t3 <= s.records[id].expiresAt)
  {
    assert s.records[id := s.records[id]] == s.records;
  }

  lemma {:induction false} RunsOn(s: State, a: seq<Step>, b: seq<Step>)
    requires Runs(s, a) && Runs(After(s, a), b)
    ensures Runs(s, a + b) && After(s, a + b) == After(After(s, a), b)
    decreases |a|
  {
    hide Next, Enabled;
    if a == [] {
      assert a + b == b;
    } else {
      RunsOn(Next(s, a[0]), a[1..], b);
      assert a + b == [a[0]] + (a[1..] + b);
      FirstStep(s, a[0], a[1..] + b);
    }
  }

  /** The two steps that create an approval and grant it. */
  function Granting(id: string, approver: string, h: nat, e: Evaluated, t: Time): seq<Step> {
    [Submit(h, "", Ok(e), id, t), Step.Decide(id, approver, APPROVE, t)]
  }

  lemma GrantedFromScratch(s0: State, id: string, approver: string, h: nat, e: Evaluated, t: Time)
    requires Initial(s0) && s0.clock <= t && id != "" && e.decision == REQUIRES_APPROVAL && !e.dual
    ensures var steps := Granting(id, approver, h, e, t);
            && Runs(s0, steps)
            && var s := After(s0, steps);
            && id in s.records && s.records.Keys == {id} && s.records[id].status == APPROVED
               && s.records[id].key == e.key
            && s.records[id].expiresAt == t + TTL && s.clock == t && s.inflight == map[]
            && Uses(s.log, id) == 0 && Grants(s.log, id) == 1
  {
    hide Uses, Grants, Regrants, Runs, After, ExecuteNext, FinishNext;
    var a, b := Submit(h, "", Ok(e), id, t), Step.Decide(id, approver, APPROVE, t);
    var s1 := Next(s0, a);
    var s2 := Next(s1, b);
    assert Granting(id, approver, h, e, t) == [a] + ([b] + []);
    FirstStep(s0, a, [b] + []);
    FirstStep(s1, b, []);
    NoSteps(s2);
    NothingLogged(id);
    CountsGrow([], Created(id, e.key, false, t), id);
    CountsGrow(s1.log, Signed(id, approver, PENDING, APPROVED, t), id);
  }

  lemma NoSteps(s: State)
    ensures Runs(s, []) && After(s, []) == s
  {
  }

  lemma NothingLogged(id: string)
    ensures Uses([], id) == 0 && Grants([], id) == 0
  {
  }

  /** Conservation is lost exactly there: from every new Gateway two calls overlapping behind one approval make its
      uses exceed its grants. */
  lemma OverlapBreaksConservation(s0: State, id: string, approver: string, h0: nat, h1: nat, h2: nat, e: Evaluated,
                                  newId: string, t: Time)
    requires Initial(s0) && s0.clock <= t && id != "" && newId !in {"", id} && h1 != h2
    requires e.decision == REQUIRES_APPROVAL && !e.dual
    ensures var steps := Granting(id, approver, h0, e, t) + Overlapping(id, h1, h2, e, newId, t);
            && Runs(s0, steps)
            && Uses(After(s0, steps).log, id) == 2 && Grants(After(s0, steps).log, id) == 1
  {
    hide Uses, Grants, Regrants, Runs, After, Next;
    GrantedFromScratch(s0, id, approver, h0, e, t);
    var s := After(s0, Granting(id, approver, h0, e, t));
    OverlapUsesTwice(s, id, h1, h2, e, newId, t);
    RunsOn(s0, Granting(id, approver, h0, e, t), Overlapping(id, h1, h2, e, newId, t));
  }
}
