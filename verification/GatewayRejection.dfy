/** What a rejection means over whole runs: the approval is over for good. */
module GatewayRejection {
  import opened Basics
  import opened Approval
  import opened Policy
  import opened Gateway
  import opened GatewaySafety
  import opened GatewayAccounting

  predicate IsRejection(e: Entry, id: string) {
    e.Rejected? && e.id == id
  }

  /** The entry signs the approval, verifies a call against it or executes behind it. */
  predicate Reopens(e: Entry, id: string) {
    (e.Signed? && e.id == id) || (e.Verified? && e.id == id) || (e.Executed? && e.gate == Some(id))
  }

  ghost predicate RejectionStands(s: State, id: string) {
    && (forall i, j :: 0 <= i < j < |s.log| && IsRejection(s.log[i], id) ==> !Reopens(s.log[j], id))
    && (forall i :: 0 <= i < |s.log| && IsRejection(s.log[i], id) ==>
          id in s.records && s.records[id].status == REJECTED)
  }

  /** A rejected record with no call behind it stays as it is, and the step adds nothing that reopens it. */
  lemma RejectedStays(s: State, t: Step, id: string)
    requires Enabled(s, t) && id in s.records && s.records[id].status == REJECTED && !Held(s, id)
    ensures var s' := Next(s, t);
            && id in s'.records && s'.records[id] == s.records[id]
            && (s'.log == s.log || (s'.log == s.log + [s'.log[|s.log|]] && !Reopens(s'.log[|s.log|], id)))
  {
    match t
    case Submit(_, _, _, _, _) => hide ExecuteNext, FinishNext, DecideNext;
    case Execute(_, _, _) => hide SubmitNext, FinishNext, DecideNext;
    case Finish(_, _) => hide SubmitNext, ExecuteNext, DecideNext;
    case Decide(_, _, _, _) => hide SubmitNext, ExecuteNext, FinishNext;
  }

  /** A rejection entry is written exactly by an accepted rejection, and the record is rejected then. */
  lemma RejectionRejects(s: State, t: Step, id: string)
    requires Enabled(s, t) && Next(s, t).log != s.log
    ensures var s' := Next(s, t);
            && s'.log == s.log + [s'.log[|s.log|]]
            && (IsRejection(s'.log[|s.log|], id) ==>
                  && t.Decide? && t.id == id && t.decision == REJECT
                  && id in s'.records && s'.records[id].status == REJECTED)
  {
    match t
    case Submit(_, _, _, _, _) => hide ExecuteNext, FinishNext, DecideNext;
    case Execute(_, _, _) => hide SubmitNext, FinishNext, DecideNext;
    case Finish(_, _) => hide SubmitNext, ExecuteNext, DecideNext;
    case Decide(_, _, _, _) => hide SubmitNext, ExecuteNext, FinishNext;
  }

  lemma RejectionStandsNext(s: State, t: Step, id: string)
    requires RejectionStands(s, id) && Balanced(s, id) && Enabled(s, t)
    ensures RejectionStands(Next(s, t), id)
  {
    hide Next, Enabled, Held, Uses, Grants, Reopens, IsRejection, AtMostOneHolds, Spent;
    var s' := Next(s, t);
    if i :| 0 <= i < |s.log| && IsRejection(s.log[i], id) {
      RejectedStays(s, t, id);
      if s'.log != s.log {
        RejectionRejects(s, t, id);
      }
    } else if s'.log != s.log {
      RejectionRejects(s, t, id);
    } else {
      assert s'.log == s.log;
    }
  }

  lemma {:induction false} RejectionStandsAlways(s: State, steps: seq<Step>, id: string)
    requires RejectionStands(s, id) && Balanced(s, id) && SerialRuns(s, steps)
    ensures Runs(s, steps) && RejectionStands(After(s, steps), id)
    decreases |steps|
  {
    SerialIsRun(s, steps);
    if steps != [] {
      RejectionStandsNext(s, steps[0], id);
      BalancedNext(s, steps[0], id);
      hide Next, Enabled, RejectionStands, Balanced;
      RejectionStandsAlways(Next(s, steps[0]), steps[1..], id);
    }
  }

  /** A rejection is final. In every run in which calls behind one approval do not overlap, nothing signs, verifies or
      executes behind an approval once it was rejected. */
  lemma RejectionIsFinal(s0: State, steps: seq<Step>, id: string, i: nat, j: nat)
    requires Initial(s0) && SerialRuns(s0, steps)
    ensures Runs(s0, steps)
    ensures var log := After(s0, steps).log;
            i < j < |log| && log[i].Rejected? && log[i].id == id ==>
              && !(log[j].Signed? && log[j].id == id)
              && !(log[j].Verified? && log[j].id == id)
              && !(log[j].Executed? && log[j].gate == Some(id))
  {
    RejectionStandsAlways(s0, steps, id);
  }

  /** A decision in its window, by someone who may take it, is committed: it leaves a rejected record, or one with the
      signature. A refused one leaves the table as it was. */
  lemma DecisionIsCommitted(s: State, t: Step)
    requires Enabled(s, t) && t.Decide?
    ensures var s' := Next(s, t);
            && (t.id in s.records ==>
                  var r, o := s.records[t.id], DecideOn(t.id, s.records[t.id], t.approver, t.decision, t.now);
                  && s'.records == (if o.error.None? then s.records[t.id := o.record] else s.records)
                  && (o.error.None? <==> s'.log != s.log))
            && (t.id !in s.records ==> s'.records == s.records && s'.log == s.log)
            && s'.inflight == s.inflight && s'.clock == t.now
  {
    hide SubmitNext, ExecuteNext, FinishNext;
  }
}
