/** The approval engine of src/numi/gateway/domain/approval.py.

    `LapseOn`, `DecideOn`, `VerifyOn` and `MarkOn` say what each operation makes of one record;
    the class `ApprovalEngine` performs the operations on its table, field by field, and is proved
    against them. Instants are microseconds of UTC. */
module Approval {
  import opened Basics

  type Time = int
  type Json = map<string, string>

  const MICROSECONDS := 1_000_000

  datatype Status = PENDING | AWAITING_SECOND_APPROVAL | APPROVED | REJECTED | EXPIRED | EXECUTED

  datatype Decision = APPROVE | REJECT

  /** The hashed fields. The SHA-256 of their canonical JSON is taken to be injective, so the
      fields themselves stand for `action_hash`. */
  datatype ActionKey = ActionKey(
    actor: string, toolId: string, toolVersion: string, target: Json, arguments: Json,
    environment: string, databaseId: string, riskLevel: string)

  datatype Record = Record(
    requestId: string, key: ActionKey, dual: bool, status: Status,
    approver1: Option<string>, approver2: Option<string>, decidedAt: Option<Time>,
    createdAt: Time, expiresAt: Time)

  datatype EventKind =
    | CreatedEvent | ExpiredEvent | RejectedEvent | ApprovedEvent
    | Approver1Event | Approver2Event | ExecutedEvent

  datatype Event = Event(approvalId: string, kind: EventKind, actor: Option<string>, at: Time)

  /** What an operation makes of a record: the record left behind, the events appended, the error raised. */
  datatype Outcome = Outcome(record: Record, events: seq<Event>, error: Option<FailureCode>)

  function NewRecord(requestId: string, key: ActionKey, dual: bool, now: Time, ttlSeconds: int): Record {
    Record(requestId, key, dual, PENDING, None, None, None, now, now + ttlSeconds * MICROSECONDS)
  }

  /** A record whose validity window is over although nothing has ended it yet. */
  predicate Overdue(r: Record, now: Time) {
    r.status in {PENDING, AWAITING_SECOND_APPROVAL, APPROVED} && r.expiresAt < now
  }

  function LapseOn(id: string, r: Record, now: Time): (o: Outcome)
    ensures o.error.None?
    ensures !Overdue(o.record, now)
    ensures o.record.key == r.key && o.record.dual == r.dual
    ensures o.record == r <==> !Overdue(r, now)
  {
    if Overdue(r, now) then Outcome(r.(status := EXPIRED), [Event(id, ExpiredEvent, None, now)], None)
    else Outcome(r, [], None)
  }

  /** Who may put an approving signature on the record as it stands. */
  predicate MaySign(r: Record, approver: string) {
    r.dual ==> approver != r.key.actor && r.approver1 != Some(approver)
  }

  /** The states a decision is accepted in. EXECUTED is one of them: see `UsedRecordDecision`. */
  predicate Undecided(s: Status) {
    s.PENDING? || s.AWAITING_SECOND_APPROVAL? || s.EXECUTED?
  }

  function DecideOn(id: string, r: Record, approver: string, decision: Decision, now: Time): (o: Outcome)
    ensures o.error.None? <==>
            Undecided(r.status) && !Overdue(r, now) && (decision.REJECT? || MaySign(r, approver))
    ensures o.error.Some? ==> o.record == LapseOn(id, r, now).record
    ensures o.record.key == r.key && o.record.dual == r.dual
    ensures o.record.createdAt == r.createdAt && o.record.expiresAt == r.expiresAt
    ensures o.record.status == APPROVED && o.error.None? ==> decision.APPROVE? && !(r.dual && r.approver1.None?)
    ensures o.error == Some(SEPARATION_OF_DUTIES_VIOLATION) ==> r.dual && !MaySign(r, approver)
  {
    var lapsed := LapseOn(id, r, now);
    var r1 := lapsed.record;
    if r1.status == EXPIRED then
      lapsed.(error := Some(APPROVAL_EXPIRED))
    else if r1.status in {APPROVED, REJECTED} then
      lapsed.(error := Some(APPROVAL_ALREADY_DECIDED))
    else if decision.REJECT? then
      Outcome(r1.(status := REJECTED, decidedAt := Some(now)),
              lapsed.events + [Event(id, RejectedEvent, Some(approver), now)], None)
    else if r1.dual then
      if approver == r1.key.actor then
        lapsed.(error := Some(SEPARATION_OF_DUTIES_VIOLATION))
      else if r1.approver1.None? then
        Outcome(r1.(approver1 := Some(approver), status := AWAITING_SECOND_APPROVAL),
                lapsed.events + [Event(id, Approver1Event, Some(approver), now)], None)
      else if r1.approver1 == Some(approver) then
        lapsed.(error := Some(SEPARATION_OF_DUTIES_VIOLATION))
      else
        Outcome(r1.(approver2 := Some(approver), status := APPROVED, decidedAt := Some(now)),
                lapsed.events + [Event(id, Approver2Event, Some(approver), now)], None)
    else
      Outcome(r1.(status := APPROVED, approver1 := Some(approver), decidedAt := Some(now)),
              lapsed.events + [Event(id, ApprovedEvent, Some(approver), now)], None)
  }

  function VerifyOn(id: string, r: Record, expected: ActionKey, now: Time): (o: Outcome)
    ensures o.error.None? <==> r.status == APPROVED && now <= r.expiresAt && r.key == expected
    ensures o.error.None? ==> o.record == r && o.events == []
    ensures o.error == Some(APPROVAL_MISMATCH) ==> r.key != expected
    ensures o.record == LapseOn(id, r, now).record
  {
    var lapsed := LapseOn(id, r, now);
    match lapsed.record.status
    case EXPIRED => lapsed.(error := Some(APPROVAL_EXPIRED))
    case PENDING => lapsed.(error := Some(APPROVAL_REQUIRED))
    case AWAITING_SECOND_APPROVAL => lapsed.(error := Some(APPROVAL_REQUIRED))
    case REJECTED => lapsed.(error := Some(APPROVAL_INVALID))
    case EXECUTED => lapsed.(error := Some(APPROVAL_INVALID))
    case APPROVED => if lapsed.record.key != expected then lapsed.(error := Some(APPROVAL_MISMATCH)) else lapsed
  }

  function MarkOn(id: string, r: Record, now: Time): Outcome {
    Outcome(r.(status := EXECUTED), [Event(id, ExecutedEvent, None, now)], None)
  }

  /** Only an open record lapses, only after its last moment, and all that changes is that it is expired. */
  lemma LapseOutcome(id: string, r: Record, now: Time)
    ensures var o := LapseOn(id, r, now);
            if r.status in {PENDING, AWAITING_SECOND_APPROVAL, APPROVED} && now > r.expiresAt
            then o.record == r.(status := EXPIRED) && o.events == [Event(id, ExpiredEvent, None, now)]
            else o.record == r && o.events == []
  {
  }

  /** When a decision is accepted, what it leaves, and why it is refused. A rejection is final; an approval completes
      a record that needs no signature but this one, and otherwise leaves it waiting for the second. */
  lemma DecisionOutcome(id: string, r: Record, approver: string, decision: Decision, now: Time)
    ensures var o := DecideOn(id, r, approver, decision, now);
            var open := r.status in {PENDING, AWAITING_SECOND_APPROVAL} && now <= r.expiresAt;
            var barred := r.dual && (approver == r.key.actor || r.approver1 == Some(approver));
            && (o.error.None? <==> (open || r.status == EXECUTED) && (decision == REJECT || !barred))
            && (o.error.None? && decision == REJECT ==>
                  o.record == r.(status := REJECTED, decidedAt := Some(now)))
            && (o.error.None? && decision == APPROVE ==>
                  && (o.record.status == APPROVED <==> !r.dual || r.approver1.Some?)
                  && (o.record.status == AWAITING_SECOND_APPROVAL <==> r.dual && r.approver1.None?)
                  && (o.record.decidedAt == if o.record.status == APPROVED then Some(now) else r.decidedAt)
                  && (if r.dual && r.approver1.Some?
                      then o.record.approver2 == Some(approver) && o.record.approver1 == r.approver1
                      else o.record.approver1 == Some(approver) && o.record.approver2 == r.approver2))
            && (o.error.None? ==>
                  o.events == [Event(id, if decision == REJECT then RejectedEvent
                                         else if !r.dual then ApprovedEvent
                                         else if r.approver1.None? then Approver1Event else Approver2Event,
                                     Some(approver), now)])
            && (o.error == Some(APPROVAL_ALREADY_DECIDED) <==>
                  r.status == REJECTED || (r.status == APPROVED && now <= r.expiresAt))
            && (o.error == Some(SEPARATION_OF_DUTIES_VIOLATION) <==>
                  (open || r.status == EXECUTED) && decision == APPROVE && barred)
            && (o.error.Some? ==>
                  o.error.value in {APPROVAL_EXPIRED, APPROVAL_ALREADY_DECIDED, SEPARATION_OF_DUTIES_VIOLATION})
  {
  }

  /** Why a verification is refused. */
  lemma VerificationOutcome(id: string, r: Record, expected: ActionKey, now: Time)
    ensures var o := VerifyOn(id, r, expected, now);
            var late := now > r.expiresAt;
            && (o.error.None? <==> r.status == APPROVED && !late && r.key == expected)
            && (o.error == Some(APPROVAL_MISMATCH) <==> r.status == APPROVED && !late && r.key != expected)
            && (o.error == Some(APPROVAL_EXPIRED) <==>
                  r.status == EXPIRED || (late && r.status in {PENDING, AWAITING_SECOND_APPROVAL, APPROVED}))
            && (o.error == Some(APPROVAL_REQUIRED) <==> r.status in {PENDING, AWAITING_SECOND_APPROVAL} && !late)
            && (o.error == Some(APPROVAL_INVALID) <==> r.status in {REJECTED, EXECUTED})
  {
  }

  /** "Re-approving an already-decided approval is rejected" holds of a decided record exactly when it
      has not been used, or the decision is an approval and a dual record refuses this signature.
      A used single-approval record is approved again. */
  lemma UsedRecordDecision(id: string, r: Record, approver: string, decision: Decision, now: Time)
    requires r.status in {APPROVED, REJECTED, EXPIRED, EXECUTED}
    ensures DecideOn(id, r, approver, decision, now).error.Some? <==>
            r.status != EXECUTED
                || (decision.APPROVE? && r.dual && (approver == r.key.actor || r.approver1 == Some(approver)))
    ensures r.status == EXECUTED && decision.APPROVE? && !r.dual ==>
              DecideOn(id, r, approver, decision, now).record.status == APPROVED
  {
  }

  /** `database_id`: the server, and the database when the target names one. */
  function DatabaseId(server: string, database: string): string {
    if database == "" then server else server + "/" + database
  }

  /** The id of (s1, d1) read as the longer server id s2, which goes on with a slash, and a database of it. */
  predicate ReadsOn(s1: string, d1: string, s2: string, d2: string) {
    && |s1| < |s2| && s2[..|s1|] == s1 && s2[|s1|] == '/'
    && d1 != "" && d1 == DatabaseId(s2[|s1| + 1..], d2)
  }

  /** Two databases share a joined id exactly when they are the same, or when one server's id is the other's followed
      by a slash and more; so ids without a slash are told apart whatever the databases are called. */
  lemma DatabaseIdSharedIff(s1: string, d1: string, s2: string, d2: string)
    ensures DatabaseId(s1, d1) == DatabaseId(s2, d2) <==>
            (s1 == s2 && d1 == d2) || ReadsOn(s1, d1, s2, d2) || ReadsOn(s2, d2, s1, d1)
    ensures '/' !in s1 && '/' !in s2 && DatabaseId(s1, d1) == DatabaseId(s2, d2) ==> s1 == s2 && d1 == d2
  {
    if |s1| <= |s2| {
      SharedWithLonger(s1, d1, s2, d2);
    } else {
      SharedWithLonger(s2, d2, s1, d1);
    }
  }

  lemma SharedWithLonger(s1: string, d1: string, s2: string, d2: string)
    requires |s1| <= |s2|
    ensures DatabaseId(s1, d1) == DatabaseId(s2, d2) <==> (s1 == s2 && d1 == d2) || ReadsOn(s1, d1, s2, d2)
  {
    var j1, j2, n := DatabaseId(s1, d1), DatabaseId(s2, d2), |s1|;
    assert j1[..n] == s1 && j2[..n] == s2[..n];
    if n == |s2| {
      assert d1 != "" ==> j1[n + 1..] == d1;
      assert d2 != "" ==> j2[n + 1..] == d2;
    } else {
      assert j2[n] == s2[n];
      assert j2[n + 1..] == DatabaseId(s2[n + 1..], d2);
      assert d1 != "" ==> j1[n] == '/' && j1[n + 1..] == d1;
      assert j1 == j1[..n] + j1[n..] && j2 == j2[..n] + [s2[n]] + j2[n + 1..];
    }
  }

  class ApprovalEngine {
    const ttlSeconds: int
    var records: map<string, Record>
    var events: seq<Event>

    constructor (ttlSeconds: int)
      ensures this.ttlSeconds == ttlSeconds && records == map[] && events == []
    {
      this.ttlSeconds := ttlSeconds;
      records, events := map[], [];
    }

    /** `id` is what `new_id` returned; identifiers are never reused. */
    method Create(id: string, requestId: string, key: ActionKey, dual: bool, now: Time)
      requires id !in records
      modifies this
      ensures records == old(records)[id := NewRecord(requestId, key, dual, now, ttlSeconds)]
      ensures events == old(events) + [Event(id, CreatedEvent, Some(key.actor), now)]
    {
      var record := Record(requestId, key, dual, PENDING, None, None, None, now, now + ttlSeconds * MICROSECONDS);
      records := records[id := record];
      events := events + [Event(id, CreatedEvent, Some(key.actor), now)];
    }

    method ExpireIfNeeded(id: string, now: Time)
      requires id in records
      modifies this
      ensures var o := LapseOn(id, old(records)[id], now);
              records == old(records)[id := o.record] && events == old(events) + o.events
    {
      var record := records[id];
      if record.status in {PENDING, AWAITING_SECOND_APPROVAL, APPROVED} && record.expiresAt < now {
        records := records[id := record.(status := EXPIRED)];
        events := events + [Event(id, ExpiredEvent, None, now)];
      } else {
        assert records == records[id := record];
      }
    }

    method Decide(id: string, approver: string, decision: Decision, now: Time) returns (res: Result<Record>)
      modifies this
      ensures id !in old(records) ==>
                res == Err(APPROVAL_INVALID) && records == old(records) && events == old(events)
      ensures id in old(records) ==>
                var o := DecideOn(id, old(records)[id], approver, decision, now);
                && records == old(records)[id := o.record]
                && events == old(events) + o.events
                && res == if o.error.Some? then Err(o.error.value) else Ok(o.record)
    {
      if id !in records {
        return Err(APPROVAL_INVALID);
      }
      ExpireIfNeeded(id, now);
      var record := records[id];
      if record.status == EXPIRED {
        return Err(APPROVAL_EXPIRED);
      }
      if record.status == APPROVED || record.status == REJECTED {
        return Err(APPROVAL_ALREADY_DECIDED);
      }
      if decision == REJECT {
        record := record.(status := REJECTED);
        record := record.(decidedAt := Some(now));
        events := events + [Event(id, RejectedEvent, Some(approver), now)];
        records := records[id := record];
        return Ok(record);
      }
      if record.dual {
        if approver == record.key.actor {
          return Err(SEPARATION_OF_DUTIES_VIOLATION);
        }
        if record.approver1 == None {
          record := record.(approver1 := Some(approver));
          record := record.(status := AWAITING_SECOND_APPROVAL);
          events := events + [Event(id, Approver1Event, Some(approver), now)];
          records := records[id := record];
          return Ok(record);
        }
        if record.approver1 == Some(approver) {
          return Err(SEPARATION_OF_DUTIES_VIOLATION);
        }
        record := record.(approver2 := Some(approver));
        record := record.(status := APPROVED);
        record := record.(decidedAt := Some(now));
        events := events + [Event(id, Approver2Event, Some(approver), now)];
        records := records[id := record];
        return Ok(record);
      }
      record := record.(status := APPROVED);
      record := record.(approver1 := Some(approver));
      record := record.(decidedAt := Some(now));
      events := events + [Event(id, ApprovedEvent, Some(approver), now)];
      records := records[id := record];
      return Ok(record);
    }

    method VerifyForExecution(id: string, expected: ActionKey, now: Time) returns (res: Result<Record>)
      modifies this
      ensures id !in old(records) ==>
                res == Err(APPROVAL_INVALID) && records == old(records) && events == old(events)
      ensures id in old(records) ==>
                var o := VerifyOn(id, old(records)[id], expected, now);
                && records == old(records)[id := o.record]
                && events == old(events) + o.events
                && res == if o.error.Some? then Err(o.error.value) else Ok(o.record)
    {
      if id !in records {
        return Err(APPROVAL_INVALID);
      }
      ExpireIfNeeded(id, now);
      var record := records[id];
      if record.status == EXPIRED {
        return Err(APPROVAL_EXPIRED);
      }
      if record.status == PENDING || record.status == AWAITING_SECOND_APPROVAL {
        return Err(APPROVAL_REQUIRED);
      }
      if record.status == REJECTED || record.status == EXECUTED {
        return Err(APPROVAL_INVALID);
      }
      if record.key != expected {
        return Err(APPROVAL_MISMATCH);
      }
      return Ok(record);
    }

    method MarkExecuted(id: string, now: Time) returns (res: Result<()>)
      modifies this
      ensures id !in old(records) ==>
                res == Err(APPROVAL_INVALID) && records == old(records) && events == old(events)
      ensures id in old(records) ==>
                var o := MarkOn(id, old(records)[id], now);
                && o.record == old(records)[id].(status := EXECUTED)
                   && o.events == [Event(id, ExecutedEvent, None, now)]
                && records == old(records)[id := o.record]
                && events == old(events) + o.events
                && res == Ok(())
    {
      if id !in records {
        return Err(APPROVAL_INVALID);
      }
      records := records[id := records[id].(status := EXECUTED)];
      events := events + [Event(id, ExecutedEvent, None, now)];
      return Ok(());
    }
  }
}
