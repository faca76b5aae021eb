/** What holds in every run of the Gateway, however verification, execution and consumption of one
    call are interleaved with other calls and with decisions. */
module GatewaySafety {
  import opened Basics
  import opened Approval
  import opened Policy
  import opened Gateway

  // ---------------------------------------------------------------- the history

  predicate IsGrant(e: Entry, id: string) {
    e.Signed? && e.id == id && e.to == APPROVED
  }

  predicate IsRevocation(e: Entry, id: string) {
    (e.Rejected? || e.Consumed?) && e.id == id
  }

  /** At length n of the log, the approval created at j stands granted since k. */
  predicate Standing(log: seq<Entry>, id: string, key: ActionKey, j: nat, k: nat, n: nat) {
    && j < k < n <= |log|
    && log[j].Created? && log[j].id == id && log[j].key == key
    && IsGrant(log[k], id)
    && forall m :: k < m < n ==> !IsRevocation(log[m], id)
  }

  /** The verification at v found an approval created for exactly this action, granted since, neither
      rejected nor consumed in between, and no older than its time to live. */
  predicate Backed(log: seq<Entry>, v: nat, j: nat, k: nat)
    requires v < |log| && log[v].Verified?
  {
    && Standing(log, log[v].id, log[v].key, j, k, v)
    && log[j].at <= log[k].at <= log[v].at <= log[j].at + TTL
  }

  /** Two accepted approvals by different people, neither of them the actor. */
  predicate TwoSignatures(log: seq<Entry>, id: string, actor: string, k1: nat, k2: nat) {
    && k1 < k2 < |log|
    && log[k1].Signed? && log[k1].id == id && log[k1].approver != actor
    && log[k2].Signed? && log[k2].id == id && log[k2].approver != actor
    && log[k1].approver != log[k2].approver
  }

  predicate CreatedAt(log: seq<Entry>, id: string, r: Record, j: nat) {
    && j < |log|
    && log[j] == Created(id, r.key, r.dual, r.createdAt)
  }

  predicate SignedAt(log: seq<Entry>, id: string, approver: string, k: nat) {
    k < |log| && log[k].Signed? && log[k].id == id && log[k].approver == approver
  }

  /** The verification at v is for this call and nothing was executed on it since. */
  predicate Unspent(log: seq<Entry>, h: nat, id: string, key: ActionKey, v: nat, n: nat) {
    && v < n <= |log|
    && log[v].Verified? && log[v].h == h && log[v].id == id && log[v].key == key
    && forall m :: v < m < n ==> !(log[m].Executed? && log[m].h == h)
  }

  // ---------------------------------------------------------------- the invariant

  ghost predicate Timely(s: State) {
    && (forall i, j :: 0 <= i <= j < |s.log| ==> s.log[i].at <= s.log[j].at)
    && (forall i :: 0 <= i < |s.log| ==> s.log[i].at <= s.clock)
  }

  /** Separation of duties on one record. */
  predicate Separated(r: Record) {
    r.dual ==>
      && (r.approver1.Some? ==> r.approver1.value != r.key.actor)
      && (r.approver2.Some? ==> r.approver1.Some? && r.approver2.value !in {r.key.actor, r.approver1.value})
      && (r.status in {APPROVED, EXECUTED} ==> r.approver2.Some?)
  }

  /** The history explains the record: its creation, the grant it stands on, its signatures. */
  ghost predicate RecordLogged(log: seq<Entry>, id: string, r: Record) {
    && r.expiresAt == r.createdAt + TTL
    && (exists j: nat :: CreatedAt(log, id, r, j))
    && (r.status == APPROVED ==>
        exists j: nat, k: nat :: Standing(log, id, r.key, j, k, |log|) && CreatedAt(log, id, r, j))
    && (r.dual && r.approver1.Some? ==> exists k: nat :: SignedAt(log, id, r.approver1.value, k))
    && (r.dual && r.approver2.Some? ==> exists k1: nat, k2: nat :: TwoSignatures(log, id, r.key.actor, k1, k2))
  }

  /** A call in flight behind an approval holds a verification nothing was executed on. */
  ghost predicate CallLogged(records: map<string, Record>, log: seq<Entry>, h: nat, f: InFlight) {
    match f.gate
    case None => !f.succeeded
    case Some(id) =>
      && id in records
      && records[id].key == f.key
      && (records[id].dual ==> records[id].approver2.Some?)
      && (!f.succeeded ==> exists v: nat :: Unspent(log, h, id, f.key, v, |log|))
  }

  ghost predicate EntryExplained(log: seq<Entry>, i: nat)
    requires i < |log|
  {
    match log[i]
    case Verified(_, _, _, _) => exists j: nat, k: nat :: Backed(log, i, j, k)
    case Executed(h, key, Some(id), _, _) =>
      && (exists v: nat :: Unspent(log, h, id, key, v, i))
      && forall j: nat :: j < |log| && log[j].Created? && log[j].id == id && log[j].dual ==>
           exists k1: nat, k2: nat :: k2 < i && TwoSignatures(log, id, log[j].key.actor, k1, k2)
    case _ => true
  }

  ghost predicate Explained(log: seq<Entry>) {
    forall i: nat :: i < |log| ==> EntryExplained(log, i)
  }

  /** A creation entry is the record's own: identifiers are not reused. */
  ghost predicate CreationsKept(s: State) {
    forall j: nat :: j < |s.log| && s.log[j].Created? ==>
      s.log[j].id in s.records && CreatedAt(s.log, s.log[j].id, s.records[s.log[j].id], j)
  }

  /** Only approvals on record are executed behind. */
  ghost predicate GatesKnown(s: State) {
    forall i: nat :: i < |s.log| && s.log[i].Executed? && s.log[i].gate.Some? ==> s.log[i].gate.value in s.records
  }

  ghost predicate Inv(s: State) {
    && Timely(s)
    && "" !in s.records
    && (forall id :: id in s.records ==> Separated(s.records[id]))
    && (forall id :: id in s.records ==> RecordLogged(s.log, id, s.records[id]))
    && (forall h :: h in s.inflight ==> CallLogged(s.records, s.log, h, s.inflight[h]))
    && Explained(s.log)
    && CreationsKept(s)
    && GatesKnown(s)
  }

  // ---------------------------------------------------------------- one step keeps it

  lemma HistoryGrows(log: seq<Entry>, e: Entry)
    ensures forall v: nat, j: nat, k: nat :: v < |log| && log[v].Verified? && Backed(log, v, j, k) ==>
            Backed(log + [e], v, j, k)
    ensures forall id, actor, k1: nat, k2: nat :: TwoSignatures(log, id, actor, k1, k2) ==>
            TwoSignatures(log + [e], id, actor, k1, k2)
    ensures forall h, id, key, v: nat, n: nat :: n <= |log| && Unspent(log, h, id, key, v, n) ==>
            Unspent(log + [e], h, id, key, v, n)
  {
  }

  /** Entries already explained stay explained. A new creation is of an approval nothing ran behind. */
  lemma ExplainedGrows(log: seq<Entry>, e: Entry)
    requires Explained(log)
    requires e.Created? ==> forall i: nat :: i < |log| && log[i].Executed? ==> log[i].gate != Some(e.id)
    ensures forall i: nat :: i < |log| ==> EntryExplained(log + [e], i)
  {
    HistoryGrows(log, e);
    forall i: nat | i < |log| ensures EntryExplained(log + [e], i) {
      assert EntryExplained(log, i);
    }
  }

  /** An entry that does not revoke the approval leaves its record explained. */
  lemma RecordLoggedGrows(log: seq<Entry>, e: Entry, id: string, r: Record)
    requires RecordLogged(log, id, r) && (r.status != APPROVED || !IsRevocation(e, id))
    ensures RecordLogged(log + [e], id, r)
  {
    var log' := log + [e];
    assert forall j: nat :: CreatedAt(log, id, r, j) ==> CreatedAt(log', id, r, j);
    assert forall j: nat, k: nat :: r.status == APPROVED && Standing(log, id, r.key, j, k, |log|) ==>
           Standing(log', id, r.key, j, k, |log'|);
    assert forall a, k: nat :: SignedAt(log, id, a, k) ==> SignedAt(log', id, a, k);
    HistoryGrows(log, e);
  }

  /** What identifies a record never changes, and signatures are never taken back. */
  predicate Continues(r: Record, r': Record) {
    && r'.key == r.key && r'.dual == r.dual && r'.createdAt == r.createdAt && r'.expiresAt == r.expiresAt
    && (r.approver2.Some? ==> r'.approver2.Some?)
  }

  predicate RecordsContinue(records: map<string, Record>, records': map<string, Record>) {
    forall id :: id in records ==> id in records' && Continues(records[id], records'[id])
  }

  lemma CallLoggedGrows(records: map<string, Record>, records': map<string, Record>, log: seq<Entry>, e: Entry,
                        h: nat, f: InFlight)
    requires CallLogged(records, log, h, f) && RecordsContinue(records, records') && !(e.Executed? && e.h == h)
    ensures CallLogged(records', log + [e], h, f)
  {
    if f.gate.Some? {
      assert forall v: nat :: Unspent(log, h, f.gate.value, f.key, v, |log|) ==>
             Unspent(log + [e], h, f.gate.value, f.key, v, |log| + 1);
    }
  }

  /** A step that appends e, after which the records named by `touched` and the calls named by `h` have
      been explained anew, keeps the invariant. */
  lemma Assemble(s: State, s': State, e: Entry, touched: string, h: Option<nat>)
    requires Inv(s) && s'.log == s.log + [e] && s.clock <= e.at == s'.clock && "" !in s'.records
    requires RecordsContinue(s.records, s'.records)
    requires forall id :: id in s'.records && id != touched ==>
             id in s.records && s'.records[id] == s.records[id] && !IsRevocation(e, id)
    requires touched in s'.records ==>
             Separated(s'.records[touched]) && RecordLogged(s'.log, touched, s'.records[touched])
    requires forall h' :: h' in s'.inflight && h != Some(h') ==>
             h' in s.inflight && s'.inflight[h'] == s.inflight[h'] && !(e.Executed? && e.h == h')
    requires h.Some? && h.value in s'.inflight ==> CallLogged(s'.records, s'.log, h.value, s'.inflight[h.value])
    requires e.Created? ==>
             e.id !in s.records && e.id in s'.records && CreatedAt(s'.log, e.id, s'.records[e.id], |s.log|)
    requires e.Executed? && e.gate.Some? ==> e.gate.value in s'.records
    requires EntryExplained(s'.log, |s.log|)
    ensures Inv(s')
  {
    hide RecordLogged, CallLogged, EntryExplained, Separated;
    ExplainedGrows(s.log, e);
    forall id | id in s'.records && id != touched ensures RecordLogged(s'.log, id, s'.records[id]) {
      RecordLoggedGrows(s.log, e, id, s.records[id]);
    }
    forall h' | h' in s'.inflight && h != Some(h') ensures CallLogged(s'.records, s'.log, h', s'.inflight[h']) {
      CallLoggedGrows(s.records, s'.records, s.log, e, h', s.inflight[h']);
    }
  }

  lemma PlainEntry(log: seq<Entry>, i: nat)
    requires i < |log| && !log[i].Verified? && !(log[i].Executed? && log[i].gate.Some?)
    ensures EntryExplained(log, i)
  {
  }

  lemma SubmitKeepsInv(s: State, t: Step)
    requires Inv(s) && Enabled(s, t) && t.Submit?
    ensures Inv(Next(s, t))
  {
    hide RecordLogged, CallLogged, EntryExplained, Separated;
    var s' := Next(s, t);
    if s'.log == s.log {
      PassKeepsInv(s, t);
    } else if s'.log[|s.log|].Created? {
      CreateKeepsInv(s, t);
    } else if s'.log[|s.log|].Verified? {
      VerifyKeepsInv(s, t);
    } else {
      RefuseKeepsInv(s, t);
    }
  }

  lemma PassKeepsInv(s: State, t: Step)
    requires Inv(s) && Enabled(s, t) && t.Submit? && Next(s, t).log == s.log
    ensures Inv(Next(s, t))
  {
    hide RecordLogged, EntryExplained, Separated;
  }

  lemma CreateKeepsInv(s: State, t: Step)
    requires Inv(s) && Enabled(s, t) && t.Submit? && Next(s, t).log != s.log && Next(s, t).log[|s.log|].Created?
    ensures Inv(Next(s, t))
  {
    hide RecordLogged, CallLogged;
    var s' := Next(s, t);
    var r := s'.records[t.newId];
    assert CreatedAt(s'.log, t.newId, r, |s.log|);
    assert RecordLogged(s'.log, t.newId, r) by { FreshLogged(s'.log, t.newId, r, |s.log|); }
    Assemble(s, s', s'.log[|s.log|], t.newId, Some(t.h));
  }

  lemma FreshLogged(log: seq<Entry>, id: string, r: Record, j: nat)
    requires CreatedAt(log, id, r, j) && r.expiresAt == r.createdAt + TTL
    requires r.status == PENDING && r.approver1.None? && r.approver2.None?
    ensures RecordLogged(log, id, r)
  {
  }

  /** A refused submission at most lets the record it names lapse. */
  lemma RefusalChanges(s: State, t: Step)
    requires Enabled(s, t) && t.Submit? && Next(s, t).log != s.log && Next(s, t).log[|s.log|].Refused?
    ensures var s', id := Next(s, t), t.approvalId;
            && s'.log == s.log + [s'.log[|s.log|]] && s'.log[|s.log|].at == s'.clock == t.now
               && s'.inflight == s.inflight
            && s'.records.Keys == s.records.Keys && RecordsContinue(s.records, s'.records)
            && (forall x :: x in s.records && x != id ==> s'.records[x] == s.records[x])
            && (id in s.records && s'.records[id] != s.records[id] ==>
                  var r, r' := s.records[id], s'.records[id];
                  r' == r.(status := r'.status, decidedAt := r'.decidedAt) && r'.status != APPROVED
                      && (Separated(r) ==> Separated(r')))
  {
    hide ExecuteNext, FinishNext, DecideNext;
  }

  lemma RefuseKeepsInv(s: State, t: Step)
    requires Inv(s) && Enabled(s, t) && t.Submit? && Next(s, t).log != s.log && Next(s, t).log[|s.log|].Refused?
    ensures Inv(Next(s, t))
  {
    hide RecordLogged, CallLogged, EntryExplained, Separated, SubmitNext, ExecuteNext, FinishNext, DecideNext, Next;
    RefusalChanges(s, t);
    var s', id := Next(s, t), t.approvalId;
    var e := s'.log[|s.log|];
    PlainEntry(s'.log, |s.log|);
    if id in s.records {
      if s'.records[id] == s.records[id] {
        RecordLoggedGrows(s.log, e, id, s.records[id]);
      } else {
        RecordEnds(s.log, e, id, s.records[id], s'.records[id]);
      }
    }
    Assemble(s, s', e, id, None);
  }

  /** A record that stops being granted needs no grant in the history. */
  lemma RecordEnds(log: seq<Entry>, e: Entry, id: string, r: Record, r': Record)
    requires RecordLogged(log, id, r) && r' == r.(status := r'.status, decidedAt := r'.decidedAt)
             && r'.status != APPROVED
    ensures RecordLogged(log + [e], id, r')
  {
    assert forall j: nat :: CreatedAt(log, id, r, j) ==> CreatedAt(log, id, r', j);
    RecordLoggedGrows(log, e, id, r');
  }

  lemma VerifyKeepsInv(s: State, t: Step)
    requires Inv(s) && Enabled(s, t) && t.Submit? && Next(s, t).log != s.log && Next(s, t).log[|s.log|].Verified?
    ensures Inv(Next(s, t))
  {
    hide RecordLogged, CallLogged, EntryExplained;
    var s', id := Next(s, t), t.approvalId;
    VerificationExplained(s.log, t.h, id, s.records[id], t.now);
    CallEnters(s'.records, s'.log, t.h, s'.inflight[t.h], |s.log|);
    Assemble(s, s', s'.log[|s.log|], id, Some(t.h));
  }

  lemma CallEnters(records: map<string, Record>, log: seq<Entry>, h: nat, f: InFlight, v: nat)
    requires f.gate.Some? && f.gate.value in records && Separated(records[f.gate.value])
    requires records[f.gate.value].status == APPROVED && records[f.gate.value].key == f.key
    requires Unspent(log, h, f.gate.value, f.key, v, |log|)
    ensures CallLogged(records, log, h, f)
  {
  }

  /** Verifying a granted record within its time to live, as the next entry of the log. */
  lemma VerificationExplained(log: seq<Entry>, h: nat, id: string, r: Record, now: Time)
    requires RecordLogged(log, id, r) && r.status == APPROVED && now <= r.expiresAt
    requires forall i, j :: 0 <= i <= j < |log| ==> log[i].at <= log[j].at
    requires forall i :: 0 <= i < |log| ==> log[i].at <= now
    ensures var log' := log + [Verified(h, id, r.key, now)];
            && EntryExplained(log', |log|)
            && RecordLogged(log', id, r)
            && Unspent(log', h, id, r.key, |log|, |log'|)
  {
    var log' := log + [Verified(h, id, r.key, now)];
    var j: nat, k: nat :| Standing(log, id, r.key, j, k, |log|) && CreatedAt(log, id, r, j);
    assert Backed(log', |log|, j, k);
    RecordLoggedGrows(log, Verified(h, id, r.key, now), id, r);
  }

  lemma ExecuteKeepsInv(s: State, t: Step)
    requires Inv(s) && Enabled(s, t) && t.Execute?
    ensures Inv(Next(s, t))
  {
    hide RecordLogged, EntryExplained, Separated;
    var s', f := Next(s, t), s.inflight[t.h];
    assert CallLogged(s.records, s.log, t.h, f);
    if f.gate.Some? {
      ExecutionExplained(s.log, s'.log[|s.log|], s.records[f.gate.value]);
      assert CreationsKept(s);
    } else {
      PlainEntry(s'.log, |s.log|);
    }
    hide CallLogged;
    Assemble(s, s', s'.log[|s.log|], "", Some(t.h));
  }

  /** Executing behind an approval on a verification nothing was executed on, as the next entry of the log. */
  lemma ExecutionExplained(log: seq<Entry>, e: Entry, r: Record)
    requires e.Executed? && e.gate.Some? && r.key == e.key
    requires RecordLogged(log, e.gate.value, r) && Separated(r) && (r.dual ==> r.approver2.Some?)
    requires exists v: nat :: Unspent(log, e.h, e.gate.value, e.key, v, |log|)
    requires forall j: nat :: j < |log| && log[j].Created? && log[j].id == e.gate.value ==>
             CreatedAt(log, log[j].id, r, j)
    ensures EntryExplained(log + [e], |log|)
  {
    HistoryGrows(log, e);
    var v: nat :| Unspent(log, e.h, e.gate.value, e.key, v, |log|);
    assert Unspent(log + [e], e.h, e.gate.value, e.key, v, |log|);
  }

  lemma FinishKeepsInv(s: State, t: Step)
    requires Inv(s) && Enabled(s, t) && t.Finish?
    ensures Inv(Next(s, t))
  {
    hide RecordLogged;
    var s', f := Next(s, t), s.inflight[t.h];
    assert CallLogged(s.records, s.log, t.h, f);
    var e, id := s'.log[|s.log|], f.gate.value;
    var r' := s'.records[id];
    assert r' == s.records[id].(status := EXECUTED);
    RecordEnds(s.log, e, id, s.records[id], r');
    hide CallLogged, EntryExplained;
    PlainEntry(s'.log, |s.log|);
    Assemble(s, s', e, id, Some(t.h));
  }

  lemma DecideKeepsInv(s: State, t: Step)
    requires Inv(s) && Enabled(s, t) && t.Decide?
    ensures Inv(Next(s, t))
  {
    hide RecordLogged, CallLogged, EntryExplained;
    var s', id := Next(s, t), t.id;
    if s'.log != s.log {
      var e, r := s'.log[|s.log|], s.records[id];
      PlainEntry(s'.log, |s.log|);
      if e.Rejected? {
        RecordEnds(s.log, e, id, r, s'.records[id]);
      } else {
        SignatureLogged(s.log, e, r, s'.records[id]);
      }
      Assemble(s, s', e, id, None);
    }
  }

  /** An accepted approval, as the next entry of the log. */
  lemma SignatureLogged(log: seq<Entry>, e: Entry, r: Record, r': Record)
    requires e.Signed? && RecordLogged(log, e.id, r) && Separated(r)
    requires var o := DecideOn(e.id, r, e.approver, APPROVE, e.at); o.error.None? && o.record == r' && e.to == r'.status
    ensures RecordLogged(log + [e], e.id, r')
  {
    var log' := log + [e];
    assert SignedAt(log', e.id, e.approver, |log|);
    assert forall a, k: nat :: SignedAt(log, e.id, a, k) ==> SignedAt(log', e.id, a, k);
    HistoryGrows(log, e);
    var j: nat :| CreatedAt(log, e.id, r, j);
    assert CreatedAt(log', e.id, r', j);
    if r'.status == APPROVED {
      assert Standing(log', e.id, r'.key, j, |log|, |log'|);
      if r.dual {
        var k: nat :| SignedAt(log, e.id, r.approver1.value, k);
        assert TwoSignatures(log', e.id, r.key.actor, k, |log|);
      }
    }
  }

  lemma NextKeepsInv(s: State, t: Step)
    requires Inv(s) && Enabled(s, t)
    ensures Inv(Next(s, t))
  {
    match t
    case Submit(_, _, _, _, _) => SubmitKeepsInv(s, t);
    case Execute(_, _, _) => ExecuteKeepsInv(s, t);
    case Finish(_, _) => FinishKeepsInv(s, t);
    case Decide(_, _, _, _) => DecideKeepsInv(s, t);
  }

  // ---------------------------------------------------------------- every run

  lemma InitiallyInv(s: State)
    requires Initial(s)
    ensures Inv(s)
  {
  }

  lemma {:induction false} RunKeepsInv(s: State, steps: seq<Step>)
    requires Inv(s) && Runs(s, steps)
    ensures Inv(After(s, steps))
    decreases |steps|
  {
    if steps != [] {
      NextKeepsInv(s, steps[0]);
      RunKeepsInv(Next(s, steps[0]), steps[1..]);
    }
  }

  /** Binding. In every run, whatever policy put behind approval `id` was executed on a verification of
      its own, made against an approval created earlier by the same actor for the identical action,
      granted before the verification and neither rejected nor consumed in between, at a moment no later
      than creation plus time to live. */
  lemma GatedExecutionIsBound(s0: State, steps: seq<Step>, i: nat)
    requires Initial(s0) && Runs(s0, steps)
    requires i < |After(s0, steps).log| && After(s0, steps).log[i].Executed? && After(s0, steps).log[i].gate.Some?
    ensures var log := After(s0, steps).log;
            exists v: nat, j: nat, k: nat ::
              && Unspent(log, log[i].h, log[i].gate.value, log[i].key, v, i)
              && Backed(log, v, j, k)
  {
    hide RecordLogged, CallLogged;
    InitiallyInv(s0);
    RunKeepsInv(s0, steps);
    var log := After(s0, steps).log;
    assert EntryExplained(log, i);
    var v: nat :| Unspent(log, log[i].h, log[i].gate.value, log[i].key, v, i);
    assert EntryExplained(log, v);
    var j: nat, k: nat :| Backed(log, v, j, k);
  }

  /** Dual approval, as recorded: in every reachable state a dual record that is approved or used names
      two approvers, different from each other and from the requester. */
  lemma DualRecordsSeparated(s0: State, steps: seq<Step>, id: string)
    requires Initial(s0) && Runs(s0, steps) && id in After(s0, steps).records
    requires After(s0, steps).records[id].dual && After(s0, steps).records[id].status in {APPROVED, EXECUTED}
    ensures var r := After(s0, steps).records[id];
            && r.approver1.Some? && r.approver2.Some?
            && r.approver1 != r.approver2
            && r.key.actor !in {r.approver1.value, r.approver2.value}
  {
    hide RecordLogged, CallLogged, EntryExplained;
    InitiallyInv(s0);
    RunKeepsInv(s0, steps);
  }

  /** Dual approval, as it happened: two accepted approvals by different people, neither the requester,
      precede every execution behind a dual approval. */
  lemma DualExecutionsSigned(s0: State, steps: seq<Step>, i: nat, j: nat)
    requires Initial(s0) && Runs(s0, steps)
    requires var log := After(s0, steps).log;
             i < |log| && j < |log| && log[j].Created? && log[j].dual && log[i].Executed?
                 && log[i].gate == Some(log[j].id)
    ensures var log := After(s0, steps).log;
            exists k1: nat, k2: nat :: k1 < k2 < i && TwoSignatures(log, log[j].id, log[j].key.actor, k1, k2)
  {
    hide RecordLogged, CallLogged;
    InitiallyInv(s0);
    RunKeepsInv(s0, steps);
    assert EntryExplained(After(s0, steps).log, i);
  }
}
