/** Rejected conclusions never ground themselves: a model that insists is rejected every time. */
module InvestigationGrounding {
  import opened Basics
  import opened Investigation

  lemma NoteIsFiltered(names: seq<string>)
    ensures DRAFT_NAMING <= Text(DraftNaming(names))
  {
  }

  lemma LookupIgnoresRejection(inv: Inquiry, names: seq<string>, why: Phrase)
    ensures Lookup(Rejected(inv, GroundingCheck, why, RejectedNames(names), DraftNaming(names))) == Lookup(inv)
  {
    hide Text;
    var inv' := Rejected(inv, GroundingCheck, why, RejectedNames(names), DraftNaming(names));
    assert inv'.transcript[..|inv.transcript|] == inv.transcript;
    NoteIsFiltered(names);
    if inv'.evidence != inv.evidence {
      assert inv'.evidence[..|inv.evidence|] == inv.evidence;
    }
  }

  /** A name is reported once, in the order first mentioned, and exactly if it is claimed and not found. */
  lemma {:induction false} UnseenExactly(names: seq<string>, seen: set<string>, hay: Haystack, env: Env)
    ensures forall n :: n in Unseen(names, seen, hay, env) <==> n in names && n !in seen && !env.occurs(n, hay)
    ensures forall i, j :: 0 <= i < j < |Unseen(names, seen, hay, env)| ==>
            Unseen(names, seen, hay, env)[i] != Unseen(names, seen, hay, env)[j]
    decreases |names|
  {
    if names != [] {
      UnseenExactly(names[1..], seen, hay, env);
      UnseenExactly(names[1..], seen + {names[0]}, hay, env);
      assert names == [names[0]] + names[1..];
    }
  }

  /** A conclusion passes the grounding check iff every identifier it claims is found. */
  lemma GroundedIff(c: Action, inv: Inquiry, env: Env)
    requires c.Conclude?
    ensures Ungrounded(c, inv, env) == [] <==> forall n :: n in env.names(Claimed(c)) ==> env.occurs(n, Lookup(inv))
  {
    var u := Ungrounded(c, inv, env);
    UnseenExactly(env.names(Claimed(c)), {}, Lookup(inv), env);
    if u != [] {
      assert u[0] in u;
    }
  }

  /** The model's next k answers are c. What it answered before and will answer after is left open. */
  ghost predicate Insists(w: World, env: Env, c: Action, k: nat) {
    c.Conclude? && forall i :: w.hist.modelCalls <= i < w.hist.modelCalls + k ==> env.model(i) == c
  }

  predicate GroundingEntry(t: TranscriptEntry, names: seq<string>) {
    t.toolId == GroundingCheck && t.result == RejectedNames(names)
  }

  /** From inv to inv', k rejections of the same names: k transcript entries, at most one line of evidence. */
  predicate RejectedTimes(inv: Inquiry, inv': Inquiry, names: seq<string>, k: nat) {
    && |inv'.transcript| == |inv.transcript| + k
    && inv'.transcript[..|inv.transcript|] == inv.transcript
    && (forall i :: |inv.transcript| <= i < |inv'.transcript| ==> GroundingEntry(inv'.transcript[i], names))
    && (if k == 0 then inv'.evidence == inv.evidence
        else inv'.evidence == AppendOnce(inv.evidence, Text(DraftNaming(names))))
    && Lookup(inv') == Lookup(inv)
    && inv'.findings == inv.findings && inv'.recommendations == inv.recommendations && inv'.actions == inv.actions
    && inv'.pendingCheck == inv.pendingCheck && inv'.lastCheck == inv.lastCheck
  }

  lemma RejectedOn(a: Inquiry, b: Inquiry, c: Inquiry, names: seq<string>, j: nat, k: nat)
    requires RejectedTimes(a, b, names, j) && RejectedTimes(b, c, names, k)
    ensures RejectedTimes(a, c, names, j + k)
  {
    hide Text, Lookup;
    assert c.transcript[..|a.transcript|] == c.transcript[..|b.transcript|][..|a.transcript|];
    forall i | |a.transcript| <= i < |b.transcript| ensures GroundingEntry(c.transcript[i], names) {
      assert c.transcript[i] == c.transcript[..|b.transcript|][i];
    }
  }

  lemma UngroundedConclusionRejected(w: World, c: Action, env: Env, finalChance: bool)
    requires c.Conclude? && Ungrounded(c, w.inv, env) != []
    ensures var (w', reply) := FinalizeConclude(w, c, env, finalChance);
            && reply.None?
            && RejectedTimes(w.inv, w'.inv, Ungrounded(c, w.inv, env), 1)
            && w'.hist == w.hist && w'.conv == w.conv
  {
    hide Text, AppendOnce, Lookup, Ungrounded;
    LookupIgnoresRejection(w.inv, Ungrounded(c, w.inv, env), Grounding);
  }

  predicate PlaybookDone(inv: Inquiry) {
    inv.playbook.None? || inv.playbookStep >= |inv.playbook.value|
  }

  /** The loop is at a point where it asks the model. */
  predicate Asking(inv: Inquiry) {
    PlaybookDone(inv) && inv.observations < MAX_OBSERVATIONS
  }

  lemma ConcludingTurn(w: World, env: Env)
    requires Asking(w.inv) && env.model(w.hist.modelCalls).Conclude?
    ensures var asked := w.(inv := Charged(w.inv.(status := INVESTIGATING)),
                            hist := w.hist.(modelCalls := w.hist.modelCalls + 1));
            Turn(w, env) == FinalizeConclude(asked, env.model(w.hist.modelCalls), env, false)
  {
    hide FinalizeConclude, SubmitAndRelay;
    assert PlaybookAction(w.inv, env) == (w.inv.playbookStep, None);
  }

  /** What identifiers are looked up in does not depend on the loop's own counts. */
  lemma CountsAreNotLookedUp(c: Action, inv: Inquiry, env: Env)
    requires c.Conclude?
    ensures Lookup(Charged(inv.(status := INVESTIGATING))) == Lookup(inv)
    ensures Ungrounded(c, Charged(inv.(status := INVESTIGATING)), env) == Ungrounded(c, inv, env)
  {
    hide RealTranscript, RealEvidence, Unseen;
  }

  lemma InsistentTurn(w: World, c: Action, env: Env)
    requires Insists(w, env, c, 1) && Asking(w.inv) && Ungrounded(c, w.inv, env) != []
    ensures var (w', reply) := Turn(w, env);
            && reply.None? && w'.inv.turnCount == w.inv.turnCount + 1 && w'.hist.modelCalls == w.hist.modelCalls + 1
            && Asking(w'.inv) && Ungrounded(c, w'.inv, env) == Ungrounded(c, w.inv, env)
            && RejectedTimes(w.inv, w'.inv, Ungrounded(c, w.inv, env), 1)
            && w'.hist.sent == w.hist.sent && w'.conv == w.conv
  {
    hide Text, Turn, FinalizeConclude, AppendOnce, Lookup, Ungrounded;
    var asked := w.(inv := Charged(w.inv.(status := INVESTIGATING)),
                    hist := w.hist.(modelCalls := w.hist.modelCalls + 1));
    ConcludingTurn(w, env);
    CountsAreNotLookedUp(c, w.inv, env);
    UngroundedConclusionRejected(asked, c, env, false);
    SameLookup(c, asked.inv, Turn(w, env).0.inv, env);
  }

  lemma SameLookup(c: Action, a: Inquiry, b: Inquiry, env: Env)
    requires c.Conclude? && Lookup(a) == Lookup(b)
    ensures Ungrounded(c, a, env) == Ungrounded(c, b, env)
  {
  }

  /** The world after the next k turns. */
  function AfterTurns(w: World, env: Env, k: nat): World
    decreases k
  {
    if k == 0 then w else AfterTurns(Turn(w, env).0, env, k - 1)
  }

  /** Grounding rejections never ground themselves. From any point of any run, k consecutive identical ungrounded
      conclusions are each rejected for the same names: the run goes on, what identifiers are looked up in is
      unchanged, and there are k more transcript entries and at most one more line of evidence. */
  lemma {:induction false} InsistenceNeverGrounds(w: World, c: Action, env: Env, k: nat)
    requires Insists(w, env, c, k) && Asking(w.inv) && Ungrounded(c, w.inv, env) != []
    requires w.inv.turnCount + k <= MAX_TURNS
    ensures var w' := AfterTurns(w, env, k);
            && Run(w, env) == Run(w', env)
            && RejectedTimes(w.inv, w'.inv, Ungrounded(c, w.inv, env), k)
            && Ungrounded(c, w'.inv, env) == Ungrounded(c, w.inv, env)
            && Asking(w'.inv) && w'.inv.turnCount == w.inv.turnCount + k && w'.hist.modelCalls == w.hist.modelCalls + k
            && w'.hist.sent == w.hist.sent && w'.conv == w.conv
    decreases k
  {
    hide Turn, LastChance, Ungrounded, Lookup, AppendOnce, Text;
    if k > 0 {
      InsistentTurn(w, c, env);
      var w1 := Turn(w, env).0;
      InsistenceNeverGrounds(w1, c, env, k - 1);
      var w' := AfterTurns(w, env, k);
      RejectedOn(w.inv, w1.inv, w'.inv, Ungrounded(c, w.inv, env), 1, k - 1);
    }
  }

  /** A model that insists through the turn budget and the last chance is rejected to the end: the call of the
      loop ends in the plain fallback, with nothing reported and nothing submitted. */
  lemma InsistenceIsNeverReported(w: World, c: Action, env: Env)
    requires w.inv.turnCount <= MAX_TURNS && Insists(w, env, c, MAX_TURNS - w.inv.turnCount + 1)
    requires Asking(w.inv) && Ungrounded(c, w.inv, env) != []
    ensures var (w', reply) := Run(w, env);
            && reply == FALLBACK
            && RejectedTimes(w.inv, w'.inv, Ungrounded(c, w.inv, env), MAX_TURNS - w.inv.turnCount + 1)
            && w'.inv.status == ConclusionStage(w.inv)
            && w'.hist.sent == w.hist.sent && w'.conv == w.conv
  {
    hide Run, Turn, LastChance, Ungrounded, AfterTurns, Asking, RejectedTimes;
    var k, names := MAX_TURNS - w.inv.turnCount, Ungrounded(c, w.inv, env);
    InsistenceNeverGrounds(w, c, env, k);
    var last := AfterTurns(w, env, k);
    InsistentLastChance(last, c, env);
    EndOfRun(last, env);
    RejectedOn(w.inv, last.inv, Run(w, env).0.inv, names, k, 1);
    SameStage(w.inv, last.inv, names, k);
  }

  lemma SameStage(a: Inquiry, b: Inquiry, names: seq<string>, k: nat)
    requires RejectedTimes(a, b, names, k)
    ensures ConclusionStage(a) == ConclusionStage(b)
  {
    hide Text, Lookup, AppendOnce;
  }

  lemma EndOfRun(w: World, env: Env)
    requires w.inv.turnCount == MAX_TURNS
    ensures Run(w, env) == LastChance(w, env)
  {
  }

  lemma InsistentLastChance(w: World, c: Action, env: Env)
    requires Insists(w, env, c, 1) && Ungrounded(c, w.inv, env) != []
    ensures var (w', reply) := LastChance(w, env);
            && reply == FALLBACK && w'.inv.status == ConclusionStage(w.inv)
            && RejectedTimes(w.inv, w'.inv, Ungrounded(c, w.inv, env), 1)
            && w'.hist.sent == w.hist.sent && w'.conv == w.conv
  {
    hide Ungrounded, FinalizeConclude, AppendOnce, Text, Lookup;
    var asked := w.(hist := w.hist.(modelCalls := w.hist.modelCalls + 1));
    SameLookup(c, w.inv, asked.inv, env);
    UngroundedConclusionRejected(asked, c, env, true);
    StageIsNotLookedUp(FinalizeConclude(asked, c, env, true).0.inv);
  }

  lemma StageIsNotLookedUp(inv: Inquiry)
    ensures Lookup(inv.(status := ConclusionStage(inv))) == Lookup(inv)
  {
  }
}
