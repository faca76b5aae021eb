/** Unattended runs: with `read_only` set, whatever the model proposes and however the Gateway answers,
    nothing but confirmed reads leaves the process and nothing actionable reaches a human. */
module InvestigationReadOnly {
  import opened Basics
  import opened Investigation

  /** `ScheduledSummary.dropped_proposals`: one name for every entry of the guard, in order. */
  function GuardLog(ts: seq<TranscriptEntry>): seq<string> {
    if ts == [] then [] else GuardLog(ts[..|ts| - 1]) + GuardEntry(ts[|ts| - 1])
  }

  function GuardEntry(t: TranscriptEntry): seq<string> {
    if t.toolId != ReadOnlyGuard then [] else [if t.result.Dropped? then Name(t.result.toolId) else ""]
  }

  function DroppedOf(ps: seq<Proposal>): seq<string> {
    if ps == [] then []
    else DroppedOf(ps[..|ps| - 1]) + if ps[|ps| - 1].dropped then [Name(ps[|ps| - 1].toolId)] else []
  }

  function SubmittedIn(ps: seq<Proposal>): nat {
    if ps == [] then 0 else SubmittedIn(ps[..|ps| - 1]) + if ps[|ps| - 1].submitted then 1 else 0
  }

  /** An unattended investigation that has verified nothing, because it has written nothing. */
  predicate Unattended(w: World) {
    && w.inv.readOnly && w.inv.pendingCheck.None? && w.inv.lastCheck.None?
    && (IsConcluded(w.inv.status) ==> w.inv.status == CONCLUDED_NO_ACTION)
    && SubmittedIn(w.hist.proposals) == |w.hist.sent|
  }

  /** The guard's entries tell exactly the dropped proposals. */
  predicate GuardTells(w: World) {
    GuardLog(w.inv.transcript) == DroppedOf(w.hist.proposals)
  }

  /** The catalog lends the guard's own name to no tool. */
  predicate GuardNameFree(env: Env) {
    !ConfirmedRead(ReadOnlyGuard, env.operationTypes)
  }

  /** Proposal i was submitted exactly when the fetched catalog classifies its tool READ, and logged as dropped
      exactly when it was not, or when the Gateway asked for approval of it. */
  predicate Disposed(ps: seq<Proposal>, i: nat, env: Env)
    requires i < |ps|
  {
    && (ps[i].submitted <==> ConfirmedRead(ps[i].toolId, env.operationTypes))
    && (ps[i].dropped <==> !ps[i].submitted || env.gateway(SubmittedIn(ps[..i])).ApprovalRequired?)
  }

  /** From w to w' only disposed proposals were made, only confirmed reads were sent, no approval was taken on. */
  predicate StaysSilent(w: World, w': World, env: Env) {
    && Unattended(w')
    && w'.conv.pending == w.conv.pending
    && w.hist.proposals <= w'.hist.proposals
    && (forall i :: |w.hist.proposals| <= i < |w'.hist.proposals| ==> Disposed(w'.hist.proposals, i, env))
    && w.hist.sent <= w'.hist.sent
    && (forall i :: |w.hist.sent| <= i < |w'.hist.sent| ==> ConfirmedRead(w'.hist.sent[i].toolId, env.operationTypes))
    && (GuardTells(w) && GuardNameFree(env) ==> GuardTells(w'))
  }

  /** Of what bears on the guarantees nothing changed but the transcript, and in it the guard added what it told. */
  predicate Quiet(w: World, w': World, told: seq<string>, env: Env) {
    && w'.inv.readOnly == w.inv.readOnly && w'.inv.status == w.inv.status
    && w'.inv.pendingCheck == w.inv.pendingCheck && w'.inv.lastCheck == w.inv.lastCheck
    && w'.conv.pending == w.conv.pending
    && (GuardNameFree(env) ==> GuardLog(w'.inv.transcript) == GuardLog(w.inv.transcript) + told)
  }

  /** What one proposal adds. */
  predicate Adds(w: World, w': World, p: Proposal, env: Env) {
    && w'.hist.proposals == w.hist.proposals + [p]
    && (if p.submitted then |w'.hist.sent| == |w.hist.sent| + 1 && w.hist.sent <= w'.hist.sent
                            && w'.hist.sent[|w.hist.sent|].toolId == p.toolId
        else w'.hist.sent == w.hist.sent)
    && Quiet(w, w', if p.dropped then [Name(p.toolId)] else [], env)
  }

  lemma GuardLogGrows(ts: seq<TranscriptEntry>, t: TranscriptEntry)
    ensures GuardLog(ts + [t]) == GuardLog(ts) + GuardEntry(t)
  {
    assert (ts + [t])[..|ts|] == ts;
  }

  lemma ProposalsGrow(ps: seq<Proposal>, p: Proposal)
    ensures DroppedOf(ps + [p]) == DroppedOf(ps) + if p.dropped then [Name(p.toolId)] else []
    ensures SubmittedIn(ps + [p]) == SubmittedIn(ps) + if p.submitted then 1 else 0
  {
    assert (ps + [p])[..|ps|] == ps;
  }

  lemma RelayIsQuiet(w: World, request: Request, response: ToolResponse, env: Env)
    requires w.inv.readOnly && w.inv.pendingCheck.None? && w.inv.lastCheck.None?
    requires ConfirmedRead(request.toolId, env.operationTypes)
    ensures var (w', reply) := Relay(w, request, response, env);
            && Quiet(w, w', if response.ApprovalRequired? then [Name(request.toolId)] else [], env)
            && w'.hist.proposals == w.hist.proposals && w'.hist.sent == w.hist.sent
            && (reply.Some? ==> reply.value.card.None? && reply.value.kind != APPROVAL_CARD)
  {
    hide Text, GuardLog, Name;
    var w' := Relay(w, request, response, env).0;
    var n := |w.inv.transcript|;
    assert GuardLog(w.inv.transcript) + [] == GuardLog(w.inv.transcript);
    assert GuardNameFree(env) ==> request.toolId != ReadOnlyGuard;
    if |w'.inv.transcript| > n {
      GuardLogGrows(w.inv.transcript, w'.inv.transcript[n]);
    }
  }

  /** In an unattended run a proposal is submitted iff its tool is a confirmed read, and logged as dropped
      iff it was not submitted or the Gateway asked for approval. In that last case, a READ tool that
      policy puts behind approval, it is both. */
  lemma ProposalDisposed(w: World, a: Action, env: Env)
    requires a.ProposeToolCall? && w.inv.readOnly && w.inv.pendingCheck.None? && w.inv.lastCheck.None?
    ensures var (w', reply) := SubmitAndRelay(w, a, env);
            var read := ConfirmedRead(a.toolId, env.operationTypes);
            && Adds(w, w', Proposal(a.toolId, read, !read || env.gateway(|w.hist.sent|).ApprovalRequired?), env)
            && (reply.Some? ==> reply.value.card.None? && reply.value.kind != APPROVAL_CARD)
  {
    hide Text, GuardLog, Relay, Name, Stripped;
    if Guarded(w, a, env) {
      GuardLogGrows(w.inv.transcript, TranscriptEntry(ReadOnlyGuard, Text(Guarding), Dropped(a.toolId)));
    } else {
      var request, response := RequestOf(w, a, env), env.gateway(|w.hist.sent|);
      RelayIsQuiet(Sending(w, request, response), request, response, env);
    }
  }

  lemma AddingStaysSilent(w: World, w': World, p: Proposal, env: Env)
    requires Unattended(w) && Adds(w, w', p, env)
    requires p.submitted <==> ConfirmedRead(p.toolId, env.operationTypes)
    requires p.dropped <==> !p.submitted || env.gateway(|w.hist.sent|).ApprovalRequired?
    ensures StaysSilent(w, w', env)
  {
    hide Name, ConfirmedRead;
    ProposalsGrow(w.hist.proposals, p);
    var n := |w.hist.proposals|;
    assert w'.hist.proposals[..n] == w.hist.proposals;
    assert Disposed(w'.hist.proposals, n, env);
  }

  lemma SubmitStaysSilent(w: World, a: Action, env: Env)
    requires a.ProposeToolCall? && Unattended(w)
    ensures var (w', reply) := SubmitAndRelay(w, a, env);
            StaysSilent(w, w', env) && (reply.Some? ==> reply.value.card.None?)
  {
    ProposalDisposed(w, a, env);
    var read := ConfirmedRead(a.toolId, env.operationTypes);
    hide SubmitAndRelay;
    AddingStaysSilent(w, SubmitAndRelay(w, a, env).0,
                      Proposal(a.toolId, read, !read || env.gateway(|w.hist.sent|).ApprovalRequired?), env);
  }

  lemma ConcludeStaysSilent(w: World, c: Action, env: Env, finalChance: bool)
    requires c.Conclude? && Unattended(w)
    ensures var (w', reply) := FinalizeConclude(w, c, env, finalChance);
            StaysSilent(w, w', env) && (reply.Some? ==> reply.value.card.None?)
  {
    hide Text, Ungrounded, AppendOnce, GuardLog, DroppedOf, SubmittedIn, Disposed, ConfirmedRead;
    var w' := FinalizeConclude(w, c, env, finalChance).0;
    var n := |w.inv.transcript|;
    if |w'.inv.transcript| > n {
      GuardLogGrows(w.inv.transcript, w'.inv.transcript[n]);
    }
  }

  lemma TurnStaysSilent(w0: World, env: Env)
    requires Unattended(w0)
    ensures var (w', reply) := Turn(w0, env);
            StaysSilent(w0, w', env) && (reply.Some? ==> reply.value.card.None?)
  {
    hide SubmitAndRelay, Act, PlaybookAction, GuardLog, DroppedOf, SubmittedIn, Disposed, ConfirmedRead;
    var (at, step) := PlaybookAction(w0.inv, env);
    var w := w0.(inv := w0.inv.(status := INVESTIGATING, playbookStep := at));
    if step.Some? {
      SubmitStaysSilent(w.(inv := w.inv.(turnCount := w.inv.turnCount + 1)), step.value, env);
    } else {
      ActStaysSilent(w.(hist := w.hist.(modelCalls := w.hist.modelCalls + 1)), env.model(w.hist.modelCalls), env);
    }
  }

  lemma ActStaysSilent(w: World, action: Action, env: Env)
    requires Unattended(w)
    ensures var (w', reply) := Act(w, action, env);
            StaysSilent(w, w', env) && (reply.Some? ==> reply.value.card.None?)
  {
    hide SubmitAndRelay, FinalizeConclude, GuardLog, DroppedOf, SubmittedIn, Disposed, ConfirmedRead;
    match action
    case ProposeToolCall(_, _, _, _) => SubmitStaysSilent(w.(inv := Charged(w.inv)), action, env);
    case Conclude(_, _, _) => ConcludeStaysSilent(w.(inv := Charged(w.inv)), action, env, false);
    case _ =>
  }

  /** Read-only runs. Every proposal of the run was submitted exactly when the catalog confirms its tool as a read,
      and dropped exactly when it was not or the Gateway asked for approval; only confirmed reads were sent; the
      guard log lists the dropped ones in order; no approval is stored, no card is returned, and a conclusion is
      always CONCLUDED_NO_ACTION. */
  lemma {:induction false} RunStaysSilent(w: World, env: Env)
    requires Unattended(w)
    ensures var (w', reply) := Run(w, env);
            StaysSilent(w, w', env) && reply.card.None?
    decreases if w.inv.turnCount < MAX_TURNS then MAX_TURNS - w.inv.turnCount else 0
  {
    if w.inv.turnCount >= MAX_TURNS {
      LastChanceStaysSilent(w, env);
      hide LastChance;
    } else {
      TurnStaysSilent(w, env);
      var (w1, reply) := Turn(w, env);
      hide Turn, Unattended;
      if reply.None? {
        RunStaysSilent(w1, env);
        SilenceGoesOn(w, w1, Run(w1, env).0, env);
      }
    }
  }

  lemma SilenceGoesOn(w: World, w1: World, w2: World, env: Env)
    requires StaysSilent(w, w1, env) && StaysSilent(w1, w2, env)
    ensures StaysSilent(w, w2, env)
  {
    hide Unattended, GuardTells, GuardNameFree, ConfirmedRead;
    forall i | |w.hist.proposals| <= i < |w2.hist.proposals| ensures Disposed(w2.hist.proposals, i, env) {
      if i < |w1.hist.proposals| {
        assert Disposed(w1.hist.proposals, i, env);
        assert w2.hist.proposals[..i] == w1.hist.proposals[..i] && w2.hist.proposals[i] == w1.hist.proposals[i];
      }
    }
  }

  /** Were the guard's own name a tool the catalog classifies READ, a proposal of it that runs would be listed as a
      dropped proposal without a name. */
  lemma GuardNameTaken(w: World, a: Action, env: Env)
    requires a.ProposeToolCall? && a.toolId == ReadOnlyGuard && Unattended(w) && GuardTells(w) && !GuardNameFree(env)
    requires env.gateway(|w.hist.sent|).Executed?
    ensures var w' := SubmitAndRelay(w, a, env).0;
            && DroppedOf(w'.hist.proposals) == DroppedOf(w.hist.proposals)
            && GuardLog(w'.inv.transcript) == GuardLog(w.inv.transcript) + [""]
  {
    hide Text, CheckStep, GuardLog, DroppedOf, Remembered, Stripped;
    var w', n := SubmitAndRelay(w, a, env).0, |w.inv.transcript|;
    ProposalsGrow(w.hist.proposals, Proposal(a.toolId, true, false));
    GuardLogGrows(w.inv.transcript, w'.inv.transcript[n]);
  }

  lemma LastChanceStaysSilent(w: World, env: Env)
    requires Unattended(w)
    ensures var (w', reply) := LastChance(w, env);
            StaysSilent(w, w', env) && reply.card.None?
  {
    hide FinalizeConclude, GuardLog, DroppedOf, SubmittedIn, Disposed, ConfirmedRead;
    var action := env.model(w.hist.modelCalls);
    if action.Conclude? {
      ConcludeStaysSilent(w.(hist := w.hist.(modelCalls := w.hist.modelCalls + 1)), action, env, true);
    }
  }
}
