/** Approval cards of one conversation: what the loop relays as a card is what it stored, and what it stored is the
    request it sent. */
module ConversationCards {
  import opened Basics
  import opened Investigation

  /** A card is relayed for the last request sent, under the id the Gateway answered it with, and it is that request,
      as it was sent, that is stored; without a card what is stored stays as it is. */
  predicate CardMatches(w: World, w': World, reply: Reply, env: Env) {
    && w.hist.sent <= w'.hist.sent
    && match reply.card
       case None => w'.conv.pending == w.conv.pending
       case Some(id) =>
         && |w.hist.sent| < |w'.hist.sent|
         && var n := |w'.hist.sent| - 1;
            var request := w'.hist.sent[n];
            && w'.conv.pending == Some(PendingApproval(id, request.toolId, request))
            && env.gateway(n) == ApprovalRequired(id)
  }

  lemma SubmitCards(w: World, a: Action, env: Env)
    requires a.ProposeToolCall?
    ensures var (w', reply) := SubmitAndRelay(w, a, env);
            CardMatches(w, w', if reply.Some? then reply.value else FALLBACK, env)
                && |w'.hist.sent| <= |w.hist.sent| + 1
  {
    hide Text, Logged, CheckStep, ExecutionOf, Stripped;
  }

  lemma TurnCards(w0: World, env: Env)
    ensures var (w', reply) := Turn(w0, env);
            CardMatches(w0, w', if reply.Some? then reply.value else FALLBACK, env)
                && |w'.hist.sent| <= |w0.hist.sent| + 1
  {
    hide SubmitAndRelay, PlaybookAction, Act;
    var (at, step) := PlaybookAction(w0.inv, env);
    var w := w0.(inv := w0.inv.(status := INVESTIGATING, playbookStep := at));
    if step.Some? {
      SubmitCards(w.(inv := w.inv.(turnCount := w.inv.turnCount + 1)), step.value, env);
    } else {
      ActCards(w.(hist := w.hist.(modelCalls := w.hist.modelCalls + 1)), env.model(w.hist.modelCalls), env);
    }
  }

  lemma ActCards(w: World, action: Action, env: Env)
    ensures var (w', reply) := Act(w, action, env);
            CardMatches(w, w', if reply.Some? then reply.value else FALLBACK, env)
                && |w'.hist.sent| <= |w.hist.sent| + 1
  {
    hide SubmitAndRelay, FinalizeConclude;
    if action.ProposeToolCall? {
      SubmitCards(w.(inv := Charged(w.inv)), action, env);
    } else if action.Conclude? {
      ConcludeCards(w.(inv := Charged(w.inv)), action, env, false);
    }
  }

  lemma ConcludeCards(w: World, c: Action, env: Env, finalChance: bool)
    requires c.Conclude?
    ensures var w' := FinalizeConclude(w, c, env, finalChance).0; w'.conv == w.conv && w'.hist.sent == w.hist.sent
  {
    hide Text, Ungrounded, AppendOnce, ConclusionStage;
  }

  lemma LastChanceCards(w: World, env: Env)
    ensures var (w', reply) := LastChance(w, env);
            w'.conv == w.conv && w'.hist.sent == w.hist.sent && reply.card.None?
  {
    hide FinalizeConclude;
    var action := env.model(w.hist.modelCalls);
    if action.Conclude? {
      ConcludeCards(w.(hist := w.hist.(modelCalls := w.hist.modelCalls + 1)), action, env, true);
    }
  }

  lemma CardsGoOn(w: World, w1: World, w2: World, reply: Reply, env: Env)
    requires CardMatches(w, w1, FALLBACK, env) && CardMatches(w1, w2, reply, env)
    ensures CardMatches(w, w2, reply, env)
  {
  }

  lemma {:induction false} RunCards(w: World, env: Env)
    ensures CardMatches(w, Run(w, env).0, Run(w, env).1, env)
    decreases if w.inv.turnCount < MAX_TURNS then MAX_TURNS - w.inv.turnCount else 0
  {
    hide Turn, LastChance, CardMatches;
    if w.inv.turnCount >= MAX_TURNS {
      LastChanceCards(w, env);
      NoCard(w, LastChance(w, env).0, LastChance(w, env).1, env);
    } else {
      TurnCards(w, env);
      var (w1, reply) := Turn(w, env);
      if reply.None? {
        RunCards(w1, env);
        CardsGoOn(w, w1, Run(w1, env).0, Run(w1, env).1, env);
      }
    }
  }

  lemma NoCard(w: World, w': World, reply: Reply, env: Env)
    requires w'.conv == w.conv && w'.hist.sent == w.hist.sent && reply.card.None?
    ensures CardMatches(w, w', reply, env)
  {
  }
}
