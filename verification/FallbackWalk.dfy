/** The cross-provider walk of src/numi/agent/llm/fallback.py: a chain of providers tried in order inside
    one shared deadline. Durations are seconds. */
module FallbackWalk {
  import opened Basics

  const MIN_PER_ATTEMPT := 5.0

  /** `Broken` is an exception the walk does not catch. */
  datatype CallOutcome = Answer | Unavailable | Broken

  /** How one provider behaves when its turn comes: how long its factory takes and whether it succeeds,
      how long the call would take left alone, and how it would end. */
  datatype Provider = Provider(name: string, buildTime: real, builds: bool, duration: real, outcome: CallOutcome)

  datatype FallbackEvent = FallbackEvent(failedProviders: seq<string>, usedProvider: string)

  datatype WalkResult =
    | AnsweredBy(at: nat)
    | Escaped(at: nat)
    | ProviderUnavailable(named: string)

  /** `offers` maps a provider's place in the chain to the time it was offered. */
  datatype Walked = Walked(result: WalkResult, elapsed: real, failed: seq<string>, offers: map<nat, real>)

  function Min(a: real, b: real): real {
    if a <= b then a else b
  }

  function Max(a: real, b: real): real {
    if a <= b then b else a
  }

  function PerAttemptBudget(total: real, attempts: nat): real {
    if attempts <= 1 then total else Min(total, Max(MIN_PER_ATTEMPT, total / attempts as real))
  }

  /** The primary is already built; the others take their time. */
  predicate IsChain(chain: seq<Provider>) {
    && |chain| >= 1 && chain[0].builds && chain[0].buildTime == 0.0
    && forall p :: p in chain ==> p.buildTime >= 0.0 && p.duration >= 0.0
  }

  function Names(chain: seq<Provider>): seq<string> {
    seq(|chain|, i requires 0 <= i < |chain| => chain[i].name)
  }

  /** The walk from place i on, `failed` lost so far. The runner cuts a call off at the time it was given. */
  function WalkFrom(chain: seq<Provider>, i: nat, elapsed: real, failed: seq<string>, offers: map<nat, real>,
                    total: real, budget: real): (w: Walked)
    requires 0 < |chain| && i <= |chain|
    ensures w.result.AnsweredBy? ==> i <= w.result.at < |chain|
    decreases |chain| - i
  {
    if i == |chain| || total - elapsed <= 0.0 then Walked(ProviderUnavailable(chain[0].name), elapsed, failed, offers)
    else
      var p := chain[i];
      if !p.builds then WalkFrom(chain, i + 1, elapsed + p.buildTime, failed + [p.name], offers, total, budget)
      else
        var offer := Min(budget, total - elapsed);
        var after, offers' := elapsed + p.buildTime + Min(p.duration, offer), offers[i := offer];
        if p.duration <= offer && p.outcome.Answer? then Walked(AnsweredBy(i), after, failed, offers')
        else if p.duration <= offer && p.outcome.Broken? then Walked(Escaped(i), after, failed, offers')
        else WalkFrom(chain, i + 1, after, failed + [p.name], offers', total, budget)
  }

  function Walk(chain: seq<Provider>, total: real): Walked
    requires 0 < |chain|
  {
    WalkFrom(chain, 0, 0.0, [], map[], total, PerAttemptBudget(total, |chain|))
  }

  /** The event a walk records: exactly when a later provider answers, naming that one as used and as
      failed exactly the ones before it. */
  function EventOf(chain: seq<Provider>, w: Walked): Option<FallbackEvent> {
    if w.result.AnsweredBy? && w.result.at < |chain| && w.failed != []
    then Some(FallbackEvent(w.failed, chain[w.result.at].name)) else None
  }

  class CrossProviderFallback {
    const primary: Provider
    const fallbacks: seq<Provider>
    const total: real
    var notices: Option<seq<FallbackEvent>>

    constructor (primary: Provider, fallbacks: seq<Provider>, total: real, notices: Option<seq<FallbackEvent>>)
      ensures this.primary == primary && this.fallbacks == fallbacks && this.total == total && this.notices == notices
    {
      this.primary, this.fallbacks, this.total, this.notices := primary, fallbacks, total, notices;
    }

    /** The clock reads `elapsed` since the walk started. */
    method Run() returns (result: WalkResult, elapsed: real)
      modifies this
      ensures var w := Walk([primary] + fallbacks, total);
              && result == w.result && elapsed == w.elapsed
              && notices == match EventOf([primary] + fallbacks, w)
                            case Some(event) => if old(notices).Some? then Some(old(notices).value + [event]) else None
                            case None => old(notices)
    {
      var chain := [primary] + fallbacks;
      var budget := PerAttemptBudget(total, |chain|);
      var failed: seq<string> := [];
      ghost var offers: map<nat, real> := map[];
      elapsed := 0.0;
      var i := 0;
      while i < |chain|
        invariant 0 <= i <= |chain| && notices == old(notices)
        invariant WalkFrom(chain, i, elapsed, failed, offers, total, budget) == Walk(chain, total)
      {
        var p := chain[i];
        var remaining := total - elapsed;
        if remaining <= 0.0 {
          break;
        }
        elapsed := elapsed + p.buildTime;
        if !p.builds {
          failed := failed + [p.name];
          i := i + 1;
          continue;
        }
        var bound := Min(budget, remaining);
        offers := offers[i := bound];
        elapsed := elapsed + Min(p.duration, bound);
        if p.duration <= bound && p.outcome.Broken? {
          return Escaped(i), elapsed;
        }
        if p.duration > bound || p.outcome.Unavailable? {
          failed := failed + [p.name];
          i := i + 1;
          continue;
        }
        if failed != [] && notices.Some? {
          notices := Some(notices.value + [FallbackEvent(failed, p.name)]);
        }
        return AnsweredBy(i), elapsed;
      }
      return ProviderUnavailable(primary.name), elapsed;
    }
  }

  // ---------------------------------------------------------------- the deadline

  lemma {:induction false} StaysInDeadline(chain: seq<Provider>, i: nat, elapsed: real, failed: seq<string>,
                                           offers: map<nat, real>, total: real, budget: real, slack: real)
    requires IsChain(chain) && i <= |chain|
    requires forall p :: p in chain ==> p.buildTime <= slack
    requires 0.0 <= elapsed <= total + slack && budget >= 0.0
    ensures WalkFrom(chain, i, elapsed, failed, offers, total, budget).elapsed <= total + slack
    decreases |chain| - i
  {
    if i < |chain| && total - elapsed > 0.0 {
      var p := chain[i];
      assert p in chain;
      var offer := Min(budget, total - elapsed);
      if !p.builds {
        StaysInDeadline(chain, i + 1, elapsed + p.buildTime, failed + [p.name], offers, total, budget, slack);
      } else if p.duration > offer || p.outcome.Unavailable? {
        StaysInDeadline(chain, i + 1, elapsed + p.buildTime + Min(p.duration, offer), failed + [p.name],
                        offers[i := offer], total, budget, slack);
      }
    }
  }

  /** No walk outlasts the deadline by more than the slowest factory; with factories that take no time it
      never outlasts it, however the providers behave. */
  lemma DeadlineHolds(chain: seq<Provider>, total: real, slack: real)
    requires IsChain(chain) && total >= 0.0 && slack >= 0.0
    requires forall p :: p in chain ==> p.buildTime <= slack
    ensures Walk(chain, total).elapsed <= total + slack
  {
    assert total / |chain| as real >= 0.0;
    StaysInDeadline(chain, 0, 0.0, [], map[], total, PerAttemptBudget(total, |chain|), slack);
  }

  // ---------------------------------------------------------------- who failed

  lemma {:induction false} FailedAreThoseBefore(chain: seq<Provider>, i: nat, elapsed: real, failed: seq<string>,
                                                offers: map<nat, real>, total: real, budget: real)
    requires 0 < |chain| && i <= |chain| && failed == Names(chain[..i])
    ensures var w := WalkFrom(chain, i, elapsed, failed, offers, total, budget);
            && (w.result.AnsweredBy? ==> w.result.at < |chain| && w.failed == Names(chain[..w.result.at]))
            && (w.result.Escaped? ==> w.result.at < |chain| && w.failed == Names(chain[..w.result.at]))
            && (w.result.ProviderUnavailable? ==>
                  w.result.named == chain[0].name && |w.failed| <= |chain| && w.failed == Names(chain[..|w.failed|])
                  && (|w.failed| < |chain| ==> total <= w.elapsed))
    decreases |chain| - i
  {
    if i < |chain| && total - elapsed > 0.0 {
      var p := chain[i];
      assert Names(chain[..i + 1]) == failed + [p.name];
      if !p.builds {
        FailedAreThoseBefore(chain, i + 1, elapsed + p.buildTime, failed + [p.name], offers, total, budget);
      } else {
        var offer := Min(budget, total - elapsed);
        FailedAreThoseBefore(chain, i + 1, elapsed + p.buildTime + Min(p.duration, offer), failed + [p.name],
                             offers[i := offer], total, budget);
      }
    }
  }

  /** Disclosure is exact. An event is recorded iff a provider other than the primary answered, with every
      earlier provider listed as failed, in order; a walk that reaches no one blames the primary, records
      nothing, and has tried everyone or used up the deadline. */
  lemma DisclosureIsExact(chain: seq<Provider>, total: real)
    requires IsChain(chain)
    ensures var w := Walk(chain, total);
            && (EventOf(chain, w).Some? <==> w.result.AnsweredBy? && w.result.at > 0)
            && (w.result.AnsweredBy? && w.result.at > 0 ==>
                  w.result.at < |chain|
                      && EventOf(chain, w) == Some(FallbackEvent(Names(chain[..w.result.at]), chain[w.result.at].name)))
            && (w.result.ProviderUnavailable? ==>
                  w.result.named == chain[0].name && (w.failed == Names(chain) || total <= w.elapsed))
  {
    assert Names(chain[..0]) == [];
    FailedAreThoseBefore(chain, 0, 0.0, [], map[], total, PerAttemptBudget(total, |chain|));
    assert chain[..|chain|] == chain;
  }

  // ---------------------------------------------------------------- who answers

  /** How long it takes to lose the first i providers. */
  function Clock(chain: seq<Provider>, total: real, i: nat): real
    requires i <= |chain|
    decreases i, 0
  {
    if i == 0 then 0.0 else Clock(chain, total, i - 1) + Spent(chain, total, i - 1)
  }

  /** What provider i is offered when its turn comes: its share, or what is left if that is less. */
  function OfferAt(chain: seq<Provider>, total: real, i: nat): real
    requires i < |chain|
    decreases i, 1
  {
    Min(PerAttemptBudget(total, |chain|), total - Clock(chain, total, i))
  }

  function Spent(chain: seq<Provider>, total: real, i: nat): real
    requires i < |chain|
    decreases i, 2
  {
    chain[i].buildTime + if chain[i].builds then Min(chain[i].duration, OfferAt(chain, total, i)) else 0.0
  }

  /** Provider i is lost: it cannot be built, is cut off, or says it is unavailable. */
  predicate Lost(chain: seq<Provider>, total: real, i: nat)
    requires i < |chain|
  {
    !chain[i].builds || chain[i].duration > OfferAt(chain, total, i) || chain[i].outcome == Unavailable
  }

  /** Everyone before provider i is lost, and there was time left at every turn up to its own. */
  predicate Reached(chain: seq<Provider>, total: real, i: nat) {
    && i < |chain|
    && (forall j :: 0 <= j <= i ==> Clock(chain, total, j) < total)
    && forall j :: 0 <= j < i ==> Lost(chain, total, j)
  }

  /** Provider i is called and ends so within its offer. */
  predicate EndsAt(chain: seq<Provider>, total: real, i: nat, outcome: CallOutcome) {
    && Reached(chain, total, i) && chain[i].builds
    && chain[i].duration <= OfferAt(chain, total, i) && chain[i].outcome == outcome
  }

  predicate EndsAs(chain: seq<Provider>, total: real, w: Walked)
    requires 0 < |chain|
  {
    match w.result
    case AnsweredBy(a) =>
      && EndsAt(chain, total, a, Answer) && w.failed == Names(chain[..a])
      && w.elapsed == Clock(chain, total, a) + Spent(chain, total, a)
    case Escaped(a) =>
      && EndsAt(chain, total, a, Broken) && w.failed == Names(chain[..a])
      && w.elapsed == Clock(chain, total, a) + Spent(chain, total, a)
    case ProviderUnavailable(named) =>
      var k := |w.failed|;
      && named == chain[0].name && k <= |chain| && w.failed == Names(chain[..k])
      && (forall j :: 0 <= j < k ==> Lost(chain, total, j))
      && (k < |chain| ==> Clock(chain, total, k) >= total)
      && w.elapsed == Clock(chain, total, k)
  }

  lemma NamesSnoc(chain: seq<Provider>, i: nat)
    requires i < |chain|
    ensures Names(chain[..i + 1]) == Names(chain[..i]) + [chain[i].name]
  {
  }

  /** The walk at a provider whose turn has come. */
  lemma WalkStep(chain: seq<Provider>, i: nat, elapsed: real, offers: map<nat, real>, total: real)
    requires i < |chain| && elapsed == Clock(chain, total, i) && elapsed < total
    ensures var budget, failed := PerAttemptBudget(total, |chain|), Names(chain[..i]);
            var w, next := WalkFrom(chain, i, elapsed, failed, offers, total, budget), Clock(chain, total, i + 1);
            if Lost(chain, total, i) then
              var offers' := if chain[i].builds then offers[i := OfferAt(chain, total, i)] else offers;
              w == WalkFrom(chain, i + 1, next, Names(chain[..i + 1]), offers', total, budget)
            else
              && w.result == (if chain[i].outcome.Answer? then AnsweredBy(i) else Escaped(i))
              && w.failed == failed && w.elapsed == next
  {
    hide PerAttemptBudget, Names;
    NamesSnoc(chain, i);
  }

  lemma {:induction false} WalkFromEnds(chain: seq<Provider>, i: nat, elapsed: real, offers: map<nat, real>,
                                        total: real)
    requires IsChain(chain) && i <= |chain| && elapsed == Clock(chain, total, i)
    requires forall j :: 0 <= j < i ==> Lost(chain, total, j) && Clock(chain, total, j) < total
    ensures EndsAs(chain, total,
                   WalkFrom(chain, i, elapsed, Names(chain[..i]), offers, total, PerAttemptBudget(total, |chain|)))
    decreases |chain| - i
  {
    hide PerAttemptBudget, Names, OfferAt;
    if i < |chain| && elapsed < total {
      WalkStep(chain, i, elapsed, offers, total);
      hide WalkFrom;
      if Lost(chain, total, i) {
        var offers' := if chain[i].builds then offers[i := OfferAt(chain, total, i)] else offers;
        WalkFromEnds(chain, i + 1, Clock(chain, total, i + 1), offers', total);
      }
    } else {
      NamesLength(chain, i);
    }
  }

  lemma NamesLength(chain: seq<Provider>, i: nat)
    requires i <= |chain|
    ensures |Names(chain[..i])| == i
  {
  }

  /** Who answers a walk. Provider i does exactly when everyone before it is lost, time is left, and it is built and
      answers within its offer; an error nobody catches escapes from it on the same terms. The names listed as failed
      are those before it, all lost; and a walk nobody answers has lost everyone or run out of time. */
  lemma WalkEndsIff(chain: seq<Provider>, total: real)
    requires IsChain(chain)
    ensures var w := Walk(chain, total);
            && (forall i: nat :: w.result == AnsweredBy(i) <==> EndsAt(chain, total, i, Answer))
            && (forall i: nat :: w.result == Escaped(i) <==> EndsAt(chain, total, i, Broken))
            && |w.failed| <= |chain| && w.failed == Names(chain[..|w.failed|])
            && (!w.result.ProviderUnavailable? ==> |w.failed| < |chain|)
            && (forall j :: 0 <= j < |w.failed| ==> Lost(chain, total, j))
            && (w.result.ProviderUnavailable? ==> |w.failed| == |chain| || Clock(chain, total, |w.failed|) >= total)
            && w.elapsed == (Clock(chain, total, |w.failed|)
                             + if w.result.ProviderUnavailable? then 0.0 else Spent(chain, total, |w.failed|))
  {
    assert Names(chain[..0]) == [];
    WalkFromEnds(chain, 0, 0.0, map[], total);
    var w := Walk(chain, total);
    assert EndsAs(chain, total, w);
    hide *;
    forall i: nat
      ensures w.result == AnsweredBy(i) <==> EndsAt(chain, total, i, Answer)
      ensures w.result == Escaped(i) <==> EndsAt(chain, total, i, Broken)
    {
      EndsOnce(chain, total, w, i);
    }
    FailedAreLost(chain, total, w);
  }

  lemma FailedAreLost(chain: seq<Provider>, total: real, w: Walked)
    requires 0 < |chain| && EndsAs(chain, total, w)
    ensures |w.failed| <= |chain| && w.failed == Names(chain[..|w.failed|])
    ensures forall j :: 0 <= j < |w.failed| ==> Lost(chain, total, j)
    ensures w.result.ProviderUnavailable? ==> |w.failed| == |chain| || Clock(chain, total, |w.failed|) >= total
    ensures !w.result.ProviderUnavailable? ==> |w.failed| < |chain|
    ensures w.elapsed == (Clock(chain, total, |w.failed|)
                          + if w.result.ProviderUnavailable? then 0.0 else Spent(chain, total, |w.failed|))
  {
    hide Clock, OfferAt, Names;
    if !w.result.ProviderUnavailable? {
      NamesLength(chain, w.result.at);
    }
  }

  lemma EndsOnce(chain: seq<Provider>, total: real, w: Walked, i: nat)
    requires 0 < |chain| && EndsAs(chain, total, w)
    ensures w.result == AnsweredBy(i) <==> EndsAt(chain, total, i, Answer)
    ensures w.result == Escaped(i) <==> EndsAt(chain, total, i, Broken)
  {
    hide Clock, OfferAt, Names, Lost, EndsAt;
    forall x | x != Unavailable && EndsAt(chain, total, i, x)
      ensures w.result == if x == Answer then AnsweredBy(i) else Escaped(i)
    {
      match w.result
      case AnsweredBy(a) => OneEnd(chain, total, i, x, a, Answer);
      case Escaped(a) => OneEnd(chain, total, i, x, a, Broken);
      case ProviderUnavailable(_) => NoEnd(chain, total, i, x, |w.failed|);
    }
  }

  lemma NotLost(chain: seq<Provider>, total: real, i: nat, x: CallOutcome)
    requires x != Unavailable && EndsAt(chain, total, i, x)
    ensures !Lost(chain, total, i)
  {
    hide Clock, OfferAt;
  }

  /** Whoever answers or breaks off is the first to do so, and the rest are not reached. */
  lemma OneEnd(chain: seq<Provider>, total: real, i: nat, x: CallOutcome, a: nat, y: CallOutcome)
    requires x != Unavailable && y != Unavailable && EndsAt(chain, total, i, x) && EndsAt(chain, total, a, y)
    ensures i == a && x == y
  {
    hide Clock, OfferAt, Lost;
    NotLost(chain, total, i, x);
    NotLost(chain, total, a, y);
  }

  lemma NoEnd(chain: seq<Provider>, total: real, i: nat, x: CallOutcome, k: nat)
    requires x != Unavailable && k <= |chain| && (forall j :: 0 <= j < k ==> Lost(chain, total, j))
    requires k < |chain| ==> Clock(chain, total, k) >= total
    ensures !EndsAt(chain, total, i, x)
  {
    hide Clock, OfferAt, Lost;
    if EndsAt(chain, total, i, x) {
      NotLost(chain, total, i, x);
      assert false;
    }
  }

  // ---------------------------------------------------------------- fair shares

  predicate InstantFactories(chain: seq<Provider>) {
    forall p :: p in chain ==> p.buildTime == 0.0
  }

  /** n shares. */
  function Shares(share: real, n: nat): real {
    share * n as real
  }

  lemma OneMoreShare(share: real, n: nat)
    ensures Shares(share, n + 1) == Shares(share, n) + share
  {
  }

  lemma MoreShares(share: real, m: nat, n: nat)
    requires m <= n && share > 0.0
    ensures Shares(share, m) <= Shares(share, n)
  {
  }

  lemma {:induction false} SharesFrom(chain: seq<Provider>, i: nat, elapsed: real, failed: seq<string>,
                                      offers: map<nat, real>, total: real, share: real)
    requires IsChain(chain) && InstantFactories(chain) && i <= |chain|
    requires share > 0.0 && Shares(share, |chain|) == total && 0.0 <= elapsed <= Shares(share, i)
    requires failed == Names(chain[..i]) && forall k :: k in offers ==> offers[k] == share
    ensures var w := WalkFrom(chain, i, elapsed, failed, offers, total, share);
            && (forall k :: k in w.offers ==> w.offers[k] == share)
            && (w.result.ProviderUnavailable? ==> w.failed == Names(chain))
    decreases |chain| - i
  {
    hide Shares;
    if i == |chain| {
      assert chain[..i] == chain;
    } else {
      OneMoreShare(share, i);
      MoreShares(share, i + 1, |chain|);
      var p := chain[i];
      assert p in chain && p.buildTime == 0.0;
      assert Names(chain[..i + 1]) == failed + [p.name];
      if !p.builds {
        SharesFrom(chain, i + 1, elapsed, failed + [p.name], offers, total, share);
      } else {
        SharesFrom(chain, i + 1, elapsed + Min(p.duration, share), failed + [p.name], offers[i := share], total, share);
      }
    }
  }

  /** Whoever is reached is offered a full total / n, and a walk that reaches no one has tried everyone. */
  predicate SharesFairly(chain: seq<Provider>, total: real)
    requires 0 < |chain|
  {
    var w := Walk(chain, total);
    && (forall k :: k in w.offers ==> w.offers[k] == total / |chain| as real)
    && (w.result.ProviderUnavailable? ==> w.failed == Names(chain))
  }

  lemma FullShares(chain: seq<Provider>, total: real)
    requires IsChain(chain) && InstantFactories(chain) && total > 0.0
    requires |chain| == 1 || total / |chain| as real >= 5.0
    ensures SharesFairly(chain, total)
  {
    var n := |chain| as real;
    var share := total / n;
    assert share * n == total;
    assert share <= total by { MoreShares(share, 1, |chain|); }
    assert PerAttemptBudget(total, |chain|) == share;
    assert share * 0.0 == 0.0;
    assert Names(chain[..0]) == [];
    SharesFrom(chain, 0, 0.0, [], map[], total, share);
  }

  /** n providers none of which ever answers. */
  function Silent(n: nat, total: real): seq<Provider> {
    seq(n, i => Provider("", 0.0, true, total + 1.0, Answer))
  }

  /** Less than a full share of total / n. */
  predicate Short(offer: real, total: real, n: nat) {
    offer * n as real < total
  }

  lemma {:induction false} SilentFrom(n: nat, i: nat, elapsed: real, failed: seq<string>, offers: map<nat, real>,
                                      total: real, budget: real)
    requires 2 <= n && i <= n && 0.0 < total < MIN_PER_ATTEMPT * n as real && budget == Min(total, MIN_PER_ATTEMPT)
    requires elapsed == Min(total, MIN_PER_ATTEMPT * i as real) && |failed| == i
    requires i == n ==> n - 1 in offers && Short(offers[n - 1], total, n)
    ensures var w := WalkFrom(Silent(n, total), i, elapsed, failed, offers, total, budget);
            |w.failed| < n || (n - 1 in w.offers && Short(w.offers[n - 1], total, n))
    decreases n - i
  {
    hide Short;
    if i < n && total - elapsed > 0.0 {
      var offer := Min(budget, total - elapsed);
      NextOffer(total, i, elapsed, budget, offer);
      if i + 1 == n {
        LastOfferIsShort(total, n);
      }
      SilentFrom(n, i + 1, elapsed + offer, failed + [""], offers[i := offer], total, budget);
    }
  }

  lemma NextOffer(total: real, i: nat, elapsed: real, budget: real, offer: real)
    requires 0.0 < total && budget == Min(total, MIN_PER_ATTEMPT) && elapsed == Min(total, MIN_PER_ATTEMPT * i as real)
    requires total - elapsed > 0.0 && offer == Min(budget, total - elapsed)
    ensures elapsed + offer == Min(total, MIN_PER_ATTEMPT * (i + 1) as real)
    ensures total < MIN_PER_ATTEMPT * (i + 1) as real ==> offer == total - MIN_PER_ATTEMPT * i as real
  {
    assert MIN_PER_ATTEMPT * (i + 1) as real == MIN_PER_ATTEMPT * i as real + MIN_PER_ATTEMPT;
  }

  lemma LastOfferIsShort(total: real, n: nat)
    requires n >= 2 && total < MIN_PER_ATTEMPT * n as real
    ensures Short(total - MIN_PER_ATTEMPT * (n - 1) as real, total, n)
  {
    var m := n as real;
    assert (total - MIN_PER_ATTEMPT * (m - 1.0)) * m - total == (m - 1.0) * (total - MIN_PER_ATTEMPT * m);
  }

  /** The promise of a full share to each of n providers holds of every chain iff the shares reach the
      floor (or there is one provider): below it, a chain of silent providers starves its last one. */
  lemma FullSharesIff(n: nat, total: real)
    requires n >= 1 && total > 0.0
    ensures (forall chain: seq<Provider> {:trigger SharesFairly(chain, total)} ::
               |chain| == n && IsChain(chain) && InstantFactories(chain) ==> SharesFairly(chain, total))
            <==> n == 1 || total / n as real >= 5.0
  {
    if n == 1 || total / n as real >= MIN_PER_ATTEMPT {
      forall chain: seq<Provider> | |chain| == n && IsChain(chain) && InstantFactories(chain)
          ensures SharesFairly(chain, total) {
        FullShares(chain, total);
      }
    } else {
      SilentStarvesLast(n, total);
    }
  }

  lemma SilentStarvesLast(n: nat, total: real)
    requires n >= 2 && total > 0.0 && total / n as real < MIN_PER_ATTEMPT
    ensures IsChain(Silent(n, total)) && InstantFactories(Silent(n, total)) && !SharesFairly(Silent(n, total), total)
  {
    var chain := Silent(n, total);
    var budget := PerAttemptBudget(total, n);
    assert total / n as real * n as real == total;
    assert total < MIN_PER_ATTEMPT * n as real;
    assert budget == Min(total, MIN_PER_ATTEMPT);
    SilentFrom(n, 0, 0.0, [], map[], total, budget);
    var w := Walk(chain, total);
    if n - 1 in w.offers && Short(w.offers[n - 1], total, n) {
      assert w.offers[n - 1] != total / n as real;
    } else {
      FailedAreThoseBefore(chain, 0, 0.0, [], map[], total, budget);
      SilentIsUnanswered(n, 0, 0.0, [], map[], total, budget);
      assert |w.failed| < |Names(chain)|;
    }
  }

  lemma {:induction false} SilentIsUnanswered(n: nat, i: nat, elapsed: real, failed: seq<string>,
                                              offers: map<nat, real>, total: real, budget: real)
    requires 0 < n && i <= n && 0.0 <= elapsed && 0.0 <= budget
    ensures WalkFrom(Silent(n, total), i, elapsed, failed, offers, total, budget).result.ProviderUnavailable?
    decreases n - i
  {
    if i < n && total - elapsed > 0.0 {
      var offer := Min(budget, total - elapsed);
      SilentIsUnanswered(n, i + 1, elapsed + offer, failed + [""], offers[i := offer], total, budget);
    }
  }
}
