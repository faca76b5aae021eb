/** Model switching inside the Gemini provider (src/numi/agent/llm/gemini_provider.py): on an availability
    error the model is put on a cooldown and the same request is retried on another one. Times are
    seconds of one monotonic clock. */
module GeminiFallback {
  import opened Basics

  type Model = string

  const REQUEST_TIMEOUT := 8.0
  const MAX_SWITCHES: nat := 2
  const DEFAULT_COOLDOWN := 60.0
  const MAX_COOLDOWN := 120.0

  /** One attempt: how long the call would take, and how it would end. The delay is the one the error text names. */
  datatype Attempt = Attempt(duration: real, outcome: Outcome)
  datatype Outcome = Answer | ModelUnavailable(retryDelay: Option<real>) | OtherError

  /** What an attempt comes to under the per-request timeout. A timeout names no delay. */
  function Ends(a: Attempt): (real, Outcome) {
    if a.duration <= REQUEST_TIMEOUT then (a.duration, a.outcome) else (REQUEST_TIMEOUT, ModelUnavailable(None))
  }

  /** How long an availability error keeps its model out: the delay it names, capped, or the default. */
  function Cooldown(error: Outcome): real {
    if error.ModelUnavailable? && error.retryDelay.Some?
    then (if error.retryDelay.value <= MAX_COOLDOWN then error.retryDelay.value else MAX_COOLDOWN)
    else DEFAULT_COOLDOWN
  }

  predicate Eligible(until: map<Model, real>, m: Model, now: real) {
    (if m in until then until[m] else 0.0) <= now
  }

  /** The first model of the chain that is neither the current one nor on cooldown. */
  predicate IsNext(chain: seq<Model>, current: Model, until: map<Model, real>, now: real, i: nat) {
    && i < |chain| && chain[i] != current && Eligible(until, chain[i], now)
    && forall j :: 0 <= j < i ==> chain[j] == current || !Eligible(until, chain[j], now)
  }

  ghost predicate SwitchesTo(chain: seq<Model>, current: Model, until: map<Model, real>, now: real, m: Model) {
    exists i: nat :: IsNext(chain, current, until, now, i) && chain[i] == m
  }

  ghost predicate NoneLeft(chain: seq<Model>, current: Model, until: map<Model, real>, now: real) {
    forall m :: m in chain && m != current ==> !Eligible(until, m, now)
  }

  datatype Ending = Returned | RaisedUnavailable | RaisedOther

  /** `attempts` are the calls one request would see, in order; time passes only in calls. */
  type Attempts = f: nat -> Attempt | forall i :: f(i).duration >= 0.0
    witness i => Attempt(0.0, Answer)

  /** When the first n attempts are over. */
  ghost function Clock(attempts: Attempts, start: real, n: nat): real {
    if n == 0 then start else Clock(attempts, start, n - 1) + Ends(attempts(n - 1)).0
  }

  /** The cooldowns once the first n of the models tried have failed. */
  ghost function Marked(until: map<Model, real>, attempts: Attempts, start: real, tried: seq<Model>,
                        n: nat): map<Model, real>
    requires n <= |tried|
  {
    if n == 0 then until
    else
      var end := Clock(attempts, start, n) + Cooldown(Ends(attempts(n - 1)).1);
      Marked(until, attempts, start, tried, n - 1)[tried[n - 1] := end]
  }

  /** One request: the models it calls in order and how it ends. */
  ghost predicate IsTrace(chain: seq<Model>, model: Model, until: map<Model, real>, attempts: Attempts, start: real,
                          tried: seq<Model>, ending: Ending) {
    && 1 <= |tried| <= MAX_SWITCHES + 1 && tried[0] == model
    && (forall k :: 1 <= k < |tried| ==> SwitchAt(chain, until, attempts, start, tried, k))
    && var n := |tried|;
    match Ends(attempts(n - 1)).1
    case Answer => ending.Returned?
    case OtherError => ending.RaisedOther?
    case ModelUnavailable(_) =>
      && ending.RaisedUnavailable?
      && (n < MAX_SWITCHES + 1 ==>
            NoneLeft(chain, tried[n - 1], Marked(until, attempts, start, tried, n), Clock(attempts, start, n)))
  }

  /** The k-th call follows an availability error of the one before and goes to the next eligible model. */
  ghost predicate SwitchAt(chain: seq<Model>, until: map<Model, real>, attempts: Attempts, start: real,
                           tried: seq<Model>, k: nat)
    requires 1 <= k < |tried|
  {
    && Ends(attempts(k - 1)).1.ModelUnavailable?
    && SwitchesTo(chain, tried[k - 1], Marked(until, attempts, start, tried, k), Clock(attempts, start, k), tried[k])
  }

  class GeminiProvider {
    const chain: seq<Model>
    var model: Model
    var until: map<Model, real>

    constructor (chain: seq<Model>, model: Model)
      ensures this.chain == chain && this.model == model && until == map[]
    {
      this.chain, this.model, until := chain, model, map[];
    }

    method NextFallbackModel(now: real) returns (next: Option<Model>)
      ensures match next
              case Some(m) => SwitchesTo(chain, model, until, now, m)
              case None => NoneLeft(chain, model, until, now)
    {
      for i := 0 to |chain|
        invariant forall j :: 0 <= j < i ==> chain[j] == model || !Eligible(until, chain[j], now)
      {
        if chain[i] == model {
          continue;
        }
        if Eligible(until, chain[i], now) {
          assert IsNext(chain, model, until, now, i);
          return Some(chain[i]);
        }
      }
      return None;
    }

    method WithModelFallback(attempts: Attempts, start: real) returns (ending: Ending, now: real, tried: seq<Model>)
      modifies this
      ensures IsTrace(chain, old(model), old(until), attempts, start, tried, ending)
      ensures model == tried[|tried| - 1] && now == Clock(attempts, start, |tried|)
      ensures until == Marked(old(until), attempts, start, tried,
                              if ending.RaisedUnavailable? then |tried| else |tried| - 1)
    {
      hide IsNext, SwitchesTo, NoneLeft, Cooldown;
      var switches := 0;
      now := start;
      tried := [model];
      while true
        invariant 0 <= switches <= MAX_SWITCHES && |tried| == switches + 1
        invariant tried[0] == old(model) && tried[switches] == model
        invariant now == Clock(attempts, start, switches)
        invariant until == Marked(old(until), attempts, start, tried, switches)
        invariant forall k :: 1 <= k < |tried| ==> SwitchAt(chain, old(until), attempts, start, tried, k)
        decreases MAX_SWITCHES - switches
      {
        var (duration, outcome) := Ends(attempts(switches));
        now := now + duration;
        if outcome.Answer? {
          return Returned, now, tried;
        }
        if outcome.OtherError? {
          return RaisedOther, now, tried;
        }
        until := until[model := now + Cooldown(outcome)];
        if switches >= MAX_SWITCHES {
          return RaisedUnavailable, now, tried;
        }
        var next := NextFallbackModel(now);
        if next.None? {
          return RaisedUnavailable, now, tried;
        }
        switches := switches + 1;
        ghost var before := tried;
        model := next.value;
        tried := tried + [model];
        MarkedPrefix(old(until), attempts, start, before, tried, switches);
        assert SwitchAt(chain, old(until), attempts, start, tried, switches);
        forall k: nat | 1 <= k < switches ensures SwitchAt(chain, old(until), attempts, start, tried, k) {
          assert SwitchAt(chain, old(until), attempts, start, before, k);
          MarkedPrefix(old(until), attempts, start, before, tried, k);
        }
      }
    }
  }

  lemma {:induction false} MarkedPrefix(until: map<Model, real>, attempts: Attempts, start: real, s: seq<Model>,
                                        t: seq<Model>, n: nat)
    requires n <= |s| && s <= t
    ensures Marked(until, attempts, start, s, n) == Marked(until, attempts, start, t, n)
  {
    if n > 0 {
      MarkedPrefix(until, attempts, start, s, t, n - 1);
    }
  }

  lemma {:induction false} ClockBounds(attempts: Attempts, start: real, n: nat)
    ensures start <= Clock(attempts, start, n) <= start + REQUEST_TIMEOUT * n as real
  {
    if n > 0 {
      ClockBounds(attempts, start, n - 1);
    }
  }

  /** How a request ends is how its last call ends: in its time with an answer or an error of its own, or not. Every
      call before that ran out of time or met an unavailable model. */
  lemma EndsAsLastCall(chain: seq<Model>, model: Model, until: map<Model, real>, attempts: Attempts, start: real,
                       tried: seq<Model>, ending: Ending)
    requires IsTrace(chain, model, until, attempts, start, tried, ending)
    ensures var last := attempts(|tried| - 1);
            && (ending == Returned <==> last.duration <= 8.0 && last.outcome == Answer)
            && (ending == RaisedOther <==> last.duration <= 8.0 && last.outcome == OtherError)
            && (ending == RaisedUnavailable <==> last.duration > 8.0 || last.outcome.ModelUnavailable?)
    ensures forall k :: 0 <= k < |tried| - 1 ==> attempts(k).duration > 8.0 || attempts(k).outcome.ModelUnavailable?
  {
    forall k | 0 <= k < |tried| - 1 ensures attempts(k).duration > 8.0 || attempts(k).outcome.ModelUnavailable? {
      assert SwitchAt(chain, until, attempts, start, tried, k + 1);
    }
  }

  /** A request makes at most three calls in at most 24 seconds of call time; every switch goes to a chain
      model other than the one that just failed, off cooldown at that moment. */
  lemma RequestIsBounded(chain: seq<Model>, model: Model, until: map<Model, real>, attempts: Attempts, start: real,
                         tried: seq<Model>, ending: Ending)
    requires IsTrace(chain, model, until, attempts, start, tried, ending)
    ensures |tried| <= 3 && start <= Clock(attempts, start, |tried|) <= start + 24.0
    ensures forall k :: 1 <= k < |tried| ==>
              && tried[k] in chain && tried[k] != tried[k - 1]
              && Eligible(Marked(until, attempts, start, tried, k), tried[k], Clock(attempts, start, k))
  {
    ClockBounds(attempts, start, |tried|);
    forall k | 1 <= k < |tried|
      ensures tried[k] in chain && tried[k] != tried[k - 1]
              && Eligible(Marked(until, attempts, start, tried, k), tried[k], Clock(attempts, start, k))
    {
      assert SwitchAt(chain, until, attempts, start, tried, k);
    }
  }

  /** A model is on cooldown while one recorded for it runs; a model without one is not. Every switch goes to the first
      model of the chain, other than the one that just failed, that is not on cooldown; and the error surfaces after
      fewer than three calls only when every other model of the chain is. The clock is one that starts at zero. */
  lemma SwitchesGoToFirstFree(chain: seq<Model>, model: Model, until: map<Model, real>, attempts: Attempts, start: real,
                              tried: seq<Model>, ending: Ending)
    requires IsTrace(chain, model, until, attempts, start, tried, ending) && start >= 0.0
    ensures forall k :: 1 <= k < |tried| ==>
              var u, now := Marked(until, attempts, start, tried, k), Clock(attempts, start, k);
              exists i :: 0 <= i < |chain| && chain[i] == tried[k] && (tried[k] in u ==> u[tried[k]] <= now)
                          && forall j :: 0 <= j < i ==> chain[j] == tried[k - 1] || (chain[j] in u && u[chain[j]] > now)
    ensures ending == RaisedUnavailable && |tried| < 3 ==>
              var u, now := Marked(until, attempts, start, tried, |tried|), Clock(attempts, start, |tried|);
              forall m :: m in chain && m != tried[|tried| - 1] ==> m in u && u[m] > now
  {
    ClockBounds(attempts, start, |tried|);
    forall k | 1 <= k < |tried|
      ensures var u, now := Marked(until, attempts, start, tried, k), Clock(attempts, start, k);
              exists i :: 0 <= i < |chain| && chain[i] == tried[k] && (tried[k] in u ==> u[tried[k]] <= now)
                          && forall j :: 0 <= j < i ==> chain[j] == tried[k - 1] || (chain[j] in u && u[chain[j]] > now)
    {
      assert SwitchAt(chain, until, attempts, start, tried, k);
      ClockBounds(attempts, start, k);
      var u, now := Marked(until, attempts, start, tried, k), Clock(attempts, start, k);
      var i: nat :| IsNext(chain, tried[k - 1], u, now, i) && chain[i] == tried[k];
    }
  }

  /** Every cooldown recorded in the first n attempts is longer than the longest possible call. */
  ghost predicate Outlasting(attempts: Attempts, n: nat) {
    forall k: nat :: k < n && Ends(attempts(k)).1.ModelUnavailable? ==>
      Cooldown(Ends(attempts(k)).1) > REQUEST_TIMEOUT * (MAX_SWITCHES + 1) as real
  }

  /** An error that names no delay, or names one over 24 seconds, sets a cooldown that outlasts the call. */
  lemma CooldownOutlastsIff(delay: Option<real>)
    ensures Cooldown(ModelUnavailable(delay)) > REQUEST_TIMEOUT * (MAX_SWITCHES + 1) as real <==>
            (delay.Some? ==> delay.value > 24.0)
    ensures delay.None? ==> Cooldown(ModelUnavailable(delay)) == 60.0
    ensures delay.Some? ==> Cooldown(ModelUnavailable(delay)) == if delay.value <= 120.0 then delay.value else 120.0
  {
  }

  /** With such cooldowns no model is tried twice, and all those tried are on cooldown when the error is raised. */
  lemma OutlastingTriesDistinct(chain: seq<Model>, model: Model, until: map<Model, real>, attempts: Attempts,
                                start: real, tried: seq<Model>, ending: Ending)
    requires IsTrace(chain, model, until, attempts, start, tried, ending) && Outlasting(attempts, |tried|)
    ensures forall i, j :: 0 <= i < j < |tried| ==> tried[i] != tried[j]
    ensures ending.RaisedUnavailable? ==> forall m :: m in tried ==>
              !Eligible(Marked(until, attempts, start, tried, |tried|), m, Clock(attempts, start, |tried|))
  {
    RequestIsBounded(chain, model, until, attempts, start, tried, ending);
    assert forall k :: 1 <= k < |tried| ==> SwitchAt(chain, until, attempts, start, tried, k);
    forall n: nat, k: nat | k < n <= |tried| && (n < |tried| || ending.RaisedUnavailable?)
      ensures !Eligible(Marked(until, attempts, start, tried, n), tried[k], Clock(attempts, start, n))
    {
      ClockBounds(attempts, start, n);
      forall i: nat | i < n ensures Ends(attempts(i)).1.ModelUnavailable? {
        if i + 1 < |tried| {
          assert SwitchAt(chain, until, attempts, start, tried, i + 1);
        }
      }
      FailedStaysMarked(until, attempts, start, tried, n, k);
    }
  }

  lemma {:induction false} FailedStaysMarked(until: map<Model, real>, attempts: Attempts, start: real,
                                             tried: seq<Model>, n: nat, k: nat)
    requires k < n <= |tried| && Outlasting(attempts, n)
    requires forall i: nat :: i < n ==> Ends(attempts(i)).1.ModelUnavailable?
    ensures var u := Marked(until, attempts, start, tried, n);
            tried[k] in u && u[tried[k]] > start + REQUEST_TIMEOUT * (MAX_SWITCHES + 1) as real
  {
    ClockBounds(attempts, start, n);
    if k < n - 1 {
      FailedStaysMarked(until, attempts, start, tried, n - 1, k);
    }
  }

  /** Exactly when a request that makes all three calls returns to the model it began with, that model heading
      the chain: its cooldown is over by the time the second call has failed. */
  lemma ReturnsToFirstIff(chain: seq<Model>, model: Model, until: map<Model, real>, attempts: Attempts, start: real,
                          tried: seq<Model>, ending: Ending)
    requires IsTrace(chain, model, until, attempts, start, tried, ending) && |tried| == 3
    requires |chain| > 0 && chain[0] == model
    ensures tried[2] == tried[0] <==> Cooldown(Ends(attempts(0)).1) <= Ends(attempts(1)).0
  {
    RequestIsBounded(chain, model, until, attempts, start, tried, ending);
    assert SwitchAt(chain, until, attempts, start, tried, 1) && SwitchAt(chain, until, attempts, start, tried, 2);
    var u := Marked(until, attempts, start, tried, 2);
    assert Marked(until, attempts, start, tried, 0) == until;
    assert Clock(attempts, start, 1) == Clock(attempts, start, 0) + Ends(attempts(0)).0;
    assert Clock(attempts, start, 2) == Clock(attempts, start, 1) + Ends(attempts(1)).0;
    assert u[tried[0]] == Clock(attempts, start, 1) + Cooldown(Ends(attempts(0)).1);
  }
}
