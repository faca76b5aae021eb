/** The fallback scrubber for text that is not SQL (src/numi/gateway/domain/query_scrubber.py): one
    left-to-right pass that replaces quoted literals and bare numbers by a placeholder. */
module Scrubber {
  import opened Sequences

  const QUOTE := '\''
  const PLACEHOLDER := "<redacted>"

  /** The character classes `\d` and `\w`, of which only a few facts matter here. */
  datatype CharClasses = CharClasses(digit: char -> bool, word: char -> bool)

  ghost predicate Sane(cl: CharClasses) {
    && (forall c :: cl.digit(c) ==> cl.word(c))
    && !cl.word(QUOTE) && !cl.word('.') && !cl.word('<') && !cl.word('>')
    && forall c :: c in PLACEHOLDER ==> !cl.digit(c)
  }

  type Classes = cl: CharClasses | Sane(cl)
    witness CharClasses(c => '0' <= c <= '9', c => '0' <= c <= '9' || 'a' <= c <= 'z' || 'A' <= c <= 'Z' || c == '_')

  /** `[\w.]`: what keeps a number from starting right after it and from ending right before it. */
  predicate Blocks(cl: Classes, c: char) {
    cl.word(c) || c == '.'
  }

  predicate Bounded(cl: Classes, t: string) {
    t == [] || !Blocks(cl, t[0])
  }

  // ---- the two branches of the pattern -------------------------------------------------------

  /** The length matched after an opening quote, closing quote included; 0 if there is no match. A doubled
      quote is first read as an escape and only if that fails as the closing quote. */
  function CloseLen(t: string): (n: nat)
    ensures n <= |t|
  {
    if t == [] then 0
    else if t[0] != QUOTE then
      var n := CloseLen(t[1..]);
      if n == 0 then 0 else n + 1
    else if |t| > 1 && t[1] == QUOTE then
      var n := CloseLen(t[2..]);
      if n == 0 then 1 else n + 2
    else 1
  }

  function DigitRun(cl: Classes, t: string): (n: nat)
    ensures n <= |t|
  {
    if t == [] || !cl.digit(t[0]) then 0 else 1 + DigitRun(cl, t[1..])
  }

  function NumberLen(cl: Classes, t: string): (n: nat)
    ensures n <= |t|
  {
    var d := DigitRun(cl, t);
    if d == 0 then 0
    else if Bounded(cl, t[d..]) then d
    else if t[d] != '.' then 0
    else
      var e := DigitRun(cl, t[d + 1..]);
      if e > 0 && Bounded(cl, t[d + 1 + e..]) then d + 1 + e else 0
  }

  /** The length matched at the head of the text, 0 for no match; `blocked` if the character before it is in `[\w.]`. */
  function MatchLen(cl: Classes, blocked: bool, t: string): (n: nat)
    ensures n <= |t|
  {
    if t == [] then 0
    else if t[0] == QUOTE then (var n := CloseLen(t[1..]); if n == 0 then 0 else n + 1)
    else if blocked then 0
    else NumberLen(cl, t)
  }

  function ScrubFrom(cl: Classes, blocked: bool, t: string): string
    decreases |t|
  {
    if t == [] then []
    else
      var n := MatchLen(cl, blocked, t);
      if n > 0 then PLACEHOLDER + ScrubFrom(cl, Blocks(cl, t[n - 1]), t[n..])
      else [t[0]] + ScrubFrom(cl, Blocks(cl, t[0]), t[1..])
  }

  function Scrub(cl: Classes, t: string): string {
    ScrubFrom(cl, false, t)
  }

  lemma ScrubEmpty(cl: Classes, blocked: bool)
    ensures ScrubFrom(cl, blocked, []) == []
  {
  }

  lemma ScrubStep(cl: Classes, blocked: bool, t: string)
    requires t != []
    ensures var n := MatchLen(cl, blocked, t);
            ScrubFrom(cl, blocked, t) ==
            if n > 0 then PLACEHOLDER + ScrubFrom(cl, Blocks(cl, t[n - 1]), t[n..])
            else [t[0]] + ScrubFrom(cl, Blocks(cl, t[0]), t[1..])
  {
  }

  // ---- what the branches match, said without scanning ----------------------------------------

  /** `(?:[^']|'')*`: every quote is one of a pair. */
  predicate Paired(s: string) {
    s == [] || (s[0] != QUOTE && Paired(s[1..])) || (|s| > 1 && s[0] == QUOTE && s[1] == QUOTE && Paired(s[2..]))
  }

  predicate Closes(t: string, k: nat) {
    k < |t| && t[k] == QUOTE && Paired(t[..k])
  }

  /** The quoted branch matches up to the last quote with only pairs before it. */
  lemma {:induction false} QuotedMatchIsLongest(t: string)
    ensures CloseLen(t) == 0 ==> forall k :: !Closes(t, k)
    ensures CloseLen(t) > 0 ==> Closes(t, CloseLen(t) - 1) && forall k :: k >= CloseLen(t) ==> !Closes(t, k)
  {
    if t != [] && t[0] != QUOTE {
      QuotedMatchIsLongest(t[1..]);
      forall k: nat | k < |t| ensures Closes(t, k) <==> k > 0 && Closes(t[1..], k - 1) {
        if k > 0 {
          assert t[..k][1..] == t[1..][..k - 1];
        }
      }
    } else if |t| > 1 && t[1] == QUOTE {
      QuotedMatchIsLongest(t[2..]);
      forall k: nat | k < |t| ensures Closes(t, k) <==> k == 0 || (k > 1 && Closes(t[2..], k - 2)) {
        if k > 1 {
          assert t[..k][2..] == t[2..][..k - 2];
        }
      }
    }
  }

  predicate AllDigits(cl: Classes, s: string) {
    s != [] && forall i :: 0 <= i < |s| ==> cl.digit(s[i])
  }

  /** `\d+(?:\.\d+)?` as a whole string. */
  predicate IsNumber(cl: Classes, s: string) {
    AllDigits(cl, s) || exists k: nat :: k < |s| && s[k] == '.' && AllDigits(cl, s[..k]) && AllDigits(cl, s[k + 1..])
  }

  lemma {:induction false} DigitRunIsMaximal(cl: Classes, t: string)
    ensures forall i :: 0 <= i < DigitRun(cl, t) ==> cl.digit(t[i])
    ensures DigitRun(cl, t) < |t| ==> !cl.digit(t[DigitRun(cl, t)])
  {
    if t != [] && cl.digit(t[0]) {
      DigitRunIsMaximal(cl, t[1..]);
    }
  }

  /** The number branch matches n characters iff they are a number that ends where `[\w.]` ends. */
  lemma NumberMatchIff(cl: Classes, t: string, n: nat)
    requires 0 < n <= |t|
    ensures NumberLen(cl, t) == n <==> IsNumber(cl, t[..n]) && Bounded(cl, t[n..])
  {
    if NumberLen(cl, t) == n {
      MatchedIsNumber(cl, t);
    } else if IsNumber(cl, t[..n]) && Bounded(cl, t[n..]) {
      NumberAt(cl, t, n);
    }
  }

  lemma MatchedIsNumber(cl: Classes, t: string)
    ensures var n := NumberLen(cl, t); n > 0 ==> IsNumber(cl, t[..n]) && Bounded(cl, t[n..])
  {
    var d, n := DigitRun(cl, t), NumberLen(cl, t);
    DigitRunIsMaximal(cl, t);
    if n > d {
      DigitRunIsMaximal(cl, t[d + 1..]);
      DecimalIsNumber(cl, t[..n], d);
    }
  }

  lemma DecimalIsNumber(cl: Classes, s: string, k: nat)
    requires 0 < k < |s| - 1 && s[k] == '.' && forall i :: 0 <= i < |s| && i != k ==> cl.digit(s[i])
    ensures IsNumber(cl, s)
  {
    assert AllDigits(cl, s[..k]) && AllDigits(cl, s[k + 1..]);
  }

  lemma NumberAt(cl: Classes, t: string, n: nat)
    requires 0 < n <= |t| && IsNumber(cl, t[..n]) && Bounded(cl, t[n..])
    ensures NumberLen(cl, t) == n
  {
    var s := t[..n];
    if AllDigits(cl, s) {
      RunIs(cl, t, n);
    } else {
      var k: nat :| k < |s| && s[k] == '.' && AllDigits(cl, s[..k]) && AllDigits(cl, s[k + 1..]);
      forall i | 0 <= i < n && i != k ensures cl.digit(t[i]) {
        assert t[i] == if i < k then s[..k][i] else s[k + 1..][i - k - 1];
      }
      DecimalAt(cl, t, k, n);
    }
  }

  lemma DecimalAt(cl: Classes, t: string, k: nat, n: nat)
    requires 0 < k < n - 1 < |t| && t[k] == '.' && Bounded(cl, t[n..])
    requires forall i :: 0 <= i < n && i != k ==> cl.digit(t[i])
    ensures NumberLen(cl, t) == n
  {
    var rest := t[k + 1..];
    assert rest[n - k - 1..] == t[n..];
    RunIs(cl, t, k);
    RunIs(cl, rest, n - k - 1);
    assert t[k..][0] == '.';
  }

  lemma {:induction false} RunIs(cl: Classes, t: string, d: nat)
    requires d <= |t| && (forall i :: 0 <= i < d ==> cl.digit(t[i])) && (d < |t| ==> !cl.digit(t[d]))
    ensures DigitRun(cl, t) == d
  {
    if d > 0 {
      RunIs(cl, t[1..], d - 1);
    }
  }

  // ---- quotes --------------------------------------------------------------------------------

  function Quotes(t: string): nat {
    if t == [] then 0 else (if t[0] == QUOTE then 1 else 0) + Quotes(t[1..])
  }

  lemma {:induction false} QuotesConcat(s: string, t: string)
    ensures Quotes(s + t) == Quotes(s) + Quotes(t)
  {
    if s == [] {
      assert s + t == t;
    } else {
      QuotesConcat(s[1..], t);
      assert (s + t)[1..] == s[1..] + t;
    }
  }

  lemma {:induction false} NoQuotes(t: string)
    requires QUOTE !in t
    ensures Quotes(t) == 0
  {
    if t != [] {
      NoQuotes(t[1..]);
    }
  }

  /** Opening and closing quotes included, a match holds an even number of quotes. */
  lemma {:induction false} CloseTakesOddQuotes(t: string)
    ensures CloseLen(t) > 0 ==> Quotes(t[..CloseLen(t)]) % 2 == 1
    ensures CloseLen(t) == 0 <==> QUOTE !in t
  {
    var n := CloseLen(t);
    if t != [] && t[0] != QUOTE {
      CloseTakesOddQuotes(t[1..]);
      assert n > 0 ==> t[..n][1..] == t[1..][..n - 1];
      assert t == [t[0]] + t[1..];
    } else if |t| > 1 && t[1] == QUOTE && n > 1 {
      CloseTakesOddQuotes(t[2..]);
      assert t[..n][1..][1..] == t[2..][..n - 2];
    }
  }

  lemma MatchTakesEvenQuotes(cl: Classes, blocked: bool, t: string)
    ensures Quotes(t[..MatchLen(cl, blocked, t)]) % 2 == 0
  {
    var n := MatchLen(cl, blocked, t);
    if n > 0 && t[0] == QUOTE {
      CloseTakesOddQuotes(t[1..]);
      assert t[..n][1..] == t[1..][..n - 1];
    } else if n > 0 {
      NumberMatchIff(cl, t, n);
      NumberHasNoQuote(cl, t[..n]);
      NoQuotes(t[..n]);
    }
  }

  lemma NumberHasNoQuote(cl: Classes, s: string)
    requires IsNumber(cl, s)
    ensures QUOTE !in s && forall i :: 0 <= i < |s| ==> Blocks(cl, s[i])
  {
    if !AllDigits(cl, s) {
      var k: nat :| k < |s| && s[k] == '.' && AllDigits(cl, s[..k]) && AllDigits(cl, s[k + 1..]);
      forall i | 0 <= i < |s| ensures Blocks(cl, s[i]) {
        assert i < k ==> s[i] == s[..k][i];
        assert i > k ==> s[i] == s[k + 1..][i - k - 1];
      }
    }
  }

  /** Quotes leave in pairs: the scrubbed text holds one quote if the text held an odd number of them, and
      otherwise none. So no complete quoted run survives. */
  lemma {:induction false} QuotesLeftAreParity(cl: Classes, blocked: bool, t: string)
    ensures Quotes(ScrubFrom(cl, blocked, t)) == Quotes(t) % 2
    decreases |t|
  {
    hide MatchLen, Blocks, Quotes, Sane, PLACEHOLDER, ScrubFrom;
    if t == [] {
      ScrubEmpty(cl, blocked);
      NoQuotes(t);
    } else {
      ScrubStep(cl, blocked, t);
      var n := MatchLen(cl, blocked, t);
      if n > 0 {
        QuotesLeftAreParity(cl, Blocks(cl, t[n - 1]), t[n..]);
        QuotesAcross(t, n);
        MatchTakesEvenQuotes(cl, blocked, t);
        PlaceholderHasNoQuote();
        QuotesConcat(PLACEHOLDER, ScrubFrom(cl, Blocks(cl, t[n - 1]), t[n..]));
      } else {
        QuotesLeftAreParity(cl, Blocks(cl, t[0]), t[1..]);
        QuotesAcross(t, 1);
        QuotesConcat(t[..1], ScrubFrom(cl, Blocks(cl, t[0]), t[1..]));
        CopiedHeadQuotes(cl, blocked, t);
      }
    }
  }

  lemma PlaceholderHasNoQuote()
    ensures Quotes(PLACEHOLDER) == 0
  {
    NoQuotes(PLACEHOLDER);
  }

  lemma QuotesAcross(t: string, n: nat)
    requires n <= |t|
    ensures Quotes(t) == Quotes(t[..n]) + Quotes(t[n..])
  {
    assert t == t[..n] + t[n..];
    QuotesConcat(t[..n], t[n..]);
  }

  lemma CopiedHeadQuotes(cl: Classes, blocked: bool, t: string)
    requires t != [] && MatchLen(cl, blocked, t) == 0
    ensures t[..1] == [t[0]] && (Quotes(t[..1]) == 0 || (Quotes(t[..1]) == 1 && Quotes(t[1..]) == 0))
  {
    if t[0] == QUOTE {
      UnmatchedQuoteIsLast(cl, blocked, t);
      NoQuotes(t[1..]);
    }
  }

  lemma UnmatchedQuoteIsLast(cl: Classes, blocked: bool, t: string)
    requires t != [] && t[0] == QUOTE && MatchLen(cl, blocked, t) == 0
    ensures QUOTE !in t[1..]
  {
    CloseTakesOddQuotes(t[1..]);
  }

  // ---- words ---------------------------------------------------------------------------------

  /** A word is a run of `[\w.]`. */
  predicate IsWord(cl: Classes, w: string) {
    w != [] && forall i :: 0 <= i < |w| ==> Blocks(cl, w[i])
  }

  lemma {:induction false} BlockedWordIsCopied(cl: Classes, w: string, post: string)
    requires forall i :: 0 <= i < |w| ==> Blocks(cl, w[i])
    ensures ScrubFrom(cl, true, w + post) == w + ScrubFrom(cl, true, post)
  {
    hide NumberLen, ScrubFrom, PLACEHOLDER;
    if w == [] {
      assert w + post == post;
    } else {
      ScrubStep(cl, true, w + post);
      BlockedWordIsCopied(cl, w[1..], post);
      assert (w + post)[1..] == w[1..] + post;
      assert w == [w[0]] + w[1..];
      assert w[0] != QUOTE;
    }
  }

  lemma BoundaryForgetsBlock(cl: Classes, blocked: bool, t: string)
    requires Bounded(cl, t)
    ensures ScrubFrom(cl, blocked, t) == ScrubFrom(cl, false, t)
    ensures Bounded(cl, ScrubFrom(cl, blocked, t))
  {
    if t != [] && t[0] != QUOTE {
      assert !cl.digit(t[0]);
    }
  }

  /** A whole word is replaced iff it is a number, and otherwise copied; what follows is scrubbed on its own. */
  lemma WordScrubbedIffNumber(cl: Classes, w: string, post: string)
    requires IsWord(cl, w) && Bounded(cl, post)
    ensures Scrub(cl, w + post) == (if IsNumber(cl, w) then PLACEHOLDER else w) + Scrub(cl, post)
  {
    hide NumberLen, ScrubFrom, IsNumber, PLACEHOLDER;
    var t := w + post;
    assert t[0] == w[0] != QUOTE;
    assert t[..|w|] == w && t[|w|..] == post;
    NumberMatchIff(cl, t, |w|);
    ScrubStep(cl, false, t);
    BoundaryForgetsBlock(cl, true, post);
    if !IsNumber(cl, w) {
      if NumberLen(cl, t) > 0 {
        WholeWordOnly(cl, w, post, NumberLen(cl, t));
      }
      BlockedWordIsCopied(cl, w[1..], post);
      assert t[1..] == w[1..] + post;
      assert w == [w[0]] + w[1..];
    }
  }

  /** A number match is a whole word. */
  lemma WholeWordOnly(cl: Classes, w: string, post: string, n: nat)
    requires IsWord(cl, w) && Bounded(cl, post) && 0 < n <= |w + post| && NumberLen(cl, w + post) == n
    ensures n == |w|
  {
    var t := w + post;
    assert n < |w| ==> t[n..][0] == w[n];
    assert n > |w| ==> t[..n][|w|] == post[0];
    NumberMatchIff(cl, t, n);
    NumberHasNoQuote(cl, t[..n]);
  }

  /** A character that is neither a quote nor part of a word is copied, and what follows it is scrubbed on its own. */
  lemma SeparatorIsCopied(cl: Classes, blocked: bool, c: char, post: string)
    requires c != QUOTE && !Blocks(cl, c)
    ensures ScrubFrom(cl, blocked, [c] + post) == [c] + Scrub(cl, post)
  {
    hide ScrubFrom;
    var t := [c] + post;
    ScrubStep(cl, blocked, t);
    assert t[1..] == post;
    assert !cl.digit(c);
  }

  // ---- idempotence ---------------------------------------------------------------------------

  /** No match starts anywhere in the text. */
  predicate Clean(cl: Classes, blocked: bool, t: string)
    decreases |t|
  {
    t == [] || (MatchLen(cl, blocked, t) == 0 && Clean(cl, Blocks(cl, t[0]), t[1..]))
  }

  lemma {:induction false} CleanIsFixed(cl: Classes, blocked: bool, t: string)
    ensures Clean(cl, blocked, t) ==> ScrubFrom(cl, blocked, t) == t
    decreases |t|
  {
    if Clean(cl, blocked, t) && t != [] {
      CleanIsFixed(cl, Blocks(cl, t[0]), t[1..]);
    }
  }

  lemma {:induction false} InertPrefixKeepsClean(cl: Classes, blocked: bool, p: string, t: string)
    requires p != [] && forall c :: c in p ==> c != QUOTE && !cl.digit(c)
    requires Clean(cl, Blocks(cl, p[|p| - 1]), t)
    ensures Clean(cl, blocked, p + t)
    decreases |p|
  {
    assert (p + t)[1..] == p[1..] + t;
    if |p| > 1 {
      InertPrefixKeepsClean(cl, Blocks(cl, p[0]), p[1..], t);
    } else {
      assert p[1..] + t == t;
    }
  }

  /** The scrubbed text holds no match. */
  lemma {:induction false} ScrubbedIsClean(cl: Classes, blocked: bool, t: string)
    ensures Clean(cl, blocked, ScrubFrom(cl, blocked, t))
    ensures Bounded(cl, t) ==> Clean(cl, false, ScrubFrom(cl, blocked, t))
    decreases |t|
  {
    if t != [] {
      var out := ScrubFrom(cl, blocked, t);
      var n := MatchLen(cl, blocked, t);
      if n > 0 {
        var rest := ScrubFrom(cl, Blocks(cl, t[n - 1]), t[n..]);
        ScrubbedIsClean(cl, Blocks(cl, t[n - 1]), t[n..]);
        MatchEndsOpen(cl, blocked, t);
        InertPrefixKeepsClean(cl, blocked, PLACEHOLDER, rest);
        InertPrefixKeepsClean(cl, false, PLACEHOLDER, rest);
      } else {
        ScrubbedIsClean(cl, Blocks(cl, t[0]), t[1..]);
        assert out[1..] == ScrubFrom(cl, Blocks(cl, t[0]), t[1..]);
        CopiedHeadStaysUnmatched(cl, blocked, t);
      }
    }
  }

  lemma MatchEndsOpen(cl: Classes, blocked: bool, t: string)
    requires MatchLen(cl, blocked, t) > 0
    ensures var n := MatchLen(cl, blocked, t); !Blocks(cl, t[n - 1]) || Bounded(cl, t[n..])
  {
    var n := MatchLen(cl, blocked, t);
    if t[0] == QUOTE {
      QuotedMatchIsLongest(t[1..]);
    } else {
      NumberMatchIff(cl, t, n);
    }
  }

  lemma CopiedHeadStaysUnmatched(cl: Classes, blocked: bool, t: string)
    requires t != [] && MatchLen(cl, blocked, t) == 0
    ensures MatchLen(cl, blocked, ScrubFrom(cl, blocked, t)) == 0
    ensures !cl.digit(t[0]) ==> MatchLen(cl, false, ScrubFrom(cl, blocked, t)) == 0
  {
    var out := ScrubFrom(cl, blocked, t);
    if t[0] == QUOTE {
      UnmatchedQuoteIsLast(cl, blocked, t);
      NoQuotes(t[1..]);
      QuotesLeftAreParity(cl, Blocks(cl, t[0]), t[1..]);
      QuoteCounted(out[1..]);
      CloseTakesOddQuotes(out[1..]);
    } else if cl.digit(t[0]) && !blocked {
      var k := WordLen(cl, t);
      var w, post := t[..k], t[k..];
      assert t == w + post;
      WordScrubbedIffNumber(cl, w, post);
      NumberMatchIff(cl, t, k);
      BoundaryForgetsBlock(cl, false, post);
      if NumberLen(cl, out) > 0 {
        WholeWordOnly(cl, w, Scrub(cl, post), NumberLen(cl, out));
        NumberMatchIff(cl, out, k);
      }
    }
  }

  lemma {:induction false} QuoteCounted(t: string)
    requires Quotes(t) == 0
    ensures QUOTE !in t
  {
    if t != [] {
      QuoteCounted(t[1..]);
      assert t == [t[0]] + t[1..];
    }
  }

  /** The length of the word at the head of the text. */
  function WordLen(cl: Classes, t: string): (k: nat)
    ensures k <= |t| && Bounded(cl, t[k..]) && forall i :: 0 <= i < k ==> Blocks(cl, t[i])
  {
    if t == [] || !Blocks(cl, t[0]) then 0
    else
      var k := WordLen(cl, t[1..]);
      assert t[1..][k..] == t[k + 1..];
      k + 1
  }

  /** Scrubbing twice is scrubbing once, and a text is left alone iff nothing in it matches. */
  lemma ScrubIsIdempotent(cl: Classes, t: string)
    ensures Scrub(cl, Scrub(cl, t)) == Scrub(cl, t)
    ensures Clean(cl, false, Scrub(cl, t))
    ensures Scrub(cl, t) == t <==> Clean(cl, false, t)
  {
    ScrubbedIsClean(cl, false, t);
    CleanIsFixed(cl, false, t);
    CleanIsFixed(cl, false, Scrub(cl, t));
  }

  // ---- literals ------------------------------------------------------------------------------

  lemma {:induction false} ClosesHere(c: string, post: string)
    requires Paired(c) && (post == [] || post[0] != QUOTE)
    ensures CloseLen(c + [QUOTE] + post) == |c| + 1
  {
    var t := c + [QUOTE] + post;
    if c != [] {
      if c[0] != QUOTE {
        ClosesHere(c[1..], post);
        assert t[1..] == c[1..] + [QUOTE] + post;
      } else {
        ClosesHere(c[2..], post);
        assert t[2..] == c[2..] + [QUOTE] + post;
      }
    }
  }

  /** Every literal that begins in the text ends in it: what follows begins outside quotes. */
  predicate Outside(pre: string) {
    Quotes(pre) % 2 == 0 && (pre == [] || pre[|pre| - 1] != QUOTE)
  }

  /** Inside a literal that ends in p, what comes after p does not matter. */
  lemma {:induction false} CloseSeesNoFurther(p: string, tail: string)
    requires Quotes(p) % 2 == 1 && p[|p| - 1] != QUOTE
    ensures 0 < CloseLen(p) == CloseLen(p + tail) < |p|
    decreases |p|
  {
    assert |p| == 1 ==> Quotes(p) == 0;
    if p[0] != QUOTE {
      CloseSeesNoFurther(p[1..], tail);
      assert (p + tail)[1..] == p[1..] + tail;
    } else if p[1] == QUOTE {
      assert p[1..][1..] == p[2..];
      CloseSeesNoFurther(p[2..], tail);
      assert (p + tail)[2..] == p[2..] + tail;
    } else {
      assert (p + tail)[1] == p[1];
    }
  }

  /** A quoted literal splits the text: what is before it and after it is scrubbed on its own, whatever it holds. */
  lemma {:induction false} LiteralSplits(cl: Classes, blocked: bool, pre: string, c: string, post: string)
    requires Outside(pre) && Paired(c) && (post == [] || post[0] != QUOTE)
    ensures ScrubFrom(cl, blocked, pre + [QUOTE] + c + [QUOTE] + post) ==
            ScrubFrom(cl, blocked, pre) + PLACEHOLDER + Scrub(cl, post)
    decreases |pre|
  {
    hide MatchLen, Blocks, Paired, ScrubFrom, Sane, PLACEHOLDER, Outside;
    var tail := [QUOTE] + c + [QUOTE] + post;
    assert pre + tail == pre + [QUOTE] + c + [QUOTE] + post;
    if pre == [] {
      LiteralHead(cl, blocked, c, post);
      ScrubEmpty(cl, blocked);
      assert pre + tail == tail;
    } else {
      MatchSeesNoFurther(cl, blocked, pre, tail);
      var n := MatchLen(cl, blocked, pre);
      var k := if n > 0 then n else 1;
      LiteralSplits(cl, Blocks(cl, pre[k - 1]), pre[k..], c, post);
      assert pre[k..] + tail == pre[k..] + [QUOTE] + c + [QUOTE] + post;
      PrefixStep(cl, blocked, pre, tail, PLACEHOLDER + Scrub(cl, post));
    }
  }

  /** One step of the pass inside a prefix that matches alike with and without the tail. */
  lemma PrefixStep(cl: Classes, blocked: bool, pre: string, tail: string, end: string)
    requires pre != [] && MatchLen(cl, blocked, pre + tail) == MatchLen(cl, blocked, pre)
    requires var n := MatchLen(cl, blocked, pre); var k := if n > 0 then n else 1;
             ScrubFrom(cl, Blocks(cl, pre[k - 1]), pre[k..] + tail) ==
                 ScrubFrom(cl, Blocks(cl, pre[k - 1]), pre[k..]) + end
    ensures ScrubFrom(cl, blocked, pre + tail) == ScrubFrom(cl, blocked, pre) + end
  {
    hide MatchLen, Blocks, Sane, PLACEHOLDER, ScrubFrom;
    ScrubStep(cl, blocked, pre);
    ScrubStep(cl, blocked, pre + tail);
    var n := MatchLen(cl, blocked, pre);
    var k := if n > 0 then n else 1;
    assert (pre + tail)[k - 1] == pre[k - 1] && (pre + tail)[k..] == pre[k..] + tail && (pre + tail)[0] == pre[0];
    Associates(if n > 0 then PLACEHOLDER else [pre[0]], ScrubFrom(cl, Blocks(cl, pre[k - 1]), pre[k..]), end);
  }

  lemma LiteralHead(cl: Classes, blocked: bool, c: string, post: string)
    requires Paired(c) && (post == [] || post[0] != QUOTE)
    ensures ScrubFrom(cl, blocked, [QUOTE] + c + [QUOTE] + post) == PLACEHOLDER + Scrub(cl, post)
  {
    hide NumberLen, ScrubFrom, PLACEHOLDER, Paired, CloseLen;
    var t := [QUOTE] + c + [QUOTE] + post;
    ScrubStep(cl, blocked, t);
    ClosesHere(c, post);
    assert t[1..] == c + [QUOTE] + post;
    assert t[|c| + 1] == QUOTE;
    assert t[|c| + 2..] == post;
  }

  lemma MatchSeesNoFurther(cl: Classes, blocked: bool, pre: string, tail: string)
    requires pre != [] && Outside(pre) && tail != [] && tail[0] == QUOTE
    ensures var n := MatchLen(cl, blocked, pre);
            MatchLen(cl, blocked, pre + tail) == n && Outside(pre[(if n > 0 then n else 1)..])
  {
    hide NumberLen, CloseLen, Sane;
    var n := MatchLen(cl, blocked, pre);
    if pre[0] == QUOTE {
      CloseSeesNoFurther(pre[1..], tail);
      assert (pre + tail)[1..] == pre[1..] + tail;
    } else {
      NumberSeesNoFurther(cl, pre, tail);
      QuotesAcross(pre, 1);
    }
    QuotesAcross(pre, n);
    MatchTakesEvenQuotes(cl, blocked, pre);
  }

  lemma NumberSeesNoFurther(cl: Classes, pre: string, tail: string)
    requires pre != [] && tail != [] && tail[0] == QUOTE
    ensures NumberLen(cl, pre + tail) == NumberLen(cl, pre)
  {
    var t := pre + tail;
    hide NumberLen;
    var m, n := NumberLen(cl, pre), NumberLen(cl, t);
    if m > 0 {
      SameNumberEither(cl, pre, tail, m);
    } else if n > |pre| {
      assert t[..n][|pre|] == QUOTE;
      NumberMatchIff(cl, t, n);
      NumberHasNoQuote(cl, t[..n]);
    } else if n > 0 {
      SameNumberEither(cl, pre, tail, n);
    }
  }

  lemma SameNumberEither(cl: Classes, pre: string, tail: string, n: nat)
    requires 0 < n <= |pre| && tail != [] && tail[0] == QUOTE
    ensures NumberLen(cl, pre) == n <==> NumberLen(cl, pre + tail) == n
  {
    hide NumberLen, IsNumber;
    var t := pre + tail;
    NumberMatchIff(cl, pre, n);
    NumberMatchIff(cl, t, n);
    assert t[..n] == pre[..n];
    assert n < |pre| ==> t[n..][0] == pre[n..][0];
    assert n == |pre| ==> t[n..] == tail;
  }

  /** Two texts that differ only inside one literal scrub to the same text. */
  lemma LiteralContentsAreForgotten(cl: Classes, pre: string, c: string, d: string, post: string)
    requires Outside(pre) && Paired(c) && Paired(d) && (post == [] || post[0] != QUOTE)
    ensures Scrub(cl, pre + [QUOTE] + c + [QUOTE] + post) == Scrub(cl, pre + [QUOTE] + d + [QUOTE] + post)
  {
    LiteralSplits(cl, false, pre, c, post);
    LiteralSplits(cl, false, pre, d, post);
  }
}
