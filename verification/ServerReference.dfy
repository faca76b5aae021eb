/** Normalizing a free-text server reference (src/numi/common/server_reference.py): lower-case it, drop every
    separator and write each run of digits as its plain integer value. */
module ServerReference {
  import opened Sequences

  predicate Digit(c: char) {
    '0' <= c <= '9'
  }

  predicate AllDigits(s: string) {
    forall i :: 0 <= i < |s| ==> Digit(s[i])
  }

  predicate Kept(c: char) {
    'a' <= c <= 'z' || Digit(c)
  }

  /** Lower-casing, one character at a time. Only what it does to characters that are already lower case matters. */
  ghost predicate Lowers(lower: char -> string) {
    forall c :: Kept(c) ==> lower(c) == [c]
  }

  type Lowering = lower: char -> string | Lowers(lower)
    witness c => [c]

  function LowerAll(lower: Lowering, text: string): string {
    if text == [] then [] else lower(text[0]) + LowerAll(lower, text[1..])
  }

  /** The text with its separators gone. */
  function Plain(lower: Lowering, text: string): (r: string)
    ensures forall c :: c in r ==> Kept(c)
  {
    var lowered := LowerAll(lower, text);
    assert forall c :: c in Filter(lowered, Kept) ==> Kept(c) by {
      forall c | c in Filter(lowered, Kept) ensures Kept(c) {
        FilterMember(lowered, Kept, c);
      }
    }
    Filter(lowered, Kept)
  }

  /** The value `int` reads from a run of digits. */
  function Value(digits: string): nat
    requires AllDigits(digits)
  {
    if digits == [] then 0
    else 10 * Value(digits[..|digits| - 1]) + (digits[|digits| - 1] - '0') as nat
  }

  /** The digits `str` writes for a value. */
  function Decimal(v: nat): (digits: string)
    ensures digits != [] && AllDigits(digits)
  {
    (if v < 10 then [] else Decimal(v / 10)) + ['0' + (v % 10) as char]
  }

  function DigitRun(s: string): (n: nat)
    ensures n <= |s| && AllDigits(s[..n]) && (n < |s| ==> !Digit(s[n]))
    ensures s != [] && Digit(s[0]) ==> n > 0
  {
    if s == [] || !Digit(s[0]) then 0
    else
      var n := DigitRun(s[1..]);
      assert s[..n + 1] == [s[0]] + s[1..][..n];
      n + 1
  }

  function Collapse(s: string): string {
    if s == [] then []
    else if !Digit(s[0]) then [s[0]] + Collapse(s[1..])
    else
      var n := DigitRun(s);
      Decimal(Value(s[..n])) + Collapse(s[n..])
  }

  function Normalize(lower: Lowering, text: string): string {
    Collapse(Plain(lower, text))
  }

  // ---- what a reference names ----------------------------------------------------------------

  /** A reference is read as letters and numbers: separators, case and padding are not part of it. */
  datatype Token = Letter(letter: char) | Number(value: nat)

  function Tokens(s: string): seq<Token> {
    if s == [] then []
    else if !Digit(s[0]) then [Letter(s[0])] + Tokens(s[1..])
    else
      var n := DigitRun(s);
      [Number(Value(s[..n]))] + Tokens(s[n..])
  }

  function Written(tokens: seq<Token>): string {
    if tokens == [] then []
    else (match tokens[0] case Letter(c) => [c] case Number(v) => Decimal(v)) + Written(tokens[1..])
  }

  function Reading(lower: Lowering, text: string): seq<Token> {
    Tokens(Plain(lower, text))
  }

  lemma {:induction false} ValueOfDecimal(v: nat)
    ensures Value(Decimal(v)) == v
  {
    var digits := Decimal(v);
    if v >= 10 {
      ValueOfDecimal(v / 10);
      assert digits[..|digits| - 1] == Decimal(v / 10);
    } else {
      assert digits[..|digits| - 1] == [];
    }
    assert digits[|digits| - 1] == '0' + (v % 10) as char;
  }

  lemma {:induction false} CollapseIsWritten(s: string)
    ensures Collapse(s) == Written(Tokens(s))
  {
    if s != [] && !Digit(s[0]) {
      CollapseIsWritten(s[1..]);
    } else if s != [] {
      CollapseIsWritten(s[DigitRun(s)..]);
    }
  }

  lemma {:induction false} RunIs(run: string, rest: string)
    requires AllDigits(run) && (rest == [] || !Digit(rest[0]))
    ensures DigitRun(run + rest) == |run|
  {
    if run == [] {
      assert run + rest == rest;
    } else {
      RunIs(run[1..], rest);
      assert (run + rest)[1..] == run[1..] + rest;
    }
  }

  lemma TokensOfRun(run: string, rest: string)
    requires run != [] && AllDigits(run) && (rest == [] || !Digit(rest[0]))
    ensures Tokens(run + rest) == [Number(Value(run))] + Tokens(rest)
  {
    RunIs(run, rest);
    assert (run + rest)[..|run|] == run && (run + rest)[|run|..] == rest;
  }

  lemma {:induction false} TokensOfCollapse(s: string)
    ensures Tokens(Collapse(s)) == Tokens(s)
    ensures s == [] || !Digit(s[0]) ==> Collapse(s) == [] || !Digit(Collapse(s)[0])
  {
    if s != [] && !Digit(s[0]) {
      TokensOfCollapse(s[1..]);
      assert Collapse(s)[1..] == Collapse(s[1..]);
    } else if s != [] {
      var n := DigitRun(s);
      TokensOfCollapse(s[n..]);
      TokensOfRun(Decimal(Value(s[..n])), Collapse(s[n..]));
      ValueOfDecimal(Value(s[..n]));
    }
  }

  /** Nothing but runs of digits is touched: each is written as its value, and what is around it is collapsed on its
      own; without digits a reference stays as it is. */
  lemma CollapseAround(head: string, run: string, rest: string)
    requires (head == [] || !Digit(head[|head| - 1])) && (rest == [] || !Digit(rest[0]))
    requires run != [] && AllDigits(run)
    ensures Collapse(head + run + rest) == Collapse(head) + Decimal(Value(run)) + Collapse(rest)
  {
    hide Tokens, Collapse, Value, Decimal;
    CollapseIsWritten(head + run + rest);
    CollapseIsWritten(head);
    CollapseIsWritten(rest);
    TokensAround(head, run, rest);
    WrittenConcat(Tokens(head) + [Number(Value(run))], Tokens(rest));
    WrittenConcat(Tokens(head), [Number(Value(run))]);
    NumberWritten(Value(run));
  }

  lemma NumberWritten(v: nat)
    ensures Written([Number(v)]) == Decimal(v)
  {
    assert Written([]) == [];
  }

  lemma {:induction false} WrittenConcat(a: seq<Token>, b: seq<Token>)
    ensures Written(a + b) == Written(a) + Written(b)
  {
    if a == [] {
      assert a + b == b;
    } else {
      WrittenConcat(a[1..], b);
      assert (a + b)[0] == a[0] && (a + b)[1..] == a[1..] + b;
      Associates(match a[0] case Letter(c) => [c] case Number(v) => Decimal(v), Written(a[1..]), Written(b));
    }
  }

  lemma {:induction false} LettersAreKept(s: string)
    requires forall i :: 0 <= i < |s| ==> !Digit(s[i])
    ensures Collapse(s) == s
  {
    if s != [] {
      LettersAreKept(s[1..]);
    }
  }

  /** Digits without padding are written back as they are. */
  lemma {:induction false} DecimalOfValue(s: string)
    requires s != [] && AllDigits(s) && (s[0] != '0' || |s| == 1)
    ensures Decimal(Value(s)) == s
  {
    var n := |s| - 1;
    var front, v := s[..n], (s[n] - '0') as nat;
    assert s == front + [s[n]];
    if n == 0 {
      assert Value(front) == 0;
    } else {
      ValueZeroIff(front);
      assert front[0] == s[0];
      DecimalOfValue(front);
      assert Value(s) == 10 * Value(front) + v;
      assert Value(s) / 10 == Value(front) && Value(s) % 10 == v;
    }
  }

  lemma CollapsedAlikeIff(s: string, t: string)
    ensures Collapse(s) == Collapse(t) <==> Tokens(s) == Tokens(t)
  {
    CollapseIsWritten(s);
    CollapseIsWritten(t);
    TokensOfCollapse(s);
    TokensOfCollapse(t);
  }

  /** Two references normalize alike exactly when they read alike: nothing else is merged. */
  lemma NormalizedAlikeIff(lower: Lowering, a: string, b: string)
    ensures Normalize(lower, a) == Normalize(lower, b) <==> Reading(lower, a) == Reading(lower, b)
  {
    CollapsedAlikeIff(Plain(lower, a), Plain(lower, b));
  }

  lemma {:induction false} LowerKeepsAll(lower: Lowering, s: string)
    requires forall c :: c in s ==> Kept(c)
    ensures LowerAll(lower, s) == s
  {
    if s != [] {
      LowerKeepsAll(lower, s[1..]);
    }
  }

  lemma {:induction false} CollapseIsKept(s: string)
    requires forall c :: c in s ==> Kept(c)
    ensures forall c :: c in Collapse(s) ==> Kept(c)
  {
    if s != [] && !Digit(s[0]) {
      CollapseIsKept(s[1..]);
    } else if s != [] {
      CollapseIsKept(s[DigitRun(s)..]);
    }
  }

  /** Normalizing a normalized reference changes nothing, and both name the same thing. */
  lemma NormalizeIsIdempotent(lower: Lowering, text: string)
    ensures Normalize(lower, Normalize(lower, text)) == Normalize(lower, text)
    ensures Reading(lower, Normalize(lower, text)) == Reading(lower, text)
  {
    var s := Plain(lower, text);
    CollapseIsKept(s);
    FilterKeepsAll(Collapse(s), Kept);
    LowerKeepsAll(lower, Collapse(s));
    TokensOfCollapse(s);
    CollapseIsWritten(s);
    CollapseIsWritten(Collapse(s));
  }

  // ---- separators and padding ----------------------------------------------------------------

  lemma {:induction false} LowerConcat(lower: Lowering, a: string, b: string)
    ensures LowerAll(lower, a + b) == LowerAll(lower, a) + LowerAll(lower, b)
  {
    if a == [] {
      assert a + b == b;
    } else {
      LowerConcat(lower, a[1..], b);
      assert (a + b)[0] == a[0] && (a + b)[1..] == a[1..] + b;
      Associates(lower(a[0]), LowerAll(lower, a[1..]), LowerAll(lower, b));
    }
  }

  lemma PlainConcat(lower: Lowering, a: string, b: string)
    ensures Plain(lower, a + b) == Plain(lower, a) + Plain(lower, b)
  {
    LowerConcat(lower, a, b);
    FilterConcat(LowerAll(lower, a), LowerAll(lower, b), Kept);
  }

  /** A separator may be put anywhere, also inside a run of digits. */
  lemma SeparatorsAreIgnored(lower: Lowering, pre: string, sep: string, post: string)
    requires forall c :: c in sep ==> forall d :: d in lower(c) ==> !Kept(d)
    ensures Normalize(lower, pre + sep + post) == Normalize(lower, pre + post)
  {
    hide Plain, Collapse, Lowers;
    PlainConcat(lower, pre + sep, post);
    PlainConcat(lower, pre, sep);
    PlainConcat(lower, pre, post);
    SeparatorIsEmpty(lower, sep);
    assert Plain(lower, pre) + [] == Plain(lower, pre);
  }

  lemma {:induction false} SeparatorIsEmpty(lower: Lowering, sep: string)
    requires forall c :: c in sep ==> forall d :: d in lower(c) ==> !Kept(d)
    ensures Plain(lower, sep) == []
  {
    if sep != [] {
      SeparatorIsEmpty(lower, sep[1..]);
      FilterConcat(lower(sep[0]), LowerAll(lower, sep[1..]), Kept);
      NoneFoundIff(lower(sep[0]), Kept);
    }
  }

  function Power10(n: nat): (p: nat)
    ensures p > 0
  {
    if n == 0 then 1 else 10 * Power10(n - 1)
  }

  predicate IsZeros(s: string) {
    forall i :: 0 <= i < |s| ==> s[i] == '0'
  }

  lemma ValueSnoc(s: string, c: char)
    requires AllDigits(s) && Digit(c)
    ensures AllDigits(s + [c]) && Value(s + [c]) == 10 * Value(s) + (c - '0') as nat
  {
    assert (s + [c])[..|s + [c]| - 1] == s;
  }

  lemma {:induction false} ValueConcat(a: string, b: string)
    requires AllDigits(a) && AllDigits(b)
    ensures AllDigits(a + b)
    ensures Value(a + b) == Value(a) * Power10(|b|) + Value(b)
  {
    if b == [] {
      assert a + b == a;
    } else {
      hide Value;
      var n := |b| - 1;
      var front := b[..n];
      ValueConcat(a, front);
      ValueSnoc(front, b[n]);
      ValueSnoc(a + front, b[n]);
      assert b == front + [b[n]] && a + b == a + front + [b[n]];
      Distribute(Value(a), Power10(n), Value(front));
    }
  }

  lemma Distribute(v: nat, p: nat, w: nat)
    ensures 10 * (v * p + w) == v * (10 * p) + 10 * w
  {
  }

  lemma {:induction false} ValueZeroIff(s: string)
    requires AllDigits(s)
    ensures Value(s) == 0 <==> IsZeros(s)
  {
    if s != [] {
      var n := |s| - 1;
      ValueZeroIff(s[..n]);
    }
  }

  lemma TokensAround(head: string, run: string, rest: string)
    requires head == [] || !Digit(head[|head| - 1])
    requires run != [] && AllDigits(run) && (rest == [] || !Digit(rest[0]))
    ensures Tokens(head + run + rest) == Tokens(head) + [Number(Value(run))] + Tokens(rest)
  {
    hide Tokens, Value;
    var tail := run + rest;
    assert head + run + rest == head + tail;
    TokensOfRun(run, rest);
    TokensSplit(head, tail);
    assert Tokens(head) + ([Number(Value(run))] + Tokens(rest)) == Tokens(head) + [Number(Value(run))] + Tokens(rest);
  }

  lemma {:induction false} TokensSplit(head: string, tail: string)
    requires head == [] || !Digit(head[|head| - 1])
    ensures Tokens(head + tail) == Tokens(head) + Tokens(tail)
    decreases |head|
  {
    hide Value, Tokens;
    if head == [] {
      NoTokens();
      assert head + tail == tail;
    } else if !Digit(head[0]) {
      TokensSplit(head[1..], tail);
      TokensOfLetter(head);
      TokensOfLetter(head + tail);
      assert (head + tail)[1..] == head[1..] + tail;
    } else {
      var n := DigitRun(head);
      var run, rest := head[..n], head[n..];
      assert Digit(run[n - 1]) && n < |head|;
      TokensSplit(rest, tail);
      assert run + rest == head && run + (rest + tail) == head + tail;
      TokensOfRun(run, rest + tail);
      TokensOfRun(run, rest);
    }
  }

  lemma NoTokens()
    ensures Tokens([]) == []
  {
  }

  lemma TokensOfLetter(s: string)
    requires s != [] && !Digit(s[0])
    ensures Tokens(s) == [Letter(s[0])] + Tokens(s[1..])
  {
  }

  /** The length of the text without the digits it ends in. */
  function HeadLen(s: string): (n: nat)
    ensures n <= |s| && (n == 0 || !Digit(s[n - 1])) && AllDigits(s[n..])
  {
    if s == [] || !Digit(s[|s| - 1]) then |s| else HeadLen(s[..|s| - 1])
  }

  /** Zeros put before a digit change nothing exactly when the digits they directly follow, if any, are all
      zeros: padding is ignored at the start of a run of digits, and only there. */
  lemma PaddingIgnoredIff(lower: Lowering, pre: string, zeros: string, post: string)
    requires zeros != [] && IsZeros(zeros) && Plain(lower, post) != [] && Digit(Plain(lower, post)[0])
    ensures Normalize(lower, pre + zeros + post) == Normalize(lower, pre + post) <==>
            IsZeros(Plain(lower, pre)[HeadLen(Plain(lower, pre))..])
  {
    var s, t := Plain(lower, pre), Plain(lower, post);
    LowerKeepsAll(lower, zeros);
    FilterKeepsAll(zeros, Kept);
    PlainConcat(lower, pre + zeros, post);
    PlainConcat(lower, pre, zeros);
    PlainConcat(lower, pre, post);
    PlainPaddingIgnoredIff(s, zeros, t);
  }

  lemma PlainPaddingIgnoredIff(s: string, zeros: string, t: string)
    requires zeros != [] && IsZeros(zeros) && t != [] && Digit(t[0])
    ensures Collapse(s + zeros + t) == Collapse(s + t) <==> IsZeros(s[HeadLen(s)..])
  {
    hide Collapse, IsZeros, AllDigits;
    var n, k := HeadLen(s), DigitRun(t);
    var head, lead, digits, rest := s[..n], s[n..], t[..k], t[k..];
    assert s == head + lead && t == digits + rest;
    Regroups(head, lead + zeros, digits, rest);
    Associates(head, lead, zeros);
    Regroups(head, lead, digits, rest);
    RunPaddingIgnoredIff(head, lead, zeros, digits, rest);
  }

  lemma Regroups(a: string, b: string, c: string, d: string)
    ensures a + b + (c + d) == a + (b + c) + d
  {
    Associates(a + b, c, d);
    Associates(a, b, c);
  }

  lemma RunPaddingIgnoredIff(head: string, lead: string, zeros: string, digits: string, rest: string)
    requires head == [] || !Digit(head[|head| - 1])
    requires AllDigits(lead) && zeros != [] && IsZeros(zeros)
    requires digits != [] && AllDigits(digits) && (rest == [] || !Digit(rest[0]))
    ensures Collapse(head + (lead + zeros + digits) + rest) == Collapse(head + (lead + digits) + rest) <==>
            IsZeros(lead)
  {
    hide Collapse, Value, IsZeros, AllDigits;
    PaddedValueIff(lead, zeros, digits);
    RunsAlikeIff(head, lead + zeros + digits, lead + digits, rest);
  }

  /** What a run of digits adds to a reference is its value, no less and no more. */
  lemma RunsAlikeIff(head: string, a: string, b: string, rest: string)
    requires (head == [] || !Digit(head[|head| - 1])) && (rest == [] || !Digit(rest[0]))
    requires a != [] && b != [] && AllDigits(a) && AllDigits(b)
    ensures Collapse(head + a + rest) == Collapse(head + b + rest) <==> Value(a) == Value(b)
  {
    hide Tokens, Collapse, Value, AllDigits;
    CollapsedAlikeIff(head + a + rest, head + b + rest);
    TokensAround(head, a, rest);
    TokensAround(head, b, rest);
    assert Tokens(head + a + rest)[|Tokens(head)|] == Number(Value(a));
    assert Tokens(head + b + rest)[|Tokens(head)|] == Number(Value(b));
  }

  lemma PaddedValueIff(lead: string, zeros: string, digits: string)
    requires AllDigits(lead) && zeros != [] && IsZeros(zeros) && AllDigits(digits)
    ensures AllDigits(lead + zeros + digits)
    ensures AllDigits(lead + digits)
    ensures Value(lead + zeros + digits) == Value(lead + digits) <==> IsZeros(lead)
  {
    ValueConcat(lead + zeros, digits);
    ValueConcat(lead, zeros);
    ValueConcat(lead, digits);
    ValueZeroIff(lead);
    ValueZeroIff(zeros);
    var v, p, q := Value(lead), Power10(|zeros|), Power10(|digits|);
    ScalingIff(v, p, q);
  }

  lemma ScalingIff(v: nat, p: nat, q: nat)
    requires p > 1 && q > 0
    ensures v * p * q == v * q <==> v == 0
  {
    if v > 0 {
      assert v * p > v;
      assert v * p * q > v * q;
    }
  }
}
