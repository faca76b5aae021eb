/** Minimizing the rows of a tool result (src/numi/gateway/domain/data_policy.py): cap rows and columns,
    drop fields that are not allowed, mask sensitive ones and scrub free text. */
module DataMinimizer {
  import opened Basics
  import opened Sequences
  import Scrubber

  const MASK := "***MASKED***"

  datatype Value = Text(text: string) | Other(raw: int)

  /** A row lists its fields in order; names are not repeated in one row. */
  datatype Field = Field(name: string, value: Value)

  type Row = seq<Field>

  /** The patterns are given by the names they match. */
  datatype Config = Config(
    sensitive: string -> bool,
    freeText: string -> bool,
    allowlist: Option<set<string>>,
    denylist: set<string>,
    maxRows: int,
    maxColumns: int)

  type Scrubbing = string -> string

  predicate Eligible(cfg: Config, f: Field) {
    (cfg.allowlist.Some? ==> f.name in cfg.allowlist.value) && f.name !in cfg.denylist
  }

  /** No requested cap and a requested cap of zero both mean the configured one. */
  function RowCap(cfg: Config, maxRows: Option<int>): int {
    if maxRows.Some? && maxRows.value != 0 then maxRows.value else cfg.maxRows
  }

  /** `rows[:cap]`, where a negative cap counts from the end. */
  function Slice<T>(rows: seq<T>, cap: int): (r: seq<T>) {
    if cap >= 0 then Take(rows, cap) else if |rows| + cap <= 0 then [] else rows[..|rows| + cap]
  }

  // ---- the simple form -----------------------------------------------------------------------

  function ColumnCap(cfg: Config): nat {
    if cfg.maxColumns < 0 then 0 else cfg.maxColumns
  }

  function EligibleFields(cfg: Config, row: Row): Row {
    Filter(row, f => Eligible(cfg, f))
  }

  predicate Scrubs(cfg: Config, f: Field) {
    !cfg.sensitive(f.name) && f.value.Text? && cfg.freeText(f.name)
  }

  function CleanField(cfg: Config, scrub: Scrubbing, f: Field): Field {
    if cfg.sensitive(f.name) then Field(f.name, Text(MASK))
    else if Scrubs(cfg, f) then Field(f.name, Text(scrub(f.value.text)))
    else f
  }

  function CleanFields(cfg: Config, scrub: Scrubbing, fields: Row): Row {
    seq(|fields|, i requires 0 <= i < |fields| => CleanField(cfg, scrub, fields[i]))
  }

  /** The first eligible fields, in order. */
  function KeptFields(cfg: Config, row: Row): Row {
    Take(EligibleFields(cfg, row), ColumnCap(cfg))
  }

  function CleanRow(cfg: Config, scrub: Scrubbing, row: Row): Row {
    CleanFields(cfg, scrub, KeptFields(cfg, row))
  }

  function CleanRows(cfg: Config, scrub: Scrubbing, rows: seq<Row>): seq<Row> {
    seq(|rows|, i requires 0 <= i < |rows| => CleanRow(cfg, scrub, rows[i]))
  }

  function Minimized(cfg: Config, scrub: Scrubbing, rows: seq<Row>, maxRows: Option<int>): seq<Row> {
    CleanRows(cfg, scrub, Slice(rows, RowCap(cfg, maxRows)))
  }

  predicate Cut(cfg: Config, row: Row) {
    |EligibleFields(cfg, row)| > ColumnCap(cfg)
  }

  predicate SomeCut(cfg: Config, rows: seq<Row>) {
    exists row :: row in rows && Cut(cfg, row)
  }

  predicate Truncated(cfg: Config, rows: seq<Row>, maxRows: Option<int>) {
    var cap := RowCap(cfg, maxRows);
    |rows| > cap || SomeCut(cfg, Slice(rows, cap))
  }

  function MaskedNames(cfg: Config, fields: Row): set<string> {
    set f | f in fields && cfg.sensitive(f.name) :: f.name
  }

  function ScrubbedNames(cfg: Config, scrub: Scrubbing, fields: Row): set<string> {
    set f | f in fields && Scrubs(cfg, f) && scrub(f.value.text) != f.value.text :: f.name
  }

  function MaskedIn(cfg: Config, rows: seq<Row>): set<string> {
    set row, name | row in rows && name in MaskedNames(cfg, KeptFields(cfg, row)) :: name
  }

  function ScrubbedIn(cfg: Config, scrub: Scrubbing, rows: seq<Row>): set<string> {
    set row, name | row in rows && name in ScrubbedNames(cfg, scrub, KeptFields(cfg, row)) :: name
  }

  // ---- the pass ------------------------------------------------------------------------------

  method MinimizeRow(cfg: Config, scrub: Scrubbing, row: Row)
    returns (clean: Row, masked: set<string>, scrubbed: set<string>, cut: bool)
    ensures clean == CleanRow(cfg, scrub, row)
    ensures masked == MaskedNames(cfg, KeptFields(cfg, row))
    ensures scrubbed == ScrubbedNames(cfg, scrub, KeptFields(cfg, row))
    ensures cut <==> Cut(cfg, row)
  {
    clean, masked, scrubbed, cut := [], {}, {}, false;
    var count := 0;
    ghost var kept: Row := [];
    assert row[..0] == [];
    for i := 0 to |row|
      invariant kept == EligibleFields(cfg, row[..i]) && count == |kept| <= ColumnCap(cfg)
      invariant clean == CleanFields(cfg, scrub, kept)
      invariant masked == MaskedNames(cfg, kept)
      invariant scrubbed == ScrubbedNames(cfg, scrub, kept)
      invariant !cut
    {
      var f := row[i];
      EligibleSnoc(cfg, row, i);
      if cfg.allowlist.Some? && f.name !in cfg.allowlist.value {
        continue;
      }
      if f.name in cfg.denylist {
        continue;
      }
      if count >= cfg.maxColumns {
        cut := true;
        CutAt(cfg, row, i);
        return;
      }
      if cfg.sensitive(f.name) {
        clean := clean + [Field(f.name, Text(MASK))];
        masked := masked + {f.name};
      } else if f.value.Text? && cfg.freeText(f.name) {
        var text := scrub(f.value.text);
        clean := clean + [Field(f.name, Text(text))];
        if text != f.value.text {
          scrubbed := scrubbed + {f.name};
        }
      } else {
        clean := clean + [f];
      }
      CleanSnoc(cfg, scrub, kept, f);
      kept := kept + [f];
      count := count + 1;
    }
    assert row[..|row|] == row;
  }

  lemma EligibleSnoc(cfg: Config, row: Row, i: nat)
    requires i < |row|
    ensures EligibleFields(cfg, row[..i + 1]) ==
            EligibleFields(cfg, row[..i]) + (if Eligible(cfg, row[i]) then [row[i]] else [])
  {
    assert row[..i + 1] == row[..i] + [row[i]];
    FilterConcat(row[..i], [row[i]], f => Eligible(cfg, f));
  }

  /** An eligible field met when the columns are used up: what was kept is all that is kept. */
  lemma CutAt(cfg: Config, row: Row, i: nat)
    requires i < |row| && Eligible(cfg, row[i]) && |EligibleFields(cfg, row[..i])| == ColumnCap(cfg)
    ensures KeptFields(cfg, row) == EligibleFields(cfg, row[..i]) && Cut(cfg, row)
  {
    EligibleSnoc(cfg, row, i);
    assert row == row[..i + 1] + row[i + 1..];
    FilterConcat(row[..i + 1], row[i + 1..], f => Eligible(cfg, f));
  }

  lemma CleanSnoc(cfg: Config, scrub: Scrubbing, kept: Row, f: Field)
    ensures CleanFields(cfg, scrub, kept + [f]) == CleanFields(cfg, scrub, kept) + [CleanField(cfg, scrub, f)]
    ensures MaskedNames(cfg, kept + [f]) == MaskedNames(cfg, kept) + (if cfg.sensitive(f.name) then {f.name} else {})
    ensures ScrubbedNames(cfg, scrub, kept + [f]) ==
            ScrubbedNames(cfg, scrub, kept)
                + (if Scrubs(cfg, f) && scrub(f.value.text) != f.value.text then {f.name} else {})
  {
  }

  method Minimize(cfg: Config, scrub: Scrubbing, rows: seq<Row>, maxRows: Option<int>)
    returns (result: seq<Row>, masked: set<string>, truncated: bool, scrubbed: set<string>)
    ensures result == Minimized(cfg, scrub, rows, maxRows)
    ensures truncated <==> Truncated(cfg, rows, maxRows)
    ensures masked == MaskedIn(cfg, Slice(rows, RowCap(cfg, maxRows)))
    ensures scrubbed == ScrubbedIn(cfg, scrub, Slice(rows, RowCap(cfg, maxRows)))
  {
    hide CleanRows, SomeCut, MaskedIn, ScrubbedIn, CleanRow, Cut, MaskedNames, ScrubbedNames, KeptFields, Slice, RowCap;
    var cap := RowCap(cfg, maxRows);
    truncated := |rows| > cap;
    var taken := Slice(rows, cap);
    result, masked, scrubbed := [], {}, {};
    NoRows(cfg, scrub);
    for i := 0 to |taken|
      invariant result == CleanRows(cfg, scrub, taken[..i])
      invariant truncated <==> |rows| > cap || SomeCut(cfg, taken[..i])
      invariant masked == MaskedIn(cfg, taken[..i])
      invariant scrubbed == ScrubbedIn(cfg, scrub, taken[..i])
    {
      var clean, m, s, cut := MinimizeRow(cfg, scrub, taken[i]);
      assert taken[..i + 1] == taken[..i] + [taken[i]];
      RowsSnoc(cfg, scrub, taken[..i], taken[i]);
      result := result + [clean];
      masked, scrubbed := masked + m, scrubbed + s;
      truncated := truncated || cut;
    }
    assert taken[..|taken|] == taken;
  }

  lemma NoRows(cfg: Config, scrub: Scrubbing)
    ensures CleanRows(cfg, scrub, []) == [] && !SomeCut(cfg, []) && MaskedIn(cfg, []) == {}
            && ScrubbedIn(cfg, scrub, []) == {}
  {
  }

  lemma RowsSnoc(cfg: Config, scrub: Scrubbing, rows: seq<Row>, row: Row)
    ensures CleanRows(cfg, scrub, rows + [row]) == CleanRows(cfg, scrub, rows) + [CleanRow(cfg, scrub, row)]
    ensures SomeCut(cfg, rows + [row]) <==> SomeCut(cfg, rows) || Cut(cfg, row)
    ensures MaskedIn(cfg, rows + [row]) == MaskedIn(cfg, rows) + MaskedNames(cfg, KeptFields(cfg, row))
    ensures ScrubbedIn(cfg, scrub, rows + [row]) ==
            ScrubbedIn(cfg, scrub, rows) + ScrubbedNames(cfg, scrub, KeptFields(cfg, row))
  {
    hide CleanRow, Cut, MaskedNames, ScrubbedNames, KeptFields;
    assert row in rows + [row];
    assert forall x :: x in rows + [row] <==> x in rows || x == row;
  }

  // ---- what the pass promises ----------------------------------------------------------------

  /** The rows that come out are the first ones, as many as the cap in force allows: the requested cap, or the
      configured one where none or zero is requested. A negative cap counts from the end. */
  lemma RowsAreCapped(cfg: Config, scrub: Scrubbing, rows: seq<Row>, maxRows: Option<int>)
    ensures var n := |Minimized(cfg, scrub, rows, maxRows)|;
            var cap := match maxRows case None => cfg.maxRows case Some(m) => if m == 0 then cfg.maxRows else m;
            && (cap >= 0 ==> n == if |rows| <= cap then |rows| else cap)
            && (cap < 0 ==> n == if |rows| + cap <= 0 then 0 else |rows| + cap)
  {
  }

  /** Every field that comes out stands for a field that went in, under its own name, that the allowlist, if there is
      one, admits and the denylist does not forbid; sensitive names carry the mask, free text is scrubbed, and anything
      else is as it was. No cap is exceeded. */
  lemma OutputIsSafe(cfg: Config, scrub: Scrubbing, rows: seq<Row>, maxRows: Option<int>, i: nat)
    requires i < |Minimized(cfg, scrub, rows, maxRows)|
    ensures RowCap(cfg, maxRows) >= 0 ==> |Minimized(cfg, scrub, rows, maxRows)| <= RowCap(cfg, maxRows)
    ensures i < |rows| && |Minimized(cfg, scrub, rows,
                                     maxRows)[i]| <= (if cfg.maxColumns < 0 then 0 else cfg.maxColumns)
    ensures forall f :: f in Minimized(cfg, scrub, rows, maxRows)[i] ==>
              && (cfg.allowlist.Some? ==> f.name in cfg.allowlist.value) && f.name !in cfg.denylist
              && (cfg.sensitive(f.name) ==> f.value == Text("***MASKED***"))
              && exists g ::
                   && g in rows[i] && g.name == f.name
                   && (cfg.sensitive(f.name) ||
                       if g.value.Text? && cfg.freeText(g.name) then f.value == Text(scrub(g.value.text))
                       else f.value == g.value)
  {
    var out := Minimized(cfg, scrub, rows, maxRows)[i];
    var kept := KeptFields(cfg, rows[i]);
    assert out == CleanFields(cfg, scrub, kept);
    forall f | f in out
      ensures Eligible(cfg, f) && exists g :: g in rows[i] && f == CleanField(cfg, scrub, g)
    {
      var k :| 0 <= k < |out| && out[k] == f;
      FilterMember(rows[i], f => Eligible(cfg, f), kept[k]);
      assert kept[k] in EligibleFields(cfg, rows[i]);
    }
  }

  predicate UniqueNames(row: Row) {
    forall i, j :: 0 <= i < j < |row| ==> row[i].name != row[j].name
  }

  /** A field is kept iff it is eligible and fewer eligible fields than the cap come before it. */
  lemma KeptIff(cfg: Config, row: Row, a: nat)
    requires UniqueNames(row) && a < |row|
    ensures row[a] in KeptFields(cfg, row) <==>
            Eligible(cfg, row[a]) && |EligibleFields(cfg, row[..a])| < ColumnCap(cfg)
  {
    var keep := f => Eligible(cfg, f);
    var before, after := row[..a], row[a + 1..];
    assert row == row[..a + 1] + after;
    EligibleSnoc(cfg, row, a);
    FilterConcat(row[..a + 1], after, keep);
    FilterMember(row, keep, row[a]);
    FilterMember(before, keep, row[a]);
    assert row[a] !in before;
    var all, n := EligibleFields(cfg, row), |EligibleFields(cfg, before)|;
    if Eligible(cfg, row[a]) {
      assert all[n] == row[a] && all[..n] == EligibleFields(cfg, before);
      if n >= ColumnCap(cfg) {
        assert forall x :: x in all[..ColumnCap(cfg)] ==> x in all[..n];
      }
    } else {
      assert forall x :: x in KeptFields(cfg, row) ==> x in all;
    }
  }

  /** A kept field stands in the output at the place it has among the eligible ones. */
  lemma KeptInOrder(cfg: Config, scrub: Scrubbing, row: Row, a: nat)
    requires a < |row| && Eligible(cfg, row[a]) && |EligibleFields(cfg, row[..a])| < ColumnCap(cfg)
    ensures var n, out := |EligibleFields(cfg, row[..a])|, CleanRow(cfg, scrub, row);
            n < |out| && out[n] == CleanField(cfg, scrub, row[a]) && out[n].name == row[a].name
  {
    assert row == row[..a + 1] + row[a + 1..];
    EligibleSnoc(cfg, row, a);
    FilterConcat(row[..a + 1], row[a + 1..], f => Eligible(cfg, f));
  }

  /** Reported as masked are exactly the sensitive names that come out, and as scrubbed exactly the names of free text
      that came out changed. */
  lemma ReportedNamesIff(cfg: Config, scrub: Scrubbing, rows: seq<Row>, name: string)
    ensures name in MaskedIn(cfg, rows) <==>
            cfg.sensitive(name) && exists row, f :: row in rows && f in CleanRow(cfg, scrub, row) && f.name == name
    ensures name in ScrubbedIn(cfg, scrub, rows) <==>
            && !cfg.sensitive(name) && cfg.freeText(name)
            && exists row, g :: row in rows && g in KeptFields(cfg, row) && g.name == name
                                && g.value.Text? && scrub(g.value.text) != g.value.text
  {
    hide KeptFields;
    forall row, f | row in rows && f in CleanRow(cfg, scrub, row) && f.name == name && cfg.sensitive(name)
      ensures name in MaskedIn(cfg, rows)
    {
      var kept, out := KeptFields(cfg, row), CleanRow(cfg, scrub, row);
      var k :| 0 <= k < |out| && out[k] == f;
      assert kept[k] in kept && name in MaskedNames(cfg, kept);
    }
    if name in MaskedIn(cfg, rows) {
      var row :| row in rows && name in MaskedNames(cfg, KeptFields(cfg, row));
      var kept, out := KeptFields(cfg, row), CleanRow(cfg, scrub, row);
      var k :| 0 <= k < |kept| && kept[k].name == name && cfg.sensitive(name);
      assert out[k] in out && out[k].name == name;
    }
    forall row, g | row in rows && g in KeptFields(cfg, row) && Scrubs(cfg, g) && scrub(g.value.text) != g.value.text
      ensures g.name in ScrubbedIn(cfg, scrub, rows)
    {
      assert g.name in ScrubbedNames(cfg, scrub, KeptFields(cfg, row));
    }
  }

  /** A cap left something out: a row, or an eligible field of a row that came through. */
  predicate SomethingDropped(cfg: Config, rows: seq<Row>, maxRows: Option<int>) {
    var taken := Slice(rows, RowCap(cfg, maxRows));
    |taken| < |rows| || exists row :: row in taken && |KeptFields(cfg, row)| < |EligibleFields(cfg, row)|
  }

  /** The flag is exact iff the row cap is not negative or there is a row: a negative cap is exceeded by no rows
      at all. */
  lemma TruncatedIffDropped(cfg: Config, rows: seq<Row>, maxRows: Option<int>)
    ensures (Truncated(cfg, rows, maxRows) <==> SomethingDropped(cfg, rows, maxRows)) <==>
            RowCap(cfg, maxRows) >= 0 || rows != []
  {
    var taken := Slice(rows, RowCap(cfg, maxRows));
    assert forall row :: row in taken ==> (Cut(cfg, row) <==> |KeptFields(cfg, row)| < |EligibleFields(cfg, row)|);
    if rows == [] {
      assert taken == [];
    }
  }

  lemma CleanRowIsFixed(cfg: Config, scrub: Scrubbing, row: Row)
    requires forall t :: scrub(scrub(t)) == scrub(t)
    ensures var out := CleanRow(cfg, scrub, row);
            CleanRow(cfg, scrub, out) == out && !Cut(cfg, out)
  {
    var kept := KeptFields(cfg, row);
    var out := CleanRow(cfg, scrub, row);
    forall k | 0 <= k < |out| ensures Eligible(cfg, out[k]) {
      FilterMember(row, f => Eligible(cfg, f), kept[k]);
      assert kept[k] in EligibleFields(cfg, row);
    }
    FilterKeepsAll(out, f => Eligible(cfg, f));
  }

  /** A second pass changes nothing, and drops nothing, iff the row cap is not negative or the first pass left no
      rows. */
  lemma IdempotentIff(cfg: Config, scrub: Scrubbing, rows: seq<Row>, maxRows: Option<int>)
    requires forall t :: scrub(scrub(t)) == scrub(t)
    ensures var once := Minimized(cfg, scrub, rows, maxRows);
            && (Minimized(cfg, scrub, once, maxRows) == once <==>
                RowCap(cfg, maxRows) >= 0 || |rows| + RowCap(cfg, maxRows) <= 0)
            && (RowCap(cfg, maxRows) >= 0 ==> !Truncated(cfg, once, maxRows))
  {
    hide CleanRow, Cut, RowCap;
    var cap := RowCap(cfg, maxRows);
    var taken := Slice(rows, cap);
    var once := Minimized(cfg, scrub, rows, maxRows);
    forall i | 0 <= i < |once| ensures CleanRow(cfg, scrub, once[i]) == once[i] && !Cut(cfg, once[i]) {
      CleanRowIsFixed(cfg, scrub, taken[i]);
    }
    if cap >= 0 || |rows| + cap <= 0 {
      assert Slice(once, cap) == once;
    } else {
      assert |Slice(once, cap)| < |once|;
    }
  }

  /** With the fallback scrubber the pass is idempotent, whatever the rows hold. */
  lemma FallbackPassIsIdempotent(cl: Scrubber.Classes, cfg: Config, rows: seq<Row>, maxRows: Option<int>)
    requires RowCap(cfg, maxRows) >= 0
    ensures var scrub := t => Scrubber.Scrub(cl, t);
            Minimized(cfg, scrub, Minimized(cfg, scrub, rows, maxRows), maxRows) == Minimized(cfg, scrub, rows, maxRows)
  {
    var scrub := t => Scrubber.Scrub(cl, t);
    forall t ensures scrub(scrub(t)) == scrub(t) {
      Scrubber.ScrubIsIdempotent(cl, t);
    }
    IdempotentIff(cfg, scrub, rows, maxRows);
  }
}
