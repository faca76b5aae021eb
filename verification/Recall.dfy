/** Recalling earlier findings about a server (src/numi/gateway/domain/investigation_store.py and
    src/numi/gateway/domain/investigation_memory.py): fetch a few rows too many, then filter and cut. */
module Recall {
  import opened Basics
  import opened Sequences

  datatype Record = Record(id: string, serverId: string, status: string, created: int, findings: seq<string>)

  const OVER_FETCH: nat := 4

  /** An absent id and an empty one both exclude nothing. */
  predicate Excludes(exclude: Option<string>) {
    exclude.Some? && exclude.value != ""
  }

  predicate Excluded(exclude: Option<string>, r: Record) {
    Excludes(exclude) && r.id == exclude.value
  }

  /** The rows of one server; `table` is the whole table, newest first. */
  function OfServer(table: seq<Record>, serverId: string): seq<Record> {
    Filter(table, (r: Record) => r.serverId == serverId)
  }

  function RecentForServer(table: seq<Record>, serverId: string, limit: nat, exclude: Option<string>): seq<Record> {
    var fetched := Take(OfServer(table, serverId), if Excludes(exclude) then limit + 1 else limit);
    if Excludes(exclude) then Take(Filter(fetched, (r: Record) => r.id != exclude.value), limit) else fetched
  }

  predicate Concluded(r: Record) {
    "CONCLUDED" <= r.status
  }

  /** `reachable` is whether the lookup succeeds: a failed one recalls nothing. */
  function RecallFindings(table: seq<Record>, serverId: string, exclude: Option<string>, limit: int,
                          reachable: bool): seq<Record> {
    if limit <= 0 || !reachable then []
    else Take(Filter(RecentForServer(table, serverId, limit * OVER_FETCH, exclude), Concluded), limit)
  }

  // ---- the exact answers ---------------------------------------------------------------------

  /** Investigation ids are the table's primary key. */
  predicate UniqueIds(rows: seq<Record>) {
    forall i, j :: 0 <= i < j < |rows| ==> rows[i].id != rows[j].id
  }

  predicate NewestFirst(rows: seq<Record>) {
    forall i, j :: 0 <= i < j < |rows| ==> rows[i].created >= rows[j].created
  }

  /** Every row of the server but the excluded one. */
  function Others(table: seq<Record>, serverId: string, exclude: Option<string>): seq<Record> {
    Filter(OfServer(table, serverId), (r: Record) => !Excluded(exclude, r))
  }

  function ExactRecall(table: seq<Record>, serverId: string, exclude: Option<string>, limit: nat): seq<Record> {
    Take(Filter(Others(table, serverId, exclude), Concluded), limit)
  }

  lemma {:induction false} FilterKeepsOrder(rows: seq<Record>, keep: Record -> bool)
    ensures UniqueIds(rows) ==> UniqueIds(Filter(rows, keep))
    ensures NewestFirst(rows) ==> NewestFirst(Filter(rows, keep))
  {
    if rows != [] {
      var rest := Filter(rows[1..], keep);
      FilterKeepsOrder(rows[1..], keep);
      forall k | 0 <= k < |rest|
        ensures (UniqueIds(rows) ==> rest[k].id != rows[0].id)
                && (NewestFirst(rows) ==> rest[k].created <= rows[0].created)
      {
        FilterMember(rows[1..], keep, rest[k]);
      }
    }
  }

  /** One row more than needed is enough to make up for one excluded row. */
  lemma {:induction false} FetchOneMore(rows: seq<Record>, id: string, limit: nat)
    requires UniqueIds(rows)
    ensures var other := (r: Record) => r.id != id;
            Take(Filter(Take(rows, limit + 1), other), limit) == Take(Filter(rows, other), limit)
  {
    var other := (r: Record) => r.id != id;
    if |rows| > limit + 1 {
      var front, rest := rows[..limit + 1], rows[1..];
      assert front[1..] == rest[..limit];
      if rows[0].id == id {
        FilterKeepsAll(rest, other);
        FilterKeepsAll(rest[..limit], other);
      } else if limit > 0 {
        FetchOneMore(rest, id, limit - 1);
        TakeCons(rows[0], Filter(rest[..limit], other), limit);
        TakeCons(rows[0], Filter(rest, other), limit);
      }
    }
  }

  lemma TakeCons(x: Record, rows: seq<Record>, n: nat)
    requires n > 0
    ensures Take([x] + rows, n) == [x] + Take(rows, n - 1)
  {
  }

  /** Fetching one row too many and then excluding is excluding first and then taking `limit`. */
  lemma RecentIsExact(table: seq<Record>, serverId: string, limit: nat, exclude: Option<string>)
    requires UniqueIds(table)
    ensures RecentForServer(table, serverId, limit, exclude) == Take(Others(table, serverId, exclude), limit)
  {
    var rows := OfServer(table, serverId);
    FilterKeepsOrder(table, (r: Record) => r.serverId == serverId);
    if Excludes(exclude) {
      FetchOneMore(rows, exclude.value, limit);
      FilterAlike(rows, (r: Record) => r.id != exclude.value, (r: Record) => !Excluded(exclude, r));
    } else {
      FilterKeepsAll(rows, (r: Record) => !Excluded(exclude, r));
    }
  }

  /** Filtering the first rows only: what is found is a prefix of what there is, and all of it iff there is
      enough of it among the first rows or none of it after them. */
  lemma CutFilterIsPrefix(rows: seq<Record>, keep: Record -> bool, fetch: nat, limit: nat)
    ensures Take(Filter(Take(rows, fetch), keep), limit) <= Take(Filter(rows, keep), limit)
    ensures Take(Filter(Take(rows, fetch), keep), limit) == Take(Filter(rows, keep), limit) <==>
            |Filter(Take(rows, fetch), keep)| >= limit || |rows| <= fetch || forall x :: x in rows[fetch..] ==> !keep(x)
  {
    if |rows| > fetch {
      var first, after := rows[..fetch], rows[fetch..];
      assert rows == first + after;
      FilterConcat(first, after, keep);
      NoneFoundIff(after, keep);
      CutOfConcat(Filter(first, keep), Filter(after, keep), limit);
    }
  }

  lemma CutOfConcat(found: seq<Record>, rest: seq<Record>, limit: nat)
    ensures Take(found, limit) <= Take(found + rest, limit)
    ensures Take(found, limit) == Take(found + rest, limit) <==> |found| >= limit || rest == []
  {
    if |found| < limit {
      assert |Take(found + rest, limit)| == if |found| + |rest| <= limit then |found| + |rest| else limit;
      assert rest == [] ==> found + rest == found;
    }
  }

  /** Recall returns a prefix of the exact answer. It is the whole answer iff enough of the first 4 * limit
      rows are concluded or none after them is. */
  lemma RecallIsExactIff(table: seq<Record>, serverId: string, exclude: Option<string>, limit: nat)
    requires UniqueIds(table)
    ensures RecallFindings(table, serverId, exclude, limit, true) <= ExactRecall(table, serverId, exclude, limit)
    ensures var others := Others(table, serverId, exclude);
            RecallFindings(table, serverId, exclude, limit, true) == ExactRecall(table, serverId, exclude, limit) <==>
            || |Filter(Take(others, 4 * limit), Concluded)| >= limit
            || |others| <= 4 * limit
            || forall x :: x in others[4 * limit..] ==> !Concluded(x)
  {
    hide Filter, Others, RecentForServer;
    RecentIsExact(table, serverId, limit * OVER_FETCH, exclude);
    CutFilterIsPrefix(Others(table, serverId, exclude), Concluded, limit * OVER_FETCH, limit);
  }

  /** What recall returns is concluded, about this server and not the excluded one; and nothing of that kind
      that it leaves out is newer than what it returns. */
  lemma RecallIsNewest(table: seq<Record>, serverId: string, exclude: Option<string>, limit: int, reachable: bool,
                       r: Record)
    requires UniqueIds(table) && NewestFirst(table)
    requires r in RecallFindings(table, serverId, exclude, limit, reachable)
    ensures r in table && r.serverId == serverId && "CONCLUDED" <= r.status
    ensures exclude.Some? && exclude.value != "" ==> r.id != exclude.value
    ensures forall x :: x in table && x.serverId == serverId && "CONCLUDED" <= x.status
                        && (exclude.Some? && exclude.value != "" ==> x.id != exclude.value) ==>
              x in RecallFindings(table, serverId, exclude, limit, reachable) || x.created <= r.created
  {
    hide RecallFindings;
    var found := RecallFindings(table, serverId, exclude, limit, reachable);
    var all := Filter(Others(table, serverId, exclude), Concluded);
    RecallIsLimited(table, serverId, exclude, limit, reachable);
    RecallIsExactIff(table, serverId, exclude, limit);
    OthersMember(table, serverId, exclude, r);
    assert found <= all;
    forall x | x in table && x.serverId == serverId && Concluded(x) && !Excluded(exclude, x) && x !in found
      ensures x.created <= r.created
    {
      OthersMember(table, serverId, exclude, x);
      OthersInOrder(table, serverId, exclude);
      NotInPrefix(found, all, r, x);
    }
  }

  lemma NotInPrefix(found: seq<Record>, all: seq<Record>, r: Record, x: Record)
    requires found <= all && NewestFirst(all) && r in found && x in all && x !in found
    ensures x.created <= r.created
  {
    var i :| 0 <= i < |all| && all[i] == x;
    var j :| 0 <= j < |found| && found[j] == r;
    assert all[j] == r;
  }

  lemma OthersInOrder(table: seq<Record>, serverId: string, exclude: Option<string>)
    requires NewestFirst(table)
    ensures NewestFirst(Filter(Others(table, serverId, exclude), Concluded))
  {
    FilterKeepsOrder(table, (r: Record) => r.serverId == serverId);
    FilterKeepsOrder(OfServer(table, serverId), (r: Record) => !Excluded(exclude, r));
    FilterKeepsOrder(Others(table, serverId, exclude), Concluded);
  }

  lemma OthersMember(table: seq<Record>, serverId: string, exclude: Option<string>, x: Record)
    ensures x in Filter(Others(table, serverId, exclude), Concluded) <==>
            x in table && x.serverId == serverId && Concluded(x) && !Excluded(exclude, x)
  {
    FilterMember(table, (r: Record) => r.serverId == serverId, x);
    FilterMember(OfServer(table, serverId), (r: Record) => !Excluded(exclude, r), x);
    FilterMember(Others(table, serverId, exclude), Concluded, x);
  }

  /** A limit that is not positive and a failed lookup recall nothing; otherwise no more than the limit comes back. */
  lemma RecallIsLimited(table: seq<Record>, serverId: string, exclude: Option<string>, limit: int, reachable: bool)
    ensures limit <= 0 || !reachable ==> RecallFindings(table, serverId, exclude, limit, reachable) == []
    ensures limit > 0 ==> |RecallFindings(table, serverId, exclude, limit, reachable)| <= limit
  {
  }
}
