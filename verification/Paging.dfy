// The inbox's read side: `list`, `matches` and `pageSize` of
// src/adapters/persistence/file-submission-inbox-store.ts and `list` and `whereFrom` of
// src/adapters/persistence/postgres-submission-inbox-store.ts, over one shared order of strings.
module Paging {
  import opened Common
  import opened InboxRecord

  datatype Kind = TextKind | AudioKind

  datatype Status = RECEIVED

  /** A number as JavaScript has them. */
  datatype Number = NotANumber | Infinite | Finite(x: real)

  datatype Query = Query(status: Option<Status>, kind: Option<Kind>, questionId: Option<string>, limit: Option<Number>)

  datatype Entry = Entry(record: Record, status: Status)

  datatype Page = Page(entries: seq<Entry>, total: nat)

  const MAX_INBOX_PAGE_SIZE: nat := 200

  /** The order both adapters sort strings by: a strict total order. */
  type Less = (string, string) -> bool

  ghost predicate TotalOrder(less: Less) {
    && (forall a :: !less(a, a))
    && (forall a, b :: a == b || less(a, b) || less(b, a))
    && (forall a, b, c :: less(a, b) && less(b, c) ==> less(a, c))
  }

  // ---------------------------------------------------------------- the file adapter

  function KindOf(r: Record): Kind {
    if r.payload.TextPayload? then TextKind else AudioKind
  }

  /** Exact equality on every supplied filter. The file carries no status: every record counts as received. */
  predicate Matches(r: Record, q: Query) {
    && (q.questionId.Some? ==> r.questionId == q.questionId.value)
    && (q.kind.Some? ==> KindOf(r) == q.kind.value)
    && (q.status.Some? ==> RECEIVED == q.status.value)
  }

  function PageSize(limit: Option<Number>): (size: nat)
    ensures 1 <= size <= MAX_INBOX_PAGE_SIZE
  {
    match limit
    case Some(Finite(x)) =>
      if x.Floor as real != x || x <= 0.0 || x.Floor > MAX_INBOX_PAGE_SIZE then MAX_INBOX_PAGE_SIZE else x.Floor
    case _ => MAX_INBOX_PAGE_SIZE
  }

  /** `r` belongs before `s`: received later, or at the same time with the greater id. */
  predicate Newer(r: Record, s: Record, less: Less) {
    || less(s.receipt.receivedAt, r.receipt.receivedAt)
    || (r.receipt.receivedAt == s.receipt.receivedAt && less(s.submissionId, r.submissionId))
  }

  /** A stable sort by insertion: each record goes after everything that is not older. */
  function Insert(sorted: seq<Record>, r: Record, less: Less): seq<Record> {
    if sorted == [] || !Newer(r, Last(sorted), less) then sorted + [r]
    else Insert(Init(sorted), r, less) + [Last(sorted)]
  }

  function NewestFirst(records: seq<Record>, less: Less): seq<Record> {
    if records == [] then [] else Insert(NewestFirst(Init(records), less), Last(records), less)
  }

  function Matching(records: seq<Record>, q: Query): seq<Record> {
    Filter(records, (r: Record) => Matches(r, q))
  }

  function Slice<T>(s: seq<T>, n: nat): seq<T> {
    if |s| <= n then s else s[..n]
  }

  function Entries(records: seq<Record>): (entries: seq<Entry>)
    ensures |entries| == |records|
  {
    seq(|records|, i requires 0 <= i < |records| => Entry(records[i], RECEIVED))
  }

  /** The page the file adapter answers with. */
  function List(records: seq<Record>, q: Query, less: Less): Page {
    var matching := NewestFirst(Matching(records, q), less);
    Page(Entries(Slice(matching, PageSize(q.limit))), |matching|)
  }

  // ---------------------------------------------------------------- one fixed order

  predicate Ordered(s: seq<Record>, less: Less) {
    forall i, j :: 0 <= i < j < |s| ==> !Newer(s[j], s[i], less)
  }

  lemma NewerIsTransitive(a: Record, b: Record, c: Record, less: Less)
    requires TotalOrder(less)
    ensures !Newer(b, a, less) && !Newer(c, b, less) ==> !Newer(c, a, less)
    ensures Newer(a, b, less) ==> !Newer(b, a, less)
  {
    var x, y, z := a.receipt.receivedAt, b.receipt.receivedAt, c.receipt.receivedAt;
    assert x == y || less(x, y) || less(y, x);
    assert y == z || less(y, z) || less(z, y);
    assert a.submissionId == b.submissionId || less(a.submissionId, b.submissionId)
      || less(b.submissionId, a.submissionId);
    assert b.submissionId == c.submissionId || less(b.submissionId, c.submissionId)
      || less(c.submissionId, b.submissionId);
  }

  lemma {:induction false} InsertContents(sorted: seq<Record>, r: Record, less: Less)
    ensures multiset(Insert(sorted, r, less)) == multiset(sorted) + multiset{r}
  {
    if sorted != [] {
      assert sorted == Init(sorted) + [Last(sorted)];
      InsertContents(Init(sorted), r, less);
    }
  }

  lemma {:induction false} InsertIs(sorted: seq<Record>, r: Record, less: Less)
    requires TotalOrder(less) && Ordered(sorted, less)
    ensures Ordered(Insert(sorted, r, less), less)
  {
    if sorted != [] {
      InitKeeps(sorted, less);
      if Newer(r, Last(sorted), less) {
        InsertIs(Init(sorted), r, less);
        LastStaysLast(sorted, r, less);
        OrderedBefore(Insert(Init(sorted), r, less), Last(sorted), less);
      } else {
        forall i | 0 <= i < |sorted| ensures !Newer(r, sorted[i], less) {
          NewerIsTransitive(sorted[i], Last(sorted), r, less);
        }
        OrderedBefore(sorted, r, less);
      }
    }
  }

  /** `last` belongs before none of these. */
  predicate BelongsBehind(last: Record, s: seq<Record>, less: Less) {
    forall i :: 0 <= i < |s| ==> !Newer(last, s[i], less)
  }

  lemma OrderedBefore(s: seq<Record>, last: Record, less: Less)
    requires Ordered(s, less) && BelongsBehind(last, s, less)
    ensures Ordered(s + [last], less)
  {
    var t := s + [last];
    forall i, j | 0 <= i < j < |t| ensures !Newer(t[j], t[i], less) {
      assert t[i] == s[i];
    }
  }

  lemma LastStaysLast(sorted: seq<Record>, r: Record, less: Less)
    requires TotalOrder(less) && Ordered(sorted, less) && sorted != [] && Newer(r, Last(sorted), less)
    ensures BelongsBehind(Last(sorted), Insert(Init(sorted), r, less), less)
  {
    var t := Insert(Init(sorted), r, less);
    InsertContents(Init(sorted), r, less);
    NewerIsTransitive(r, Last(sorted), r, less);
    forall i | 0 <= i < |t| ensures !Newer(Last(sorted), t[i], less) {
      assert t[i] in multiset(t);
      if t[i] != r {
        assert t[i] in multiset(Init(sorted));
        var k :| 0 <= k < |sorted| - 1 && sorted[k] == t[i];
      }
    }
  }

  /** The sort orders, and loses and invents nothing. */
  lemma {:induction false} NewestFirstIs(records: seq<Record>, less: Less)
    requires TotalOrder(less)
    ensures Ordered(NewestFirst(records, less), less)
    ensures multiset(NewestFirst(records, less)) == multiset(records)
  {
    if records != [] {
      NewestFirstIs(Init(records), less);
      InsertIs(NewestFirst(Init(records), less), Last(records), less);
      InsertContents(NewestFirst(Init(records), less), Last(records), less);
      assert records == Init(records) + [Last(records)];
    }
  }

  /** No two records share both sort keys. */
  predicate DistinctKeys(s: seq<Record>) {
    forall i, j :: 0 <= i < |s| && 0 <= j < |s| && SameKey(s[i], s[j]) ==> s[i] == s[j]
  }

  predicate SameKey(r: Record, s: Record) {
    r.receipt.receivedAt == s.receipt.receivedAt && r.submissionId == s.submissionId
  }

  /** There is one ordered arrangement of given records - wherever equal keys mean equal records. */
  lemma {:induction false} OneOrder(s: seq<Record>, t: seq<Record>, less: Less)
    requires TotalOrder(less) && Ordered(s, less) && Ordered(t, less) && multiset(s) == multiset(t) && DistinctKeys(s)
    ensures s == t
    decreases |s|
  {
    SameSize(s, t);
    if s != [] {
      LastsAgree(s, t, less);
      InitsAgree(s, t);
      InitKeeps(s, less);
      InitKeeps(t, less);
      OneOrder(Init(s), Init(t), less);
      assert s == Init(s) + [Last(s)] && t == Init(t) + [Last(t)];
    }
  }

  lemma SameSize(s: seq<Record>, t: seq<Record>)
    requires multiset(s) == multiset(t)
    ensures |s| == |t|
  {
    assert |s| == |multiset(s)| && |t| == |multiset(t)|;
  }

  lemma InitsAgree(s: seq<Record>, t: seq<Record>)
    requires multiset(s) == multiset(t) && s != [] && t != [] && Last(s) == Last(t)
    ensures multiset(Init(s)) == multiset(Init(t))
  {
    assert s == Init(s) + [Last(s)] && t == Init(t) + [Last(t)];
    assert multiset(Init(s)) == multiset(s) - multiset{Last(s)};
    assert multiset(Init(t)) == multiset(t) - multiset{Last(t)};
  }

  lemma InitKeeps(s: seq<Record>, less: Less)
    requires s != [] && Ordered(s, less)
    ensures Ordered(Init(s), less) && (DistinctKeys(s) ==> DistinctKeys(Init(s)))
  {
    assert forall k :: 0 <= k < |s| - 1 ==> Init(s)[k] == s[k];
  }

  lemma LastsAgree(s: seq<Record>, t: seq<Record>, less: Less)
    requires TotalOrder(less) && Ordered(s, less) && Ordered(t, less) && multiset(s) == multiset(t) && DistinctKeys(s)
    requires s != [] && t != []
    ensures Last(s) == Last(t)
  {
    assert Last(t) in multiset(t) && Last(s) in multiset(s);
    var i :| 0 <= i < |s| && s[i] == Last(t);
    var j :| 0 <= j < |t| && t[j] == Last(s);
    if Last(s) != Last(t) {
      assert !Newer(Last(s), s[i], less) && !Newer(Last(t), t[j], less);
      NotNewerBothWays(Last(s), Last(t), less);
    }
  }

  lemma NotNewerBothWays(r: Record, s: Record, less: Less)
    requires TotalOrder(less) && !Newer(r, s, less) && !Newer(s, r, less)
    ensures SameKey(r, s)
  {
    var x, y := r.receipt.receivedAt, s.receipt.receivedAt;
    assert x == y || less(x, y) || less(y, x);
    assert r.submissionId == s.submissionId || less(r.submissionId, s.submissionId)
      || less(s.submissionId, r.submissionId);
  }

  // ---------------------------------------------------------------- independence of the file's order

  lemma MatchingIs(records: seq<Record>, q: Query, r: Record)
    ensures multiset(Matching(records, q))[r] == if Matches(r, q) then multiset(records)[r] else 0
  {
    FilterCount(records, (x: Record) => Matches(x, q), r);
  }

  lemma SameMatching(records: seq<Record>, records': seq<Record>, q: Query)
    requires multiset(records) == multiset(records')
    ensures multiset(Matching(records, q)) == multiset(Matching(records', q))
  {
    forall r ensures multiset(Matching(records, q))[r] == multiset(Matching(records', q))[r] {
      MatchingIs(records, q, r);
      MatchingIs(records', q, r);
    }
  }

  /** The sort keeps records with equal keys in the order it found them. */
  lemma {:induction false} InsertIsStable(sorted: seq<Record>, r: Record, key: Record, less: Less)
    requires TotalOrder(less)
    ensures Filter(Insert(sorted, r, less), (x: Record) => SameKey(x, key))
            == Filter(sorted, (x: Record) => SameKey(x, key)) + if SameKey(r, key) then [r] else []
  {
    if sorted == [] || !Newer(r, Last(sorted), less) {
      assert Init(sorted + [r]) == sorted;
    } else {
      InsertIsStable(Init(sorted), r, key, less);
      var t := Insert(Init(sorted), r, less);
      assert Init(t + [Last(sorted)]) == t;
      NewerHasOtherKey(r, Last(sorted), less);
    }
  }

  lemma NewerHasOtherKey(r: Record, s: Record, less: Less)
    requires TotalOrder(less) && Newer(r, s, less)
    ensures !SameKey(r, s)
  {
  }

  lemma {:induction false} SortIsStable(records: seq<Record>, key: Record, less: Less)
    requires TotalOrder(less)
    ensures Filter(NewestFirst(records, less), (x: Record) => SameKey(x, key))
        == Filter(records, (x: Record) => SameKey(x, key))
  {
    if records != [] {
      SortIsStable(Init(records), key, less);
      InsertIsStable(NewestFirst(Init(records), less), Last(records), key, less);
    }
  }

  /** One record's copies moved to the front: another arrangement of the same records. */
  function Fronted(records: seq<Record>, r: Record): seq<Record> {
    Filter(records, (x: Record) => x == r) + Filter(records, (x: Record) => x != r)
  }

  lemma FrontedIs(records: seq<Record>, r: Record)
    requires r in records
    ensures multiset(Fronted(records, r)) == multiset(records)
    ensures Filter(Fronted(records, r), (x: Record) => SameKey(x, r)) != []
            && Filter(Fronted(records, r), (x: Record) => SameKey(x, r))[0] == r
  {
    var only, others, same := (x: Record) => x == r, (x: Record) => x != r, (x: Record) => SameKey(x, r);
    forall x ensures multiset(Fronted(records, r))[x] == multiset(records)[x] {
      FilterCount(records, only, x);
      FilterCount(records, others, x);
    }
    FilterAppend(Filter(records, only), Filter(records, others), same);
    var front := Filter(Filter(records, only), same);
    assert r in Filter(records, only) && r in front;
    assert front[0] in front;
  }

  /** The order of the whole answer depends on nothing but what is stored - not on the order of the file -
      exactly when no two different records share receivedAt and submissionId. */
  lemma OrderIsFixedExactlyWhen(records: seq<Record>, less: Less)
    requires TotalOrder(less)
    ensures (forall records' :: multiset(records') == multiset(records) ==>
        NewestFirst(records', less) == NewestFirst(records, less))
            <==> DistinctKeys(records)
  {
    if DistinctKeys(records) {
      forall records' | multiset(records') == multiset(records)
        ensures NewestFirst(records', less) == NewestFirst(records, less) {
        SortsAgree(records, records', less);
      }
    } else {
      var i, j :| 0 <= i < |records| && 0 <= j < |records| && SameKey(records[i], records[j])
        && records[i] != records[j];
      var r, s := records[i], records[j];
      FrontedIs(records, r);
      FrontedIs(records, s);
      SortIsStable(Fronted(records, r), r, less);
      SortIsStable(Fronted(records, s), s, less);
      SameFilter(NewestFirst(Fronted(records, s), less), r, s);
      assert NewestFirst(Fronted(records, r), less) != NewestFirst(Fronted(records, s), less);
    }
  }

  lemma SameFilter(records: seq<Record>, r: Record, s: Record)
    requires SameKey(r, s)
    ensures Filter(records, (x: Record) => SameKey(x, r)) == Filter(records, (x: Record) => SameKey(x, s))
  {
    FilterSame(records, (x: Record) => SameKey(x, r), (x: Record) => SameKey(x, s));
  }

  lemma SortsAgree(records: seq<Record>, records': seq<Record>, less: Less)
    requires TotalOrder(less) && DistinctKeys(records) && multiset(records') == multiset(records)
    ensures NewestFirst(records', less) == NewestFirst(records, less)
  {
    NewestFirstIs(records, less);
    NewestFirstIs(records', less);
    DistinctKeysKept(records, NewestFirst(records, less));
    OneOrder(NewestFirst(records, less), NewestFirst(records', less), less);
  }

  lemma DistinctKeysKept(s: seq<Record>, t: seq<Record>)
    requires DistinctKeys(s) && multiset(s) == multiset(t)
    ensures DistinctKeys(t)
  {
    forall i, j | 0 <= i < |t| && 0 <= j < |t| && SameKey(t[i], t[j]) ensures t[i] == t[j] {
      assert t[i] in multiset(s) && t[j] in multiset(s);
      var k :| 0 <= k < |s| && s[k] == t[i];
      var l :| 0 <= l < |s| && s[l] == t[j];
    }
  }

  lemma DistinctIdsAreDistinctKeys(records: seq<Record>, q: Query)
    requires DistinctIds(records)
    ensures DistinctKeys(records) && DistinctKeys(Matching(records, q))
  {
    forall i, j | 0 <= i < |Matching(records, q)| && 0 <= j < |Matching(records, q)|
      && SameKey(Matching(records, q)[i], Matching(records, q)[j])
      ensures Matching(records, q)[i] == Matching(records, q)[j]
    {
      assert Matching(records, q)[i] in records && Matching(records, q)[j] in records;
    }
  }

  predicate DistinctIds(records: seq<Record>) {
    forall i, j :: 0 <= i < j < |records| ==> records[i].submissionId != records[j].submissionId
  }

  // ---------------------------------------------------------------- pages

  /** `ORDER BY received_at DESC, submission_id DESC`: `r` may be listed before `s`. */
  predicate MayPrecede(r: Record, s: Record, less: Less) {
    || less(s.receipt.receivedAt, r.receipt.receivedAt)
    || (s.receipt.receivedAt == r.receipt.receivedAt && !less(r.submissionId, s.submissionId))
  }

  predicate LatestFirst(s: seq<Record>, less: Less) {
    forall i, j :: 0 <= i < j < |s| ==> MayPrecede(s[i], s[j], less)
  }

  /** The sort's comparison says just that. */
  lemma OrderedIsLatestFirst(s: seq<Record>, less: Less)
    requires TotalOrder(less)
    ensures Ordered(s, less) <==> LatestFirst(s, less)
  {
    forall r, t ensures MayPrecede(r, t, less) <==> !Newer(t, r, less) {
      var x, y := r.receipt.receivedAt, t.receipt.receivedAt;
      assert x == y || less(x, y) || less(y, x);
    }
  }

  /** A page is a prefix of that order: the first `PageSize` of all exact matches, latest first, and a total that
      does not depend on the limit. */
  lemma PageIsAPrefix(records: seq<Record>, q: Query, less: Less)
    requires TotalOrder(less)
    ensures var whole := NewestFirst(Matching(records, q), less);
            var page := List(records, q, less);
            && LatestFirst(whole, less) && multiset(whole) == multiset(Matching(records, q))
            && (forall r :: r in whole <==> r in records && Matches(r, q))
            && page.total == |whole|
            && |page.entries| == (if page.total < PageSize(q.limit) then page.total else PageSize(q.limit))
            && forall i :: 0 <= i < |page.entries| ==> page.entries[i] == Entry(whole[i], RECEIVED)
  {
    NewestFirstIs(Matching(records, q), less);
    var whole := NewestFirst(Matching(records, q), less);
    forall r ensures r in whole <==> r in records && Matches(r, q) {
      assert r in whole <==> r in multiset(whole);
      assert r in Matching(records, q) <==> r in multiset(Matching(records, q));
    }
    SameSize(whole, Matching(records, q));
    OrderedIsLatestFirst(whole, less);
  }

  /** What a reader sees, field by field: down the page received times fall, and submission ids where the times are
      equal; everything on it is stored and matches, and no stored match left off it is later than any entry on it. */
  lemma LatestOnTop(records: seq<Record>, q: Query, less: Less)
    requires TotalOrder(less)
    ensures var entries := List(records, q, less).entries;
            && (forall i, j :: 0 <= i < j < |entries| ==> MayPrecede(entries[i].record, entries[j].record, less))
            && (forall i :: 0 <= i < |entries| ==> entries[i].record in records && Matches(entries[i].record, q))
            && (forall i, r :: 0 <= i < |entries| && r in records && Matches(r, q) && Entry(r, RECEIVED) !in entries ==>
                  MayPrecede(entries[i].record, r, less))
  {
    PageIsAPrefix(records, q, less);
    var whole, entries := NewestFirst(Matching(records, q), less), List(records, q, less).entries;
    forall i | 0 <= i < |entries| ensures entries[i].record in whole && Entry(whole[i], RECEIVED) in entries {
      assert entries[i] == Entry(whole[i], RECEIVED);
    }
    forall i, r | 0 <= i < |entries| && r in records && Matches(r, q) && Entry(r, RECEIVED) !in entries
      ensures MayPrecede(entries[i].record, r, less)
    {
      var k :| 0 <= k < |whole| && whole[k] == r;
      assert k >= |entries|;
    }
  }

  /** A limit is honoured exactly when it is a whole number a page can hold; every other one - absent, zero,
      negative, fractional, infinite, no number - shows as much as a page can, never nothing. */
  lemma LimitHonouredExactlyWhen(limit: Option<Number>, n: nat)
    requires n < MAX_INBOX_PAGE_SIZE
    ensures PageSize(limit) == n <==> n > 0 && limit == Some(Finite(n as real))
  {
    if limit.Some? && limit.value.Finite? {
      var x := limit.value.x;
      assert PageSize(limit) == n ==> x.Floor == n && x.Floor as real == x;
      assert (n as real).Floor == n;
    }
  }

  /** Asking for more only extends what was shown. */
  lemma LargerLimitsExtend(records: seq<Record>, q: Query, limit: Option<Number>, less: Less)
    requires PageSize(q.limit) <= PageSize(limit)
    ensures List(records, q, less).entries <= List(records, q.(limit := limit), less).entries
    ensures List(records, q, less).total == List(records, q.(limit := limit), less).total
  {
    var q' := q.(limit := limit);
    FilterSame(records, (r: Record) => Matches(r, q), (r: Record) => Matches(r, q'));
    assert Matching(records, q') == Matching(records, q);
  }

  // ---------------------------------------------------------------- the SQL adapter

  datatype Column = QuestionIdColumn | KindColumn | StatusColumn

  /** A bound parameter, and a condition `column = $n`. */
  datatype Value = TextValue(s: string) | KindValue(k: Kind) | StatusValue(t: Status) | IntValue(n: nat)

  datatype Clause = Clause(column: Column, parameter: nat)

  datatype Row = Row(record: Record, status: Status)

  datatype Where = Where(clauses: seq<Clause>, values: seq<Value>)

  /** What a condition means when the values are bound by position, `$1` first. */
  predicate Holds(clause: Clause, values: seq<Value>, row: Row) {
    && 1 <= clause.parameter <= |values|
    && match clause.column
       case QuestionIdColumn => values[clause.parameter - 1] == TextValue(row.record.questionId)
       case KindColumn =>
         values[clause.parameter - 1] == KindValue(if row.record.payload.AudioPayload? then AudioKind else TextKind)
       case StatusColumn => values[clause.parameter - 1] == StatusValue(row.status)
  }

  predicate AllHold(where: Where, values: seq<Value>, row: Row) {
    forall i :: 0 <= i < |where.clauses| ==> Holds(where.clauses[i], values, row)
  }

  /** Builds the conditions and their values together. Every placeholder names the value pushed with it, each
      exactly once, and the next one is free for the LIMIT; the conditions mean the file adapter's filter. */
  method WhereFrom(q: Query) returns (where: Where)
    ensures |where.clauses| == |where.values|
    ensures forall i :: 0 <= i < |where.clauses| ==> where.clauses[i].parameter == i + 1
    ensures where == WhereOf(q)
  {
    var clauses: seq<Clause>, values: seq<Value> := [], [];
    if q.questionId.Some? {
      values := values + [TextValue(q.questionId.value)];
      clauses := clauses + [Clause(QuestionIdColumn, |values|)];
    }
    if q.kind.Some? {
      values := values + [KindValue(q.kind.value)];
      clauses := clauses + [Clause(KindColumn, |values|)];
    }
    if q.status.Some? {
      values := values + [StatusValue(q.status.value)];
      clauses := clauses + [Clause(StatusColumn, |values|)];
    }
    where := Where(clauses, values);
  }

  function Push(where: Where, column: Column, value: Option<Value>): Where {
    if value.None? then where
    else Where(where.clauses + [Clause(column, |where.values| + 1)], where.values + [value.value])
  }

  function WhereOf(q: Query): Where {
    var w1 := Push(
      Where([], []), QuestionIdColumn, if q.questionId.Some? then Some(TextValue(q.questionId.value)) else None);
    var w2 := Push(w1, KindColumn, if q.kind.Some? then Some(KindValue(q.kind.value)) else None);
    Push(w2, StatusColumn, if q.status.Some? then Some(StatusValue(q.status.value)) else None)
  }

  /** The placeholders line up, for the page and the count alike: with any further values bound behind them
      - the limit - the conditions select exactly the rows the file adapter would. */
  lemma PlaceholdersLineUp(q: Query, more: seq<Value>, row: Row)
    ensures AllHold(WhereOf(q), WhereOf(q).values + more, row) <==> Matches(row.record, q)
    ensures (WhereOf(q).values + [IntValue(PageSize(q.limit))])[|WhereOf(q).values|] == IntValue(PageSize(q.limit))
  {
    var w0 := Where([], []);
    var v1 := if q.questionId.Some? then Some(TextValue(q.questionId.value)) else None;
    var v2 := if q.kind.Some? then Some(KindValue(q.kind.value)) else None;
    var v3 := if q.status.Some? then Some(StatusValue(q.status.value)) else None;
    var w1 := Push(w0, QuestionIdColumn, v1);
    var w2 := Push(w1, KindColumn, v2);
    PushMeans(w0, QuestionIdColumn, v1, row);
    PushMeans(w1, KindColumn, v2, row);
    PushMeans(w2, StatusColumn, v3, row);
    MoreValues(WhereOf(q), more, row);
  }

  predicate InRange(where: Where) {
    forall i :: 0 <= i < |where.clauses| ==> 1 <= where.clauses[i].parameter <= |where.values|
  }

  lemma PushMeans(where: Where, column: Column, value: Option<Value>, row: Row)
    requires InRange(where)
    ensures var pushed := Push(where, column, value);
            && InRange(pushed)
            && (AllHold(pushed, pushed.values, row) <==>
                  AllHold(where, where.values, row) && (value.Some? ==> Holds(Clause(column, 1), [value.value], row)))
  {
    var pushed := Push(where, column, value);
    if value.Some? {
      MoreValues(where, [value.value], row);
      var last := |where.clauses|;
      assert forall i :: 0 <= i < last ==> pushed.clauses[i] == where.clauses[i];
      assert pushed.clauses[last] == Clause(column, |where.values| + 1);
      assert Holds(pushed.clauses[last], pushed.values, row) <==> Holds(Clause(column, 1), [value.value], row);
      assert AllHold(pushed, pushed.values, row)
        <==> AllHold(where, pushed.values, row) && Holds(pushed.clauses[last], pushed.values, row);
    }
  }

  lemma MoreValues(where: Where, more: seq<Value>, row: Row)
    requires InRange(where)
    ensures AllHold(where, where.values + more, row) <==> AllHold(where, where.values, row)
  {
    assert forall i :: 0 <= i < |where.clauses| ==>
      (Holds(where.clauses[i], where.values + more, row) <==> Holds(where.clauses[i], where.values, row));
  }

  function Selected(rows: seq<Row>, q: Query): seq<Row> {
    Filter(rows, (row: Row) => AllHold(WhereOf(q), WhereOf(q).values, row))
  }

  function Records(rows: seq<Row>): (records: seq<Record>)
    ensures |records| == |rows|
    ensures forall i :: 0 <= i < |rows| ==> records[i] == rows[i].record
  {
    seq(|rows|, i requires 0 <= i < |rows| => rows[i].record)
  }

  /** An answer the database may give: the selected rows in any arrangement ORDER BY allows, cut at LIMIT, and
      their count. */
  ghost predicate SqlAnswers(rows: seq<Row>, q: Query, less: Less, page: Page) {
    exists sorted: seq<Record> ::
      && multiset(sorted) == multiset(Records(Selected(rows, q))) && LatestFirst(sorted, less)
      && page == Page(Entries(Slice(sorted, PageSize(q.limit))), |Selected(rows, q)|)
  }

  lemma {:induction false} SelectedIsMatching(rows: seq<Row>, q: Query)
    ensures Records(Selected(rows, q)) == Matching(Records(rows), q)
  {
    if rows != [] {
      SelectedIsMatching(Init(rows), q);
      PlaceholdersLineUp(q, [], Last(rows));
      assert WhereOf(q).values + [] == WhereOf(q).values;
      assert Records(Init(rows)) == Init(Records(rows)) && Last(Records(rows)) == Last(rows).record;
      var kept := Selected(Init(rows), q);
      assert Records(kept + [Last(rows)]) == Records(kept) + [Last(rows).record];
    }
  }

  /** The two adapters agree: when a file and a table hold the same records, whatever the planner does with rows
      the order leaves open, the database's page and total are the file adapter's. */
  lemma AdaptersAgree(records: seq<Record>, rows: seq<Row>, q: Query, less: Less, page: Page)
    requires TotalOrder(less) && DistinctIds(records) && multiset(records) == multiset(Records(rows))
    ensures SqlAnswers(rows, q, less, page) <==> page == List(records, q, less)
  {
    SelectedIsMatching(rows, q);
    SameMatching(records, Records(rows), q);
    DistinctIdsAreDistinctKeys(records, q);
    var matching, selected := Matching(records, q), Records(Selected(rows, q));
    var whole := NewestFirst(matching, less);
    NewestFirstIs(matching, less);
    DistinctKeysKept(matching, whole);
    SameSize(matching, selected);
    SameSize(matching, whole);
    OrderedIsLatestFirst(whole, less);
    if SqlAnswers(rows, q, less, page) {
      var sorted :| multiset(sorted) == multiset(selected) && LatestFirst(sorted, less)
                    && page == Page(Entries(Slice(sorted, PageSize(q.limit))), |Selected(rows, q)|);
      OrderedIsLatestFirst(sorted, less);
      OneOrder(whole, sorted, less);
    }
  }
}
