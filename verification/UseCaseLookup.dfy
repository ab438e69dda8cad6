/**
 The paged search of the use cases table for a row by name, tenant and type, and how the table grows.
 A scan has no promised order: a new row may turn up in front of, between or behind earlier ones, and
 at any time, also in the course of a search.
 */
module UseCaseLookup {
  import opened Calls

  /** A row, trimmed.  The id is the table's key, so it is a string; None where another attribute is not. */
  datatype Row = Row(id: string, name: Option<string>, tenant: Option<string>, kind: Option<string>)

  datatype Query = Query(name: string, tenant: string, kind: string)

  predicate Matches(row: Row, q: Query) {
    && (q.kind == "" || row.kind == Some(q.kind))
    && if q.name != "" then row.name == Some(q.name) && (q.tenant == "" || row.tenant == Some(q.tenant))
       else q.tenant != "" && row.tenant == Some(q.tenant)
  }

  /** The row carries the name, the tenant and the type, as far as they are asked for. */
  ghost predicate HasFields(row: Row, name: string, tenant: string, kind: string) {
    && (name != "" ==> row.name == Some(name))
    && (tenant != "" ==> row.tenant == Some(tenant))
    && (kind != "" ==> row.kind == Some(kind))
  }

  lemma MatchesHasFields(row: Row, q: Query)
    ensures Matches(row, q) <==> HasFields(row, q.name, q.tenant, q.kind) && (q.name != "" || q.tenant != "")
  {
  }

  // ---------- The search ----------

  function FirstMatch(rows: seq<Row>, q: Query): Option<Row> {
    if rows == [] then None
    else if Matches(rows[0], q) then Some(rows[0])
    else FirstMatch(rows[1..], q)
  }

  function FirstId(rows: seq<Row>, q: Query): Option<string> {
    match FirstMatch(rows, q)
    case Some(row) => Some(row.id)
    case None => None
  }

  lemma {:induction false} FirstMatchOfConcat(a: seq<Row>, b: seq<Row>, q: Query)
    ensures FirstMatch(a + b, q) == if FirstMatch(a, q).Some? then FirstMatch(a, q) else FirstMatch(b, q)
    ensures FirstMatch([], q) == None && a[0..] == a
  {
    if a == [] {
      assert a + b == b;
    } else {
      FirstMatchOfConcat(a[1..], b, q);
      assert (a + b)[1..] == a[1..] + b;
    }
  }

  ghost predicate HasMatch(rows: seq<Row>, q: Query) {
    exists row <- rows :: Matches(row, q)
  }

  /** The earliest matching row stands at i. */
  ghost predicate EarliestAt(rows: seq<Row>, q: Query, i: int) {
    0 <= i < |rows| && Matches(rows[i], q) && forall j :: 0 <= j < i ==> !Matches(rows[j], q)
  }

  lemma EarliestBehind(rows: seq<Row>, q: Query, i: int)
    requires rows != [] && !Matches(rows[0], q) && i >= 0
    ensures EarliestAt(rows[1..], q, i) <==> EarliestAt(rows, q, i + 1)
  {
    assert forall j :: 0 <= j < |rows| - 1 ==> rows[1..][j] == rows[j + 1];
    if EarliestAt(rows[1..], q, i) {
      assert forall j :: 0 < j < i + 1 ==> rows[j] == rows[1..][j - 1];
    }
  }

  /** What is found is the earliest matching row, and nothing exactly when no row matches. */
  lemma {:induction false} FoundIsEarliest(rows: seq<Row>, q: Query)
    ensures FirstMatch(rows, q).Some? <==> HasMatch(rows, q)
    ensures HasMatch(rows, q) ==> exists i :: EarliestAt(rows, q, i) && FirstMatch(rows, q) == Some(rows[i])
  {
    if rows != [] {
      assert rows == [rows[0]] + rows[1..];
      if Matches(rows[0], q) {
        assert EarliestAt(rows, q, 0);
      } else {
        FoundIsEarliest(rows[1..], q);
        if HasMatch(rows[1..], q) {
          var i :| EarliestAt(rows[1..], q, i) && FirstMatch(rows[1..], q) == Some(rows[1..][i]);
          EarliestBehind(rows, q, i);
          assert EarliestAt(rows, q, i + 1) && rows[i + 1] == rows[1..][i];
        }
      }
    }
  }

  /** The use cases whose rows match. */
  ghost function Ids(rows: seq<Row>, q: Query): set<string> {
    set row <- rows | Matches(row, q) :: row.id
  }

  lemma NoIds(q: Query)
    ensures Ids([], q) == {}
  {
  }

  lemma FoundIsMatch(rows: seq<Row>, q: Query)
    ensures FirstMatch(rows, q).Some? <==> HasMatch(rows, q)
    ensures FirstMatch(rows, q).Some? ==> FirstMatch(rows, q).value in rows && Matches(FirstMatch(rows, q).value, q)
    ensures FirstId(rows, q).Some? ==> FirstId(rows, q).value in Ids(rows, q)
  {
    hide FirstMatch;
    FoundIsEarliest(rows, q);
    if HasMatch(rows, q) {
      var i :| EarliestAt(rows, q, i) && FirstMatch(rows, q) == Some(rows[i]);
    }
  }

  lemma FoundHasFields(rows: seq<Row>, q: Query)
    ensures FirstId(rows, q).Some? ==> exists row <- rows :: row.id == FirstId(rows, q).value && HasFields(row, q.name, q.tenant, q.kind)
    ensures FirstId(rows, q).None? && (q.name != "" || q.tenant != "") ==> forall row <- rows :: !HasFields(row, q.name, q.tenant, q.kind)
  {
    hide FirstMatch, HasFields, Matches;
    FoundIsMatch(rows, q);
    forall row <- rows { MatchesHasFields(row, q); }
  }

  lemma IdHasFields(rows: seq<Row>, q: Query, id: string)
    requires id in Ids(rows, q)
    ensures exists row <- rows :: row.id == id && HasFields(row, q.name, q.tenant, q.kind)
  {
    hide HasFields, Matches;
    var row :| row in rows && Matches(row, q) && row.id == id;
    MatchesHasFields(row, q);
  }

  /** With one use case per name, tenant and type, the search finds it. */
  lemma UniqueRowIsFound(rows: seq<Row>, q: Query, id: string)
    requires Ids(rows, q) == {id}
    ensures FirstId(rows, q) == Some(id)
  {
    FoundIsMatch(rows, q);
    assert id in Ids(rows, q);
  }

  // ---------- How the table grows ----------

  /** The rows a scan shows, those on their way, and the rows deploy calls have written so far. */
  datatype Table = Table(rows: seq<Row>, pending: seq<Row>, written: seq<Row>)

  /** The first list, with others in front of, between and behind its rows. */
  ghost predicate Within(a: seq<Row>, b: seq<Row>) {
    a == [] || (b != [] && ((a[0] == b[0] && Within(a[1..], b[1..])) || Within(a, b[1..])))
  }

  /** Rows keep their order; the ones that joined them were on their way or have been written since. */
  ghost predicate Grew(t: Table, t': Table) {
    && Within(t.rows, t'.rows) && t.written <= t'.written
    && multiset(t'.rows) + multiset(t'.pending) + multiset(t.written) == multiset(t.rows) + multiset(t.pending) + multiset(t'.written)
  }

  /** Rows on their way may have turned up; none was written. */
  ghost predicate Arrived(t: Table, t': Table) {
    Grew(t, t') && t'.written == t.written
  }

  /** The rows written in between. */
  ghost function New(t: Table, t': Table): seq<Row> {
    if t.written <= t'.written then t'.written[|t.written|..] else []
  }

  lemma {:induction false} WithinSelf(a: seq<Row>)
    ensures Within(a, a)
  {
    if a != [] { WithinSelf(a[1..]); }
  }

  lemma WithinBehind(a: seq<Row>, b: seq<Row>)
    requires b != [] && Within(a, b[1..])
    ensures Within(a, b)
  {
  }

  lemma WithinSameHead(a: seq<Row>, b: seq<Row>)
    requires a != [] && b != [] && a[0] == b[0] && Within(a[1..], b[1..])
    ensures Within(a, b)
  {
  }

  lemma {:induction false} WithinInserted(a: seq<Row>, at: nat, row: Row)
    requires at <= |a|
    ensures Within(a, a[..at] + [row] + a[at..])
  {
    hide Within;
    var b := a[..at] + [row] + a[at..];
    if at == 0 {
      assert b[1..] == a;
      WithinSelf(a);
      WithinBehind(a, b);
    } else {
      WithinInserted(a[1..], at - 1, row);
      assert b[1..] == a[1..][..at - 1] + [row] + a[1..][at - 1..];
      WithinSameHead(a, b);
    }
  }

  lemma {:induction false} WithinTransitive(a: seq<Row>, b: seq<Row>, c: seq<Row>)
    requires Within(a, b) && Within(b, c)
    ensures Within(a, c)
    decreases |c|
  {
    if a != [] {
      if b[0] == c[0] && Within(b[1..], c[1..]) {
        if a[0] == b[0] && Within(a[1..], b[1..]) {
          WithinTransitive(a[1..], b[1..], c[1..]);
        } else {
          WithinTransitive(a, b[1..], c[1..]);
        }
      } else {
        WithinTransitive(a, b, c[1..]);
      }
    }
  }

  lemma {:induction false} WithinIsContained(a: seq<Row>, b: seq<Row>)
    requires Within(a, b)
    ensures multiset(a) <= multiset(b)
    decreases |b|
  {
    if a != [] {
      assert b == [b[0]] + b[1..] && a == [a[0]] + a[1..];
      if a[0] == b[0] && Within(a[1..], b[1..]) {
        WithinIsContained(a[1..], b[1..]);
      } else {
        WithinIsContained(a, b[1..]);
      }
    }
  }

  /** The first match changes only to a row that joined. */
  lemma {:induction false} FirstMatchMoves(a: seq<Row>, b: seq<Row>, q: Query)
    requires Within(a, b)
    ensures FirstMatch(a, q).Some? ==> FirstMatch(b, q).Some?
    ensures FirstMatch(b, q).Some? ==> FirstMatch(b, q) == FirstMatch(a, q) || FirstMatch(b, q).value in multiset(b) - multiset(a)
    decreases |b|
  {
    WithinIsContained(a, b);
    if a == [] {
      FoundIsMatch(b, q);
    } else {
      assert b == [b[0]] + b[1..] && a == [a[0]] + a[1..];
      if a[0] == b[0] && Within(a[1..], b[1..]) {
        FirstMatchMoves(a[1..], b[1..], q);
      } else {
        FirstMatchMoves(a, b[1..], q);
        WithinIsContained(a, b[1..]);
      }
    }
  }

  lemma GrewNothing(t: Table)
    ensures Grew(t, t) && New(t, t) == []
  {
    hide Within;
    WithinSelf(t.rows);
  }

  lemma Balance(a: multiset<Row>, a': multiset<Row>, b: multiset<Row>, b': multiset<Row>, c: multiset<Row>, c': multiset<Row>)
    requires b + a' == a + b' && c + b' == b + c'
    ensures c + a' == a + c'
  {
    forall row ensures (c + a')[row] == (a + c')[row] {
      assert (b + a')[row] == (a + b')[row] && (c + b')[row] == (b + c')[row];
    }
  }

  lemma GrewTransitive(a: Table, b: Table, c: Table)
    requires Grew(a, b) && Grew(b, c)
    ensures Grew(a, c) && New(a, c) == New(a, b) + New(b, c)
  {
    hide Within;
    WithinTransitive(a.rows, b.rows, c.rows);
    Balance(multiset(a.rows) + multiset(a.pending), multiset(a.written), multiset(b.rows) + multiset(b.pending),
            multiset(b.written), multiset(c.rows) + multiset(c.pending), multiset(c.written));
    assert c.written == a.written + (New(a, b) + New(b, c));
    assert c.written[|a.written|..] == New(a, b) + New(b, c);
  }

  function Arriving(t: Table, k: nat, at: nat): Table
    requires k < |t.pending| && at <= |t.rows|
  {
    t.(rows := t.rows[..at] + [t.pending[k]] + t.rows[at..], pending := t.pending[..k] + t.pending[k + 1..])
  }

  lemma ArrivingGrows(t: Table, k: nat, at: nat)
    requires k < |t.pending| && at <= |t.rows|
    ensures Grew(t, Arriving(t, k, at))
  {
    hide Within;
    WithinInserted(t.rows, at, t.pending[k]);
    assert t.rows == t.rows[..at] + t.rows[at..];
    assert t.pending == t.pending[..k] + [t.pending[k]] + t.pending[k + 1..];
  }

  /** Any of the rows on their way turn up, anywhere in the table. */
  method Arrive(t: Table) returns (t': Table)
    ensures Grew(t, t') && t'.written == t.written
  {
    hide Grew;
    t' := t;
    GrewNothing(t);
    var more: bool := *;
    while more && t'.pending != []
      invariant Grew(t, t') && t'.written == t.written
      decreases |t'.pending|
    {
      var k: nat, at: nat := *, *;
      if !(k < |t'.pending|) { k := 0; }
      if !(at <= |t'.rows|) { at := |t'.rows|; }
      ArrivingGrows(t', k, at);
      GrewTransitive(t, t', Arriving(t', k, at));
      t' := Arriving(t', k, at);
      more := *;
    }
  }

  lemma ArrivedAtOnce(t: Table)
    ensures Arrived(t, t)
  {
    GrewNothing(t);
  }

  lemma ArrivedLater(a: Table, b: Table, c: Table)
    requires Arrived(a, b) && Arrived(b, c)
    ensures Arrived(a, c)
  {
    GrewTransitive(a, b, c);
  }

  /** What was written before rows only turned up. */
  lemma ThenArrived(a: Table, b: Table, c: Table)
    requires Grew(a, b) && Arrived(b, c)
    ensures Grew(a, c) && New(a, c) == New(a, b)
  {
    GrewTransitive(a, b, c);
    assert New(b, c) == [];
  }

  lemma ArrivedIsGrown(t: Table, t': Table)
    requires Arrived(t, t')
    ensures Grew(t, t') && New(t, t') == []
  {
    hide Grew;
  }

  /** What was written after rows only turned up. */
  lemma SinceArrival(a: Table, b: Table, c: Table)
    requires Arrived(a, b) && Grew(b, c)
    ensures Grew(a, c) && New(a, c) == New(b, c)
  {
    GrewTransitive(a, b, c);
    ArrivedIsGrown(a, b);
  }

  // ---------- The paged search, while rows turn up ----------

  const PAGE_LIMIT := 50

  /** The table as a scan is shown it: the rows it has read, then those in front of it; it never shows what turned up behind. */
  ghost function Shown(t: Table, cursor: nat, read: seq<Row>, missed: seq<Row>): Table
    requires cursor <= |t.rows|
  {
    Table(read + t.rows[cursor..], missed + t.pending, t.written)
  }

  /** A scan under way: behind its cursor are the rows it has read, and those it missed. */
  ghost predicate Scanning(start: Table, t: Table, cursor: nat, read: seq<Row>, missed: seq<Row>) {
    && cursor <= |t.rows| && Arrived(start, Shown(t, cursor, read, missed))
    && Within(read, t.rows[..cursor]) && multiset(t.rows[..cursor]) == multiset(read) + multiset(missed)
  }

  lemma {:induction false} WithinConcat(a: seq<Row>, b: seq<Row>, c: seq<Row>)
    requires Within(a, b)
    ensures Within(a + c, b + c)
    decreases |b|
  {
    if a == [] {
      assert a + c == c;
      WithinBehindAll(b, c);
    } else {
      assert (a + c)[1..] == a[1..] + c && (b + c)[1..] == b[1..] + c;
      if a[0] == b[0] && Within(a[1..], b[1..]) {
        WithinConcat(a[1..], b[1..], c);
        WithinSameHead(a + c, b + c);
      } else {
        WithinConcat(a, b[1..], c);
        WithinBehind(a + c, b + c);
      }
    }
  }

  lemma {:induction false} WithinBehindAll(b: seq<Row>, c: seq<Row>)
    ensures Within(c, b + c)
  {
    if b == [] {
      assert b + c == c;
      WithinSelf(c);
    } else {
      WithinBehindAll(b[1..], c);
      assert (b + c)[1..] == b[1..] + c;
      WithinBehind(c, b + c);
    }
  }

  lemma ScanBegins(t: Table)
    ensures Scanning(t, t, 0, [], [])
  {
    hide Within;
    ArrivedAtOnce(t);
    WithinSelf([]);
    assert Shown(t, 0, [], []) == t;
    assert t.rows[..0] == [];
  }

  /** What a scan is shown lies between the table it began with and the table it ends with. */
  lemma ScanIsBetween(start: Table, t: Table, cursor: nat, read: seq<Row>, missed: seq<Row>)
    requires Scanning(start, t, cursor, read, missed)
    ensures Arrived(start, Shown(t, cursor, read, missed)) && Arrived(Shown(t, cursor, read, missed), t)
  {
    hide Within;
    WithinConcat(read, t.rows[..cursor], t.rows[cursor..]);
    assert t.rows == t.rows[..cursor] + t.rows[cursor..];
  }

  lemma PageIsRead(start: Table, t: Table, cursor: nat, read: seq<Row>, missed: seq<Row>, end: nat)
    requires Scanning(start, t, cursor, read, missed) && cursor <= end <= |t.rows|
    ensures Scanning(start, t, end, read + t.rows[cursor..end], missed)
    ensures Shown(t, end, read + t.rows[cursor..end], missed) == Shown(t, cursor, read, missed)
  {
    hide Within, Arrived;
    WithinConcat(read, t.rows[..cursor], t.rows[cursor..end]);
    assert t.rows[..end] == t.rows[..cursor] + t.rows[cursor..end];
    assert read + t.rows[cursor..] == read + t.rows[cursor..end] + t.rows[end..];
  }

  lemma InsertedRow(a: seq<Row>, at: nat, row: Row)
    requires at <= |a|
    ensures multiset(a[..at] + [row] + a[at..]) == multiset(a) + multiset{row}
  {
    assert a == a[..at] + a[at..];
  }

  lemma TakenRow(a: seq<Row>, k: nat)
    requires k < |a|
    ensures multiset(a) == multiset(a[..k] + a[k + 1..]) + multiset{a[k]}
  {
    assert a == a[..k] + [a[k]] + a[k + 1..];
  }

  lemma PendingInAnyOrder(start: Table, a: Table, b: Table)
    requires Arrived(start, a) && b.rows == a.rows && b.written == a.written && multiset(b.pending) == multiset(a.pending)
    ensures Arrived(start, b)
  {
    hide Within;
  }

  /** A row turns up behind the cursor: the scan misses it. */
  lemma RowIsMissed(start: Table, t: Table, cursor: nat, read: seq<Row>, missed: seq<Row>, k: nat, at: nat)
    requires Scanning(start, t, cursor, read, missed) && k < |t.pending| && at <= cursor
    ensures Scanning(start, Arriving(t, k, at), cursor + 1, read, missed + [t.pending[k]])
  {
    hide Within, Arrived;
    var t', row, front := Arriving(t, k, at), t.pending[k], t.rows[..cursor];
    assert t'.rows[..cursor + 1] == front[..at] + [row] + front[at..] by {
      assert t.rows == front + t.rows[cursor..];
    }
    InsertedRow(front, at, row);
    WithinInserted(front, at, row);
    WithinTransitive(read, front, t'.rows[..cursor + 1]);
    var a, b := Shown(t, cursor, read, missed), Shown(t', cursor + 1, read, missed + [row]);
    assert b.rows == a.rows by {
      assert t'.rows[cursor + 1..] == t.rows[cursor..];
    }
    TakenRow(t.pending, k);
    PendingInAnyOrder(start, a, b);
  }

  lemma AheadIsShown(t: Table, cursor: nat, read: seq<Row>, missed: seq<Row>, k: nat, at: nat)
    requires k < |t.pending| && cursor <= at <= |t.rows|
    ensures var shown := Shown(t, cursor, read, missed);
            && |missed| + k < |shown.pending| && |read| + at - cursor <= |shown.rows| && shown.pending[|missed| + k] == t.pending[k]
            && Shown(Arriving(t, k, at), cursor, read, missed) == Arriving(shown, |missed| + k, |read| + at - cursor)
  {
    var t', shown := Arriving(t, k, at), Shown(t, cursor, read, missed);
    var after := Arriving(shown, |missed| + k, |read| + at - cursor);
    assert shown.rows[..|read| + at - cursor] == read + t.rows[cursor..at] && shown.rows[|read| + at - cursor..] == t.rows[at..];
    assert read + t'.rows[cursor..] == after.rows;
    assert missed + t'.pending == after.pending;
  }

  /** A row turns up in front of the cursor: the scan will come to it. */
  lemma RowIsAhead(start: Table, t: Table, cursor: nat, read: seq<Row>, missed: seq<Row>, k: nat, at: nat)
    requires Scanning(start, t, cursor, read, missed) && k < |t.pending| && cursor <= at <= |t.rows|
    ensures Scanning(start, Arriving(t, k, at), cursor, read, missed)
  {
    hide Within, Grew, Shown;
    var t', shown := Arriving(t, k, at), Shown(t, cursor, read, missed);
    assert t'.rows[..cursor] == t.rows[..cursor];
    AheadIsShown(t, cursor, read, missed, k, at);
    ArrivingGrows(shown, |missed| + k, |read| + at - cursor);
    ArrivedLater(start, shown, Shown(t', cursor, read, missed));
  }

  /** Rows turn up between two pages. */
  method ArriveDuringScan(t: Table, cursor: nat, ghost start: Table, ghost read: seq<Row>, ghost missed: seq<Row>)
    returns (t': Table, cursor': nat, ghost missed': seq<Row>)
    requires Scanning(start, t, cursor, read, missed)
    ensures Scanning(start, t', cursor', read, missed')
    ensures |t'.pending| + |t'.rows| - cursor' <= |t.pending| + |t.rows| - cursor
  {
    hide Scanning;
    t', cursor', missed' := t, cursor, missed;
    CursorInTable(start, t, cursor, read, missed);
    var more: bool := *;
    while more && t'.pending != []
      invariant Scanning(start, t', cursor', read, missed') && cursor' <= |t'.rows|
      invariant |t'.pending| + |t'.rows| - cursor' <= |t.pending| + |t.rows| - cursor
      decreases |t'.pending|
    {
      var k: nat, at: nat := *, *;
      if !(k < |t'.pending|) { k := 0; }
      if !(at <= |t'.rows|) { at := |t'.rows|; }
      var behind: bool := *;
      if at < cursor' || (at == cursor' && behind) {
        RowIsMissed(start, t', cursor', read, missed', k, at);
        missed', cursor' := missed' + [t'.pending[k]], cursor' + 1;
      } else {
        RowIsAhead(start, t', cursor', read, missed', k, at);
      }
      t' := Arriving(t', k, at);
      more := *;
    }
  }

  lemma CursorInTable(start: Table, t: Table, cursor: nat, read: seq<Row>, missed: seq<Row>)
    requires Scanning(start, t, cursor, read, missed)
    ensures cursor <= |t.rows|
  {
  }

  /**
   The search, over whatever pages the table is served in, while rows turn up: the id of the first match
   of a table between the one at its beginning and the one at its end.  It throws only where the request
   for a page fails.
   */
  method FindUseCaseIdByName(t: Table, q: Query, fails: nat -> bool) returns (r: Call<Option<string>>, t': Table, ghost shown: Table)
    ensures r.Thrown? ==> exists page: nat :: fails(page)
    ensures r.Answer? ==> exists between: Table :: Arrived(t, between) && Arrived(between, t') && FirstId(between.rows, q) == r.value
    ensures Arrived(t, shown) && Arrived(shown, t')
    ensures r.Answer? ==> r.value == FirstId(shown.rows, q)
    ensures r.Answer? && r.value.Some? ==> exists row <- shown.rows :: row.id == r.value.value && HasFields(row, q.name, q.tenant, q.kind)
    ensures r == Answer(None) && (q.name != "" || q.tenant != "") ==> forall row <- shown.rows :: !HasFields(row, q.name, q.tenant, q.kind)
  {
    hide FirstMatch, Scanning, Arrived, HasFields;
    t' := t;
    var cursor, asked := 0, 0;
    var more := true;
    ghost var read: seq<Row>, missed: seq<Row> := [], [];
    ScanBegins(t);
    FirstMatchOfConcat([], [], q);
    while more
      invariant cursor <= |t'.rows| && Scanning(t, t', cursor, read, missed)
      invariant FirstMatch(read, q).None?
      invariant !more ==> cursor == |t'.rows|
      decreases |t'.pending| + |t'.rows| - cursor, more
    {
      t', cursor, missed := ArriveDuringScan(t', cursor, t, read, missed);
      CursorInTable(t, t', cursor, read, missed);
      shown := Shown(t', cursor, read, missed);
      ScanIsBetween(t, t', cursor, read, missed);
      if fails(asked) { return Thrown("scan failed"), t', shown; }
      asked := asked + 1;
      var end: int := *;
      if !(cursor < end <= |t'.rows| && end - cursor <= PAGE_LIMIT) {
        end := if |t'.rows| - cursor <= PAGE_LIMIT then |t'.rows| else cursor + PAGE_LIMIT;
      }
      var page := t'.rows[cursor..end];
      PageIsRead(t, t', cursor, read, missed, end);
      FirstMatchOfConcat(read, page, q);
      FirstMatchOfConcat(read + page, t'.rows[end..], q);
      var first := FirstMatch(page, q);
      if first.Some? {
        FoundHasFields(shown.rows, q);
        return Answer(Some(first.value.id)), t', shown;
      }
      // The last full page may be followed by an empty one.
      var oneMore: bool := *;
      more := end < |t'.rows| || (cursor < end && oneMore);
      read, cursor := read + page, end;
    }
    shown := Shown(t', cursor, read, missed);
    ScanIsBetween(t, t', cursor, read, missed);
    assert shown.rows == read;
    FoundHasFields(shown.rows, q);
    r := Answer(None);
  }

  // ---------- Where the search leads while the table grows ----------

  /** The search leads to one of these use cases, and the rows of the name that are on their way are theirs. */
  ghost predicate LeadsInto(t: Table, q: Query, ids: set<string>) {
    FirstId(t.rows, q).Some? && FirstId(t.rows, q).value in ids && Ids(t.pending, q) <= ids
  }

  lemma RowsOf(t: Table, t': Table, row: Row)
    requires Grew(t, t')
    ensures row in t'.rows + t'.pending <==> row in t.rows + t.pending + New(t, t')
    ensures row in t'.pending ==> row in t.pending + New(t, t')
    ensures row in multiset(t'.rows) - multiset(t.rows) ==> row in t.pending + New(t, t')
  {
    hide Within;
    WithinIsContained(t.rows, t'.rows);
    assert t'.written == t.written + New(t, t');
    assert multiset(t'.written) == multiset(t.written) + multiset(New(t, t'));
    assert (multiset(t'.rows) + multiset(t'.pending) + multiset(t.written))[row]
        == (multiset(t.rows) + multiset(t.pending) + multiset(t'.written))[row];
    assert multiset(t'.rows)[row] + multiset(t'.pending)[row] == multiset(t.rows)[row] + multiset(t.pending)[row] + multiset(New(t, t'))[row];
  }

  /** It keeps leading there, wherever rows turn up, as long as every row written is one of theirs. */
  lemma LeadStaysInside(t: Table, t': Table, q: Query, ids: set<string>)
    requires Grew(t, t') && LeadsInto(t, q, ids) && Ids(New(t, t'), q) <= ids
    ensures LeadsInto(t', q, ids)
  {
    hide Within;
    FirstMatchMoves(t.rows, t'.rows, q);
    FoundIsMatch(t'.rows, q);
    var first := FirstMatch(t'.rows, q).value;
    RowsOf(t, t', first);
    if FirstMatch(t.rows, q) != Some(first) {
      assert first.id in Ids(t.pending, q) + Ids(New(t, t'), q);
    }
    forall row | row in t'.pending && Matches(row, q) ensures row.id in ids {
      RowsOf(t, t', row);
      assert row.id in Ids(t.pending, q) + Ids(New(t, t'), q);
    }
  }

  /** After a search it leads to the use case found, or to one whose row was not there yet. */
  lemma FoundLeads(t: Table, t': Table, q: Query, id: string)
    requires Grew(t, t') && FirstId(t.rows, q) == Some(id)
    ensures LeadsInto(t', q, {id} + Ids(t.pending + New(t, t'), q))
  {
    hide Grew, FirstId;
    var ids := {id} + Ids(t.pending + New(t, t'), q);
    forall row | row in t.pending + New(t, t') && Matches(row, q) ensures row.id in ids {
      assert row.id in Ids(t.pending + New(t, t'), q);
    }
    LeadStaysInside(t, t', q, ids);
  }

  /**
   The search leads to one use case for good, wherever the rows on their way turn up, if and only if it
   does so now and none of those rows is another use case of the name.
   */
  lemma LeadIsSettled(t: Table, q: Query, id: string)
    ensures (forall t' :: Grew(t, t') && t'.written == t.written ==> FirstId(t'.rows, q) == Some(id))
            <==> FirstId(t.rows, q) == Some(id) && Ids(t.pending, q) <= {id}
  {
    hide Grew, FirstId;
    GrewNothing(t);
    if FirstId(t.rows, q) == Some(id) {
      if Ids(t.pending, q) <= {id} {
        forall t' | Grew(t, t') && t'.written == t.written ensures FirstId(t'.rows, q) == Some(id) {
          assert New(t, t') == [];
          LeadStaysInside(t, t', q, {id});
        }
      } else {
        var k :| 0 <= k < |t.pending| && Matches(t.pending[k], q) && t.pending[k].id != id;
        ArrivingGrows(t, k, 0);
        FrontRowIsFound(t.pending[k], t.rows, q);
        assert Arriving(t, k, 0).rows == [t.pending[k]] + t.rows;
      }
    }
  }

  lemma FrontRowIsFound(row: Row, rows: seq<Row>, q: Query)
    requires Matches(row, q)
    ensures FirstId([row] + rows, q) == Some(row.id)
  {
  }

  /** Which row is first is open: the same row on its way may turn up behind the stale one or in front of it. */
  lemma OrderDecides(stale: Row, live: Row, q: Query)
    requires Matches(stale, q) && Matches(live, q)
    ensures var t := Table([stale], [live], []);
            var behind, before := Table([stale, live], [], []), Table([live, stale], [], []);
            && Grew(t, behind) && FirstId(behind.rows, q) == Some(stale.id)
            && Grew(t, before) && FirstId(before.rows, q) == Some(live.id)
  {
    hide Grew;
    var t := Table([stale], [live], []);
    ArrivingGrows(t, 0, 1);
    ArrivingGrows(t, 0, 0);
    assert t.pending[..0] + t.pending[0 + 1..] == [];
    assert Arriving(t, 0, 1).rows == [stale, live];
    assert Arriving(t, 0, 0).rows == [live, stale];
  }

  /**
   Behind a deploy call that wrote under a new key: the use case found is the one written if and only
   if the first match is no older row.  Where no row of the name was there or on its way, it is.
   */
  lemma FoundIsDeployed(t: Table, t': Table, q: Query, id: string)
    requires Grew(t, t') && FirstId(t'.rows, q) == Some(id)
    requires forall w <- New(t, t'), row <- t.rows + t.pending :: w.id != row.id
    ensures (exists w <- New(t, t') :: w.id == id) <==> FirstMatch(t'.rows, q).value !in t.rows + t.pending
    ensures !HasMatch(t.rows + t.pending, q) ==> FirstMatch(t'.rows, q).value !in t.rows + t.pending
  {
    hide Grew, Within, FirstMatch;
    FoundIsMatch(t'.rows, q);
    var first := FirstMatch(t'.rows, q).value;
    RowsOf(t, t', first);
  }
}
