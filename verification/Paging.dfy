/** Keyset paging on (finalizedAt, id), newest first. */
module Paging {
  import opened Prelude

  datatype Row = Row(finalizedAt: nat, id: nat)

  /** a is listed before b. */
  predicate Newer(a: Row, b: Row) {
    a.finalizedAt > b.finalizedAt || (a.finalizedAt == b.finalizedAt && a.id > b.id)
  }

  function InsertRow(x: Row, s: seq<Row>): seq<Row> {
    if |s| == 0 then [x]
    else if Newer(x, s[|s| - 1]) then InsertRow(x, s[..|s| - 1]) + [s[|s| - 1]]
    else s + [x]
  }

  /** ORDER BY finalizedAt DESC, id DESC. */
  function NewestFirst(rows: seq<Row>): seq<Row> {
    if |rows| == 0 then [] else InsertRow(rows[|rows| - 1], NewestFirst(rows[..|rows| - 1]))
  }

  /** The rows a cursor has not passed yet. */
  function After(cursor: Option<Row>): Row -> bool {
    (r: Row) => cursor.None? || Newer(cursor.value, r)
  }

  datatype Page = Page(items: seq<Row>, next: Option<Row>)

  /** One row more than the limit is read to know whether another page follows. */
  function Cut(found: seq<Row>, limit: Qty): Page {
    var taken := if |found| > limit + 1 then found[..limit + 1] else found;
    var page := if |taken| > limit then taken[..limit] else taken;
    Page(page, if |taken| > limit then Some(page[|page| - 1]) else None)
  }

  /** One page of the rows behind the cursor, newest first. */
  function ListPage(rows: seq<Row>, cursor: Option<Row>, limit: Qty): Page {
    Cut(NewestFirst(Filter(rows, After(cursor))), limit)
  }

  ghost predicate Ordered(s: seq<Row>) {
    forall i, j :: 0 <= i < j < |s| ==> Newer(s[i], s[j])
  }

  ghost predicate DistinctRows(rows: seq<Row>) {
    forall i, j :: 0 <= i < j < |rows| ==> rows[i].id != rows[j].id
  }

  lemma {:induction false} InsertedAbove(x: Row, front: seq<Row>, last: Row, placed: seq<Row>)
    requires multiset(placed) == multiset(front) + multiset{x} && Newer(x, last)
    requires forall r :: r in front ==> Newer(r, last)
    ensures forall i :: 0 <= i < |placed| ==> Newer(placed[i], last)
  {
    forall i | 0 <= i < |placed|
      ensures Newer(placed[i], last)
    {
      assert placed[i] in multiset(placed);
    }
  }

  lemma {:induction false} OrderedSnoc(s: seq<Row>, last: Row)
    requires Ordered(s) && forall i :: 0 <= i < |s| ==> Newer(s[i], last)
    ensures Ordered(s + [last])
  {
  }

  lemma {:induction false} InsertRowOk(x: Row, s: seq<Row>)
    requires Ordered(s) && forall r :: r in s ==> r.id != x.id
    ensures Ordered(InsertRow(x, s))
    ensures multiset(InsertRow(x, s)) == multiset(s) + multiset{x}
  {
    if |s| > 0 && Newer(x, s[|s| - 1]) {
      var front, last := s[..|s| - 1], s[|s| - 1];
      assert s == front + [last];
      InsertRowOk(x, front);
      InsertedAbove(x, front, last, InsertRow(x, front));
      OrderedSnoc(InsertRow(x, front), last);
    } else if |s| > 0 {
      assert s[|s| - 1] in s;
      forall i | 0 <= i < |s|
        ensures Newer(s[i], x)
      {
        assert i == |s| - 1 || Newer(s[i], s[|s| - 1]);
      }
      OrderedSnoc(s, x);
    }
  }

  lemma {:induction false} NewestFirstOk(rows: seq<Row>)
    requires DistinctRows(rows)
    ensures Ordered(NewestFirst(rows))
    ensures multiset(NewestFirst(rows)) == multiset(rows)
  {
    if |rows| > 0 {
      var front, last := rows[..|rows| - 1], rows[|rows| - 1];
      assert rows == front + [last];
      NewestFirstOk(front);
      forall r | r in NewestFirst(front)
        ensures r.id != last.id
      {
        assert r in multiset(front);
        var i :| 0 <= i < |front| && front[i] == r;
        assert rows[i] == r;
      }
      InsertRowOk(last, NewestFirst(front));
    }
  }

  lemma {:induction false} FilterBefore(x: Row, front: seq<Row>, last: Row, cursor: Option<Row>)
    requires Newer(x, last)
    requires Filter(InsertRow(x, front), After(cursor)) == if After(cursor)(x) then InsertRow(x, Filter(front, After(cursor))) else Filter(front, After(cursor))
    ensures Filter(InsertRow(x, front) + [last], After(cursor)) ==
      if After(cursor)(x) then InsertRow(x, Filter(front + [last], After(cursor))) else Filter(front + [last], After(cursor))
  {
    FilterSnoc(InsertRow(x, front), last, After(cursor));
    FilterSnoc(front, last, After(cursor));
    InsertBefore(x, Filter(front, After(cursor)), last);
  }

  lemma {:induction false} InsertFiltered(x: Row, s: seq<Row>, cursor: Option<Row>)
    requires Ordered(s) && forall r :: r in s ==> r.id != x.id
    ensures Filter(InsertRow(x, s), After(cursor)) == if After(cursor)(x) then InsertRow(x, Filter(s, After(cursor))) else Filter(s, After(cursor))
  {
    var p := After(cursor);
    if |s| == 0 {
      FilterSnoc([], x, p);
      assert [] + [x] == [x];
    } else {
      var front, last := s[..|s| - 1], s[|s| - 1];
      assert s == front + [last] && last in s;
      if Newer(x, last) {
        InsertFiltered(x, front, cursor);
        InsertBefore(x, front, last);
        FilterBefore(x, front, last, cursor);
      } else {
        FilterSnoc(s, x, p);
        InsertLast(x, Filter(s, p), s, cursor);
      }
    }
  }

  lemma {:induction false} InsertBefore(x: Row, s: seq<Row>, last: Row)
    requires Newer(x, last)
    ensures InsertRow(x, s + [last]) == InsertRow(x, s) + [last]
  {
    assert (s + [last])[..|s|] == s;
  }

  /** A row older than everything kept goes to the end. */
  lemma {:induction false} InsertLast(x: Row, kept: seq<Row>, s: seq<Row>, cursor: Option<Row>)
    requires Ordered(s) && |s| > 0 && kept == Filter(s, After(cursor)) && !Newer(x, s[|s| - 1]) && x.id != s[|s| - 1].id
    ensures InsertRow(x, kept) == kept + [x]
  {
    if |kept| > 0 {
      assert kept[|kept| - 1] in kept;
      FilterMember(s, After(cursor), kept[|kept| - 1]);
      var i :| 0 <= i < |s| && s[i] == kept[|kept| - 1];
      assert i == |s| - 1 || Newer(s[i], s[|s| - 1]);
    }
  }

  /** Filtering before or after ordering is the same. */
  lemma {:induction false} FilterThenOrder(rows: seq<Row>, cursor: Option<Row>)
    requires DistinctRows(rows)
    ensures NewestFirst(Filter(rows, After(cursor))) == Filter(NewestFirst(rows), After(cursor))
  {
    if |rows| > 0 {
      var front, last := rows[..|rows| - 1], rows[|rows| - 1];
      FilterThenOrder(front, cursor);
      NewestFirstOk(front);
      forall r | r in NewestFirst(front)
        ensures r.id != last.id
      {
        assert r in multiset(front);
        var i :| 0 <= i < |front| && front[i] == r;
        assert rows[i] == r;
      }
      InsertFiltered(last, NewestFirst(front), cursor);
      if After(cursor)(last) {
        assert (Filter(front, After(cursor)) + [last])[..|Filter(front, After(cursor))|] == Filter(front, After(cursor));
      }
    }
  }

  /** A cursor at position k leaves exactly the rows behind it. */
  lemma {:induction false} CursorDrops(s: seq<Row>, k: nat)
    requires Ordered(s) && k < |s|
    ensures Filter(s, After(Some(s[k]))) == s[k + 1..]
  {
    var front, last := s[..|s| - 1], s[|s| - 1];
    assert s == front + [last];
    FilterSnoc(front, last, After(Some(s[k])));
    if k < |front| {
      CursorDrops(front, k);
      assert s[k + 1..] == front[k + 1..] + [last];
    } else {
      NonePass(front, s[k]);
    }
  }

  lemma {:induction false} NonePass(s: seq<Row>, cursor: Row)
    requires forall r :: r in s ==> !Newer(cursor, r)
    ensures Filter(s, After(Some(cursor))) == []
  {
    if |s| > 0 {
      assert s[|s| - 1] in s;
      NonePass(s[..|s| - 1], cursor);
    }
  }

  /** What is left to list after k rows. */
  lemma {:induction false} RestAfter(rows: seq<Row>, k: nat, cursor: Option<Row>)
    requires DistinctRows(rows) && k <= |NewestFirst(rows)|
    requires cursor == if k == 0 then None else Some(NewestFirst(rows)[k - 1])
    ensures NewestFirst(Filter(rows, After(cursor))) == NewestFirst(rows)[k..]
  {
    if k == 0 {
      FilterAll(rows, After(None));
    } else {
      NewestFirstOk(rows);
      FilterThenOrder(rows, cursor);
      CursorDrops(NewestFirst(rows), k - 1);
    }
  }

  lemma {:induction false} CutIsSlice(all: seq<Row>, k: nat, limit: Qty)
    requires k <= |all|
    ensures var end := if k + limit < |all| then k + limit else |all|;
            && Cut(all[k..], limit).items == all[k..end]
            && Cut(all[k..], limit).next == if end < |all| then Some(all[end - 1]) else None
  {
  }

  /** The page after k listed rows is the next limit rows of the ordered list, with a cursor exactly when more follow. */
  lemma {:induction false} PageIsSlice(rows: seq<Row>, k: nat, limit: Qty, cursor: Option<Row>)
    requires DistinctRows(rows) && k <= |NewestFirst(rows)|
    requires cursor == if k == 0 then None else Some(NewestFirst(rows)[k - 1])
    ensures var all := NewestFirst(rows);
            var end := if k + limit < |all| then k + limit else |all|;
            && ListPage(rows, cursor, limit).items == all[k..end]
            && ListPage(rows, cursor, limit).next == if end < |all| then Some(all[end - 1]) else None
  {
    RestAfter(rows, k, cursor);
    CutIsSlice(NewestFirst(rows), k, limit);
  }

  /** What has been listed is the front of the whole list, and the cursor points at its last row while more follow. */
  ghost predicate Listed(all: seq<Row>, listed: seq<Row>, cursor: Option<Row>, more: bool) {
    && |listed| <= |all| && listed == all[..|listed|]
    && (more ==> cursor == if |listed| == 0 then None else Some(all[|listed| - 1]))
    && (!more ==> |listed| == |all|)
  }

  lemma {:induction false} NextListed(all: seq<Row>, listed: seq<Row>, cursor: Option<Row>, limit: Qty, page: Page)
    requires Listed(all, listed, cursor, true)
    requires var end := if |listed| + limit < |all| then |listed| + limit else |all|;
             && page.items == all[|listed|..end]
             && page.next == if end < |all| then Some(all[end - 1]) else None
    ensures Listed(all, listed + page.items, page.next, page.next.Some?)
    ensures page.next.Some? ==> |listed + page.items| > |listed|
  {
    var end := if |listed| + limit < |all| then |listed| + limit else |all|;
    assert all[..|listed|] + all[|listed|..end] == all[..end];
  }

  /** Following the cursors lists every matching row exactly once, newest first, and stops. */
  method FollowCursors(rows: seq<Row>, limit: Qty) returns (listed: seq<Row>)
    requires DistinctRows(rows)
    ensures listed == NewestFirst(rows)
    ensures Ordered(listed) && multiset(listed) == multiset(rows)
    ensures forall i, j :: 0 <= i < j < |listed| ==> listed[i].finalizedAt > listed[j].finalizedAt || (listed[i].finalizedAt == listed[j].finalizedAt && listed[i].id > listed[j].id)
  {
    NewestFirstOk(rows);
    ghost var all := NewestFirst(rows);
    listed := [];
    var cursor: Option<Row> := None;
    var more := true;
    while more
      invariant Listed(all, listed, cursor, more)
      decreases more, |all| - |listed|
    {
      var page := ListPage(rows, cursor, limit);
      PageIsSlice(rows, |listed|, limit, cursor);
      NextListed(all, listed, cursor, limit, page);
      listed := listed + page.items;
      cursor := page.next;
      more := cursor.Some?;
    }
    assert all[..|all|] == all;
  }
}
