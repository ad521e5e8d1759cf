/** Cursor paging over a fixed listing, newest first, as events and dead letters are listed. */
module Paging {
  import opened Prelude

  datatype Page<T> = Page(items: seq<T>, next: Option<T>)

  /** The page size actually used. */
  function PageSize(limit: Option<int>): (size: nat)
    ensures 1 <= size <= 200
    ensures limit.Some? && 1 <= limit.value <= 200 ==> size == limit.value
    ensures limit.Some? && limit.value < 1 ==> size == 1
    ensures limit.Some? && limit.value > 200 ==> size == 200
    ensures limit.None? ==> size == 50
  {
    Min(200, Max(1, limit.GetOr(50)))
  }

  function IndexOf<T(==)>(list: seq<T>, x: T): (i: nat)
    requires x in list
    ensures i < |list| && list[i] == x
  {
    if list[0] == x then 0 else 1 + IndexOf(list[1..], x)
  }

  /** What the database returns from: all rows, or those after the cursor's, which is skipped. */
  function Following<T(==)>(list: seq<T>, cursor: Option<T>): seq<T> {
    match cursor
    case None => list
    case Some(c) => if c in list then list[IndexOf(list, c) + 1..] else []
  }

  /** One request: read one row more than the page holds, and name that row as the next cursor. */
  function List<T(==)>(list: seq<T>, limit: Option<int>, cursor: Option<T>): Page<T> {
    var size := PageSize(limit);
    var from := Following(list, cursor);
    var rows := if |from| > size + 1 then from[..size + 1] else from;
    Page(if |rows| > size then rows[..size] else rows, if |rows| > size then Some(rows[size]) else None)
  }

  lemma PositionOf<T>(list: seq<T>, i: nat)
    requires Distinct(list) && i < |list|
    ensures IndexOf(list, list[i]) == i
  {
  }

  /** The next page starts right behind the row the cursor names, so that row is on no page. */
  lemma CursorAdvances<T>(list: seq<T>, limit: Option<int>, cursor: Option<T>)
    requires Distinct(list) && List(list, limit, cursor).next.Some?
    ensures
      var from := Following(list, cursor);
      && PageSize(limit) < |from|
      && Following(list, List(list, limit, cursor).next) == from[PageSize(limit) + 1..]
  {
    var from, size := Following(list, cursor), PageSize(limit);
    var start := |list| - |from|;
    assert from == list[start..];
    assert list[start + size] == from[size];
    PositionOf(list, start + size);
  }

  /** All pages a client sees that follows the cursors to the end. */
  function Walk<T(==)>(list: seq<T>, limit: Option<int>, cursor: Option<T>): seq<T>
    requires Distinct(list)
    decreases |Following(list, cursor)|
  {
    var page := List(list, limit, cursor);
    if page.next.None? then page.items
    else
      CursorAdvances(list, limit, cursor);
      page.items + Walk(list, limit, page.next)
  }

  /** The rows left when, after `phase` rows of a page, every row that follows a full page is dropped. */
  function Seen<T>(rows: seq<T>, size: nat, phase: nat): seq<T> {
    if rows == [] then []
    else if phase == size then Seen(rows[1..], size, 0)
    else [rows[0]] + Seen(rows[1..], size, phase + 1)
  }

  lemma {:induction false} SeenKeepsPage<T>(rows: seq<T>, size: nat, phase: nat, k: nat)
    requires phase + k <= size && k <= |rows|
    ensures Seen(rows, size, phase) == rows[..k] + Seen(rows[k..], size, phase + k)
  {
    if k == 0 {
    } else {
      SeenKeepsPage(rows[1..], size, phase + 1, k - 1);
      assert rows[1..][k - 1..] == rows[k..];
      assert rows[..k] == [rows[0]] + rows[1..][..k - 1];
    }
  }

  /** A full page and the row its cursor names come off the front. */
  lemma SeenPage<T>(rows: seq<T>, size: nat)
    requires |rows| > size
    ensures Seen(rows, size, 0) == rows[..size] + Seen(rows[size + 1..], size, 0)
  {
    SeenKeepsPage(rows, size, 0, size);
    assert rows[size..][1..] == rows[size + 1..];
  }

  lemma SeenLastPage<T>(rows: seq<T>, size: nat)
    requires |rows| <= size
    ensures Seen(rows, size, 0) == rows
  {
    SeenKeepsPage(rows, size, 0, |rows|);
    assert rows[..|rows|] == rows;
  }

  /** From any cursor on, following the cursors shows the rows `Seen` selects, in order. */
  lemma {:induction false} WalkShows<T>(list: seq<T>, limit: Option<int>, cursor: Option<T>)
    requires Distinct(list)
    ensures Walk(list, limit, cursor) == Seen(Following(list, cursor), PageSize(limit), 0)
    decreases |Following(list, cursor)|
  {
    hide Seen, PageSize, Distinct;
    var rows, size := Following(list, cursor), PageSize(limit);
    var page := List(list, limit, cursor);
    if page.next.Some? {
      SeenPage(rows, size);
      CursorAdvances(list, limit, cursor);
      WalkShows(list, limit, page.next);
      assert page.items == rows[..size];
    } else {
      SeenLastPage(rows, size);
    }
  }

  lemma Multiples(d: nat, x: int)
    ensures x >= 1 ==> d * x >= d
    ensures x <= -1 ==> d * x + d <= 0
  {
  }

  lemma NextOffset(k: nat, d: nat)
    requires d > 0
    ensures (k + d) % d == k % d
  {
    var x := (k + d) / d - k / d - 1;
    assert d * x == k % d - (k + d) % d;
    Multiples(d, x);
  }

  lemma SmallOffset(k: nat, size: nat)
    requires k <= size
    ensures k % (size + 1) == k
  {
  }

  lemma {:induction false} SeenOnly<T>(rows: seq<T>, size: nat, phase: nat)
    ensures forall x :: x in Seen(rows, size, phase) ==> x in rows
  {
    if rows == [] {
    } else {
      SeenOnly(rows[1..], size, if phase == size then 0 else phase + 1);
    }
  }

  lemma {:induction false} SeenRows<T>(rows: seq<T>, size: nat, phase: nat, i: nat)
    requires Distinct(rows) && i < |rows| && phase <= size
    ensures rows[i] in Seen(rows, size, phase) <==> (phase + i) % (size + 1) != size
  {
    var rest, phase' := rows[1..], if phase == size then 0 else phase + 1;
    SmallOffset(phase, size);
    if i == 0 {
      assert rows[0] !in rest;
      SeenOnly(rest, size, phase');
    } else {
      assert rows[i] == rest[i - 1] && rows[i] != rows[0];
      SeenRows(rest, size, phase', i - 1);
      if phase == size {
        NextOffset(i - 1, size + 1);
        assert phase + i == i - 1 + (size + 1);
      }
    }
  }

  lemma {:induction false} SeenIsDistinct<T>(rows: seq<T>, size: nat, phase: nat)
    requires Distinct(rows) && phase <= size
    ensures Distinct(Seen(rows, size, phase))
  {
    if rows == [] {
    } else {
      var phase' := if phase == size then 0 else phase + 1;
      SeenIsDistinct(rows[1..], size, phase');
      assert rows[0] !in rows[1..];
      SeenOnly(rows[1..], size, phase');
    }
  }

  /** The first row a cursor names is shown on no page. */
  lemma CursorRowMissing<T>(rows: seq<T>, size: nat)
    requires Distinct(rows) && |rows| > size
    ensures Seen(rows, size, 0) != rows
  {
    SeenRows(rows, size, 0, size);
    SmallOffset(size, size);
  }

  /**
   Following the cursors ends and shows no row twice. The row at position i is shown if and only if
   i mod (L + 1) != L.
   */
  lemma WalkMisses<T>(list: seq<T>, limit: Option<int>, i: nat)
    requires Distinct(list) && i < |list|
    ensures Distinct(Walk(list, limit, None))
    ensures list[i] in Walk(list, limit, None) <==> i % (PageSize(limit) + 1) != PageSize(limit)
  {
    WalkShows(list, limit, None);
    SeenRows(list, PageSize(limit), 0, i);
    SeenIsDistinct(list, PageSize(limit), 0);
  }

  /** The pages add up to the listing if and only if it fits on one page. */
  lemma WalkComplete<T>(list: seq<T>, limit: Option<int>)
    requires Distinct(list)
    ensures Walk(list, limit, None) == list <==> |list| <= PageSize(limit)
  {
    WalkShows(list, limit, None);
    if |list| > PageSize(limit) {
      CursorRowMissing(list, PageSize(limit));
    } else {
      SeenLastPage(list, PageSize(limit));
    }
  }

  /** The smallest case: of two rows on pages of one, the second is never shown. */
  lemma SecondRowLost<T>(a: T, b: T)
    requires a != b
    ensures Walk([a, b], Some(1), None) == [a]
  {
    WalkShows([a, b], Some(1), None);
    SeenPage([a, b], 1);
    assert [a, b][2..] == [];
  }
}
