/**
 * Cursor pagination as both of the source system's list endpoints offer it:
 * a request names the last record the caller has seen (`starting_after`) and
 * gets the next run of at most `limit` records and a `has_more` flag.
 */
module Paging {
  import opened Wrappers

  datatype Page<T> = Page(data: seq<T>, hasMore: bool)

  /** No record occurs twice; the source's records carry unique ids. */
  predicate Distinct<T(==)>(xs: seq<T>) {
    xs == [] || (xs[0] !in xs[1..] && Distinct(xs[1..]))
  }

  /** In a list without repeats, no two positions hold the same record. */
  lemma {:induction false} DistinctAt<T>(xs: seq<T>, i: nat, j: nat)
    requires Distinct(xs)
    requires i < j < |xs|
    ensures xs[i] != xs[j]
  {
    if i == 0 {
      assert xs[j] == xs[1..][j - 1];
    } else {
      DistinctAt(xs[1..], i - 1, j - 1);
    }
  }

  /**
   * The records after the first occurrence of `c`; empty when `c` does not
   * occur (the real endpoint reports an unknown cursor as an error; the
   * loops of this model never send one).
   */
  function SuffixAfter<T(==)>(xs: seq<T>, c: T): (rest: seq<T>)
    ensures |rest| <= |xs|
  {
    if xs == [] then [] else if xs[0] == c then xs[1..] else SuffixAfter(xs[1..], c)
  }

  /** A cursor that does not occur selects nothing; one that does selects a tail. */
  lemma {:induction false} SuffixAfterIsTail<T>(xs: seq<T>, c: T)
    ensures c !in xs ==> SuffixAfter(xs, c) == []
    ensures c in xs ==> exists i :: 0 <= i < |xs| && xs[i] == c && SuffixAfter(xs, c) == xs[i + 1..]
  {
    if xs != [] && xs[0] != c {
      SuffixAfterIsTail(xs[1..], c);
      if c in xs {
        assert c in xs[1..];
        var i :| 0 <= i < |xs[1..]| && xs[1..][i] == c && SuffixAfter(xs[1..], c) == xs[1..][i + 1..];
        assert xs[i + 1] == c && xs[1..][i + 1..] == xs[i + 2..];
      }
    } else if xs != [] {
      assert xs[0] == c;
    }
  }

  /** Where a listing resumes: from the start without a cursor, just after the cursor record otherwise. */
  function After<T(==)>(xs: seq<T>, cursor: Option<T>): seq<T> {
    match cursor
    case None => xs
    case Some(c) => SuffixAfter(xs, c)
  }

  /** The page that a request with cursor `cursor` and page size `limit` answers. */
  function List<T(==)>(xs: seq<T>, cursor: Option<T>, limit: nat): Page<T> {
    var rest := After(xs, cursor);
    if |rest| <= limit then Page(rest, false) else Page(rest[..limit], true)
  }

  /** The cursor a client holds after consuming the first `k` records. */
  function CursorAfter<T>(xs: seq<T>, k: nat): Option<T>
    requires k <= |xs|
  {
    if k == 0 then None else Some(xs[k - 1])
  }

  /** In a list without repeats, resuming after a record continues at the next position. */
  lemma {:induction false} SuffixAfterRecord<T>(xs: seq<T>, i: nat)
    requires Distinct(xs)
    requires i < |xs|
    ensures SuffixAfter(xs, xs[i]) == xs[i + 1..]
  {
    if i > 0 {
      DistinctAt(xs, 0, i);
      assert xs[i] == xs[1..][i - 1];
      SuffixAfterRecord(xs[1..], i - 1);
      assert xs[1..][i..] == xs[i + 1..];
    }
  }

  /** Resuming after the last consumed record continues exactly where the client stopped. */
  lemma ResumesAfterCursor<T>(xs: seq<T>, k: nat)
    requires Distinct(xs)
    requires k <= |xs|
    ensures After(xs, CursorAfter(xs, k)) == xs[k..]
  {
    if k > 0 {
      SuffixAfterRecord(xs, k - 1);
    }
  }

  /**
   * A client that always passes its last record as the cursor is handed the
   * records in order: after the page, it has consumed a longer prefix and
   * holds the page's last record (or its old cursor, after an empty page).
   * A page with `has_more` is full; one without it ends the collection.
   */
  lemma NextPage<T>(xs: seq<T>, k: nat, limit: nat)
    requires Distinct(xs)
    requires k <= |xs| && limit > 0
    ensures var page := List(xs, CursorAfter(xs, k), limit);
            var n := k + |page.data|;
            && n <= |xs|
            && xs[..k] + page.data == xs[..n]
            && CursorAfter(xs, n) == (if page.data == [] then CursorAfter(xs, k) else Some(page.data[|page.data| - 1]))
            && (page.hasMore ==> |page.data| == limit)
            && (!page.hasMore ==> n == |xs|)
  {
    ResumesAfterCursor(xs, k);
    var page := List(xs, CursorAfter(xs, k), limit);
    var n := k + |page.data|;
    assert page.data == xs[k..n];
    assert xs[..k] + xs[k..n] == xs[..n];
  }
}
