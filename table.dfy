/**
 * The list pages' table logic: case-insensitive substring search over one field or
 * over every field of a row, the page window `slice((page-1)*pageSize, page*pageSize)`
 * and the serial-number column `(page-1)*pageSize + index + 1`.
 */
module Table {
  import opened JsText

  // ---------------------------------------------------------------- search

  /** `field.toLowerCase().includes(query.toLowerCase())`. */
  predicate Matches(field: string, query: string) {
    Includes(Lower(field), Lower(query))
  }

  /** Some field of the row matches: `Object.values(row).some(f => String(f)...)`. */
  predicate AnyMatches(fields: seq<string>, query: string) {
    exists i :: 0 <= i < |fields| && Matches(fields[i], query)
  }

  /** `xs.filter(keep)`. */
  function Filter<T>(xs: seq<T>, keep: T -> bool): (r: seq<T>)
    ensures |r| <= |xs|
    ensures forall x :: x in r ==> x in xs && keep(x)
  {
    if xs == [] then []
    else (if keep(xs[0]) then [xs[0]] else []) + Filter(xs[1..], keep)
  }

  /** a is b with some elements left out, the rest in their original order. */
  predicate IsSubsequence<T(==)>(a: seq<T>, b: seq<T>)
    decreases |b|
  {
    if a == [] then true
    else if b == [] then false
    else (a[0] == b[0] && IsSubsequence(a[1..], b[1..])) || IsSubsequence(a, b[1..])
  }

  /** Filtering keeps exactly the elements that pass, in their original order. */
  lemma {:induction false} FilterMeaning<T>(xs: seq<T>, keep: T -> bool)
    ensures forall x :: x in Filter(xs, keep) <==> x in xs && keep(x)
    ensures IsSubsequence(Filter(xs, keep), xs)
  {
    if xs != [] {
      FilterMeaning(xs[1..], keep);
      assert xs == [xs[0]] + xs[1..];
      var r := Filter(xs, keep);
      if keep(xs[0]) {
        assert r[0] == xs[0] && r[1..] == Filter(xs[1..], keep);
      } else {
        assert r == Filter(xs[1..], keep);
        SubsequenceOfTail(r, xs);
      }
    }
  }

  lemma SubsequenceOfTail<T>(a: seq<T>, b: seq<T>)
    requires b != [] && IsSubsequence(a, b[1..])
    ensures IsSubsequence(a, b)
  {
  }

  /** A filter whose test every element passes returns the list unchanged. */
  lemma {:induction false} FilterKeepsAll<T>(xs: seq<T>, keep: T -> bool)
    requires forall i :: 0 <= i < |xs| ==> keep(xs[i])
    ensures Filter(xs, keep) == xs
  {
    if xs != [] {
      FilterKeepsAll(xs[1..], keep);
    }
  }

  /** Filtering twice with the same test is filtering once. */
  lemma {:induction false} FilterIdempotent<T>(xs: seq<T>, keep: T -> bool)
    ensures Filter(Filter(xs, keep), keep) == Filter(xs, keep)
  {
    var r := Filter(xs, keep);
    forall i | 0 <= i < |r|
      ensures keep(r[i])
    {
      assert r[i] in r;
    }
    FilterKeepsAll(r, keep);
  }

  /** Two tests that agree on every element filter alike. */
  lemma {:induction false} FilterSameTest<T>(xs: seq<T>, keep1: T -> bool, keep2: T -> bool)
    requires forall i :: 0 <= i < |xs| ==> keep1(xs[i]) == keep2(xs[i])
    ensures Filter(xs, keep1) == Filter(xs, keep2)
  {
    if xs != [] {
      FilterSameTest(xs[1..], keep1, keep2);
    }
  }

  /** Every text matches the empty query. */
  lemma MatchesEmpty(field: string)
    ensures Matches(field, "")
  {
    IncludesEmpty(Lower(field));
  }

  /** The search is case-insensitive: lowercasing the field or the query first changes nothing. */
  lemma MatchesIgnoresCase(field: string, query: string)
    ensures Matches(field, Lower(query)) <==> Matches(field, query)
    ensures Matches(Lower(field), query) <==> Matches(field, query)
  {
    LowerIdempotent(query);
    LowerIdempotent(field);
  }

  /** The empty query keeps exactly the rows that have at least one field. */
  lemma AnyMatchesEmpty(fields: seq<string>)
    ensures AnyMatches(fields, "") <==> fields != []
  {
    if fields != [] {
      MatchesEmpty(fields[0]);
    }
  }

  // ---------------------------------------------------------------- pages

  /** `xs.slice((page - 1) * pageSize, page * pageSize)`. */
  function Window<T>(xs: seq<T>, page: int, pageSize: int): (r: seq<T>)
    ensures |r| <= |xs|
  {
    Slice(xs, (page - 1) * pageSize, page * pageSize)
  }

  /** The S/N column: `(page - 1) * pageSize + index + 1`. */
  function SerialNumber(page: int, pageSize: int, index: int): int {
    (page - 1) * pageSize + index + 1
  }

  /**
   * For a valid page (from 1, at least one row per page) the window holds at most
   * `pageSize` rows, and the row at `index` on the page is the row whose 1-based
   * position in the whole list is its serial number.
   */
  lemma WindowRows<T>(xs: seq<T>, page: int, pageSize: int)
    ensures page >= 1 && pageSize >= 1 ==> |Window(xs, page, pageSize)| <= pageSize
    ensures page >= 1 && pageSize >= 1 ==> forall i :: 0 <= i < |Window(xs, page, pageSize)| ==>
      0 <= SerialNumber(page, pageSize, i) - 1 < |xs| && Window(xs, page, pageSize)[i] == xs[SerialNumber(page, pageSize, i) - 1]
  {
    if page >= 1 && pageSize >= 1 {
      var from := (page - 1) * pageSize;
      assert from >= 0 && page * pageSize == from + pageSize;
    }
  }

  /** Pages before the end are full: a page that starts inside the list and ends inside it holds `pageSize` rows. */
  lemma FullWindow<T>(xs: seq<T>, page: int, pageSize: int)
    requires page >= 1 && pageSize >= 1 && page * pageSize <= |xs|
    ensures |Window(xs, page, pageSize)| == pageSize
  {
    assert (page - 1) * pageSize == page * pageSize - pageSize;
  }

  /** The window of page `page`, with its start `lo` named so that the bounds stay linear. */
  lemma WindowSlice<T>(xs: seq<T>, page: int, pageSize: int, lo: int)
    requires page >= 1 && pageSize >= 1 && lo == (page - 1) * pageSize
    ensures lo >= 0
    ensures Window(xs, page, pageSize) == xs[if lo <= |xs| then lo else |xs|..if lo + pageSize <= |xs| then lo + pageSize else |xs|]
  {
    assert page * pageSize == lo + pageSize;
  }

  /** Consecutive pages are adjacent: the first k pages together are the first k * pageSize rows. */
  lemma {:induction false} WindowsCover<T>(xs: seq<T>, pages: nat, pageSize: int)
    requires pageSize >= 1
    ensures Pages(xs, pages, pageSize) == xs[..if pages * pageSize <= |xs| then pages * pageSize else |xs|]
  {
    if pages > 0 {
      var lo := (pages - 1) * pageSize;
      WindowsCover(xs, pages - 1, pageSize);
      WindowSlice(xs, pages, pageSize, lo);
      assert pages * pageSize == lo + pageSize;
      var a := if lo <= |xs| then lo else |xs|;
      var b := if lo + pageSize <= |xs| then lo + pageSize else |xs|;
      PrefixSplit(xs, a, b);
    }
  }

  lemma PrefixSplit<T>(xs: seq<T>, a: int, b: int)
    requires 0 <= a <= b <= |xs|
    ensures xs[..b] == xs[..a] + xs[a..b]
  {
    assert xs[..b] == xs[..a] + xs[a..b];
  }

  /** Pages 1 to `pages`, one after the other. */
  function Pages<T>(xs: seq<T>, pages: nat, pageSize: int): seq<T> {
    if pages == 0 then [] else Pages(xs, pages - 1, pageSize) + Window(xs, pages, pageSize)
  }

  // ---------------------------------------------------------------- numbered rows

  /** A row as the table shows it: its S/N and the record. */
  datatype Numbered<T> = Numbered(serial: int, row: T)

  /** Every row of `shown`, numbered with the page-adjusted S/N of its index in `shown`. */
  function NumberRows<T>(shown: seq<T>, page: int, pageSize: int): (r: seq<Numbered<T>>)
    ensures |r| == |shown|
    ensures forall i :: 0 <= i < |r| ==> r[i] == Numbered(SerialNumber(page, pageSize, i), shown[i])
  {
    seq(|shown|, i requires 0 <= i < |shown| => Numbered(SerialNumber(page, pageSize, i), shown[i]))
  }

  /** Every shown S/N is the row's 1-based position in `xs`. */
  predicate NumberedByPosition<T(==)>(r: seq<Numbered<T>>, xs: seq<T>) {
    forall i :: 0 <= i < |r| ==> 1 <= r[i].serial <= |xs| && xs[r[i].serial - 1] == r[i].row
  }

  /**
   * The table of a paged list that hands the table the window of the page: each row
   * is numbered with its position in the whole filtered list.
   */
  function PagedTable<T>(xs: seq<T>, page: int, pageSize: int): seq<Numbered<T>> {
    NumberRows(Window(xs, page, pageSize), page, pageSize)
  }

  /** On a valid page the paged table numbers every row with its position in `xs`, and shows at most `pageSize` of them. */
  lemma PagedTableNumbering<T>(xs: seq<T>, page: int, pageSize: int)
    ensures page >= 1 && pageSize >= 1 ==> NumberedByPosition(PagedTable(xs, page, pageSize), xs)
    ensures page >= 1 && pageSize >= 1 ==> |PagedTable(xs, page, pageSize)| <= pageSize
  {
    WindowRows(xs, page, pageSize);
  }

  /**
   * The table of a list page that hands the table the whole filtered list, with the
   * table's own paging switched off, while numbering rows as if they were paged.
   */
  function UnpagedTable<T>(xs: seq<T>, page: int, pageSize: int): seq<Numbered<T>> {
    NumberRows(xs, page, pageSize)
  }

  /**
   * On any page after the first, the unpaged table numbers its first row
   * `(page - 1) * pageSize + 1` although it is the first row of the list, and it
   * shows every row rather than one page of them.
   */
  lemma UnpagedTableMisnumbers<T>(xs: seq<T>, page: int, pageSize: int)
    ensures xs != [] && page >= 2 && pageSize >= 1 ==>
      UnpagedTable(xs, page, pageSize)[0] == Numbered(SerialNumber(page, pageSize, 0), xs[0]) &&
      SerialNumber(page, pageSize, 0) > 1
    ensures xs != [] && page >= 2 && pageSize >= 1 && |xs| <= pageSize ==>
      !NumberedByPosition(UnpagedTable(xs, page, pageSize), xs)
  {
    if xs != [] && page >= 2 && pageSize >= 1 {
      var r := UnpagedTable(xs, page, pageSize);
      assert r[0].serial == (page - 1) * pageSize + 1;
      assert (page - 1) * pageSize >= pageSize;
    }
  }
}
