/**
 * The reusable table: a three-state sort cycle per column, a comparator that
 * places missing values last (ascending) or first (descending), sorting a
 * copy of the rows, page slicing and page clamping.
 *
 * A cell's sort value is `Missing` (`null`/`undefined`), a `Text`, or a
 * `Number`; a `Date` is its `getTime()` and so a `Number`.
 */
module DataTable {
  import opened Common
  import opened Sorting

  datatype Direction = Asc | Desc

  /** `sortConfig`: the sorted column's key (`None` is `null`) and the direction. */
  datatype SortConfig = SortConfig(key: Option<string>, direction: Direction)

  datatype CellValue = Missing | Text(s: string) | Number(n: int)

  /**
   * A column: its key, whether it has a `render` function, its `sortable`
   * flag (`None` when not given) and the value a row sorts by (`sortValue`,
   * else `row[key]`).
   */
  datatype Column<!T> = Column(key: string, hasRender: bool, sortable: Option<bool>, value: T -> CellValue)

  // ---------------------------------------------------------------------
  // The sort cycle
  // ---------------------------------------------------------------------

  /** `handleSort`'s update of the sort configuration. */
  function NextSort(c: SortConfig, key: string): (r: SortConfig)
    ensures c.key != Some(key) ==> r == SortConfig(Some(key), Asc)
    ensures c.key == Some(key) && c.direction == Asc ==> r == SortConfig(Some(key), Desc)
    ensures c.key == Some(key) && c.direction == Desc ==> r == SortConfig(None, Asc)
  {
    if c.key != Some(key) then SortConfig(Some(key), Asc)
    else if c.direction == Asc then SortConfig(Some(key), Desc)
    else SortConfig(None, Asc)
  }

  /**
   * Clicking the same header three times from any other state goes through
   * ascending, descending and unsorted, and the fourth click starts over.
   */
  lemma NextSortCycle(c: SortConfig, key: string)
    requires c.key != Some(key)
    ensures var c1 := NextSort(c, key);
      var c2 := NextSort(c1, key);
      var c3 := NextSort(c2, key);
      && c1 == SortConfig(Some(key), Asc)
      && c2 == SortConfig(Some(key), Desc)
      && c3 == SortConfig(None, Asc)
      && NextSort(c3, key) == c1
  {
  }

  // ---------------------------------------------------------------------
  // The comparator
  // ---------------------------------------------------------------------

  /**
   * A present value as the relational operators read it: a number is
   * itself, a text is `Number(text)`, which is `NaN` (`None`) when the text
   * is not a number.
   */
  function NumericValue(v: CellValue): Option<int>
  {
    match v
    case Number(n) => Some(n)
    case Text(s) => ToNumber(s)
    case Missing => None
  }

  /** `a < b ? -1 : a > b ? 1 : 0` on two numbers. */
  function NumberCompare(x: int, y: int): (r: int)
    ensures -1 <= r <= 1
    ensures (r < 0 <==> x < y) && (r == 0 <==> x == y)
  {
    if x < y then -1 else if x > y then 1 else 0
  }

  /**
   * The comparison of two present values: `localeCompare` on two strings,
   * and `<`/`>` otherwise, which compares the numeric readings of both and
   * gives 0 when either reading is `NaN`.
   */
  function BaseCompare(a: CellValue, b: CellValue): (r: int)
    requires a != Missing && b != Missing
    ensures -1 <= r <= 1
    ensures a.Text? && b.Text? ==> (r == 0 <==> a.s == b.s) && (r < 0 <==> StrCmp(a.s, b.s) < 0)
    ensures !(a.Text? && b.Text?) && NumericValue(a).Some? && NumericValue(b).Some? ==>
      (r < 0 <==> NumericValue(a).value < NumericValue(b).value) && (r == 0 <==> NumericValue(a).value == NumericValue(b).value)
    ensures !(a.Text? && b.Text?) && (NumericValue(a).None? || NumericValue(b).None?) ==> r == 0
  {
    if a.Text? && b.Text? then
      StrCmpAntisymmetric(a.s, b.s);
      StrCmp(a.s, b.s)
    else
      var x, y := NumericValue(a), NumericValue(b);
      if x.Some? && y.Some? then NumberCompare(x.value, y.value) else 0
  }

  /**
   * A digit text against a number compares by its decimal value, in either
   * order, so a text "10" sorts after the number 5.
   */
  lemma DigitTextComparesByValue(s: string, n: int)
    requires IsDigits(s)
    ensures BaseCompare(CellValue.Text(s), CellValue.Number(n)) == NumberCompare(DigitsValue(s) as int, n)
    ensures BaseCompare(CellValue.Number(n), CellValue.Text(s)) == NumberCompare(n, DigitsValue(s) as int)
  {
    ParseDigits(s);
  }

  /** The comparator passed to `sort`. */
  function Compare(a: CellValue, b: CellValue, dir: Direction): (r: int)
    ensures a == Missing && b != Missing ==> (r > 0 <==> dir == Asc) && r != 0
    ensures b == Missing && a != Missing ==> (r < 0 <==> dir == Asc) && r != 0
    ensures a == Missing && b == Missing ==> r == 0
  {
    if a == Missing && b == Missing then 0
    else if a == Missing then (if dir == Asc then 1 else -1)
    else if b == Missing then (if dir == Asc then -1 else 1)
    else
      var result := BaseCompare(a, b);
      if dir == Asc then result else -result
  }

  /** The descending comparison is exactly the negated ascending one, for every pair. */
  lemma CompareDescNegatesAsc(a: CellValue, b: CellValue)
    ensures Compare(a, b, Desc) == -Compare(a, b, Asc)
  {
  }

  lemma CompareAntisymmetric(a: CellValue, b: CellValue, dir: Direction)
    ensures Compare(a, b, dir) == -Compare(b, a, dir)
  {
    if a.Text? && b.Text? {
      StrCmpAntisymmetric(a.s, b.s);
    }
  }

  /** No value is a string while another is a number. */
  predicate NoMixedKinds(vs: set<CellValue>)
  {
    forall a, b :: a in vs && b in vs && a.Text? ==> !b.Number?
  }

  lemma CompareAscTransitive(a: CellValue, b: CellValue, c: CellValue)
    requires NoMixedKinds({a, b, c})
    requires Compare(a, b, Asc) <= 0 && Compare(b, c, Asc) <= 0
    ensures Compare(a, c, Asc) <= 0
  {
    if a.Text? && b.Text? && c.Text? {
      StrCmpTransitive(a.s, b.s, c.s);
    }
  }

  lemma CompareTransitive(a: CellValue, b: CellValue, c: CellValue, dir: Direction)
    requires NoMixedKinds({a, b, c})
    requires Compare(a, b, dir) <= 0 && Compare(b, c, dir) <= 0
    ensures Compare(a, c, dir) <= 0
  {
    if dir == Asc {
      CompareAscTransitive(a, b, c);
    } else {
      CompareDescNegatesAsc(a, b);
      CompareDescNegatesAsc(b, c);
      CompareDescNegatesAsc(a, c);
      CompareAntisymmetric(a, b, Asc);
      CompareAntisymmetric(b, c, Asc);
      CompareAntisymmetric(a, c, Asc);
      assert {c, b, a} == {a, b, c};
      CompareAscTransitive(c, b, a);
    }
  }

  /** The values a column gives the rows. */
  ghost function Values<T>(rows: seq<T>, value: T -> CellValue): (r: set<CellValue>)
    ensures forall x :: x in rows ==> value(x) in r
  {
    set x | x in rows :: value(x)
  }

  function RowCompare<T>(value: T -> CellValue, dir: Direction): (T, T) -> int
  {
    (x: T, y: T) => Compare(value(x), value(y), dir)
  }

  /** On a column without mixed kinds the comparator is a total preorder, so the sort order is defined. */
  lemma RowCompareConsistent<T>(rows: seq<T>, value: T -> CellValue, dir: Direction)
    requires NoMixedKinds(Values(rows, value))
    ensures ConsistentOn(rows, RowCompare(value, dir))
  {
    var cmp := RowCompare(value, dir);
    forall x, y | x in rows && y in rows && cmp(x, y) > 0
      ensures cmp(y, x) < 0
    {
      CompareAntisymmetric(value(x), value(y), dir);
    }
    forall x, y, z | x in rows && y in rows && z in rows && cmp(x, y) <= 0 && cmp(y, z) <= 0
      ensures cmp(x, z) <= 0
    {
      assert {value(x), value(y), value(z)} <= Values(rows, value);
      CompareTransitive(value(x), value(y), value(z), dir);
    }
  }

  // ---------------------------------------------------------------------
  // sortedData
  // ---------------------------------------------------------------------

  /** `columns.find(col => col.key === key)`. */
  function FindColumn<T>(columns: seq<Column<T>>, key: string): (r: Option<nat>)
    ensures r.Some? ==>
      && r.value < |columns| && columns[r.value].key == key
      && forall i :: 0 <= i < r.value ==> columns[i].key != key
    ensures r.None? ==> forall i :: 0 <= i < |columns| ==> columns[i].key != key
  {
    if |columns| == 0 then None
    else if columns[0].key == key then Some(0)
    else match FindColumn(columns[1..], key)
      case None => None
      case Some(i) => Some(i + 1)
  }

  /** The column `sortedData` sorts by, if any: a non-empty key naming a column not marked `sortable: false`. */
  function SortColumn<T>(columns: seq<Column<T>>, c: SortConfig): Option<nat>
  {
    if c.key.None? || c.key.value == "" then None
    else match FindColumn(columns, c.key.value)
      case None => None
      case Some(i) => if columns[i].sortable == Some(false) then None else Some(i)
  }

  /** `sortedData`: the rows themselves, or a sorted copy. */
  function SortedData<T>(data: seq<T>, columns: seq<Column<T>>, c: SortConfig): (r: seq<T>)
    ensures multiset(r) == multiset(data)
    ensures SortColumn(columns, c).None? ==> r == data
  {
    match SortColumn(columns, c)
    case None => data
    case Some(i) => SortBy(data, RowCompare(columns[i].value, c.direction))
  }

  /**
   * When a column is chosen and its values are of one kind, the rows come out
   * ordered by the comparator: missing values last when ascending and first
   * when descending.
   */
  lemma SortedDataOrdered<T>(data: seq<T>, columns: seq<Column<T>>, c: SortConfig)
    requires SortColumn(columns, c).Some?
    requires NoMixedKinds(Values(data, columns[SortColumn(columns, c).value].value))
    ensures var col := columns[SortColumn(columns, c).value];
      SortedBy(SortedData(data, columns, c), RowCompare(col.value, c.direction))
  {
    var col := columns[SortColumn(columns, c).value];
    RowCompareConsistent(data, col.value, c.direction);
    SortBySortedIn(data, RowCompare(col.value, c.direction), data);
  }

  /** In an ascending sort no present value follows a missing one. */
  lemma MissingLastAscending<T>(r: seq<T>, value: T -> CellValue, i: nat, j: nat)
    requires SortedBy(r, RowCompare(value, Asc))
    requires i < j < |r| && value(r[i]) == Missing
    ensures value(r[j]) == Missing
  {
    assert RowCompare(value, Asc)(r[i], r[j]) <= 0;
  }

  /** In a descending sort no missing value follows a present one. */
  lemma MissingFirstDescending<T>(r: seq<T>, value: T -> CellValue, i: nat, j: nat)
    requires SortedBy(r, RowCompare(value, Desc))
    requires i < j < |r| && value(r[j]) == Missing
    ensures value(r[i]) == Missing
  {
    assert RowCompare(value, Desc)(r[i], r[j]) <= 0;
  }

  // ---------------------------------------------------------------------
  // Pagination
  // ---------------------------------------------------------------------

  /** `Math.ceil(n / itemsPerPage)`. */
  function TotalPages(n: nat, perPage: nat): (r: nat)
    requires perPage > 0
    ensures n == 0 <==> r == 0
    ensures r * perPage >= n
    ensures r > 0 ==> (r - 1) * perPage < n
  {
    (n + perPage - 1) / perPage
  }

  /** `Array.prototype.slice(start, end)` for non-negative bounds: both are cut to the length. */
  function Slice<T>(s: seq<T>, start: nat, end: nat): (r: seq<T>)
    ensures |r| <= if end >= start then end - start else 0
    ensures start <= end && end <= |s| ==> r == s[start..end]
    ensures start >= |s| ==> r == []
  {
    var b := if end < |s| then end else |s|;
    var a := if start < b then start else b;
    s[a..b]
  }

  /** The rows of page `page` (1-based). */
  function PageRows<T>(sorted: seq<T>, page: nat, perPage: nat): (r: seq<T>)
    requires page >= 1 && perPage > 0
    ensures |r| <= perPage
  {
    Slice(sorted, (page - 1) * perPage, (page - 1) * perPage + perPage)
  }

  /** Every page up to `TotalPages` is non-empty, and together the pages hold every row in order. */
  lemma PageRowsOfValidPage<T>(sorted: seq<T>, page: nat, perPage: nat)
    requires perPage > 0 && 1 <= page <= TotalPages(|sorted|, perPage)
    ensures var start := (page - 1) * perPage;
      var end := if start + perPage < |sorted| then start + perPage else |sorted|;
      && start < end
      && PageRows(sorted, page, perPage) == sorted[start..end]
  {
    var start := (page - 1) * perPage;
    assert start < |sorted| by {
      var t := TotalPages(|sorted|, perPage);
      assert (page - 1) * perPage <= (t - 1) * perPage by {
        MulMonotone(page - 1, t - 1, perPage);
      }
    }
  }

  lemma MulMonotone(a: nat, b: nat, c: nat)
    requires a <= b
    ensures a * c <= b * c
  {
  }

  /** `goToPage`: `Math.max(1, Math.min(page, totalPages))`. */
  function ClampPage(page: int, totalPages: nat): (r: int)
    ensures r >= 1
    ensures totalPages >= 1 ==> r <= totalPages
    ensures 1 <= page <= totalPages ==> r == page
    ensures totalPages == 0 ==> r == 1
  {
    var m := if page < totalPages then page else totalPages;
    if m > 1 then m else 1
  }

  /** The pager is shown when there are rows and more than one page. */
  predicate ShowPager(n: nat, totalPages: nat) { n > 0 && totalPages > 1 }

  /** The "Showing a to b" numbers of the pager. */
  function ShownRange(page: nat, perPage: nat, n: nat): (nat, nat)
    requires page >= 1
  {
    var start := (page - 1) * perPage;
    var end := start + perPage;
    (start + 1, if end < n then end else n)
  }

  /** On a valid page the pager's numbers count exactly the rows on it. */
  lemma ShownRangeCountsPageRows<T>(sorted: seq<T>, page: nat, perPage: nat)
    requires perPage > 0 && 1 <= page <= TotalPages(|sorted|, perPage)
    ensures var (first, last) := ShownRange(page, perPage, |sorted|);
      first <= last && last - first + 1 == |PageRows(sorted, page, perPage)|
  {
    PageRowsOfValidPage(sorted, page, perPage);
  }

  // ---------------------------------------------------------------------
  // Clickable headers
  // ---------------------------------------------------------------------

  /** The header test as written: `sortable !== false && !render`. */
  predicate HeaderSortableAsWritten<T>(col: Column<T>)
  {
    col.sortable != Some(false) && !col.hasRender
  }

  /**
   * The column type documents `sortable` as defaulting to true without a
   * render function and false with one, and as overridable. The header test
   * ignores an explicit `sortable: true` on a rendered column.
   */
  lemma HeaderIgnoresExplicitSortable<T>(value: T -> CellValue)
    ensures !HeaderSortableAsWritten(Column("amount", true, Some(true), value))
  {
  }

  /** The documented rule: an explicit flag wins, otherwise columns without `render` sort. */
  predicate HeaderSortable<T>(col: Column<T>)
  {
    if col.sortable.Some? then col.sortable.value else !col.hasRender
  }

  /** The documented rule agrees with the written one except on a rendered column marked `sortable: true`. */
  lemma HeaderSortableOverrides<T>(col: Column<T>)
    ensures col.sortable == Some(false) ==> !HeaderSortable(col)
    ensures col.sortable == Some(true) ==> HeaderSortable(col)
    ensures col.sortable.None? ==> (HeaderSortable(col) <==> !col.hasRender)
    ensures HeaderSortable(col) != HeaderSortableAsWritten(col) <==> col.sortable == Some(true) && col.hasRender
  {
  }

  // ---------------------------------------------------------------------
  // The table's state
  // ---------------------------------------------------------------------

  class TableState {
    var currentPage: int
    var sortConfig: SortConfig

    predicate Valid()
      reads this
    {
      currentPage >= 1
    }

    /** First render: page 1, sorted by `defaultSortKey || null` in `defaultSortOrder`. */
    constructor(defaultSortKey: Option<string>, defaultSortOrder: Direction)
      ensures Valid()
      ensures currentPage == 1
      ensures sortConfig == SortConfig(if defaultSortKey == Some("") then None else defaultSortKey, defaultSortOrder)
    {
      currentPage := 1;
      sortConfig := SortConfig(if defaultSortKey == Some("") then None else defaultSortKey, defaultSortOrder);
    }

    /** `handleSort`: back to page 1 and one step of the sort cycle. */
    method HandleSort(key: string)
      modifies this
      ensures Valid()
      ensures currentPage == 1 && sortConfig == NextSort(old(sortConfig), key)
    {
      currentPage := 1;
      sortConfig := NextSort(sortConfig, key);
    }

    /**
     * A header click. The header reacts under the written test, so a
     * rendered column marked `sortable: true` ignores the click.
     */
    method ClickHeader<T>(col: Column<T>)
      requires Valid()
      modifies this
      ensures Valid()
      ensures HeaderSortableAsWritten(col) ==> currentPage == 1 && sortConfig == NextSort(old(sortConfig), col.key)
      ensures !HeaderSortableAsWritten(col) ==> currentPage == old(currentPage) && sortConfig == old(sortConfig)
    {
      if HeaderSortableAsWritten(col) {
        HandleSort(col.key);
      }
    }

    /** `goToPage`, given the number of sorted rows. */
    method GoToPage(page: int, n: nat, perPage: nat)
      requires perPage > 0
      modifies this
      ensures Valid()
      ensures currentPage == ClampPage(page, TotalPages(n, perPage)) && sortConfig == old(sortConfig)
    {
      var totalPages := TotalPages(n, perPage);
      currentPage := ClampPage(page, totalPages);
    }

    /** `currentData`: the rows of the current page after sorting. */
    function CurrentData<T>(data: seq<T>, columns: seq<Column<T>>, perPage: nat): (r: seq<T>)
      requires Valid() && perPage > 0
      reads this
      ensures |r| <= perPage
      ensures forall x :: x in r ==> x in data
    {
      var sorted := SortedData(data, columns, sortConfig);
      var rows := PageRows(sorted, currentPage, perPage);
      assert forall x :: x in rows ==> x in multiset(sorted);
      rows
    }
  }
}
