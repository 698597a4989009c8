/** Search and pagination of the admin data table (components/admin/DataTable.tsx). */
module DataTable {
  import opened Wrappers
  import opened Text

  const DefaultPageSize := 10

  /** `String(value).toLowerCase().includes(search.toLowerCase())` (line 47). */
  predicate Matches(value: string, search: string) {
    Contains(Lower(value), Lower(search))
  }

  /** `data.filter(keep)`: the kept rows in their original order. */
  function Filter<T>(data: seq<T>, keep: T -> bool): (r: seq<T>)
    ensures |r| <= |data|
    ensures forall i :: 0 <= i < |r| ==> r[i] in data && keep(r[i])
    ensures forall i :: 0 <= i < |data| && keep(data[i]) ==> data[i] in r
    ensures (forall i :: 0 <= i < |data| ==> keep(data[i])) ==> r == data
    ensures |data| == 1 ==> r == if keep(data[0]) then data else []
  {
    if |data| == 0 then []
    else (if keep(data[0]) then [data[0]] else []) + Filter(data[1..], keep)
  }

  /** Filtering distributes over concatenation, so the kept rows stay in their order; with the
      one-row case of Filter's contract this determines the result. */
  lemma {:induction false} FilterAppend<T>(a: seq<T>, b: seq<T>, keep: T -> bool)
    ensures Filter(a + b, keep) == Filter(a, keep) + Filter(b, keep)
    decreases |a|
  {
    if |a| == 0 {
      assert a + b == b;
    } else {
      assert (a + b)[0] == a[0];
      assert (a + b)[1..] == a[1..] + b;
      FilterAppend(a[1..], b, keep);
    }
  }

  /** Every copy of a kept value stays, and no copy of a dropped one. */
  lemma {:induction false} FilterCounts<T>(data: seq<T>, keep: T -> bool, x: T)
    ensures multiset(Filter(data, keep))[x] == if keep(x) then multiset(data)[x] else 0
    decreases |data|
  {
    if |data| > 0 {
      var head, tail := data[0], data[1..];
      CountSplit(data, head, tail, x);
      FilterStep(data, keep);
      if keep(head) {
        CountSplit(Filter(data, keep), head, Filter(tail, keep), x);
      }
      FilterCounts(tail, keep, x);
    }
  }

  /** One row's step of Filter. */
  lemma FilterStep<T>(data: seq<T>, keep: T -> bool)
    requires |data| > 0
    ensures Filter(data, keep) == (if keep(data[0]) then [data[0]] else []) + Filter(data[1..], keep)
  {
  }

  /** filteredData (lines 44-49); `searchValue` is the stringified `item[searchKey]`, None when there
      is no search key. */
  function FilteredData<T>(data: seq<T>, searchValue: Option<T -> string>, search: string): (r: seq<T>)
    ensures searchValue.None? ==> r == data
    ensures searchValue.Some? ==> r == Filter(data, (x: T) => Matches(searchValue.value(x), search))
    ensures searchValue.Some? ==> forall i :: 0 <= i < |r| ==> r[i] in data && Matches(searchValue.value(r[i]), search)
    ensures searchValue.Some? ==> forall i :: (0 <= i < |data| && Matches(searchValue.value(data[i]), search)
                                               ==> data[i] in r)
  {
    match searchValue
    case None => data
    case Some(value) => Filter(data, (x: T) => Matches(value(x), search))
  }

  /** An empty search string keeps every row. */
  lemma EmptySearchKeepsAll<T>(data: seq<T>, searchValue: Option<T -> string>)
    ensures FilteredData(data, searchValue, "") == data
  {
    if searchValue.Some? {
      forall i | 0 <= i < |data|
        ensures Matches(searchValue.value(data[i]), "")
      {
        ContainsAt(Lower(searchValue.value(data[i])), "", 0);
      }
    }
  }

  /** `Math.ceil(count / pageSize)` (line 52): the fewest pages of `pageSize` rows holding `count` rows. */
  function TotalPages(count: nat, pageSize: int): (pages: nat)
    requires pageSize > 0
    ensures count <= pages * pageSize
    ensures pages == 0 || (pages - 1) * pageSize < count
    ensures pages == 0 <==> count == 0
  {
    var q := (count + pageSize - 1) / pageSize;
    assert pageSize * q <= count + pageSize - 1 < pageSize * q + pageSize;
    q
  }

  /** startIndex (line 53). */
  function StartIndex(page: int, pageSize: int): int {
    (page - 1) * pageSize
  }

  /** `s.slice(start, end)`: negative positions count from the end, all are clamped to the string. */
  function JsSlice<T>(s: seq<T>, start: int, end: int): (r: seq<T>)
    ensures 0 <= start <= end ==> r == s[Min(start, |s|)..Min(end, |s|)]
  {
    var from := if start < 0 then Max(|s| + start, 0) else Min(start, |s|);
    var to := if end < 0 then Max(|s| + end, 0) else Min(end, |s|);
    if from >= to then [] else s[from..to]
  }

  function Min(a: int, b: int): int { if a < b then a else b }
  function Max(a: int, b: int): int { if a < b then b else a }

  /** paginatedData (line 54): page `page` holds the rows from its start index, at most `pageSize`. */
  function PageRows<T>(filtered: seq<T>, page: int, pageSize: int): (rows: seq<T>)
    requires pageSize > 0
    ensures page >= 1 ==> |rows| <= pageSize
    ensures page >= 1 ==> var start := StartIndex(page, pageSize);
      rows == filtered[Min(start, |filtered|)..Min(start + pageSize, |filtered|)]
  {
    var start := StartIndex(page, pageSize);
    assert page >= 1 ==> start >= 0;
    JsSlice(filtered, start, start + pageSize)
  }

  /** Pages 1 to `k` one after the other. */
  function PagesUpTo<T>(filtered: seq<T>, pageSize: int, k: nat): seq<T>
    requires pageSize > 0
  {
    if k == 0 then [] else PagesUpTo(filtered, pageSize, k - 1) + PageRows(filtered, k, pageSize)
  }

  /** The first `k` pages are the first `k * pageSize` rows. */
  lemma {:induction false} PagesUpToPrefix<T>(filtered: seq<T>, pageSize: int, k: nat)
    requires pageSize > 0
    ensures PagesUpTo(filtered, pageSize, k) == filtered[..Min(k * pageSize, |filtered|)]
  {
    if k > 0 {
      PagesUpToPrefix(filtered, pageSize, k - 1);
      var lo, hi := (k - 1) * pageSize, k * pageSize;
      NextPageStart(k, pageSize);
      var a, b := Min(lo, |filtered|), Min(hi, |filtered|);
      assert PageRows(filtered, k, pageSize) == filtered[a..b];
      SliceJoin(filtered, a, b);
    }
  }

  lemma NextPageStart(k: nat, pageSize: int)
    requires k > 0 && pageSize > 0
    ensures k * pageSize == (k - 1) * pageSize + pageSize && (k - 1) * pageSize >= 0
  {
  }

  lemma SliceJoin<T>(s: seq<T>, a: int, b: int)
    requires 0 <= a <= b <= |s|
    ensures s[..a] + s[a..b] == s[..b]
  {
  }

  /** Reading all pages from 1 to totalPages gives the filtered rows exactly, in order. */
  lemma AllPagesCoverData<T>(filtered: seq<T>, pageSize: int)
    requires pageSize > 0
    ensures PagesUpTo(filtered, pageSize, TotalPages(|filtered|, pageSize)) == filtered
  {
    var total := TotalPages(|filtered|, pageSize);
    PagesUpToPrefix(filtered, pageSize, total);
    assert filtered[..|filtered|] == filtered;
  }

  /** "Showing {startIndex + 1} to {min(startIndex + pageSize, count)} of {count}" (line 146). */
  function ShowingFrom(page: int, pageSize: int): int {
    StartIndex(page, pageSize) + 1
  }

  function ShowingTo(page: int, pageSize: int, count: nat): int {
    Min(StartIndex(page, pageSize) + pageSize, count)
  }

  /** On every existing page the 'Showing' range names exactly the rows the page shows. */
  lemma {:induction false} ShowingMatchesPage<T>(filtered: seq<T>, page: int, pageSize: int)
    requires pageSize > 0 && 1 <= page <= TotalPages(|filtered|, pageSize)
    ensures var from, to := ShowingFrom(page, pageSize), ShowingTo(page, pageSize, |filtered|);
      1 <= from <= to <= |filtered| && PageRows(filtered, page, pageSize) == filtered[from - 1..to]
      && |PageRows(filtered, page, pageSize)| == to - from + 1
  {
    var total := TotalPages(|filtered|, pageSize);
    assert (page - 1) * pageSize <= (total - 1) * pageSize;
    assert (page - 1) * pageSize >= 0;
  }

  /** The pagination controls (line 143) appear exactly when there are more rows than fit a page. */
  predicate ControlsShown(count: nat, pageSize: int)
    requires pageSize > 0
  {
    TotalPages(count, pageSize) > 1
  }

  lemma ControlsIffOverflow(count: nat, pageSize: int)
    requires pageSize > 0
    ensures ControlsShown(count, pageSize) <==> count > pageSize
  {
    var total := TotalPages(count, pageSize);
    if total <= 1 {
      assert count <= total * pageSize <= pageSize;
    } else {
      assert pageSize <= (total - 1) * pageSize < count;
    }
  }

  /** The user's actions: typing a search, and the Previous and Next buttons. */
  datatype Action = SearchInput(text: string) | PreviousClick | NextClick

  /** The component state: the search text and the current page. */
  datatype TableState = TableState(search: string, currentPage: int)

  const InitialState := TableState("", 1)

  /** `Math.max(1, p - 1)` (line 152). */
  function PreviousPage(p: int): (r: int)
    ensures r >= 1 && (p > 1 ==> r == p - 1) && (p <= 1 ==> r == 1)
  {
    Max(1, p - 1)
  }

  /** `Math.min(totalPages, p + 1)` (line 163). */
  function NextPage(p: int, totalPages: int): (r: int)
    ensures r <= totalPages && (p < totalPages ==> r == p + 1) && (p >= totalPages ==> r == totalPages)
  {
    Min(totalPages, p + 1)
  }

  /** One action: a search resets to page 1 (lines 71-74); the buttons exist only while the controls
      are shown and are disabled on the first and on the last page (lines 143, 153, 164). */
  function Step<T>(state: TableState, action: Action, data: seq<T>, searchValue: Option<T -> string>,
                   pageSize: int): (next: TableState)
    requires pageSize > 0
    ensures action.SearchInput? ==> next == TableState(action.text, 1)
    ensures !action.SearchInput? ==> next.search == state.search
  {
    var total := TotalPages(|FilteredData(data, searchValue, state.search)|, pageSize);
    match action
    case SearchInput(text) => TableState(text, 1)
    case PreviousClick =>
      if total > 1 && state.currentPage != 1 then state.(currentPage := PreviousPage(state.currentPage))
      else state
    case NextClick =>
      if total > 1 && state.currentPage != total then state.(currentPage := NextPage(state.currentPage, total))
      else state
  }

  function Run<T>(state: TableState, actions: seq<Action>, data: seq<T>, searchValue: Option<T -> string>,
                  pageSize: int): TableState
    requires pageSize > 0
    decreases |actions|
  {
    if |actions| == 0 then state
    else Run(Step(state, actions[0], data, searchValue, pageSize), actions[1..], data, searchValue, pageSize)
  }

  /** The page is always a real page: at least 1, and at most totalPages once there are rows. */
  ghost predicate InRange<T>(state: TableState, data: seq<T>, searchValue: Option<T -> string>, pageSize: int)
    requires pageSize > 0
  {
    var total := TotalPages(|FilteredData(data, searchValue, state.search)|, pageSize);
    1 <= state.currentPage && (total > 0 ==> state.currentPage <= total)
  }

  lemma StepKeepsRange<T>(state: TableState, action: Action, data: seq<T>, searchValue: Option<T -> string>,
                          pageSize: int)
    requires pageSize > 0 && InRange(state, data, searchValue, pageSize)
    ensures InRange(Step(state, action, data, searchValue, pageSize), data, searchValue, pageSize)
  {
    var next := Step(state, action, data, searchValue, pageSize);
    if action.SearchInput? {
      assert next.currentPage == 1;
      var total := TotalPages(|FilteredData(data, searchValue, next.search)|, pageSize);
      assert total > 0 ==> 1 <= total;
    }
  }

  /** Starting from the first page, no sequence of searches and clicks leaves the range. */
  lemma {:induction false} RunKeepsRange<T>(state: TableState, actions: seq<Action>, data: seq<T>,
                                             searchValue: Option<T -> string>, pageSize: int)
    requires pageSize > 0 && InRange(state, data, searchValue, pageSize)
    ensures InRange(Run(state, actions, data, searchValue, pageSize), data, searchValue, pageSize)
    decreases |actions|
  {
    if |actions| > 0 {
      StepKeepsRange(state, actions[0], data, searchValue, pageSize);
      RunKeepsRange(Step(state, actions[0], data, searchValue, pageSize), actions[1..], data, searchValue, pageSize);
    }
  }

  /** The table component: its props are fixed, its search text and page are state. */
  class Table<T> {
    const data: seq<T>
    const searchValue: Option<T -> string>
    const pageSize: int
    var search: string
    var currentPage: int

    constructor (data: seq<T>, searchValue: Option<T -> string>, pageSize: Option<int>)
      requires pageSize.GetOr(DefaultPageSize) > 0
      ensures this.data == data && this.searchValue == searchValue && this.pageSize == pageSize.GetOr(DefaultPageSize)
      ensures State() == InitialState
    {
      this.data := data;
      this.searchValue := searchValue;
      this.pageSize := pageSize.GetOr(DefaultPageSize);
      search := "";
      currentPage := 1;
    }

    function State(): TableState
      reads this
    {
      TableState(search, currentPage)
    }

    /** The rows on screen (lines 44-54). */
    method Visible() returns (rows: seq<T>)
      requires pageSize > 0
      ensures rows == PageRows(FilteredData(data, searchValue, search), currentPage, pageSize)
    {
      var filtered := FilteredData(data, searchValue, search);
      var start := (currentPage - 1) * pageSize;
      rows := JsSlice(filtered, start, start + pageSize);
    }

    method OnSearchChange(text: string)
      requires pageSize > 0
      modifies this
      ensures State() == Step(old(State()), SearchInput(text), data, searchValue, pageSize)
    {
      search := text;
      currentPage := 1;
    }

    method OnPrevious()
      requires pageSize > 0
      modifies this
      ensures State() == Step(old(State()), PreviousClick, data, searchValue, pageSize)
    {
      var total := TotalPages(|FilteredData(data, searchValue, search)|, pageSize);
      if total > 1 && currentPage != 1 {
        currentPage := if currentPage - 1 > 1 then currentPage - 1 else 1;
      }
    }

    method OnNext()
      requires pageSize > 0
      modifies this
      ensures State() == Step(old(State()), NextClick, data, searchValue, pageSize)
    {
      var total := TotalPages(|FilteredData(data, searchValue, search)|, pageSize);
      if total > 1 && currentPage != total {
        currentPage := if currentPage + 1 < total then currentPage + 1 else total;
      }
    }
  }
}
