/** The stock levels page: the status filter, then the sort, applied to the loaded items,
    and the page state the mount-time fetch fills in. */
module StockList {
  import opened Common
  import opened Lists
  import StockRow

  /** `'name' | 'quantity' | 'updatedAt'` */
  datatype SortKey = ByName | ByQuantity | ByUpdatedAt

  /** `'all' | 'low' | 'ok'` */
  datatype FilterStatus = ShowAll | ShowLow | ShowOk

  /** Whether the status filter lets an item through. */
  predicate Passes(status: FilterStatus, stock: StockItem) {
    match status
    case ShowLow => stock.quantity <= stock.threshold
    case ShowOk => stock.quantity > stock.threshold
    case ShowAll => true
  }

  function StatusFilter(status: FilterStatus): StockItem -> bool {
    stock => Passes(status, stock)
  }

  /** Drink names compared character by character, a shorter prefix first: the model's
      stand-in for `localeCompare`. Negative when `a` sorts first. */
  function LexCompare(a: string, b: string): (c: int)
    ensures -1 <= c <= 1
  {
    if a == [] && b == [] then 0
    else if a == [] then -1
    else if b == [] then 1
    else if a[0] < b[0] then -1
    else if a[0] > b[0] then 1
    else LexCompare(a[1..], b[1..])
  }

  lemma {:induction false} LexAntisymmetric(a: string, b: string)
    ensures LexCompare(b, a) == -LexCompare(a, b)
  {
    if a != [] && b != [] && a[0] == b[0] {
      LexAntisymmetric(a[1..], b[1..]);
    }
  }

  /** Two names compare equal exactly when they are the same name. */
  lemma {:induction false} LexZeroIffEqual(a: string, b: string)
    ensures LexCompare(a, b) == 0 <==> a == b
  {
    if a != [] && b != [] && a[0] == b[0] {
      LexZeroIffEqual(a[1..], b[1..]);
      assert a == [a[0]] + a[1..] && b == [b[0]] + b[1..];
    }
  }

  lemma {:induction false} LexTransitive(a: string, b: string, c: string)
    requires LexCompare(a, b) <= 0 && LexCompare(b, c) <= 0
    ensures LexCompare(a, c) <= 0
  {
    if a != [] && b != [] && c != [] && a[0] == b[0] == c[0] {
      LexTransitive(a[1..], b[1..], c[1..]);
    }
  }

  /** The sort comparator: negative when `a` goes first. Names ascend; quantities and
      update times descend. */
  function Compare(key: SortKey, a: StockItem, b: StockItem): int {
    match key
    case ByName => LexCompare(a.drink.name, b.drink.name)
    case ByQuantity => b.quantity - a.quantity
    case ByUpdatedAt => b.updatedAt - a.updatedAt
  }

  lemma CompareFlip(key: SortKey, a: StockItem, b: StockItem)
    ensures Compare(key, b, a) == -Compare(key, a, b)
  {
    if key == ByName {
      LexAntisymmetric(a.drink.name, b.drink.name);
    }
  }

  lemma CompareTransitive(key: SortKey, a: StockItem, b: StockItem, c: StockItem)
    requires Compare(key, a, b) <= 0 && Compare(key, b, c) <= 0
    ensures Compare(key, a, c) <= 0
  {
    if key == ByName {
      LexTransitive(a.drink.name, b.drink.name, c.drink.name);
    }
  }

  /** No pair of items is out of order under the comparator. */
  predicate Sorted(key: SortKey, s: seq<StockItem>) {
    forall i, j :: 0 <= i < j < |s| ==> Compare(key, s[i], s[j]) <= 0
  }

  /** Puts `x` in front of the first item it does not sort after. */
  function Insert(key: SortKey, x: StockItem, s: seq<StockItem>): seq<StockItem> {
    if s == [] then [x]
    else if Compare(key, x, s[0]) <= 0 then [x] + s
    else [s[0]] + Insert(key, x, s[1..])
  }

  /** A stable sort by the comparator (items that compare equal keep their order), as
      `Array.prototype.sort` is. */
  function Sort(key: SortKey, s: seq<StockItem>): seq<StockItem> {
    if s == [] then [] else Insert(key, s[0], Sort(key, s[1..]))
  }

  lemma {:induction false} InsertPermutes(key: SortKey, x: StockItem, s: seq<StockItem>)
    ensures multiset(Insert(key, x, s)) == multiset{x} + multiset(s)
  {
    if s != [] && Compare(key, x, s[0]) > 0 {
      InsertPermutes(key, x, s[1..]);
      assert s == [s[0]] + s[1..];
    }
  }

  /** An item that goes no later than every element of a sorted list can lead it. */
  lemma ConsSorted(key: SortKey, h: StockItem, r: seq<StockItem>)
    requires Sorted(key, r)
    requires forall k :: 0 <= k < |r| ==> Compare(key, h, r[k]) <= 0
    ensures Sorted(key, [h] + r)
  {
    var t := [h] + r;
    forall i, j | 0 <= i < j < |t| ensures Compare(key, t[i], t[j]) <= 0 {
      assert t[j] == r[j - 1];
      if i > 0 {
        assert t[i] == r[i - 1];
      }
    }
  }

  lemma {:induction false} InsertSorted(key: SortKey, x: StockItem, s: seq<StockItem>)
    requires Sorted(key, s)
    ensures Sorted(key, Insert(key, x, s))
  {
    if s == [] {
    } else if Compare(key, x, s[0]) <= 0 {
      forall k | 0 <= k < |s| ensures Compare(key, x, s[k]) <= 0 {
        if k > 0 {
          CompareTransitive(key, x, s[0], s[k]);
        }
      }
      ConsSorted(key, x, s);
    } else {
      var rest := Insert(key, x, s[1..]);
      InsertSorted(key, x, s[1..]);
      InsertPermutes(key, x, s[1..]);
      CompareFlip(key, x, s[0]);
      forall k | 0 <= k < |rest| ensures Compare(key, s[0], rest[k]) <= 0 {
        assert rest[k] in multiset(rest);
        if rest[k] != x {
          var m :| 0 <= m < |s[1..]| && s[1..][m] == rest[k];
          assert s[m + 1] == rest[k];
        }
      }
      ConsSorted(key, s[0], rest);
    }
  }

  /** Sorting adds and drops nothing. */
  lemma {:induction false} SortPermutes(key: SortKey, s: seq<StockItem>)
    ensures multiset(Sort(key, s)) == multiset(s)
  {
    if s != [] {
      SortPermutes(key, s[1..]);
      InsertPermutes(key, s[0], Sort(key, s[1..]));
      assert s == [s[0]] + s[1..];
    }
  }

  lemma {:induction false} SortSorted(key: SortKey, s: seq<StockItem>)
    ensures Sorted(key, Sort(key, s))
  {
    if s != [] {
      SortSorted(key, s[1..]);
      InsertSorted(key, s[0], Sort(key, s[1..]));
    }
  }

  /** `filteredAndSortedStocks`: the filter first, then the sort. */
  function FilteredAndSorted(stocks: seq<StockItem>, status: FilterStatus, key: SortKey): seq<StockItem> {
    Sort(key, Filter(stocks, StatusFilter(status)))
  }

  /** How often an item occurs in the derived list. */
  lemma DerivedCount(stocks: seq<StockItem>, status: FilterStatus, key: SortKey, x: StockItem)
    ensures multiset(FilteredAndSorted(stocks, status, key))[x] ==
              if Passes(status, x) then multiset(stocks)[x] else 0
  {
    SortPermutes(key, Filter(stocks, StatusFilter(status)));
    FilterCount(stocks, StatusFilter(status), x);
  }

  /** The derived list is a sorted permutation of the items the filter lets through. */
  lemma DerivedContents(stocks: seq<StockItem>, status: FilterStatus, key: SortKey)
    ensures multiset(FilteredAndSorted(stocks, status, key)) == multiset(Filter(stocks, StatusFilter(status)))
    ensures Sorted(key, FilteredAndSorted(stocks, status, key))
  {
    SortPermutes(key, Filter(stocks, StatusFilter(status)));
    SortSorted(key, Filter(stocks, StatusFilter(status)));
  }

  /** Filter `all` keeps every loaded item. */
  lemma ShowAllKeepsEverything(stocks: seq<StockItem>, key: SortKey)
    ensures multiset(FilteredAndSorted(stocks, ShowAll, key)) == multiset(stocks)
    ensures |FilteredAndSorted(stocks, ShowAll, key)| == |stocks|
  {
    FilterKeepsAll(stocks, StatusFilter(ShowAll));
    SortPermutes(key, stocks);
    assert |multiset(FilteredAndSorted(stocks, ShowAll, key))| == |multiset(stocks)|;
  }

  /** The `low` and `ok` views share no item and together hold every loaded item. */
  lemma LowOkPartition(stocks: seq<StockItem>, key: SortKey)
    ensures multiset(FilteredAndSorted(stocks, ShowLow, key)) + multiset(FilteredAndSorted(stocks, ShowOk, key))
              == multiset(stocks)
    ensures forall x :: !(x in FilteredAndSorted(stocks, ShowLow, key) && x in FilteredAndSorted(stocks, ShowOk, key))
  {
    var low := FilteredAndSorted(stocks, ShowLow, key);
    var ok := FilteredAndSorted(stocks, ShowOk, key);
    forall x ensures (multiset(low) + multiset(ok))[x] == multiset(stocks)[x] && !(x in low && x in ok) {
      DerivedCount(stocks, ShowLow, key, x);
      DerivedCount(stocks, ShowOk, key, x);
      assert x in low <==> multiset(low)[x] > 0;
      assert x in ok <==> multiset(ok)[x] > 0;
    }
    assert multiset(low) + multiset(ok) == multiset(stocks);
  }

  /** Sorting by quantity puts the largest quantities first. */
  lemma QuantityDescending(stocks: seq<StockItem>, status: FilterStatus)
    ensures var r := FilteredAndSorted(stocks, status, ByQuantity);
            forall i, j :: 0 <= i < j < |r| ==> r[i].quantity >= r[j].quantity
  {
    var r := FilteredAndSorted(stocks, status, ByQuantity);
    SortSorted(ByQuantity, Filter(stocks, StatusFilter(status)));
    forall i, j | 0 <= i < j < |r| ensures r[i].quantity >= r[j].quantity {
      assert Compare(ByQuantity, r[i], r[j]) <= 0;
    }
  }

  /** Sorting by update time puts the most recent first. */
  lemma UpdatedAtDescending(stocks: seq<StockItem>, status: FilterStatus)
    ensures var r := FilteredAndSorted(stocks, status, ByUpdatedAt);
            forall i, j :: 0 <= i < j < |r| ==> r[i].updatedAt >= r[j].updatedAt
  {
    var r := FilteredAndSorted(stocks, status, ByUpdatedAt);
    SortSorted(ByUpdatedAt, Filter(stocks, StatusFilter(status)));
    forall i, j | 0 <= i < j < |r| ensures r[i].updatedAt >= r[j].updatedAt {
      assert Compare(ByUpdatedAt, r[i], r[j]) <= 0;
    }
  }

  /** Sorting by name puts the names in ascending order. */
  lemma NameAscending(stocks: seq<StockItem>, status: FilterStatus)
    ensures var r := FilteredAndSorted(stocks, status, ByName);
            forall i, j :: 0 <= i < j < |r| ==> LexCompare(r[i].drink.name, r[j].drink.name) <= 0
  {
    var r := FilteredAndSorted(stocks, status, ByName);
    SortSorted(ByName, Filter(stocks, StatusFilter(status)));
    forall i, j | 0 <= i < j < |r| ensures LexCompare(r[i].drink.name, r[j].drink.name) <= 0 {
      assert Compare(ByName, r[i], r[j]) <= 0;
    }
  }

  /** Every row the `low` filter shows is labelled Low and every row the `ok` filter shows is
      labelled OK. */
  lemma FilteredRowsLabelled(stocks: seq<StockItem>, key: SortKey)
    ensures forall x :: x in FilteredAndSorted(stocks, ShowLow, key) ==> StockRow.StatusLabel(x) == "Low"
    ensures forall x :: x in FilteredAndSorted(stocks, ShowOk, key) ==> StockRow.StatusLabel(x) == "OK"
  {
    forall x | x in FilteredAndSorted(stocks, ShowLow, key) ensures StockRow.StatusLabel(x) == "Low" {
      DerivedCount(stocks, ShowLow, key, x);
      assert multiset(FilteredAndSorted(stocks, ShowLow, key))[x] > 0;
    }
    forall x | x in FilteredAndSorted(stocks, ShowOk, key) ensures StockRow.StatusLabel(x) == "OK" {
      DerivedCount(stocks, ShowOk, key, x);
      assert multiset(FilteredAndSorted(stocks, ShowOk, key))[x] > 0;
    }
  }

  const FetchErrorMessage := "Failed to fetch stock data"

  /** What the page renders, loading first, then the error, then the table. */
  datatype Screen =
    | LoadingStock
    | StockError(message: string)
    | StockTable(sortKey: SortKey, filterStatus: FilterStatus, rows: seq<StockItem>)

  class StockListPage {
    var stocks: seq<StockItem>
    var loading: bool
    var error: string
    var sortKey: SortKey
    var filterStatus: FilterStatus

    /** The state on mount: nothing loaded, loading, no error, newest first, no filter. */
    constructor ()
      ensures stocks == [] && loading && error == ""
      ensures sortKey == ByUpdatedAt && filterStatus == ShowAll
    {
      stocks := [];
      loading := true;
      error := "";
      sortKey := ByUpdatedAt;
      filterStatus := ShowAll;
    }

    /** Loading is checked before the error; the table shows a sorted permutation of the
        items the status filter lets through. */
    function View(): (screen: Screen)
      reads this
      ensures loading ==> screen == LoadingStock
      ensures !loading && error != "" ==> screen == StockError(error)
      ensures !loading && error == "" ==>
                && screen.StockTable? && screen.sortKey == sortKey && screen.filterStatus == filterStatus
                && Sorted(sortKey, screen.rows)
                && multiset(screen.rows) == multiset(Filter(stocks, StatusFilter(filterStatus)))
    {
      if loading then LoadingStock
      else if error != "" then StockError(error)
      else
        DerivedContents(stocks, filterStatus, sortKey);
        StockTable(sortKey, filterStatus, FilteredAndSorted(stocks, filterStatus, sortKey))
    }

    /** The mount effect once `GET /stocks` settles: the items on success, the fixed error
        message on failure, and loading over either way. */
    method ReceiveStocks(response: Outcome<seq<StockItem>>)
      modifies this
      ensures response.Ok? ==> stocks == response.data && error == old(error)
      ensures response.Fail? ==> stocks == old(stocks) && error == FetchErrorMessage
      ensures !loading && sortKey == old(sortKey) && filterStatus == old(filterStatus)
      ensures response.Fail? ==> View() == StockError(FetchErrorMessage)
      ensures response.Ok? && old(error) == "" ==>
                View() == StockTable(sortKey, filterStatus, FilteredAndSorted(response.data, filterStatus, sortKey))
    {
      match response
      case Ok(items) =>
        stocks := items;
        loading := false;
      case Fail(_) =>
        error := FetchErrorMessage;
        loading := false;
    }

    method ChangeSort(key: SortKey)
      modifies this`sortKey
      ensures sortKey == key
    {
      sortKey := key;
    }

    method ChangeFilter(status: FilterStatus)
      modifies this`filterStatus
      ensures filterStatus == status
    {
      filterStatus := status;
    }
  }

  /** Three items with quantities 5, 20 and 1 against threshold 10, sorted by quantity, come
      out as 20, 5, 1 and read OK, Low, Low. */
  lemma QuantityFixture()
    ensures var a := StockItem(1, 1, 1, 5, 10, 0, DrinkInfo("A", "", ""), LocationInfo("", ""));
            var b := StockItem(2, 2, 1, 20, 10, 0, DrinkInfo("B", "", ""), LocationInfo("", ""));
            var c := StockItem(3, 3, 1, 1, 10, 0, DrinkInfo("C", "", ""), LocationInfo("", ""));
            var r := FilteredAndSorted([a, b, c], ShowAll, ByQuantity);
            r == [b, a, c] &&
            [StockRow.StatusLabel(r[0]), StockRow.StatusLabel(r[1]), StockRow.StatusLabel(r[2])] == ["OK", "Low", "Low"]
  {
    var a := StockItem(1, 1, 1, 5, 10, 0, DrinkInfo("A", "", ""), LocationInfo("", ""));
    var b := StockItem(2, 2, 1, 20, 10, 0, DrinkInfo("B", "", ""), LocationInfo("", ""));
    var c := StockItem(3, 3, 1, 1, 10, 0, DrinkInfo("C", "", ""), LocationInfo("", ""));
    assert Filter([a, b, c], StatusFilter(ShowAll)) == [a, b, c] by {
      FilterKeepsAll([a, b, c], StatusFilter(ShowAll));
    }
    assert [a, b, c][1..] == [b, c] && [b, c][1..] == [c];
    assert Sort(ByQuantity, [c]) == [c];
    assert Sort(ByQuantity, [b, c]) == [b, c];
    assert Insert(ByQuantity, a, [c]) == [a, c];
    assert Sort(ByQuantity, [a, b, c]) == [b, a, c];
  }
}
