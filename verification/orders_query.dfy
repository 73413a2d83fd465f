/**
 * The orders page (src/app/orders/page.tsx): pick a partition of the store,
 * keep the orders that mention the search query, sort them by creation time,
 * and split the result back into active and completed orders by status.
 *
 * The sort works in place. When the filter is "active" or "completed" and
 * the query is blank, the array being sorted is the store's own list, so the
 * store itself is reordered.
 */
module OrdersQuery {
  import opened Text
  import opened OrderStore

  // ---------------------------------------------------------------------------
  // Filtering

  /** `Array.prototype.filter` on a list of orders. */
  function Filter(s: seq<Order>, keep: Order -> bool): (r: seq<Order>)
    ensures multiset(r) <= multiset(s)
    ensures forall x :: x in r <==> x in s && keep(x)
  {
    if s == [] then []
    else
      assert s == [s[0]] + s[1..];
      (if keep(s[0]) then [s[0]] else []) + Filter(s[1..], keep)
  }

  /** Every kept order keeps all its occurrences, every other order loses them. */
  lemma {:induction false} FilterCount(s: seq<Order>, keep: Order -> bool, x: Order)
    ensures multiset(Filter(s, keep))[x] == if keep(x) then multiset(s)[x] else 0
  {
    if s != [] {
      assert s == [s[0]] + s[1..];
      FilterCount(s[1..], keep, x);
    }
  }

  /** `filter` keeps the relative order: it works element by element from
      the front, so filtering a concatenation filters each part in turn. */
  lemma {:induction false} FilterAppend(s: seq<Order>, t: seq<Order>, keep: Order -> bool)
    ensures Filter(s + t, keep) == Filter(s, keep) + Filter(t, keep)
  {
    if s == [] {
      assert s + t == t;
    } else {
      var head := if keep(s[0]) then [s[0]] else [];
      assert (s + t)[0] == s[0] && (s + t)[1..] == s[1..] + t;
      assert Filter(s + t, keep) == head + Filter(s[1..] + t, keep);
      FilterAppend(s[1..], t, keep);
      assert Filter(s, keep) == head + Filter(s[1..], keep);
    }
  }

  /** One order is kept exactly when the test holds for it. */
  lemma FilterSingle(x: Order, keep: Order -> bool)
    ensures Filter([x], keep) == if keep(x) then [x] else []
  {
    assert [x][1..] == [];
  }

  /** The orders the status filter selects: "active", "completed", or else both lists. */
  function SelectPartition(active: seq<Order>, completed: seq<Order>, filterStatus: string): (r: seq<Order>)
    ensures multiset(r) <= multiset(active) + multiset(completed)
    ensures filterStatus == "active" ==> r == active
    ensures filterStatus == "completed" ==> r == completed
    ensures filterStatus != "active" && filterStatus != "completed" ==> r == active + completed
  {
    var allOrders := active + completed;
    if filterStatus == "active" then active
    else if filterStatus == "completed" then completed
    else allOrders
  }

  /** The search test of the page: the lower-cased query is a substring of the
      items, of the drop location when there is one, of the delivery address or
      of the customer name. */
  predicate Matches(o: Order, query: string) {
    var q := Lower(query);
    || Contains(Lower(o.items), q)
    || (o.dropLocation.Some? && o.dropLocation.value != [] && Contains(Lower(o.dropLocation.value), q))
    || Contains(Lower(o.deliveryAddress), q)
    || Contains(Lower(o.customerName), q)
  }

  /** `needle` occurs somewhere in `hay`. */
  ghost predicate Occurs(hay: string, needle: string) {
    exists i :: OccursAt(hay, needle, i)
  }

  /** The search condition stated with occurrences instead of the scan. */
  ghost predicate MentionsQuery(o: Order, query: string) {
    var q := Lower(query);
    || Occurs(Lower(o.items), q)
    || (o.dropLocation.Some? && o.dropLocation.value != [] && Occurs(Lower(o.dropLocation.value), q))
    || Occurs(Lower(o.deliveryAddress), q)
    || Occurs(Lower(o.customerName), q)
  }

  lemma MatchesIffMentions(o: Order, query: string)
    ensures Matches(o, query) <==> MentionsQuery(o, query)
  {
    var q := Lower(query);
    ContainsIffOccurs(Lower(o.items), q);
    if o.dropLocation.Some? {
      ContainsIffOccurs(Lower(o.dropLocation.value), q);
    }
    ContainsIffOccurs(Lower(o.deliveryAddress), q);
    ContainsIffOccurs(Lower(o.customerName), q);
  }

  /** The search step: a blank query keeps every order, otherwise only the matching ones. */
  function Search(orders: seq<Order>, query: string): seq<Order> {
    if Trim(query) != [] then Filter(orders, (o: Order) => Matches(o, query)) else orders
  }

  /** A query of white space only keeps the orders as they are. */
  lemma SearchBlankKeepsAll(orders: seq<Order>, query: string)
    requires Blank(query)
    ensures Search(orders, query) == orders
  {
    TrimEmptyIffBlank(query);
  }

  /** With a query that is not blank, an order is kept exactly when it mentions the query. */
  lemma SearchKeepsExactlyMentions(orders: seq<Order>, query: string, o: Order)
    requires !Blank(query)
    ensures o in Search(orders, query) <==> o in orders && MentionsQuery(o, query)
  {
    TrimEmptyIffBlank(query);
    MatchesIffMentions(o, query);
  }

  /** The search only removes orders: the result is a sub-multiset of its input. */
  lemma SearchOnlyRemoves(orders: seq<Order>, query: string)
    ensures multiset(Search(orders, query)) <= multiset(orders)
  {
  }

  // ---------------------------------------------------------------------------
  // Sorting

  /** The comparator of the page: `timeA - timeB` when sorting oldest first
      (`asc`), `timeB - timeA` otherwise. */
  function Compare(a: Order, b: Order, asc: bool): int {
    if asc then a.createdAt - b.createdAt else b.createdAt - a.createdAt
  }

  /** Positions `lo` up to `hi` (exclusive) stand in the order the comparator asks for. */
  ghost predicate SortedRange(a: seq<Order>, lo: int, hi: int, asc: bool)
    requires 0 <= lo <= hi <= |a|
  {
    forall i, j :: lo <= i < j < hi ==> Compare(a[i], a[j], asc) <= 0
  }

  /** Every pair of orders stands in the order the comparator asks for. */
  ghost predicate Sorted(s: seq<Order>, asc: bool) {
    SortedRange(s, 0, |s|, asc)
  }

  /** Sorted oldest first is non-decreasing `createdAt`; newest first non-increasing. */
  lemma SortedMeaning(s: seq<Order>, asc: bool)
    requires Sorted(s, asc)
    ensures asc ==> forall i, j :: 0 <= i < j < |s| ==> s[i].createdAt <= s[j].createdAt
    ensures !asc ==> forall i, j :: 0 <= i < j < |s| ==> s[i].createdAt >= s[j].createdAt
  {
  }

  /** Exchange two neighbouring elements. */
  method SwapDown(a: array<Order>, j: int)
    requires 0 < j < a.Length
    modifies a
    ensures a[j - 1] == old(a[j]) && a[j] == old(a[j - 1])
    ensures forall k :: 0 <= k < a.Length && k != j - 1 && k != j ==> a[k] == old(a[k])
    ensures multiset(a[..]) == multiset(old(a[..]))
  {
    a[j - 1], a[j] := a[j], a[j - 1];
  }

  /** While `a[..i + 1]` is being sorted, the element moving down stands at
      `j`: the others are in order, and it comes strictly before every one
      after it. */
  ghost predicate Inserting(s: seq<Order>, j: int, i: int, asc: bool)
    requires 0 <= j <= i < |s|
  {
    && (forall p, q :: 0 <= p < q <= i && p != j && q != j ==> Compare(s[p], s[q], asc) <= 0)
    && (forall q :: j < q <= i ==> Compare(s[j], s[q], asc) < 0)
  }

  /** Swapping the moving element with a greater left neighbour keeps `Inserting`
      one place further down. */
  lemma InsertingStep(s: seq<Order>, s': seq<Order>, j: int, i: int, asc: bool)
    requires 0 < j <= i < |s| == |s'|
    requires Inserting(s, j, i, asc) && Compare(s[j - 1], s[j], asc) > 0
    requires s'[j - 1] == s[j] && s'[j] == s[j - 1]
    requires forall k :: 0 <= k < |s| && k != j - 1 && k != j ==> s'[k] == s[k]
    ensures Inserting(s', j - 1, i, asc)
  {
  }

  /** Once the left neighbour is not greater, the prefix up to `i` is in order. */
  lemma InsertingDone(s: seq<Order>, j: int, i: int, asc: bool)
    requires 0 <= j <= i < |s|
    requires Inserting(s, j, i, asc) && (j == 0 || Compare(s[j - 1], s[j], asc) <= 0)
    ensures forall p, q :: 0 <= p < q <= i ==> Compare(s[p], s[q], asc) <= 0
  {
  }

  /** One step of the insertion sort: move `a[i]` down into the sorted prefix `a[..i]`. */
  method InsertAt(a: array<Order>, i: int, asc: bool)
    requires 0 <= i < a.Length
    requires forall p, q :: 0 <= p < q < i ==> Compare(a[p], a[q], asc) <= 0
    modifies a
    ensures forall p, q :: 0 <= p < q <= i ==> Compare(a[p], a[q], asc) <= 0
    ensures multiset(a[..]) == multiset(old(a[..]))
  {
    var j := i;
    while j > 0 && Compare(a[j - 1], a[j], asc) > 0
      invariant 0 <= j <= i
      invariant Inserting(a[..], j, i, asc)
      invariant multiset(a[..]) == multiset(old(a[..]))
    {
      ghost var before := a[..];
      SwapDown(a, j);
      InsertingStep(before, a[..], j, i, asc);
      j := j - 1;
    }
    InsertingDone(a[..], j, i, asc);
  }

  /** `filtered.sort(...)`: an insertion sort that reorders the array in place. */
  method SortByCreatedAt(a: array<Order>, asc: bool)
    modifies a
    ensures Sorted(a[..], asc)
    ensures multiset(a[..]) == multiset(old(a[..]))
  {
    var i := 0;
    while i < a.Length
      invariant 0 <= i <= a.Length
      invariant forall p, q :: 0 <= p < q < i ==> Compare(a[p], a[q], asc) <= 0
      invariant multiset(a[..]) == multiset(old(a[..]))
    {
      InsertAt(a, i, asc);
      i := i + 1;
    }
  }

  /** The list held in a fresh array, sorted there, and read back. */
  method SortedCopy(s: seq<Order>, asc: bool) returns (r: seq<Order>)
    ensures Sorted(r, asc)
    ensures multiset(r) == multiset(s)
  {
    var arr := new Order[|s|](k requires 0 <= k < |s| => s[k]);
    assert arr[..] == s;
    SortByCreatedAt(arr, asc);
    r := arr[..];
  }

  /** The store's active list, sorted in place, seen through the store. */
  method ReplaceActive(store: Store, r: seq<Order>)
    requires store.Valid() && multiset(r) == multiset(store.activeOrders)
    modifies store
    ensures store.Valid()
    ensures store.activeOrders == r && store.completedOrders == old(store.completedOrders)
  {
    PermutationKeepsValid(store.activeOrders, store.completedOrders, r, store.completedOrders);
    store.activeOrders := r;
  }

  /** The store's completed list, sorted in place, seen through the store. */
  method ReplaceCompleted(store: Store, r: seq<Order>)
    requires store.Valid() && multiset(r) == multiset(store.completedOrders)
    modifies store
    ensures store.Valid()
    ensures store.completedOrders == r && store.activeOrders == old(store.activeOrders)
  {
    PermutationKeepsValid(store.activeOrders, store.completedOrders, store.activeOrders, r);
    store.completedOrders := r;
  }

  /** `filteredAndSortedOrders`: select, search and sort. The result is a sorted
      permutation of the searched partition; when the array sorted is the store's
      own list, that list is left reordered. */
  method FilteredAndSortedOrders(store: Store, filterStatus: string, searchQuery: string, sortOrder: string)
    returns (r: seq<Order>)
    requires store.Valid()
    modifies store
    ensures store.Valid()
    ensures Sorted(r, sortOrder == "asc")
    ensures multiset(r) == multiset(Search(SelectPartition(old(store.activeOrders), old(store.completedOrders), filterStatus), searchQuery))
    ensures (filterStatus == "active" && Trim(searchQuery) == [])
              ==> store.activeOrders == r && store.completedOrders == old(store.completedOrders)
    ensures (filterStatus == "completed" && Trim(searchQuery) == [])
              ==> store.completedOrders == r && store.activeOrders == old(store.activeOrders)
    ensures ((filterStatus != "active" && filterStatus != "completed") || Trim(searchQuery) != [])
              ==> store.activeOrders == old(store.activeOrders) && store.completedOrders == old(store.completedOrders)
  {
    var filtered := SelectPartition(store.activeOrders, store.completedOrders, filterStatus);
    filtered := Search(filtered, searchQuery);
    r := SortedCopy(filtered, sortOrder == "asc");
    if Trim(searchQuery) == [] && filterStatus == "active" {
      ReplaceActive(store, r);
    } else if Trim(searchQuery) == [] && filterStatus == "completed" {
      ReplaceCompleted(store, r);
    }
  }


  // ---------------------------------------------------------------------------
  // Splitting the result by status

  /** The four statuses the page shows as active. */
  predicate IsActiveStatus(status: string) {
    status in [PREPARING, WAITING_FOR_PICKUP, PICKED_UP, IN_TRANSIT]
  }

  /** `filteredActiveOrders`. */
  function ActiveSplit(orders: seq<Order>): seq<Order> {
    Filter(orders, (o: Order) => IsActiveStatus(o.status))
  }

  /** `filteredCompletedOrders`. */
  function CompletedSplit(orders: seq<Order>): seq<Order> {
    Filter(orders, (o: Order) => o.status == DELIVERED)
  }

  /** An order is shown as active exactly when it is in the list with one of the
      four active statuses, and as completed exactly when it is there with status
      Delivered; no order is shown in both, and any other status is shown in neither. */
  lemma SplitMembership(orders: seq<Order>, o: Order)
    ensures o in ActiveSplit(orders) <==> o in orders && IsActiveStatus(o.status)
    ensures o in CompletedSplit(orders) <==> o in orders && o.status == DELIVERED
    ensures !(o in ActiveSplit(orders) && o in CompletedSplit(orders))
    ensures (!IsActiveStatus(o.status) && o.status != DELIVERED)
              ==> o !in ActiveSplit(orders) && o !in CompletedSplit(orders)
  {
  }

  /** Two filters with tests no order passes together show each order at most
      as often as the list holds it. */
  lemma FilterDisjointSubMultiset(s: seq<Order>, p: Order -> bool, q: Order -> bool)
    requires forall x :: !(p(x) && q(x))
    ensures multiset(Filter(s, p)) + multiset(Filter(s, q)) <= multiset(s)
  {
    forall x ensures multiset(Filter(s, p))[x] + multiset(Filter(s, q))[x] <= multiset(s)[x] {
      FilterCount(s, p, x);
      FilterCount(s, q, x);
    }
  }

  /** Together the two sections show each order at most as often as the list
      holds it. */
  lemma SplitSubMultiset(orders: seq<Order>)
    ensures multiset(ActiveSplit(orders)) + multiset(CompletedSplit(orders)) <= multiset(orders)
  {
    FilterDisjointSubMultiset(orders, (o: Order) => IsActiveStatus(o.status), (o: Order) => o.status == DELIVERED);
  }

  /** In any state the store can reach, an order the page shows as active is one
      of the store's active orders. */
  lemma ShownActiveIsStoreActive(active: seq<Order>, completed: seq<Order>, shown: seq<Order>, o: Order)
    requires ValidState(active, completed)
    requires multiset(shown) <= multiset(active) + multiset(completed)
    requires o in ActiveSplit(shown)
    ensures o in active
  {
    SplitMembership(shown, o);
    assert o in multiset(shown);
    assert o in multiset(active) || o in multiset(completed);
  }
}
