/**
 * The order table of the merchant dashboard (src/stores/orderStore.tsx): two
 * lists of orders, `activeOrders` and `completedOrders`, an operation that
 * creates an order and prepends it to the active list, and an operation that
 * rewrites the status of the active orders with a given id.
 *
 * Clock readings are parameters: `now` is the creation time in milliseconds
 * since the epoch, `pickupTime` the locale time string the source derives
 * from it. Prices are integer cents.
 */
module OrderStore {
  import opened Wrappers
  import opened Text

  // ---------------------------------------------------------------------------
  // Status labels

  const PREPARING := "Preparing"
  const WAITING_FOR_PICKUP := "Waiting for Pickup"
  const PICKED_UP := "Picked Up"
  const IN_TRANSIT := "In Transit"
  const DELIVERED := "Delivered"

  // ---------------------------------------------------------------------------
  // Entities

  /** One line of an order: name, a whole-number quantity and the unit price in cents. */
  datatype Item = Item(name: string, quantity: int, price: int)

  /** An order as the store keeps it; the optional fields of the source are `Option`s. */
  datatype Order = Order(
    id: string,
    customerName: string,
    items: string,
    pickupTime: Option<string>,
    completedTime: Option<string>,
    deliveryAddress: string,
    status: string,
    pickupLocation: Option<string>,
    dropLocation: Option<string>,
    customerPhone: Option<string>,
    itemsList: Option<seq<Item>>,
    createdAt: int)

  /** The argument of `addOrder`. */
  datatype OrderInput = OrderInput(
    pickupLocation: string,
    dropLocation: string,
    customerName: string,
    customerPhone: string,
    items: seq<Item>)

  // ---------------------------------------------------------------------------
  // Order identifiers

  /** The identifier of running number `k`: "ORD-" and the numeral padded to three digits. */
  function OrderId(k: nat): string {
    "ORD-" + PadStart(Decimal(k), 3, '0')
  }

  /** The running number an identifier carries, if it has the "ORD-" form. */
  function ParseOrderId(id: string): Option<nat> {
    if |id| > 4 && id[..4] == "ORD-" && IsDigits(id[4..]) then Some(Value(id[4..])) else None
  }

  /** Every identifier the scheme produces reads back as its running number. */
  lemma ParseOrderIdRoundTrip(k: nat)
    ensures ParseOrderId(OrderId(k)) == Some(k)
  {
    var d := Decimal(k);
    var p := PadStart(d, 3, '0');
    ValueOfDecimal(k);
    if |d| < 3 {
      ValueLeadingZeros(3 - |d|, d);
    }
    assert OrderId(k)[..4] == "ORD-";
    assert OrderId(k)[4..] == p;
  }

  /** Distinct running numbers give distinct identifiers. */
  lemma OrderIdInjective(j: nat, k: nat)
    requires j != k
    ensures OrderId(j) != OrderId(k)
  {
    ParseOrderIdRoundTrip(j);
    ParseOrderIdRoundTrip(k);
  }

  /** From 100 on the padding never applies: the identifier is "ORD-" and the plain numeral. */
  lemma OrderIdUnpadded(k: nat)
    requires k >= 100
    ensures OrderId(k) == "ORD-" + Decimal(k)
  {
    DecimalAtLeastThreeDigits(k);
  }

  // ---------------------------------------------------------------------------
  // The items summary

  /** One item as the summary shows it: "{quantity}x {name}". */
  function ItemLabel(item: Item): string {
    IntString(item.quantity) + "x " + item.name
  }

  function ItemLabels(items: seq<Item>): seq<string> {
    seq(|items|, i requires 0 <= i < |items| => ItemLabel(items[i]))
  }

  /** The items summary: the item labels joined by ", ". */
  function ItemsSummary(items: seq<Item>): string {
    Join(ItemLabels(items), ", ")
  }

  /** The summary of one item is that item's label alone. */
  lemma ItemsSummarySingle(item: Item)
    ensures ItemsSummary([item]) == ItemLabel(item)
  {
  }

  /** The summary of two non-empty lists is their summaries joined by ", ". */
  lemma ItemsSummaryAppend(a: seq<Item>, b: seq<Item>)
    requires a != [] && b != []
    ensures ItemsSummary(a + b) == ItemsSummary(a) + ", " + ItemsSummary(b)
  {
    assert ItemLabels(a + b) == ItemLabels(a) + ItemLabels(b);
    JoinAppend(ItemLabels(a), ItemLabels(b), ", ");
  }

  // ---------------------------------------------------------------------------
  // Creating an order

  /** The order `addOrder` builds when the active list holds `activeCount` orders. */
  function NewOrder(data: OrderInput, activeCount: nat, now: int, pickupTime: string): (o: Order)
    ensures ParseOrderId(o.id) == Some(activeCount + 101)
    ensures o.status == PREPARING && o.completedTime == None && o.createdAt == now
    ensures o.items == ItemsSummary(data.items) && o.itemsList == Some(data.items)
    ensures o.customerName == data.customerName && o.deliveryAddress == data.dropLocation
    ensures o.pickupLocation == Some(data.pickupLocation) && o.dropLocation == Some(data.dropLocation)
    ensures o.customerPhone == Some(data.customerPhone) && o.pickupTime == Some(pickupTime)
  {
    ParseOrderIdRoundTrip(activeCount + 101);
    Order(
      id := OrderId(activeCount + 1 + 100),
      customerName := data.customerName,
      items := ItemsSummary(data.items),
      pickupTime := Some(pickupTime),
      completedTime := None,
      deliveryAddress := data.dropLocation,
      status := PREPARING,
      pickupLocation := Some(data.pickupLocation),
      dropLocation := Some(data.dropLocation),
      customerPhone := Some(data.customerPhone),
      itemsList := Some(data.items),
      createdAt := now)
  }

  /** The new identifier is "ORD-" and the plain numeral of the active count plus 101. */
  lemma NewOrderIdUnpadded(data: OrderInput, activeCount: nat, now: int, pickupTime: string)
    ensures NewOrder(data, activeCount, now, pickupTime).id == "ORD-" + Decimal(activeCount + 101)
  {
    OrderIdUnpadded(activeCount + 101);
  }

  /** Orders created at different active counts get different identifiers. */
  lemma NewOrderIdsDistinct(d1: OrderInput, n1: nat, d2: OrderInput, n2: nat,
                            t1: int, t2: int, p1: string, p2: string)
    requires n1 != n2
    ensures NewOrder(d1, n1, t1, p1).id != NewOrder(d2, n2, t2, p2).id
  {
    OrderIdInjective(n1 + 101, n2 + 101);
  }

  /** Creating the pizza order on an empty store: id "ORD-101", summary "2x Pizza". */
  lemma FirstOrderExample(now: int, pickupTime: string)
    ensures var o := NewOrder(OrderInput("P", "D", "Ann", "555", [Item("Pizza", 2, 500)]), 0, now, pickupTime);
            o.id == "ORD-101" && o.items == "2x Pizza" && o.status == PREPARING
            && o.deliveryAddress == "D" && o.customerName == "Ann"
  {
    assert Decimal(1) == "1";
    assert Decimal(10) == Decimal(1) + "0";
    assert Decimal(101) == Decimal(10) + "1";
    assert Decimal(2) == "2";
    var pizza := Item("Pizza", 2, 500);
    assert ItemLabels([pizza]) == [ItemLabel(pizza)];
    assert ItemLabel(pizza) == "2" + "x " + "Pizza";
  }

  // ---------------------------------------------------------------------------
  // Changing a status

  /** The active list after `orderStatusChange(orderId, newStatus)`: every order
      whose id matches gets the new status. */
  function SetStatus(orders: seq<Order>, orderId: string, newStatus: string): (r: seq<Order>)
    ensures |r| == |orders|
    ensures forall i :: 0 <= i < |orders| ==> r[i].id == orders[i].id
    ensures forall i :: 0 <= i < |orders| ==>
              r[i].status == if orders[i].id == orderId then newStatus else orders[i].status
    ensures forall i :: 0 <= i < |orders| ==> r[i] == orders[i].(status := r[i].status)
  {
    if orders == [] then []
    else
      var head := if orders[0].id == orderId then orders[0].(status := newStatus) else orders[0];
      [head] + SetStatus(orders[1..], orderId, newStatus)
  }

  /** Applying the same status change twice is applying it once. */
  lemma {:induction false} SetStatusIdempotent(orders: seq<Order>, orderId: string, newStatus: string)
    ensures SetStatus(SetStatus(orders, orderId, newStatus), orderId, newStatus)
         == SetStatus(orders, orderId, newStatus)
  {
    var once := SetStatus(orders, orderId, newStatus);
    var twice := SetStatus(once, orderId, newStatus);
    forall i | 0 <= i < |orders| ensures twice[i] == once[i] {
    }
  }

  /** An identifier no active order carries changes nothing. */
  lemma {:induction false} SetStatusAbsent(orders: seq<Order>, orderId: string, newStatus: string)
    requires forall o :: o in orders ==> o.id != orderId
    ensures SetStatus(orders, orderId, newStatus) == orders
  {
    var r := SetStatus(orders, orderId, newStatus);
    forall i | 0 <= i < |orders| ensures r[i] == orders[i] {
      assert orders[i] in orders;
    }
  }

  // ---------------------------------------------------------------------------
  // Identifier uniqueness

  /** No two orders of `s` share an identifier. */
  ghost predicate UniqueIds(s: seq<Order>) {
    forall i, j :: 0 <= i < j < |s| ==> s[i].id != s[j].id
  }

  ghost function IdSet(s: seq<Order>): set<string> {
    set o | o in s :: o.id
  }

  lemma IdSetCons(o: Order, s: seq<Order>)
    ensures IdSet([o] + s) == {o.id} + IdSet(s)
  {
    assert forall x :: x in [o] + s <==> x == o || x in s;
  }

  lemma {:induction false} IdSetBound(s: seq<Order>)
    ensures |IdSet(s)| <= |s|
  {
    if s != [] {
      IdSetCons(s[0], s[1..]);
      assert [s[0]] + s[1..] == s;
      IdSetBound(s[1..]);
    } else {
      assert IdSet(s) == {};
    }
  }

  /** A list whose first id recurs later has a repeated identifier. */
  lemma RepeatedHead(s: seq<Order>)
    requires s != [] && s[0].id in IdSet(s[1..])
    ensures !UniqueIds(s)
  {
    var t := s[1..];
    var o :| o in t && o.id == s[0].id;
    var j :| 0 <= j < |t| && t[j] == o;
    assert s[j + 1].id == s[0].id;
  }

  /** A list whose first id does not recur has unique identifiers exactly when its tail does. */
  lemma FreshHead(s: seq<Order>)
    requires s != [] && s[0].id !in IdSet(s[1..])
    ensures UniqueIds(s) <==> UniqueIds(s[1..])
  {
    var t := s[1..];
    if UniqueIds(t) {
      forall i, j | 0 <= i < j < |s| ensures s[i].id != s[j].id {
        if i == 0 {
          assert s[j] in t;
        } else {
          assert s[i] == t[i - 1] && s[j] == t[j - 1];
        }
      }
    }
    if UniqueIds(s) {
      forall i, j | 0 <= i < j < |t| ensures t[i].id != t[j].id {
        assert t[i] == s[i + 1] && t[j] == s[j + 1];
      }
    }
  }

  /** Identifiers are unique exactly when there are as many of them as orders. */
  lemma {:induction false} UniqueIdsCard(s: seq<Order>)
    ensures UniqueIds(s) <==> |IdSet(s)| == |s|
  {
    if s == [] {
      assert IdSet(s) == {};
    } else {
      var t := s[1..];
      assert [s[0]] + t == s;
      IdSetCons(s[0], t);
      UniqueIdsCard(t);
      IdSetBound(t);
      if s[0].id in IdSet(t) {
        RepeatedHead(s);
      } else {
        FreshHead(s);
      }
    }
  }

  /** Reordering the orders keeps identifiers unique. */
  lemma UniqueIdsPermutation(a: seq<Order>, b: seq<Order>)
    requires multiset(a) == multiset(b)
    requires UniqueIds(a)
    ensures UniqueIds(b)
  {
    assert forall o :: o in a <==> o in b by {
      forall o ensures o in a <==> o in b {
        assert o in a <==> o in multiset(a);
        assert o in b <==> o in multiset(b);
      }
    }
    assert IdSet(a) == IdSet(b);
    assert |a| == |multiset(a)| == |multiset(b)| == |b|;
    UniqueIdsCard(a);
    UniqueIdsCard(b);
  }

  // ---------------------------------------------------------------------------
  // The store invariant

  /** `id` has the "ORD-" form with a running number of at most `bound`. */
  predicate IdAtMost(id: string, bound: nat) {
    ParseOrderId(id).Some? && ParseOrderId(id).value <= bound
  }

  /** What holds of the two lists in every state the dashboard can reach: the
      identifiers are unique across both lists, none carries a running number
      above the active count plus 100 (so the next one created is new), and
      every completed order is delivered. */
  ghost predicate ValidState(active: seq<Order>, completed: seq<Order>) {
    && UniqueIds(active + completed)
    && (forall o :: o in active + completed ==> IdAtMost(o.id, |active| + 100))
    && (forall o :: o in completed ==> o.status == DELIVERED)
  }

  /** Prepending an order whose running number is one past the bound keeps the invariant. */
  lemma PrependKeepsValid(x: Order, active: seq<Order>, completed: seq<Order>)
    requires ValidState(active, completed)
    requires ParseOrderId(x.id) == Some(|active| + 101)
    ensures ValidState([x] + active, completed)
  {
    var all := active + completed;
    var all' := [x] + active + completed;
    assert all' == [x] + all;
    forall i, j | 0 <= i < j < |all'| ensures all'[i].id != all'[j].id {
      if i == 0 {
        assert all'[j] == all[j - 1] && all[j - 1] in all;
      } else {
        assert all'[i] == all[i - 1] && all'[j] == all[j - 1];
      }
    }
    forall o | o in all' ensures IdAtMost(o.id, |active| + 101) {
      if o != x {
        assert o in all;
      }
    }
  }

  /** Replacing the active list by one with the same identifiers in the same
      places keeps the invariant. */
  lemma SameIdsKeepsValid(active: seq<Order>, completed: seq<Order>, active': seq<Order>)
    requires ValidState(active, completed)
    requires |active'| == |active|
    requires forall i :: 0 <= i < |active| ==> active'[i].id == active[i].id
    ensures ValidState(active', completed)
  {
    var all := active + completed;
    var all' := active' + completed;
    forall i | 0 <= i < |all| ensures all'[i].id == all[i].id {
      if i < |active| {
        assert all'[i] == active'[i] && all[i] == active[i];
      } else {
        assert all'[i] == completed[i - |active|] == all[i];
      }
    }
    forall o | o in all' ensures IdAtMost(o.id, |active'| + 100) {
      var i :| 0 <= i < |all'| && all'[i] == o;
      assert all[i] in all;
    }
  }

  /** A status change keeps the invariant: it touches no identifier and no completed order. */
  lemma StatusChangeKeepsValid(active: seq<Order>, completed: seq<Order>, orderId: string, newStatus: string)
    requires ValidState(active, completed)
    ensures ValidState(SetStatus(active, orderId, newStatus), completed)
  {
    SameIdsKeepsValid(active, completed, SetStatus(active, orderId, newStatus));
  }

  /** Reordering either list in place keeps the invariant. */
  lemma PermutationKeepsValid(active: seq<Order>, completed: seq<Order>, active': seq<Order>, completed': seq<Order>)
    requires ValidState(active, completed)
    requires multiset(active') == multiset(active) && multiset(completed') == multiset(completed)
    ensures ValidState(active', completed')
  {
    assert multiset(active' + completed') == multiset(active + completed);
    UniqueIdsPermutation(active + completed, active' + completed');
    assert |active'| == |multiset(active')| == |active|;
    forall o | o in active' + completed' ensures o in active + completed {
      assert o in multiset(active' + completed');
    }
    forall o | o in completed' ensures o in completed {
      assert o in multiset(completed');
    }
  }

  // ---------------------------------------------------------------------------
  // The seed the store starts from

  function SeedOrder(id: string, customerName: string, items: string, pickupTime: Option<string>,
                     completedTime: Option<string>, address: string, status: string, createdAt: int): Order
  {
    Order(id, customerName, items, pickupTime, completedTime, address, status,
          None, Some(address), None, None, createdAt)
  }

  /** The active orders the store starts with (createdAt in ms since the epoch). */
  function SeedActive(): seq<Order> {
    [ SeedOrder("ORD-001", "John Doe", "2x Pizza, 1x Coke", Some("2:30 PM"), None,
                "123 Main St", IN_TRANSIT, 1719412200000),
      SeedOrder("ORD-002", "Jane Smith", "1x Burger Combo", Some("3:15 PM"), None,
                "456 Oak Ave", PICKED_UP, 1719414900000),
      SeedOrder("ORD-005", "Emily Carter", "2x Pasta, 1x Garlic Bread", Some("4:00 PM"), None,
                "987 Maple Rd", PREPARING, 1719417600000),
      SeedOrder("ORD-006", "David Lee", "3x Sushi Rolls", Some("4:30 PM"), None,
                "654 Cedar Blvd", IN_TRANSIT, 1719419400000),
      SeedOrder("ORD-007", "Priya Patel", "1x Veggie Wrap, 2x Juice", Some("5:00 PM"), None,
                "321 Willow Ln", PICKED_UP, 1719421200000),
      SeedOrder("ORD-008", "Carlos Gomez", "2x Tacos, 1x Lemonade", Some("5:20 PM"), None,
                "852 Birch St", PREPARING, 1719422400000) ]
  }

  /** The completed orders the store starts with. */
  function SeedCompleted(): seq<Order> {
    [ SeedOrder("ORD-003", "Mike Johnson", "3x Sandwiches", None, Some("Yesterday 6:45 PM"),
                "789 Pine St", DELIVERED, 1719338400000),
      SeedOrder("ORD-004", "Sarah Wilson", "1x Salad, 2x Drinks", None, Some("Yesterday 5:20 PM"),
                "321 Elm St", DELIVERED, 1719333000000),
      SeedOrder("ORD-009", "Olivia Brown", "2x Burritos, 1x Soda", None, Some("Today 1:10 PM"),
                "555 Spruce Ave", DELIVERED, 1719406200000),
      SeedOrder("ORD-010", "Liam Martinez", "1x Pizza, 2x Garlic Knots", None, Some("Today 12:30 PM"),
                "222 Aspen Dr", DELIVERED, 1719402300000),
      SeedOrder("ORD-011", "Sophia Kim", "2x Noodles, 1x Spring Roll", None, Some("Today 11:45 AM"),
                "1010 Willow St", DELIVERED, 1719399600000),
      SeedOrder("ORD-012", "Noah Singh", "1x Chicken Wrap, 1x Juice", None, Some("Today 10:20 AM"),
                "3030 Maple Ave", DELIVERED, 1719395100000) ]
  }

  /** A three-digit identifier "ORD-abc" reads back as its number. */
  lemma ParseThreeDigits(a: char, b: char, c: char)
    requires IsDigit(a) && IsDigit(b) && IsDigit(c)
    ensures ParseOrderId("ORD-" + [a, b, c])
         == Some(100 * DigitValue(a) + 10 * DigitValue(b) + DigitValue(c))
  {
    var id := "ORD-" + [a, b, c];
    var d := [a, b, c];
    assert id[..4] == "ORD-" && id[4..] == d;
    assert IsDigits(d);
    assert d[..2] == [a, b] && [a, b][..1] == [a] && [a][..0] == [];
    assert Value([a]) == DigitValue(a);
    assert Value([a, b]) == 10 * DigitValue(a) + DigitValue(b);
    assert Value(d) == 10 * Value([a, b]) + DigitValue(c);
  }

  /** The identifiers of the seed, in list order. */
  lemma SeedIds(all: seq<Order>)
    requires all == SeedActive() + SeedCompleted()
    ensures |all| == 12
    ensures forall i :: 0 <= i < 12 ==> all[i].id == SeedIdList()[i]
  {
  }

  function SeedIdList(): seq<string> {
    ["ORD-001", "ORD-002", "ORD-005", "ORD-006", "ORD-007", "ORD-008",
     "ORD-003", "ORD-004", "ORD-009", "ORD-010", "ORD-011", "ORD-012"]
  }

  /** The seed identifiers are pairwise distinct. */
  lemma SeedIdsDistinct()
    ensures forall i, j :: 0 <= i < j < 12 ==> SeedIdList()[i] != SeedIdList()[j]
  {
    var s := SeedIdList();
    var k := 11;
    while k > 0
      invariant 0 <= k <= 11
      invariant forall i, j :: k <= i < j < 12 ==> s[i] != s[j]
    {
      forall j | k <= j < 12 ensures s[k - 1] != s[j] {
        assert s[k - 1][5..] != s[j][5..];
      }
      k := k - 1;
    }
  }

  /** Every seed identifier carries a running number of at most 106. */
  lemma SeedIdsBounded()
    ensures forall i :: 0 <= i < 12 ==> IdAtMost(SeedIdList()[i], 106)
  {
    forall i | 0 <= i < 12 ensures IdAtMost(SeedIdList()[i], 106) {
      var id := SeedIdList()[i];
      assert |id| == 7 && id[..5] == "ORD-0" && IsDigit(id[5]) && IsDigit(id[6]);
      assert id == "ORD-" + [id[4], id[5], id[6]];
      ParseThreeDigits(id[4], id[5], id[6]);
    }
  }

  lemma SeedUnique()
    ensures UniqueIds(SeedActive() + SeedCompleted())
  {
    SeedIds(SeedActive() + SeedCompleted());
    SeedIdsDistinct();
  }

  lemma SeedBounded()
    ensures forall o :: o in SeedActive() + SeedCompleted() ==> IdAtMost(o.id, 106)
  {
    var all := SeedActive() + SeedCompleted();
    SeedIds(all);
    SeedIdsBounded();
    forall o | o in all ensures IdAtMost(o.id, 106) {
      var i :| 0 <= i < |all| && all[i] == o;
    }
  }

  lemma SeedCompletedDelivered()
    ensures forall o :: o in SeedCompleted() ==> o.status == DELIVERED
  {
    var completed := SeedCompleted();
    forall o | o in completed ensures o.status == DELIVERED {
      var i :| 0 <= i < |completed| && completed[i] == o;
    }
  }

  /** The seed satisfies the store invariant. */
  lemma SeedValid()
    ensures ValidState(SeedActive(), SeedCompleted())
  {
    SeedUnique();
    SeedBounded();
    SeedCompletedDelivered();
    assert |SeedActive()| + 100 == 106;
  }

  // ---------------------------------------------------------------------------
  // The store

  class Store {
    var activeOrders: seq<Order>
    var completedOrders: seq<Order>

    ghost predicate Valid()
      reads this
    {
      ValidState(activeOrders, completedOrders)
    }

    /** The store as created in a fresh session: the seed. */
    constructor ()
      ensures activeOrders == SeedActive() && completedOrders == SeedCompleted()
      ensures Valid()
    {
      var active, completed := SeedActive(), SeedCompleted();
      SeedValid();
      activeOrders, completedOrders := active, completed;
    }

    /** `addOrder`: build the new order from the active count and put it first. */
    method AddOrder(orderData: OrderInput, now: int, pickupTime: string)
      requires Valid()
      modifies this
      ensures Valid()
      ensures activeOrders == [NewOrder(orderData, |old(activeOrders)|, now, pickupTime)] + old(activeOrders)
      ensures completedOrders == old(completedOrders)
    {
      var orderCount := |activeOrders| + 1;
      var newOrder := NewOrder(orderData, orderCount - 1, now, pickupTime);
      PrependKeepsValid(newOrder, activeOrders, completedOrders);
      activeOrders := [newOrder] + activeOrders;
    }

    /** `orderStatusChange`: rewrite the status of the active orders with this id. */
    method OrderStatusChange(orderId: string, newStatus: string)
      requires Valid()
      modifies this
      ensures Valid()
      ensures activeOrders == SetStatus(old(activeOrders), orderId, newStatus)
      ensures completedOrders == old(completedOrders)
    {
      StatusChangeKeepsValid(activeOrders, completedOrders, orderId, newStatus);
      activeOrders := SetStatus(activeOrders, orderId, newStatus);
    }
  }
}
