/**
 * The new-order form (src/components/NewOrderForm.tsx): its item list is edited
 * line by line, its submission runs five checks in order, stops at the first
 * that fails, and otherwise hands the form's fields to the store's `addOrder`
 * and resets the form.
 */
module NewOrderForm {
  import opened Wrappers
  import opened OrderStore

  const DEFAULT_PICKUP := "Om Sweets, Sector 56, Gurgaon"

  /** The line a new item starts as: no name, quantity 1, price 0. */
  const BLANK_ITEM := Item("", 1, 0)

  /** The form's fields. */
  datatype OrderForm = OrderForm(
    pickupLocation: string,
    dropLocation: string,
    customerName: string,
    customerPhone: string,
    items: seq<Item>)

  /** The form as first shown and as left after a successful submission. */
  function InitialForm(): (f: OrderForm)
    ensures |f.items| == 1
  {
    OrderForm(DEFAULT_PICKUP, "", "", "", [BLANK_ITEM])
  }

  // ---------------------------------------------------------------------------
  // Validation

  /** The reasons a submission is refused, one per check. */
  datatype FormError = MissingPickup | MissingDrop | MissingCustomerName | MissingCustomerPhone | InvalidItems

  /** The position of each check in the order the form runs them. */
  function CheckIndex(e: FormError): nat {
    match e
    case MissingPickup => 0
    case MissingDrop => 1
    case MissingCustomerName => 2
    case MissingCustomerPhone => 3
    case InvalidItems => 4
  }

  /** An item line is unusable: no name, or a quantity that is not positive. */
  predicate ItemInvalid(item: Item) {
    item.name == [] || item.quantity <= 0
  }

  /** `items.some(item => !item.name || item.quantity <= 0)`. */
  function ItemsInvalid(items: seq<Item>): bool {
    items != [] && (ItemInvalid(items[0]) || ItemsInvalid(items[1..]))
  }

  /** The scan reports a bad line exactly when some line is unusable. */
  lemma {:induction false} ItemsInvalidIff(items: seq<Item>)
    ensures ItemsInvalid(items) <==> exists i :: 0 <= i < |items| && ItemInvalid(items[i])
  {
    if items != [] {
      ItemsInvalidIff(items[1..]);
      if exists i :: 0 <= i < |items[1..]| && ItemInvalid(items[1..][i]) {
        var i :| 0 <= i < |items[1..]| && ItemInvalid(items[1..][i]);
        assert ItemInvalid(items[i + 1]);
      }
      if exists i :: 0 <= i < |items| && ItemInvalid(items[i]) {
        var i :| 0 <= i < |items| && ItemInvalid(items[i]);
        if i > 0 {
          assert ItemInvalid(items[1..][i - 1]);
        }
      }
    }
  }

  /** The check `e` fails on form `f`. */
  predicate Fails(f: OrderForm, e: FormError) {
    match e
    case MissingPickup => f.pickupLocation == []
    case MissingDrop => f.dropLocation == []
    case MissingCustomerName => f.customerName == []
    case MissingCustomerPhone => f.customerPhone == []
    case InvalidItems => ItemsInvalid(f.items)
  }

  /** The validation part of `handleSubmitOrder`: the first failing check, if any. */
  function ValidateOrderForm(f: OrderForm): (r: Option<FormError>)
    ensures r.Some? ==> Fails(f, r.value)
    ensures r.Some? ==> forall e :: CheckIndex(e) < CheckIndex(r.value) ==> !Fails(f, e)
    ensures r.None? <==> forall e :: !Fails(f, e)
  {
    if f.pickupLocation == [] then assert Fails(f, MissingPickup); Some(MissingPickup)
    else if f.dropLocation == [] then assert Fails(f, MissingDrop); Some(MissingDrop)
    else if f.customerName == [] then assert Fails(f, MissingCustomerName); Some(MissingCustomerName)
    else if f.customerPhone == [] then assert Fails(f, MissingCustomerPhone); Some(MissingCustomerPhone)
    else if ItemsInvalid(f.items) then assert Fails(f, InvalidItems); Some(InvalidItems)
    else None
  }

  /** The form as it is passed to `addOrder`. */
  function Input(f: OrderForm): OrderInput {
    OrderInput(f.pickupLocation, f.dropLocation, f.customerName, f.customerPhone, f.items)
  }

  /** What the store is promised by a form that passed validation: every required
      field is filled in and every item has a name and a positive quantity. */
  lemma AcceptedInputIsWellFormed(f: OrderForm)
    requires ValidateOrderForm(f) == None
    ensures var d := Input(f);
            d.pickupLocation != [] && d.dropLocation != [] && d.customerName != [] && d.customerPhone != []
            && forall i :: 0 <= i < |d.items| ==> d.items[i].name != [] && d.items[i].quantity > 0
  {
    assert !Fails(f, InvalidItems);
    ItemsInvalidIff(f.items);
  }

  // ---------------------------------------------------------------------------
  // The total

  /** `orderTotal`: the sum of price times quantity, accumulated from the left. */
  function OrderTotal(items: seq<Item>): int {
    if items == [] then 0
    else OrderTotal(items[..|items| - 1]) + items[|items| - 1].price * items[|items| - 1].quantity
  }

  /** The total of two lists is the sum of their totals. */
  lemma {:induction false} OrderTotalAppend(a: seq<Item>, b: seq<Item>)
    ensures OrderTotal(a + b) == OrderTotal(a) + OrderTotal(b)
    decreases |b|
  {
    if b == [] {
      assert a + b == a;
    } else {
      assert (a + b)[..|a + b| - 1] == a + b[..|b| - 1];
      OrderTotalAppend(a, b[..|b| - 1]);
    }
  }

  /** A list whose prices are all zero totals zero. */
  lemma {:induction false} OrderTotalZeroPrices(items: seq<Item>)
    requires forall i :: 0 <= i < |items| ==> items[i].price == 0
    ensures OrderTotal(items) == 0
  {
    if items != [] {
      OrderTotalZeroPrices(items[..|items| - 1]);
    }
  }

  // ---------------------------------------------------------------------------
  // Editing the fields

  /** The four text fields of the form. */
  datatype FormField = PickupLocation | DropLocation | CustomerName | CustomerPhone

  /** `{ ...prev, [field]: value }` on the form. */
  function SetField(f: OrderForm, field: FormField, value: string): (r: OrderForm)
    ensures r.items == f.items
    ensures r.pickupLocation == if field == PickupLocation then value else f.pickupLocation
    ensures r.dropLocation == if field == DropLocation then value else f.dropLocation
    ensures r.customerName == if field == CustomerName then value else f.customerName
    ensures r.customerPhone == if field == CustomerPhone then value else f.customerPhone
  {
    match field
    case PickupLocation => f.(pickupLocation := value)
    case DropLocation => f.(dropLocation := value)
    case CustomerName => f.(customerName := value)
    case CustomerPhone => f.(customerPhone := value)
  }

  /** Filling in a field with text clears the check on that field and leaves
      the outcome of every other check as it was. */
  lemma SetFieldClearsItsCheck(f: OrderForm, field: FormField, value: string, e: FormError)
    requires value != []
    ensures CheckIndex(e) == FieldCheck(field) ==> !Fails(SetField(f, field, value), e)
    ensures CheckIndex(e) != FieldCheck(field) ==> (Fails(SetField(f, field, value), e) <==> Fails(f, e))
  {
  }

  /** The index of the check that tests a field. */
  function FieldCheck(field: FormField): nat {
    match field
    case PickupLocation => 0
    case DropLocation => 1
    case CustomerName => 2
    case CustomerPhone => 3
  }

  // ---------------------------------------------------------------------------
  // Editing the item list

  /** One field of an item line and the value typed into it. */
  datatype ItemEdit = SetName(name: string) | SetQuantity(quantity: int) | SetPrice(price: int)

  /** `{ ...item, [field]: value }`. */
  function ApplyEdit(item: Item, edit: ItemEdit): (r: Item)
    ensures edit.SetName? ==> r.name == edit.name && r.quantity == item.quantity && r.price == item.price
    ensures edit.SetQuantity? ==> r.quantity == edit.quantity && r.name == item.name && r.price == item.price
    ensures edit.SetPrice? ==> r.price == edit.price && r.name == item.name && r.quantity == item.quantity
  {
    match edit
    case SetName(n) => item.(name := n)
    case SetQuantity(q) => item.(quantity := q)
    case SetPrice(p) => item.(price := p)
  }

  /** `items.filter((_, i) => i !== index)`. */
  function Without(items: seq<Item>, index: int): (r: seq<Item>)
    ensures 0 <= index < |items| ==> r == items[..index] + items[index + 1..]
    ensures !(0 <= index < |items|) ==> r == items
  {
    if items == [] then []
    else
      assert items == [items[0]] + items[1..];
      (if index == 0 then [] else [items[0]]) + Without(items[1..], index - 1)
  }

  /** The item list after `removeItem(index)`: the line goes only when another remains. */
  function RemoveItemFrom(items: seq<Item>, index: int): seq<Item> {
    if |items| > 1 then Without(items, index) else items
  }

  /** Removing a line never empties the list, and drops exactly one line when
      there are several and the index is one of them. */
  lemma RemoveItemKeepsOne(items: seq<Item>, index: int)
    requires |items| >= 1
    ensures |RemoveItemFrom(items, index)| >= 1
    ensures |RemoveItemFrom(items, index)|
         == if |items| > 1 && 0 <= index < |items| then |items| - 1 else |items|
  {
  }

  /** The form as a component with state; `store` is the store it submits to. */
  class NewOrderForm {
    var orderForm: OrderForm
    const store: Store

    /** The item list is never empty. */
    ghost predicate Valid()
      reads this
    {
      |orderForm.items| >= 1
    }

    constructor (store: Store)
      ensures this.store == store && orderForm == InitialForm() && Valid()
    {
      this.store := store;
      orderForm := InitialForm();
    }

    /** `handleOrderFormChange(field, value)`: only that field changes. */
    method HandleOrderFormChange(field: FormField, value: string)
      requires Valid()
      modifies this
      ensures Valid()
      ensures orderForm == SetField(old(orderForm), field, value)
    {
      orderForm := SetField(orderForm, field, value);
    }

    /** `handleItemChange(index, field, value)`: only that field of that line changes. */
    method HandleItemChange(index: int, edit: ItemEdit)
      requires Valid() && 0 <= index < |orderForm.items|
      modifies this
      ensures Valid()
      ensures orderForm == old(orderForm).(items := old(orderForm.items)[index := ApplyEdit(old(orderForm.items)[index], edit)])
    {
      var updatedItems := orderForm.items;
      updatedItems := updatedItems[index := ApplyEdit(updatedItems[index], edit)];
      orderForm := orderForm.(items := updatedItems);
    }

    /** `addItem`: a blank line at the end; the total does not change. */
    method AddItem()
      requires Valid()
      modifies this
      ensures Valid()
      ensures orderForm == old(orderForm).(items := old(orderForm.items) + [BLANK_ITEM])
      ensures OrderTotal(orderForm.items) == OrderTotal(old(orderForm.items))
    {
      OrderTotalAppend(orderForm.items, [BLANK_ITEM]);
      orderForm := orderForm.(items := orderForm.items + [BLANK_ITEM]);
    }

    /** `removeItem(index)`: drop that line unless it is the only one. */
    method RemoveItem(index: int)
      requires Valid()
      modifies this
      ensures Valid()
      ensures orderForm == old(orderForm).(items := RemoveItemFrom(old(orderForm.items), index))
    {
      RemoveItemKeepsOne(orderForm.items, index);
      if |orderForm.items| > 1 {
        var updatedItems := Without(orderForm.items, index);
        orderForm := orderForm.(items := updatedItems);
      }
    }

    /** `handleSubmitOrder`: on the first failing check nothing changes; otherwise
        the store gets exactly one new order built from the form's five fields,
        the success message shows the form's total, and the form is reset. */
    method HandleSubmitOrder(now: int, pickupTime: string) returns (error: Option<FormError>, total: int)
      requires Valid() && store.Valid()
      modifies this, store
      ensures Valid() && store.Valid()
      ensures error == ValidateOrderForm(old(orderForm))
      ensures error.Some? ==> orderForm == old(orderForm)
                              && store.activeOrders == old(store.activeOrders)
                              && store.completedOrders == old(store.completedOrders)
      ensures error.None? ==> store.activeOrders
                                == [NewOrder(Input(old(orderForm)), |old(store.activeOrders)|, now, pickupTime)]
                                   + old(store.activeOrders)
                              && store.completedOrders == old(store.completedOrders)
                              && total == OrderTotal(old(orderForm.items))
                              && orderForm == InitialForm()
    {
      total := 0;
      if orderForm.pickupLocation == [] {
        return Some(MissingPickup), total;
      }
      if orderForm.dropLocation == [] {
        return Some(MissingDrop), total;
      }
      if orderForm.customerName == [] {
        return Some(MissingCustomerName), total;
      }
      if orderForm.customerPhone == [] {
        return Some(MissingCustomerPhone), total;
      }
      if ItemsInvalid(orderForm.items) {
        return Some(InvalidItems), total;
      }
      store.AddOrder(Input(orderForm), now, pickupTime);
      total := OrderTotal(orderForm.items);
      orderForm := InitialForm();
      error := None;
    }
  }
}
