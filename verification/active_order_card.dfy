/**
 * The card of an active order (src/components/ActiveOrderCard.tsx): a badge
 * coloured by status, and for an order still being prepared a selector whose
 * only effect is to mark the order as waiting for pickup.
 */
module ActiveOrderCard {
  import opened OrderStore
  import OrdersQuery

  const YELLOW := "bg-yellow-100 text-yellow-800"
  const BLUE := "bg-blue-100 text-blue-800"
  const GREEN := "bg-green-100 text-green-800"
  const ORANGE := "bg-orange-100 text-orange-800"
  const GRAY := "bg-gray-100 text-gray-800"

  /** `getStatusColor`: the badge classes for a status. */
  function StatusColor(status: string): string {
    if status == PREPARING then YELLOW
    else if status == WAITING_FOR_PICKUP then BLUE
    else if status == PICKED_UP then GREEN
    else if status == IN_TRANSIT then ORANGE
    else GRAY
  }

  /** The four active statuses get four different colours, and exactly the
      other statuses (Delivered among them) get the neutral one. */
  lemma StatusColorsDistinguishActive(s: string, t: string)
    ensures StatusColor(s) == GRAY <==> !OrdersQuery.IsActiveStatus(s)
    ensures (OrdersQuery.IsActiveStatus(s) && OrdersQuery.IsActiveStatus(t) && s != t)
              ==> StatusColor(s) != StatusColor(t)
  {
    assert YELLOW[3] == 'y' && BLUE[3] == 'b' && GREEN[3] == 'g' && ORANGE[3] == 'o' && GRAY[4] == 'r';
    assert BLUE[4] == 'l' && GREEN[4] == 'r' && GRAY[3] == 'g';
  }

  /** The card offers the status selector only while the order is being prepared. */
  predicate OffersStatusSelector(status: string) {
    status == PREPARING
  }

  /** The values the selector offers. */
  const SELECTOR_OPTIONS := [PREPARING, WAITING_FOR_PICKUP]

  /** The guard of `handleStatusChange`: only Preparing to Waiting for Pickup. */
  predicate AcceptsChange(current: string, newStatus: string) {
    newStatus == WAITING_FOR_PICKUP && current == PREPARING
  }

  /** The active list after the card of `card` reports `newStatus`. */
  function CardEffect(active: seq<Order>, card: Order, newStatus: string): seq<Order> {
    if AcceptsChange(card.status, newStatus) then SetStatus(active, card.id, newStatus) else active
  }

  /** Picking either option of the selector is accepted exactly when it is the
      new status Waiting for Pickup. */
  lemma SelectorOptionsMeaning(card: Order, option: string)
    requires OffersStatusSelector(card.status) && option in SELECTOR_OPTIONS
    ensures AcceptsChange(card.status, option) <==> option == WAITING_FOR_PICKUP
  {
  }

  /** `handleStatusChange(newStatus)` on the card of `card`: the store's
      `orderStatusChange` runs exactly when the guard holds. */
  method HandleStatusChange(store: Store, card: Order, newStatus: string) returns (changed: bool)
    requires store.Valid()
    modifies store
    ensures store.Valid()
    ensures changed <==> AcceptsChange(card.status, newStatus)
    ensures store.activeOrders == CardEffect(old(store.activeOrders), card, newStatus)
    ensures store.completedOrders == old(store.completedOrders)
  {
    changed := false;
    if newStatus == WAITING_FOR_PICKUP && card.status == PREPARING {
      store.OrderStatusChange(card.id, newStatus);
      changed := true;
    }
  }

  /** The identifiers of the active list are unique in any reachable state. */
  lemma ValidActiveUnique(active: seq<Order>, completed: seq<Order>)
    requires ValidState(active, completed)
    ensures UniqueIds(active)
  {
    forall i, j | 0 <= i < j < |active| ensures active[i].id != active[j].id {
      assert (active + completed)[i] == active[i] && (active + completed)[j] == active[j];
    }
  }

  /** The only status change a card can make: in a reachable state, with the
      card showing one of the store's active orders, every order the card
      changes is that very order, it was Preparing, and it becomes Waiting for
      Pickup with every other field kept; the list keeps its length. */
  lemma {:induction false} CardChangesOnlyPreparingToWaiting(
    active: seq<Order>, completed: seq<Order>, card: Order, newStatus: string, i: int)
    requires ValidState(active, completed)
    requires card in active
    requires 0 <= i < |active|
    requires CardEffect(active, card, newStatus)[i] != active[i]
    ensures |CardEffect(active, card, newStatus)| == |active|
    ensures active[i] == card && active[i].status == PREPARING
    ensures CardEffect(active, card, newStatus)[i] == active[i].(status := WAITING_FOR_PICKUP)
  {
    ValidActiveUnique(active, completed);
    var r := CardEffect(active, card, newStatus);
    assert AcceptsChange(card.status, newStatus);
    assert active[i].id == card.id;
    var k :| 0 <= k < |active| && active[k] == card;
    assert k == i;
  }

  /** A card whose order is not Preparing, or a choice other than Waiting for
      Pickup, leaves the store as it was. */
  lemma CardEffectIdle(active: seq<Order>, card: Order, newStatus: string)
    requires !AcceptsChange(card.status, newStatus)
    ensures CardEffect(active, card, newStatus) == active
  {
  }
}
