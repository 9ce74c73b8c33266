/** The shipment tracking store (src/contexts/TrackingContext.jsx): a list of
    tracked orders that `createOrderTracking` prepends to and
    `updateOrderStatus` rewrites, the lookups over it, and the fixed tables
    for delivery days, status texts and hub coordinates. The clock is the
    parameter `now` (milliseconds), `new Date(t).toISOString()` is the
    parameter function `iso`, and `Math.random().toString(36)` is the
    parameter `random36`. */
module TrackingContext {
  import opened Seqs
  import opened Text

  datatype Coordinates = Coordinates(lat: real, lng: real)

  /** `currentLocation`. Spreading a hub's coordinates into it adds top-level
      `lat` and `lng` beside the nested `coordinates`; `spread` holds those. */
  datatype Location = Location(city: string, state: string, country: string, coordinates: Coordinates, spread: Option<Coordinates>)

  datatype TimelineEvent = TimelineEvent(
    id: int, status: string, title: string, description: string, timestamp: string, completed: bool, location: string)

  /** An ordered item; the store reads only its name. */
  datatype OrderItem = OrderItem(name: string)

  /** The caller's `orderData`. The address and customer objects are carried along unread. */
  datatype OrderData = OrderData(
    orderNumber: string, items: seq<OrderItem>, shippingMethod: string,
    shippingAddress: map<string, string>, customerInfo: map<string, string>)

  datatype Order = Order(
    id: string, orderNumber: string, trackingNumber: string, status: string, estimatedDelivery: string,
    items: seq<OrderItem>, shippingMethod: string, shippingAddress: map<string, string>,
    customerInfo: map<string, string>, timeline: seq<TimelineEvent>, currentLocation: Location, createdAt: string)

  const DayMs: int := 24 * 60 * 60 * 1000

  /** `getDeliveryDays`: 7, 3 or 1 for the three methods, 5 for anything else. */
  function DeliveryDays(shippingMethod: string): (d: int)
    ensures shippingMethod == "standard" ==> d == 7
    ensures shippingMethod == "express" ==> d == 3
    ensures shippingMethod == "overnight" ==> d == 1
    ensures d == 5 <==> shippingMethod != "standard" && shippingMethod != "express" && shippingMethod != "overnight"
  {
    if shippingMethod == "standard" then 7
    else if shippingMethod == "express" then 3
    else if shippingMethod == "overnight" then 1
    else 5
  }

  datatype StatusText = StatusText(title: string, description: string)

  /** The six statuses with their own texts. */
  predicate KnownStatus(status: string)
  {
    status == "processing" || status == "shipped" || status == "in_transit" ||
    status == "out_for_delivery" || status == "delivered" || status == "exception"
  }

  /** `getStatusConfig`. */
  function StatusConfig(status: string): (r: StatusText)
    ensures !KnownStatus(status) <==> r == StatusText("Unknown Status", "Status update")
  {
    if status == "processing" then StatusText("Order Processing", "Your order is being prepared")
    else if status == "shipped" then StatusText("Order Shipped", "Your package is on its way")
    else if status == "in_transit" then StatusText("In Transit", "Package is moving to destination")
    else if status == "out_for_delivery" then StatusText("Out for Delivery", "Package will be delivered today")
    else if status == "delivered" then StatusText("Delivered", "Package has been delivered successfully")
    else if status == "exception" then StatusText("Delivery Exception", "There was an issue with delivery")
    else StatusText("Unknown Status", "Status update")
  }

  /** The San Francisco point used for the processing centre and for unknown hubs. */
  const DefaultCoordinates: Coordinates := Coordinates(37.7749, -122.4194)

  /** The five hubs with their own coordinates. */
  predicate KnownHub(location: string)
  {
    location == "Los Angeles" || location == "Phoenix" || location == "Denver" ||
    location == "Chicago" || location == "New York"
  }

  /** `getLocationCoordinates`. */
  function LocationCoordinates(location: string): (c: Coordinates)
    ensures !KnownHub(location) ==> c == DefaultCoordinates
    ensures KnownHub(location) ==> c != DefaultCoordinates
  {
    if location == "Los Angeles" then Coordinates(34.0522, -118.2437)
    else if location == "Phoenix" then Coordinates(33.4484, -112.0740)
    else if location == "Denver" then Coordinates(39.7392, -104.9903)
    else if location == "Chicago" then Coordinates(41.8781, -87.6298)
    else if location == "New York" then Coordinates(40.7128, -74.0060)
    else DefaultCoordinates
  }

  /** `generateTrackingNumber`: 'SS', the last eight characters of the
      timestamp, then characters 2 to 5 of the random text, upper-cased. */
  function TrackingNumber(now: nat, random36: string): (r: string)
    ensures |r| >= 3 && r[..2] == "SS"
    ensures |r| <= 14
  {
    "SS" + (Last(NatToString(now), 8) + Upper(Substring(random36, 2, 6)))
  }

  /** From a timestamp of eight or more digits on, the tracking number is 'SS',
      the timestamp's eight lowest digits and at most four characters of the
      random text, none of them a small letter. */
  lemma TrackingNumberShape(now: nat, random36: string)
    requires now >= 10000000
    ensures var r := TrackingNumber(now, random36);
      && 10 <= |r| <= 14
      && r[2..10] == LowDigits(now, 8)
      && r[10..] == Upper(Substring(random36, 2, 6))
      && forall i :: 10 <= i < |r| ==> !('a' <= r[i] <= 'z')
  {
    var d := LowDigits(now, 8);
    var u := Upper(Substring(random36, 2, 6));
    var r := TrackingNumber(now, random36);
    EightDigitClock(now);
    assert r == "SS" + (d + u);
    assert r[2..10] == (d + u)[..8] == d;
    assert r[10..] == (d + u)[8..] == u;
    forall i | 10 <= i < |r| ensures !('a' <= r[i] <= 'z') {
      assert r[i] == u[i - 10];
      UpperCharNotSmall(Substring(random36, 2, 6)[i - 10]);
    }
  }

  lemma EightDigitClock(now: nat)
    requires now >= 10000000
    ensures Last(NatToString(now), 8) == LowDigits(now, 8)
  {
    assert Pow10(7) == 10000000;
    LastOfNatToString(now, 8);
  }

  /** The estimated delivery: `getDeliveryDays` days after `now`. */
  function DueTime(now: nat, shippingMethod: string): (t: int)
    ensures t == now + DeliveryDays(shippingMethod) * DayMs
    ensures t - now >= DayMs
  {
    now + DeliveryDays(shippingMethod) * DayMs
  }

  /** The record `createOrderTracking` builds. */
  function NewOrder(data: OrderData, now: nat, iso: int -> string, random36: string): (r: Order)
    ensures r.status == "processing" && |r.timeline| == 1
    ensures |r.trackingNumber| >= 3 && r.trackingNumber[..2] == "SS"
    ensures r.orderNumber == data.orderNumber && r.items == data.items
  {
    Order(
      NatToString(now), data.orderNumber, TrackingNumber(now, random36), "processing",
      iso(DueTime(now, data.shippingMethod)),
      data.items, data.shippingMethod, data.shippingAddress, data.customerInfo,
      [TimelineEvent(1, "processing", "Order Processing", "Your order is being processed", iso(now), true, "Processing Center")],
      Location("Processing Center", "CA", "USA", DefaultCoordinates, None),
      iso(now))
  }

  /** The events are numbered 1, 2, 3, ... in order. */
  ghost predicate TimelineNumbered(o: Order)
  {
    forall i :: 0 <= i < |o.timeline| ==> o.timeline[i].id == i + 1
  }

  /** A new record is processing, with one numbered event whose title is the
      processing title and whose location is the record's city, and it is due
      `getDeliveryDays` days later. The event's description differs from the
      processing status text used for later events. */
  lemma NewOrderShape(data: OrderData, now: nat, iso: int -> string, random36: string)
    ensures var o := NewOrder(data, now, iso, random36);
      && o.status == "processing" && |o.timeline| == 1
      && o.timeline[0].id == 1 && o.timeline[0].status == "processing"
      && o.timeline[0].title == StatusConfig("processing").title
      && o.timeline[0].description != StatusConfig("processing").description
      && o.timeline[0].location == o.currentLocation.city
      && o.currentLocation.coordinates == DefaultCoordinates
      && o.estimatedDelivery == iso(DueTime(now, data.shippingMethod))
      && o.orderNumber == data.orderNumber && o.items == data.items
      && TimelineNumbered(o)
  {
    ProcessingDescriptionDiffers();
  }

  lemma ProcessingDescriptionDiffers()
    ensures StatusConfig("processing").description == "Your order is being prepared"
    ensures "Your order is being processed" != "Your order is being prepared"
  {
    assert "Your order is being processed"[26] != "Your order is being prepared"[26];
  }

  lemma NewOrderNumbered(data: OrderData, now: nat, iso: int -> string, random36: string)
    ensures TimelineNumbered(NewOrder(data, now, iso, random36))
  {
    var o := NewOrder(data, now, iso, random36);
    assert |o.timeline| == 1 && o.timeline[0].id == 1;
  }

  /** A location argument counts only when it is a non-empty string. */
  predicate Truthy(location: Option<string>)
  {
    location.Some? && location.value != ""
  }

  /** One order after `updateOrderStatus`: the status, one more event, and a
      new city (with the hub's coordinates spread in) when a location is given. */
  function UpdatedOrder(o: Order, newStatus: string, location: Option<string>, nowIso: string): (r: Order)
    ensures r.status == newStatus && |r.timeline| == |o.timeline| + 1
    ensures r.id == o.id && r.orderNumber == o.orderNumber && r.trackingNumber == o.trackingNumber
  {
    var config := StatusConfig(newStatus);
    var event := TimelineEvent(
      |o.timeline| + 1, newStatus, config.title, config.description, nowIso, true,
      if Truthy(location) then location.value else o.currentLocation.city);
    o.(status := newStatus,
       timeline := o.timeline + [event],
       currentLocation :=
         if Truthy(location) then o.currentLocation.(city := location.value, spread := Some(LocationCoordinates(location.value)))
         else o.currentLocation)
  }

  /** The matched order gets the new status and exactly one more event, which
      carries the next number, the new status and its texts; nothing guards
      the order of statuses. Its identity, items and earlier events stay. */
  lemma UpdateAppendsOneEvent(o: Order, newStatus: string, location: Option<string>, nowIso: string)
    ensures var u := UpdatedOrder(o, newStatus, location, nowIso);
      && u.status == newStatus
      && |u.timeline| == |o.timeline| + 1
      && u.timeline[..|o.timeline|] == o.timeline
      && u.timeline[|o.timeline|].id == |o.timeline| + 1
      && u.timeline[|o.timeline|].status == newStatus
      && u.timeline[|o.timeline|].title == StatusConfig(newStatus).title
      && u.id == o.id && u.orderNumber == o.orderNumber && u.trackingNumber == o.trackingNumber
      && u.items == o.items && u.estimatedDelivery == o.estimatedDelivery
      && (TimelineNumbered(o) ==> TimelineNumbered(u))
  {
    var u := UpdatedOrder(o, newStatus, location, nowIso);
    assert u.timeline[..|o.timeline|] == o.timeline;
  }

  /** Without a location the current location is kept and the event is placed
      at the current city; with one, the city becomes that location, the hub's
      coordinates are spread in and the nested `coordinates` stay as they were. */
  lemma UpdateLocation(o: Order, newStatus: string, location: Option<string>, nowIso: string)
    ensures var u := UpdatedOrder(o, newStatus, location, nowIso);
      && (!Truthy(location) ==>
            u.currentLocation == o.currentLocation && u.timeline[|o.timeline|].location == o.currentLocation.city)
      && (Truthy(location) ==>
            && u.currentLocation.city == location.value
            && u.timeline[|o.timeline|].location == location.value
            && u.currentLocation.spread == Some(LocationCoordinates(location.value))
            && u.currentLocation.coordinates == o.currentLocation.coordinates)
  {
  }

  /** A delivered order can be sent back to processing. */
  lemma NoForwardOnlyGuard(o: Order, nowIso: string)
    requires o.status == "delivered"
    ensures UpdatedOrder(o, "processing", None, nowIso).status == "processing"
  {
  }

  /** `orders.map(...)` of `updateOrderStatus`: every order with the id is
      rewritten, every other one is kept. */
  function UpdateAll(orders: seq<Order>, orderId: string, newStatus: string, location: Option<string>, nowIso: string): (r: seq<Order>)
    ensures |r| == |orders|
    ensures forall i :: 0 <= i < |orders| && orders[i].id != orderId ==> r[i] == orders[i]
    ensures forall i :: 0 <= i < |orders| && orders[i].id == orderId ==> r[i] == UpdatedOrder(orders[i], newStatus, location, nowIso)
  {
    seq(|orders|, i requires 0 <= i < |orders| =>
      if orders[i].id == orderId then UpdatedOrder(orders[i], newStatus, location, nowIso) else orders[i])
  }

  function TrackingIs(trackingNumber: string): Order -> bool
  {
    (o: Order) => o.trackingNumber == trackingNumber
  }

  /** `orders.find(order => order.trackingNumber === trackingNumber)`: the first match. */
  function FindByTrackingNumber(orders: seq<Order>, trackingNumber: string): (r: Option<Order>)
    ensures r.None? <==> forall i :: 0 <= i < |orders| ==> orders[i].trackingNumber != trackingNumber
    ensures r.Some? ==> exists i :: (0 <= i < |orders| && orders[i] == r.value && r.value.trackingNumber == trackingNumber
      && forall j :: 0 <= j < i ==> orders[j].trackingNumber != trackingNumber)
  {
    Find(orders, TrackingIs(trackingNumber))
  }

  /** The item names match the lower-cased query. */
  predicate SomeItemMatches(items: seq<OrderItem>, q: string)
  {
    exists i :: 0 <= i < |items| && Contains(Lower(items[i].name), q)
  }

  /** `searchOrders`' test: the lower-cased query, untrimmed, occurs in the
      lower-cased tracking number, order number or some item's name. */
  predicate QueryMatches(query: string, o: Order)
  {
    var q := Lower(query);
    Contains(Lower(o.trackingNumber), q) || Contains(Lower(o.orderNumber), q) || SomeItemMatches(o.items, q)
  }

  function QueryMatchesFn(query: string): Order -> bool
  {
    (o: Order) => QueryMatches(query, o)
  }

  /** `searchOrders`: everything for a blank query, otherwise the matching orders in order. */
  function SearchOrders(orders: seq<Order>, query: string): (r: seq<Order>)
    ensures IsBlank(query) ==> r == orders
    ensures IsSubseq(r, orders)
    ensures forall o :: o in r <==> o in orders && (IsBlank(query) || QueryMatches(query, o))
    ensures forall o :: multiset(r)[o] == if IsBlank(query) || QueryMatches(query, o) then multiset(orders)[o] else 0
  {
    if IsBlank(query) then
      PrefixSubseq(orders, |orders|);
      assert orders[..|orders|] == orders;
      orders
    else
      FilterMultiset(orders, QueryMatchesFn(query));
      Filter(orders, QueryMatchesFn(query))
  }

  /** The statuses counted as pending. */
  predicate IsPending(o: Order)
  {
    o.status == "processing" || o.status == "shipped" || o.status == "in_transit"
  }

  /** `getPendingShipmentsCount`. */
  function PendingShipmentsCount(orders: seq<Order>): (n: nat)
    ensures n <= |orders|
  {
    Count(orders, IsPending)
  }

  /** An order adds one to the count exactly when it is processing, shipped or
      in transit; every other status adds nothing. */
  lemma PendingCons(o: Order, orders: seq<Order>)
    ensures PendingShipmentsCount([o] + orders) == PendingShipmentsCount(orders)
      + (if o.status == "processing" || o.status == "shipped" || o.status == "in_transit" then 1 else 0)
  {
    CountCons(o, orders, IsPending);
  }

  /** The store's state. */
  class TrackingStore {
    var orders: seq<Order>
    var selectedOrder: Option<Order>

    constructor()
      ensures orders == [] && selectedOrder == None && Valid()
    {
      orders := [];
      selectedOrder := None;
    }

    /** Every stored timeline is numbered. */
    ghost predicate Valid()
      reads this
    {
      forall i :: 0 <= i < |orders| ==> TimelineNumbered(orders[i])
    }

    /** `createOrderTracking`: builds the record, prepends it and returns it. */
    method CreateOrderTracking(data: OrderData, now: nat, iso: int -> string, random36: string) returns (o: Order)
      requires Valid()
      modifies this
      ensures o == NewOrder(data, now, iso, random36)
      ensures orders == [o] + old(orders)
      ensures selectedOrder == old(selectedOrder)
      ensures Valid()
    {
      o := NewOrder(data, now, iso, random36);
      NewOrderNumbered(data, now, iso, random36);
      Prepend(o);
    }

    /** Puts a numbered record in front of the others. */
    method Prepend(o: Order)
      requires Valid() && TimelineNumbered(o)
      modifies this
      ensures orders == [o] + old(orders)
      ensures selectedOrder == old(selectedOrder)
      ensures Valid()
    {
      var next := [o] + orders;
      assert forall i :: 1 <= i < |next| ==> next[i] == orders[i - 1];
      orders := next;
    }

    /** `updateOrderStatus`. */
    method UpdateOrderStatus(orderId: string, newStatus: string, location: Option<string>, nowIso: string)
      requires Valid()
      modifies this
      ensures orders == UpdateAll(old(orders), orderId, newStatus, location, nowIso)
      ensures selectedOrder == old(selectedOrder)
      ensures Valid()
    {
      var updated := UpdateAll(orders, orderId, newStatus, location, nowIso);
      forall i | 0 <= i < |orders| && orders[i].id == orderId
        ensures TimelineNumbered(updated[i])
      {
        UpdateAppendsOneEvent(orders[i], newStatus, location, nowIso);
      }
      orders := updated;
    }

    /** `getOrderByTrackingNumber`. */
    function GetOrderByTrackingNumber(trackingNumber: string): (r: Option<Order>)
      reads this
      ensures r.None? <==> forall i :: 0 <= i < |orders| ==> orders[i].trackingNumber != trackingNumber
      ensures r.Some? ==> r.value in orders && r.value.trackingNumber == trackingNumber
    {
      FindByTrackingNumber(orders, trackingNumber)
    }

    /** `searchOrders` over the stored orders. */
    function Search(query: string): (r: seq<Order>)
      reads this
      ensures IsBlank(query) ==> r == orders
      ensures IsSubseq(r, orders)
    {
      SearchOrders(orders, query)
    }

    /** `getPendingShipmentsCount` over the stored orders. */
    function PendingCount(): (n: nat)
      reads this
      ensures n <= |orders|
    {
      PendingShipmentsCount(orders)
    }
  }

  /** A record just created is what a lookup of its tracking number finds. */
  lemma CreatedIsFound(orders: seq<Order>, o: Order)
    ensures FindByTrackingNumber([o] + orders, o.trackingNumber) == Some(o)
  {
  }

  /** Creating a record adds one pending shipment. */
  lemma CreateAddsPending(orders: seq<Order>, data: OrderData, now: nat, iso: int -> string, random36: string)
    ensures PendingShipmentsCount([NewOrder(data, now, iso, random36)] + orders) == PendingShipmentsCount(orders) + 1
  {
    CountCons(NewOrder(data, now, iso, random36), orders, IsPending);
  }

  /** Out for delivery, delivered and exception are not pending. */
  lemma PendingExcludes(o: Order)
    requires o.status == "out_for_delivery" || o.status == "delivered" || o.status == "exception"
    ensures PendingShipmentsCount([o]) == 0
  {
    CountCons(o, [], IsPending);
  }

  /** An order with another id is still in the list after an update, unchanged. */
  lemma UpdateChangesOnlyTarget(orders: seq<Order>, orderId: string, newStatus: string, location: Option<string>, nowIso: string, o: Order)
    requires o in orders && o.id != orderId
    ensures o in UpdateAll(orders, orderId, newStatus, location, nowIso)
  {
    var i :| 0 <= i < |orders| && orders[i] == o;
    assert UpdateAll(orders, orderId, newStatus, location, nowIso)[i] == o;
  }
}
