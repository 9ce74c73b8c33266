/** The tracking page (src/pages/Tracking.jsx): a search form whose handler
    guards against a blank query, looks the trimmed query up in the tracking
    store and records the hit or clears the selection, and the fixed status
    colour, icon and label mappings. The page takes from the store a member
    named `getTrackingByNumber`, which the store does not provide (it provides
    `getOrderByTrackingNumber`); calling the missing member throws, and the
    handler's catch only reports an error. */
module TrackingPage {
  import opened Seqs
  import opened Text
  import opened TrackingContext

  /** The names in the tracking store's context value. */
  const ProvidedMembers: set<string> := {
    "orders", "selectedOrder", "notifications", "setSelectedOrder", "createOrderTracking",
    "getOrderByTrackingNumber", "updateOrderStatus", "updateNotifications", "searchOrders",
    "getPendingShipmentsCount"
  }

  /** The lookup the page asks for is missing; the store's own lookup is there. */
  lemma LookupMemberMissing()
    ensures "getTrackingByNumber" !in ProvidedMembers
    ensures "getOrderByTrackingNumber" in ProvidedMembers
  {
  }

  /** What the page shows. */
  class TrackingView {
    /** The store's orders, read through the context. */
    const orders: seq<Order>
    var searchQuery: string
    var selectedTracking: Option<Order>
    var isSearching: bool

    constructor(orders: seq<Order>)
      ensures this.orders == orders
      ensures searchQuery == "" && selectedTracking == None && !isSearching
    {
      this.orders := orders;
      searchQuery := "";
      selectedTracking := None;
      isSearching := false;
    }

    /** The input's change handler. */
    method SetQuery(text: string)
      modifies this
      ensures searchQuery == text
      ensures selectedTracking == old(selectedTracking) && isSearching == old(isSearching)
    {
      searchQuery := text;
    }

    /** `handleSearch`, where `provided` says whether the context value holds
        the member it calls. A blank query returns before anything changes.
        Otherwise a missing member throws, the catch leaves the selection
        alone, and the finally clears `isSearching`; a present lookup sets the
        hit or clears the selection. */
    method Search(provided: bool)
      modifies this
      ensures IsBlank(searchQuery) ==> selectedTracking == old(selectedTracking) && isSearching == old(isSearching)
      ensures !IsBlank(searchQuery) ==> !isSearching
      ensures !IsBlank(searchQuery) && !provided ==> selectedTracking == old(selectedTracking)
      ensures !IsBlank(searchQuery) && provided ==>
        selectedTracking == FindByTrackingNumber(orders, Trim(searchQuery))
      ensures searchQuery == old(searchQuery)
    {
      if IsBlank(searchQuery) {
        return;
      }
      var query := Trim(searchQuery);
      isSearching := true;
      if provided {
        var tracking := FindByTrackingNumber(orders, query);
        if tracking.Some? {
          selectedTracking := tracking;
        } else {
          selectedTracking := None;
        }
      }
      isSearching := false;
    }

    /** The handler as written: the call to the missing `getTrackingByNumber`
        throws on every non-blank query, so no search ever selects anything. */
    method HandleSearchAsWritten()
      modifies this
      ensures selectedTracking == old(selectedTracking)
      ensures !IsBlank(searchQuery) ==> !isSearching
      ensures IsBlank(searchQuery) ==> isSearching == old(isSearching)
      ensures searchQuery == old(searchQuery)
    {
      LookupMemberMissing();
      Search("getTrackingByNumber" in ProvidedMembers);
    }

    /** The handler with the store's `getOrderByTrackingNumber`: a hit on the
        trimmed query becomes the selection and a miss clears it. */
    method HandleSearch()
      modifies this
      ensures IsBlank(searchQuery) ==> selectedTracking == old(selectedTracking) && isSearching == old(isSearching)
      ensures !IsBlank(searchQuery) ==> !isSearching
      ensures !IsBlank(searchQuery) ==> selectedTracking == FindByTrackingNumber(orders, Trim(searchQuery))
      ensures searchQuery == old(searchQuery)
    {
      LookupMemberMissing();
      Search("getOrderByTrackingNumber" in ProvidedMembers);
    }
  }

  /** A padded query finds the order its trimmed form names: the first order
      with that tracking number. */
  lemma PaddedQueryFinds(orders: seq<Order>, i: nat, query: string)
    requires i < |orders| && Trim(query) == orders[i].trackingNumber
    requires forall j :: 0 <= j < i ==> orders[j].trackingNumber != orders[i].trackingNumber
    ensures FindByTrackingNumber(orders, Trim(query)) == Some(orders[i])
  {
    var q := Trim(query);
    var r := FindByTrackingNumber(orders, q);
    assert r.Some? by {
      assert orders[i].trackingNumber == q;
    }
    var k :| 0 <= k < |orders| && orders[k] == r.value && r.value.trackingNumber == q
      && forall j :: 0 <= j < k ==> orders[j].trackingNumber != q;
    assert k == i;
  }

  /** The five statuses with their own colour and icon. */
  predicate StyledStatus(status: string)
  {
    status == "processing" || status == "shipped" || status == "in_transit" ||
    status == "out_for_delivery" || status == "delivered"
  }

  /** The badge classes of one hue: the four Tailwind shades the page spells out. */
  function Badge(hue: string): string
  {
    "bg-" + hue + "-100 text-" + hue + "-800 dark:bg-" + hue + "-900 dark:text-" + hue + "-200"
  }

  /** The hue's letters open the class list, right after `bg-`. */
  lemma BadgeIndex(hue: string, i: nat)
    requires i < |hue|
    ensures 3 + i < |Badge(hue)| && Badge(hue)[3 + i] == hue[i]
  {
  }

  const DefaultColor: string := Badge("gray")

  /** A hue that differs from gray in one of gray's letters gives another class list. */
  lemma NotGray(hue: string, i: nat)
    requires i < |hue| && i < 4 && hue[i] != "gray"[i]
    ensures Badge(hue) != DefaultColor
  {
    BadgeIndex(hue, i);
    BadgeIndex("gray", i);
  }

  /** `getStatusColor`. */
  function StatusColor(status: string): (c: string)
    ensures c == DefaultColor <==> !StyledStatus(status)
  {
    match status
    case "processing" => NotGray("blue", 0); Badge("blue")
    case "shipped" => NotGray("yellow", 0); Badge("yellow")
    case "in_transit" => NotGray("orange", 0); Badge("orange")
    case "out_for_delivery" => NotGray("purple", 0); Badge("purple")
    case "delivered" => NotGray("green", 2); Badge("green")
    case _ => DefaultColor
  }

  /** An icon and its colour class. */
  datatype Icon = Icon(shape: string, color: string)

  const DefaultIcon: Icon := Icon("Package", "text-gray-500")

  /** `getStatusIcon`. */
  function StatusIcon(status: string): (i: Icon)
    ensures i == DefaultIcon <==> !StyledStatus(status)
  {
    match status
    case "processing" => Icon("Package", "text-blue-500")
    case "shipped" => Icon("Truck", "text-yellow-500")
    case "in_transit" => Icon("MapPin", "text-orange-500")
    case "out_for_delivery" => Icon("Clock", "text-purple-500")
    case "delivered" => Icon("CheckCircle", "text-green-500")
    case _ => DefaultIcon
  }

  /** The store's 'exception' status gets the default colour and icon. */
  lemma ExceptionUnstyled()
    ensures StatusColor("exception") == DefaultColor && StatusIcon("exception") == DefaultIcon
  {
  }

  /** The badge text: `status.replace('_', ' ').toUpperCase()`. Only the first
      underscore becomes a space; later ones stay. */
  function StatusLabel(status: string): (r: string)
    ensures |r| == |status|
    ensures '_' !in status ==> r == Upper(status)
    ensures '_' in status ==> exists i :: (0 <= i < |status| && status[i] == '_' && '_' !in status[..i] && r[i] == ' '
      && forall j :: 0 <= j < |status| && j != i ==> r[j] == UpperChar(status[j]))
  {
    var s := ReplaceFirst(status, '_', ' ');
    var r := Upper(s);
    if '_' in status then
      var i :| 0 <= i < |status| && status[i] == '_' && '_' !in status[..i] && s == status[..i] + [' '] + status[i + 1..];
      assert forall j :: 0 <= j < |status| && j != i ==> s[j] == status[j];
      r
    else r
  }

  /** A status whose first underscore follows `a` is labelled as the
      upper-cased `a`, a space and the upper-cased rest. */
  lemma LabelSplit(a: string, b: string)
    requires '_' !in a
    ensures StatusLabel(a + "_" + b) == Upper(a) + " " + Upper(b)
  {
    ReplaceAfter(a, b);
    UpperAppend(a + " ", b);
    UpperAppend(a, " ");
  }

  lemma ReplaceAfter(a: string, b: string)
    requires '_' !in a
    ensures ReplaceFirst(a + "_" + b, '_', ' ') == a + " " + b
  {
    var s := a + "_" + b;
    IndexOfAfter(a, '_', b);
    assert s[..|a|] == a && s[|a| + 1..] == b;
  }

  /** So 'out_for_delivery' is shown as 'OUT FOR_DELIVERY'. */
  lemma OutForDeliveryLabel()
    ensures StatusLabel("out_for_delivery") == "OUT FOR_DELIVERY"
  {
    OutForDeliveryPieces();
    OutForDeliveryUpper();
    LabelSplit("out", "for_delivery");
  }

  /** The literal facts the label example rests on: where the status splits, ... */
  lemma OutForDeliveryPieces()
    ensures "out_for_delivery" == "out" + "_" + "for_delivery" && '_' !in "out"
  {
  }

  /** ... and what its pieces upper-case to. */
  lemma OutForDeliveryUpper()
    ensures Upper("out") + " " + Upper("for_delivery") == "OUT FOR_DELIVERY"
  {
    var a, b := Upper("out"), Upper("for_delivery");
    assert a == "OUT";
    assert b == "FOR_DELIVERY";
  }
}
