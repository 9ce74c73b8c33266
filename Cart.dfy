/** The cart store's reducer and its totals (src/contexts/CartContext.jsx).
    The reducer is a pure function from a state and an action to the next
    state; `Date.now()`, read when a new line item gets its placeholder id,
    is the parameter `now`. */
module Cart {
  import opened Seqs
  import opened Text

  /** One line of the cart. `id` is the line's own id (`Id`: a server id or the
      `temp-<time>` placeholder), `product` the id of the product it holds.
      A line loaded from the server may lack a price. */
  datatype CartItem = CartItem(id: string, product: int, name: string, price: Option<real>, image: string, quantity: int)

  /** The product handed to `addToCart`; the reducer reads only these fields. */
  datatype Payload = Payload(id: int, name: string, price: Option<real>, image: string)

  /** The reducer's state: the line items and whatever other fields the state carries. */
  datatype CartState<E> = CartState(items: seq<CartItem>, rest: E)

  datatype Action =
    | SetCartItems(items: seq<CartItem>)
    | AddToCart(product: Payload)
    | RemoveFromCart(lineId: string)
    | UpdateQuantity(lineId: string, quantity: int)
    | ClearCart
    | Unknown(kind: string)

  /** Some line holds product `pid` (`items.find(item => item.product === pid)`). */
  predicate HasProduct(items: seq<CartItem>, pid: int)
  {
    exists i :: 0 <= i < |items| && items[i].product == pid
  }

  /** Every line holding product `pid` gets one more unit. */
  function IncrementProduct(items: seq<CartItem>, pid: int): (r: seq<CartItem>)
    ensures |r| == |items|
    ensures forall i :: 0 <= i < |items| ==>
      r[i] == if items[i].product == pid then items[i].(quantity := items[i].quantity + 1) else items[i]
  {
    if items == [] then []
    else
      var head := if items[0].product == pid then items[0].(quantity := items[0].quantity + 1) else items[0];
      [head] + IncrementProduct(items[1..], pid)
  }

  /** The line a product gets when it is first added: a placeholder id and one unit. */
  function NewItem(p: Payload, now: nat): CartItem
  {
    CartItem("temp-" + NatToString(now), p.id, p.name, p.price, p.image, 1)
  }

  /** Every line whose id is `lineId` gets quantity `q`. */
  function SetQuantity(items: seq<CartItem>, lineId: string, q: int): (r: seq<CartItem>)
    ensures |r| == |items|
    ensures forall i :: 0 <= i < |items| ==>
      r[i] == if items[i].id == lineId then items[i].(quantity := q) else items[i]
  {
    if items == [] then []
    else
      var head := if items[0].id == lineId then items[0].(quantity := q) else items[0];
      [head] + SetQuantity(items[1..], lineId, q)
  }

  function Max(a: int, b: int): int { if a >= b then a else b }

  function OtherLine(lineId: string): CartItem -> bool
  {
    (it: CartItem) => it.id != lineId
  }

  /** The lines whose id is not `lineId`, in order. */
  function WithoutLine(items: seq<CartItem>, lineId: string): (r: seq<CartItem>)
    ensures forall i :: 0 <= i < |r| ==> r[i].id != lineId
  {
    var r := Filter(items, OtherLine(lineId));
    assert forall i :: 0 <= i < |r| ==> r[i] in r;
    r
  }

  /** The lines with a positive quantity, in order. */
  function PositiveLines(items: seq<CartItem>): (r: seq<CartItem>)
    ensures forall i :: 0 <= i < |r| ==> r[i].quantity > 0
  {
    var r := Filter(items, (it: CartItem) => it.quantity > 0);
    assert forall i :: 0 <= i < |r| ==> r[i] in r;
    r
  }

  /** `cartReducer`. */
  function Reduce<E>(state: CartState<E>, action: Action, now: nat): (r: CartState<E>)
    ensures r.rest == state.rest
    ensures action.SetCartItems? ==> r.items == action.items
    ensures action.UpdateQuantity? ==> forall i :: 0 <= i < |r.items| ==> r.items[i].quantity > 0
    ensures action.ClearCart? ==> r.items == []
    ensures action.Unknown? ==> r == state
  {
    match action
    case SetCartItems(items) => state.(items := items)
    case AddToCart(p) =>
      if HasProduct(state.items, p.id) then state.(items := IncrementProduct(state.items, p.id))
      else state.(items := state.items + [NewItem(p, now)])
    case RemoveFromCart(lineId) => state.(items := WithoutLine(state.items, lineId))
    case UpdateQuantity(lineId, q) => state.(items := UpdatedLines(state.items, lineId, q))
    case ClearCart => state.(items := [])
    case Unknown(_) => state
  }

  /** Adding a product that is already in the cart adds one unit to its line,
      keeps the number of lines and leaves every other line as it was. */
  lemma AddExisting<E>(state: CartState<E>, p: Payload, now: nat)
    requires HasProduct(state.items, p.id)
    ensures var r := Reduce(state, AddToCart(p), now).items;
      && |r| == |state.items|
      && (forall i :: 0 <= i < |r| && state.items[i].product == p.id ==>
            r[i].quantity == state.items[i].quantity + 1 && r[i] == state.items[i].(quantity := r[i].quantity))
      && (forall i :: 0 <= i < |r| && state.items[i].product != p.id ==> r[i] == state.items[i])
  {
  }

  /** Adding a product that is not in the cart appends exactly one line, at the
      end, with that product and quantity 1. */
  lemma AddNew<E>(state: CartState<E>, p: Payload, now: nat)
    requires !HasProduct(state.items, p.id)
    ensures var r := Reduce(state, AddToCart(p), now).items;
      && |r| == |state.items| + 1
      && r[..|state.items|] == state.items
      && r[|state.items|].product == p.id && r[|state.items|].quantity == 1
      && r[|state.items|].name == p.name && r[|state.items|].price == p.price
  {
    var r := Reduce(state, AddToCart(p), now).items;
    assert r == state.items + [NewItem(p, now)];
  }

  /** Adding the same product twice to an empty cart gives one line with quantity 2. */
  lemma AddTwiceToEmpty<E>(rest: E, p: Payload, t1: nat, t2: nat)
    ensures var r := Reduce(Reduce(CartState([], rest), AddToCart(p), t1), AddToCart(p), t2).items;
      |r| == 1 && r[0].product == p.id && r[0].quantity == 2
  {
    var s1 := Reduce(CartState([], rest), AddToCart(p), t1);
    assert s1.items == [NewItem(p, t1)];
    assert HasProduct(s1.items, p.id) by { assert s1.items[0].product == p.id; }
  }

  /** Removing a line drops exactly the lines with that id and keeps the others in order. */
  lemma RemoveExact<E>(state: CartState<E>, lineId: string, now: nat)
    ensures var r := Reduce(state, RemoveFromCart(lineId), now).items;
      && IsSubseq(r, state.items)
      && (forall it :: it in r <==> it in state.items && it.id != lineId)
      && (forall it: CartItem :: it.id != lineId ==> multiset(r)[it] == multiset(state.items)[it])
  {
    FilterMultiset(state.items, OtherLine(lineId));
  }

  /** Setting a quantity leaves the lines with other ids in place. */
  lemma SetQuantityOthers(items: seq<CartItem>, lineId: string, q: int, it: CartItem)
    requires it.id != lineId
    ensures it in SetQuantity(items, lineId, q) <==> it in items
  {
    var m := SetQuantity(items, lineId, q);
    if it in items {
      var i :| 0 <= i < |items| && items[i] == it;
      assert m[i] == it;
    }
    if it in m {
      var i :| 0 <= i < |m| && m[i] == it;
      assert items[i] == it;
    }
  }

  /** The lines after `updateQuantity(lineId, q)`: the target's quantity becomes
      `max(0, q)`, then the lines whose quantity is not positive are dropped. */
  function UpdatedLines(items: seq<CartItem>, lineId: string, q: int): (r: seq<CartItem>)
    ensures forall i :: 0 <= i < |r| ==> r[i].quantity > 0
    ensures IsSubseq(r, SetQuantity(items, lineId, Max(0, q)))
  {
    PositiveLines(SetQuantity(items, lineId, Max(0, q)))
  }

  /** A non-positive quantity removes the target's lines. */
  lemma UpdateNonPositiveRemoves(items: seq<CartItem>, lineId: string, q: int)
    requires q <= 0
    ensures forall it :: it in UpdatedLines(items, lineId, q) ==> it.id != lineId
  {
    var m := SetQuantity(items, lineId, 0);
    forall it | it in UpdatedLines(items, lineId, q) ensures it.id != lineId {
      assert it in m;
      var j :| 0 <= j < |m| && m[j] == it;
    }
  }

  /** A positive quantity is given to every line of the target and to no other. */
  lemma UpdatePositiveSets(items: seq<CartItem>, lineId: string, q: int)
    requires q > 0
    ensures forall it :: it in UpdatedLines(items, lineId, q) && it.id == lineId ==> it.quantity == q
    ensures forall i :: 0 <= i < |items| && items[i].id == lineId ==>
      items[i].(quantity := q) in UpdatedLines(items, lineId, q)
  {
    var m := SetQuantity(items, lineId, q);
    forall it | it in UpdatedLines(items, lineId, q) && it.id == lineId ensures it.quantity == q {
      assert it in m;
      var j :| 0 <= j < |m| && m[j] == it;
    }
    forall i | 0 <= i < |items| && items[i].id == lineId
      ensures items[i].(quantity := q) in UpdatedLines(items, lineId, q)
    {
      assert m[i] == items[i].(quantity := q);
    }
  }

  /** The other lines with a positive quantity stay, and no other line appears. */
  lemma UpdateKeepsOthers(items: seq<CartItem>, lineId: string, q: int, it: CartItem)
    requires it.id != lineId
    ensures it in UpdatedLines(items, lineId, q) <==> it in items && it.quantity > 0
  {
    SetQuantityOthers(items, lineId, Max(0, q), it);
  }

  /** Each line's contribution to `getTotalItems`: its quantity. */
  function Units(items: seq<CartItem>): (n: int)
    ensures (forall i :: 0 <= i < |items| ==> items[i].quantity > 0) ==> n >= |items|
  {
    if items == [] then 0 else items[0].quantity + Units(items[1..])
  }

  /** Each line's contribution to `getTotalPrice`: price times quantity, a missing price counting as 0. */
  function LinePrice(it: CartItem): (r: real)
    ensures it.quantity >= 0 && (it.price.Some? ==> it.price.value >= 0.0) ==> r >= 0.0
  {
    (if it.price.Some? then it.price.value else 0.0) * it.quantity as real
  }

  /** `getTotalPrice`. */
  function TotalPrice(items: seq<CartItem>): (r: real)
    ensures (forall i :: 0 <= i < |items| ==> items[i].quantity >= 0 && (items[i].price.Some? ==> items[i].price.value >= 0.0))
      ==> r >= 0.0
  {
    if items == [] then 0.0 else LinePrice(items[0]) + TotalPrice(items[1..])
  }

  /** `getTotalItems` and `getTotalPrice` add up line by line. */
  lemma {:induction false} TotalsAppend(a: seq<CartItem>, b: seq<CartItem>)
    ensures Units(a + b) == Units(a) + Units(b)
    ensures TotalPrice(a + b) == TotalPrice(a) + TotalPrice(b)
  {
    if a == [] {
      assert a + b == b;
    } else {
      assert (a + b)[0] == a[0] && (a + b)[1..] == a[1..] + b;
      TotalsAppend(a[1..], b);
    }
  }

  /** At most one line per product. */
  ghost predicate OneLinePerProduct(items: seq<CartItem>)
  {
    forall i, j :: 0 <= i < j < |items| ==> items[i].product != items[j].product
  }

  lemma {:induction false} IncrementUnits(items: seq<CartItem>, pid: int)
    requires OneLinePerProduct(items) && HasProduct(items, pid)
    ensures Units(IncrementProduct(items, pid)) == Units(items) + 1
  {
    var t := items[1..];
    var head := if items[0].product == pid then items[0].(quantity := items[0].quantity + 1) else items[0];
    var u := IncrementProduct(t, pid);
    assert IncrementProduct(items, pid) == [head] + u;
    UnitsCons(head, u);
    if items[0].product == pid {
      IncrementAbsent(t, pid) by {
        forall k | 0 <= k < |t| ensures t[k].product != pid {
          assert t[k] == items[k + 1];
        }
      }
    } else {
      var i :| 0 <= i < |items| && items[i].product == pid;
      assert t[i - 1].product == pid;
      OneLineTail(items);
      IncrementUnits(t, pid);
    }
  }

  lemma OneLineTail(items: seq<CartItem>)
    requires items != [] && OneLinePerProduct(items)
    ensures OneLinePerProduct(items[1..])
  {
    var t := items[1..];
    forall j, k | 0 <= j < k < |t| ensures t[j].product != t[k].product {
      assert t[j] == items[j + 1] && t[k] == items[k + 1];
    }
  }

  lemma UnitsCons(x: CartItem, t: seq<CartItem>)
    ensures Units([x] + t) == x.quantity + Units(t)
  {
    assert ([x] + t)[1..] == t;
  }

  /** A product no line holds leaves the lines as they are. */
  lemma IncrementAbsent(items: seq<CartItem>, pid: int)
    requires forall k :: 0 <= k < |items| ==> items[k].product != pid
    ensures IncrementProduct(items, pid) == items
  {
  }

  /** Adding a product to a cart with one line per product raises `getTotalItems`
      by exactly one and keeps one line per product. */
  lemma AddToCartUnits<E>(state: CartState<E>, p: Payload, now: nat)
    requires OneLinePerProduct(state.items)
    ensures var r := Reduce(state, AddToCart(p), now).items;
      Units(r) == Units(state.items) + 1 && OneLinePerProduct(r)
  {
    if HasProduct(state.items, p.id) {
      IncrementUnits(state.items, p.id);
      IncrementOneLine(state.items, p.id);
    } else {
      TotalsAppend(state.items, [NewItem(p, now)]);
      assert Units([NewItem(p, now)]) == 1;
      AppendOneLine(state.items, NewItem(p, now));
    }
  }

  /** Incrementing leaves every line's product as it was. */
  lemma IncrementOneLine(items: seq<CartItem>, pid: int)
    requires OneLinePerProduct(items)
    ensures OneLinePerProduct(IncrementProduct(items, pid))
  {
    var r := IncrementProduct(items, pid);
    assert forall i :: 0 <= i < |r| ==> r[i].product == items[i].product;
  }

  /** A line for a product no line holds keeps one line per product. */
  lemma AppendOneLine(items: seq<CartItem>, x: CartItem)
    requires OneLinePerProduct(items) && !HasProduct(items, x.product)
    ensures OneLinePerProduct(items + [x])
  {
    var r := items + [x];
    forall i, j | 0 <= i < j < |r| ensures r[i].product != r[j].product {
      assert r[i] == items[i];
      if j < |items| {
        assert r[j] == items[j];
      }
    }
  }

  /** The cart of lines (price 20, quantity 2) and (price 50, quantity 1) totals 90 over 3 units. */
  lemma TotalsExample(a: CartItem, b: CartItem)
    requires a.price == Some(20.0) && a.quantity == 2
    requires b.price == Some(50.0) && b.quantity == 1
    ensures TotalPrice([a, b]) == 90.0 && Units([a, b]) == 3
  {
    assert [a, b][1..] == [b] && [b][1..] == [];
    assert Units([b]) == 1 && TotalPrice([b]) == 50.0;
    assert Units([a, b]) == 2 + Units([b]);
    assert TotalPrice([a, b]) == 40.0 + TotalPrice([b]);
  }

  /** A line without a price adds nothing to `getTotalPrice`. */
  lemma MissingPriceCountsZero(items: seq<CartItem>, it: CartItem)
    requires it.price.None?
    ensures TotalPrice(items + [it]) == TotalPrice(items)
  {
    TotalsAppend(items, [it]);
  }
}
