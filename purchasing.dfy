/** The purchasing page (client/src/features/Purchasing/Purchasing.jsx): a cart
    mapping hardware ids to positive quantities, the purchase order built from
    it, the stock increase shown after a successful order, and the order summary.
    Cart keys are integer-like property names, which JavaScript enumerates in
    ascending order; the model keeps them as ints and enumerates them sorted.
    Prices are kept as given and never added up here. */
module Purchasing {
  import opened Js

  const EmptyOrder: string := "Your purchase order is empty. Add items before ordering."
  const OrderFallback: string := "Could not connect to the server or an unknown error occurred."
  const UnknownItem: string := "Unknown Item"

  /** A catalog row. */
  datatype HardwareItem = HardwareItem(id: int, name: string, price: int, stock: int)

  /** A line of the posted order. */
  datatype OrderLine = OrderLine(id: int, name: string, quantity: int, price: int)

  /** The toasts the order handler shows. */
  datatype Notice = Warned(text: string) | Succeeded(message: Option<Json>) | FailedNotice(text: string)

  // ---------------------------------------------------------------- keys

  /** A non-empty set has an element. */
  lemma Inhabited(s: set<int>)
    requires s != {}
    ensures exists x :: x in s
  {
    if forall x :: x !in s {
      assert false;
    }
  }

  /** A non-empty set of ints has a least element. */
  lemma {:induction false} HasMin(s: set<int>)
    requires s != {}
    ensures exists m :: m in s && forall x :: x in s ==> m <= x
    decreases |s|
  {
    Inhabited(s);
    var y :| y in s;
    var rest := s - {y};
    if rest == {} {
      assert forall x :: x in s ==> x == y by {
        forall x | x in s ensures x == y {
          assert x !in rest;
        }
      }
      assert y in s && forall x :: x in s ==> y <= x;
    } else {
      HasMin(rest);
      var m :| m in rest && forall x :: x in rest ==> m <= x;
      assert forall x :: x in s ==> x == y || x in rest;
      if y < m {
        assert y in s && forall x :: x in s ==> y <= x;
      } else {
        assert m in s && forall x :: x in s ==> m <= x;
      }
    }
  }

  predicate Increasing(r: seq<int>) {
    forall i, j :: 0 <= i < j < |r| ==> r[i] < r[j]
  }

  /** The least element of a set followed by the ascending rest is the ascending set. */
  lemma PrependMin(m: int, s: set<int>, rest: seq<int>)
    requires m in s && forall x :: x in s ==> m <= x
    requires Increasing(rest) && |rest| == |s - {m}|
    requires forall i :: 0 <= i < |rest| ==> rest[i] in s - {m}
    requires forall y :: y in s - {m} ==> y in rest
    ensures Increasing([m] + rest) && |[m] + rest| == |s|
    ensures forall i :: 0 <= i < |[m] + rest| ==> ([m] + rest)[i] in s
    ensures forall y :: y in s ==> y in [m] + rest
  {
    assert forall y :: y in rest ==> m < y;
    assert forall i :: 0 <= i < |rest| ==> rest[i] in rest;
  }

  /** `Object.keys(cart)` for integer keys: every key once, ascending. */
  function SortedKeys(s: set<int>): (r: seq<int>)
    ensures Increasing(r) && |r| == |s|
    ensures forall i :: 0 <= i < |r| ==> r[i] in s
    ensures forall y :: y in s ==> y in r
    decreases |s|
  {
    if s == {} then []
    else
      HasMin(s);
      var m :| m in s && forall x :: x in s ==> m <= x;
      var rest := SortedKeys(s - {m});
      PrependMin(m, s, rest);
      [m] + rest
  }

  // ---------------------------------------------------------------- the cart

  /** `hardwareList.find(h => h.hardware_id === id)`. */
  function FindItem(hardware: seq<HardwareItem>, id: int): (r: Option<HardwareItem>)
    ensures r.None? <==> forall i :: 0 <= i < |hardware| ==> hardware[i].id != id
    ensures r.Some? ==> r.value.id == id && r.value in hardware
  {
    if |hardware| == 0 then None
    else if hardware[0].id == id then Some(hardware[0])
    else
      var r := FindItem(hardware[1..], id);
      assert forall i :: 1 <= i < |hardware| ==> hardware[i] == hardware[1..][i - 1];
      r
  }

  /** The quantity handleQuantityChange keeps: parseInt of the input, with NaN and negatives as 0. */
  function CleanQuantity(value: string): (q: int)
    ensures q >= 0
    ensures ParseInt(value).Finite? && ParseInt(value).n >= 0 ==> q == ParseInt(value).n
    ensures ParseInt(value).NaN? || ParseInt(value).n < 0 ==> q == 0
  {
    var parsed := ParseInt(value);
    if parsed.NaN? || parsed.n < 0 then 0 else parsed.n
  }

  /** The order line for one cart entry; ids missing from the catalog get 'Unknown Item' at price 0. */
  function LineFor(hardware: seq<HardwareItem>, id: int, quantity: int): (l: OrderLine)
    ensures l.id == id && l.quantity == quantity
    ensures FindItem(hardware, id).Some? ==>
      l.name == FindItem(hardware, id).value.name && l.price == FindItem(hardware, id).value.price
    ensures FindItem(hardware, id).None? ==> l.name == UnknownItem && l.price == 0
  {
    match FindItem(hardware, id)
    case Some(item) => OrderLine(id, item.name, quantity, item.price)
    case None => OrderLine(id, UnknownItem, quantity, 0)
  }

  /** The ids of some lines, in order. */
  function LineIds(lines: seq<OrderLine>): (r: seq<int>)
    ensures |r| == |lines| && forall i :: 0 <= i < |lines| ==> r[i] == lines[i].id
  {
    if |lines| == 0 then [] else [lines[0].id] + LineIds(lines[1..])
  }

  /** Putting the line for the first key before the lines of the later keys keeps the ids ascending. */
  lemma ConsLine(keys: seq<int>, line: OrderLine, rest: seq<OrderLine>)
    requires |keys| > 0 && line.id == keys[0]
    requires forall l :: l in rest ==> l.id in keys[1..]
    requires Increasing(keys) ==> Increasing(LineIds(rest))
    ensures LineIds([line] + rest) == [line.id] + LineIds(rest)
    ensures Increasing(keys) ==> Increasing(LineIds([line] + rest))
  {
    var r := [line] + rest;
    assert LineIds(r) == [line.id] + LineIds(rest);
    if Increasing(keys) {
      forall i | 0 <= i < |rest|
        ensures keys[0] < LineIds(rest)[i]
      {
        assert rest[i] in rest;
      }
    }
  }

  /** The lines for `keys` in order, skipping quantities that are not positive. */
  function LinesFor(keys: seq<int>, cart: map<int, int>, hardware: seq<HardwareItem>): seq<OrderLine>
    requires forall i :: 0 <= i < |keys| ==> keys[i] in cart
  {
    if |keys| == 0 then []
    else
      var rest := LinesFor(keys[1..], cart, hardware);
      if cart[keys[0]] > 0 then [LineFor(hardware, keys[0], cart[keys[0]])] + rest else rest
  }

  /** Each line comes from a key with a positive quantity, every such key has a
      line, and ascending keys give ascending lines. */
  lemma {:induction false} LinesForSpec(keys: seq<int>, cart: map<int, int>, hardware: seq<HardwareItem>)
    requires forall i :: 0 <= i < |keys| ==> keys[i] in cart
    ensures var r := LinesFor(keys, cart, hardware);
      && (forall l :: l in r ==> l.id in keys && cart[l.id] > 0 && l == LineFor(hardware, l.id, cart[l.id]))
      && (forall k :: k in keys && cart[k] > 0 ==> k in LineIds(r))
      && (Increasing(keys) ==> Increasing(LineIds(r)))
  {
    if |keys| > 0 {
      assert forall k :: k in keys <==> k == keys[0] || k in keys[1..];
      LinesForSpec(keys[1..], cart, hardware);
      var rest := LinesFor(keys[1..], cart, hardware);
      if cart[keys[0]] > 0 {
        var line := LineFor(hardware, keys[0], cart[keys[0]]);
        ConsLine(keys, line, rest);
        assert forall l :: l in [line] + rest <==> l == line || l in rest;
      }
    }
  }

  /** `itemsToOrder`: the lines for the cart's keys in ascending order. */
  function OrderLines(cart: map<int, int>, hardware: seq<HardwareItem>): seq<OrderLine>
  {
    LinesFor(SortedKeys(cart.Keys), cart, hardware)
  }

  /** The order has one line per cart entry with a positive quantity, carrying
      that quantity and the catalog's name and price, in ascending id order. */
  lemma OrderLinesSpec(cart: map<int, int>, hardware: seq<HardwareItem>)
    ensures var r := OrderLines(cart, hardware);
      && (forall l :: l in r ==> l.id in cart && cart[l.id] > 0 && l == LineFor(hardware, l.id, cart[l.id]))
      && (forall k :: k in cart && cart[k] > 0 ==> k in LineIds(r))
      && Increasing(LineIds(r))
  {
    LinesForSpec(SortedKeys(cart.Keys), cart, hardware);
  }

  /** `new Map(itemsToOrder.map(item => [item.id, item.quantity]))`; a later line wins. */
  function OrderedQuantities(lines: seq<OrderLine>): (m: map<int, int>)
    ensures forall id :: id in m <==> id in LineIds(lines)
  {
    if |lines| == 0 then map[]
    else
      var last := lines[|lines| - 1];
      var front := lines[..|lines| - 1];
      assert LineIds(lines) == LineIds(front) + [last.id];
      OrderedQuantities(front)[last.id := last.quantity]
  }

  /** Lines whose quantities agree with the cart give a map that agrees with it. */
  lemma {:induction false} QuantitiesAgree(lines: seq<OrderLine>, cart: map<int, int>)
    requires forall l :: l in lines ==> l.id in cart && l.quantity == cart[l.id]
    ensures forall id :: id in OrderedQuantities(lines) ==> id in cart && OrderedQuantities(lines)[id] == cart[id]
  {
    if |lines| > 0 {
      var front := lines[..|lines| - 1];
      assert forall l :: l in front ==> l in lines;
      QuantitiesAgree(front, cart);
      assert lines[|lines| - 1] in lines;
    }
  }

  /** The quantities of the posted order are exactly the cart: the same ids, the same quantities. */
  lemma OrderQuantitiesAreCart(cart: map<int, int>, hardware: seq<HardwareItem>)
    requires forall id :: id in cart ==> cart[id] > 0
    ensures var m := OrderedQuantities(OrderLines(cart, hardware));
      && (forall id :: id in m <==> id in cart)
      && (forall id :: id in m ==> m[id] == cart[id])
  {
    var lines := OrderLines(cart, hardware);
    OrderLinesSpec(cart, hardware);
    forall l | l in lines
      ensures l.id in cart && l.quantity == cart[l.id]
    {
      assert l == LineFor(hardware, l.id, cart[l.id]);
    }
    QuantitiesAgree(lines, cart);
    var m := OrderedQuantities(lines);
    forall id | id in cart
      ensures id in m && m[id] == cart[id]
    {
      assert id in LineIds(lines);
    }
  }

  /** An empty order comes exactly from an empty cart. */
  lemma EmptyOrderIffEmptyCart(cart: map<int, int>, hardware: seq<HardwareItem>)
    requires forall id :: id in cart ==> cart[id] > 0
    ensures OrderLines(cart, hardware) == [] <==> cart == map[]
  {
    if cart != map[] {
      if forall id :: id !in cart {
        assert false;
      }
      var id :| id in cart;
      OrderLinesSpec(cart, hardware);
      assert id in LineIds(OrderLines(cart, hardware));
    }
  }

  /** One catalog item after an order: a non-zero ordered quantity is added to its stock. */
  function Restocked(item: HardwareItem, ordered: map<int, int>): (r: HardwareItem)
    ensures r.id == item.id && r.name == item.name && r.price == item.price
    ensures item.id in ordered && ordered[item.id] != 0 ==> r.stock == item.stock + ordered[item.id]
    ensures item.id !in ordered || ordered[item.id] == 0 ==> r.stock == item.stock
  {
    if item.id in ordered && ordered[item.id] != 0 then item.(stock := item.stock + ordered[item.id]) else item
  }

  /** The catalog after a successful order, item by item. */
  function Restock(hardware: seq<HardwareItem>, ordered: map<int, int>): (r: seq<HardwareItem>)
    ensures |r| == |hardware|
    ensures forall i :: 0 <= i < |hardware| ==> r[i] == Restocked(hardware[i], ordered)
  {
    if |hardware| == 0 then []
    else
      var rest := Restock(hardware[1..], ordered);
      assert forall i :: 1 <= i < |hardware| ==> hardware[i] == hardware[1..][i - 1];
      [Restocked(hardware[0], ordered)] + rest
  }

  /** Restocking depends only on the ordered quantities. */
  lemma RestockAgrees(hardware: seq<HardwareItem>, a: map<int, int>, b: map<int, int>)
    requires forall id :: id in a <==> id in b
    requires forall id :: id in a ==> a[id] == b[id]
    ensures Restock(hardware, a) == Restock(hardware, b)
  {
    assert forall i :: 0 <= i < |hardware| ==> Restocked(hardware[i], a) == Restocked(hardware[i], b);
  }

  /** After a successful order each catalog item gains exactly its cart quantity. */
  lemma OrderRestocksCart(cart: map<int, int>, hardware: seq<HardwareItem>)
    requires forall id :: id in cart ==> cart[id] > 0
    ensures Restock(hardware, OrderedQuantities(OrderLines(cart, hardware))) == Restock(hardware, cart)
  {
    OrderQuantitiesAreCart(cart, hardware);
    RestockAgrees(hardware, OrderedQuantities(OrderLines(cart, hardware)), cart);
  }

  /** `selectedItemsDetails` for `keys`: entries found in the catalog, in key order. */
  function SummaryFor(keys: seq<int>, cart: map<int, int>, hardware: seq<HardwareItem>): (r: seq<OrderLine>)
    requires forall i :: 0 <= i < |keys| ==> keys[i] in cart
    ensures forall l :: l in r ==> l.id in keys && FindItem(hardware, l.id).Some? && l == LineFor(hardware, l.id, cart[l.id])
    ensures forall k :: k in keys && FindItem(hardware, k).Some? ==> k in LineIds(r)
    ensures Increasing(keys) ==> Increasing(LineIds(r))
  {
    if |keys| == 0 then []
    else
      var rest := SummaryFor(keys[1..], cart, hardware);
      assert forall k :: k in keys <==> k == keys[0] || k in keys[1..];
      if FindItem(hardware, keys[0]).Some? then
        var line := LineFor(hardware, keys[0], cart[keys[0]]);
        ConsLine(keys, line, rest);
        [line] + rest
      else rest
  }

  class PurchasingPage {
    var hardware: seq<HardwareItem>
    /** `purchaseItems`: hardware id to quantity. */
    var cart: map<int, int>

    /** The cart never holds a quantity that is zero or negative. */
    predicate Valid()
      reads this
    {
      forall id :: id in cart ==> cart[id] > 0
    }

    constructor (hardware: seq<HardwareItem>)
      ensures Valid() && this.hardware == hardware && cart == map[]
    {
      this.hardware := hardware;
      cart := map[];
    }

    /** handleQuantityChange: a cleaned quantity of 0 deletes the key, a positive one sets it. */
    method HandleQuantityChange(id: int, value: string)
      requires Valid()
      modifies this
      ensures Valid() && hardware == old(hardware)
      ensures CleanQuantity(value) == 0 ==> cart == old(cart) - {id}
      ensures CleanQuantity(value) > 0 ==> cart == old(cart)[id := CleanQuantity(value)]
    {
      var newQuantity := ParseInt(value);
      if newQuantity.NaN? || newQuantity.n < 0 {
        newQuantity := Finite(0);
      }
      var updatedItems := cart;
      if newQuantity.n == 0 {
        updatedItems := updatedItems - {id};
      } else {
        updatedItems := updatedItems[id := newQuantity.n];
      }
      cart := updatedItems;
    }

    /** handlePlacePurchaseOrder. `request` is the posted lines, None when the order is empty. */
    method PlacePurchaseOrder(answer: Outcome) returns (request: Option<seq<OrderLine>>, notice: Notice)
      requires Valid()
      modifies this
      ensures Valid()
      ensures old(cart) == map[] ==>
        && request == None && notice == Warned(EmptyOrder)
        && cart == old(cart) && hardware == old(hardware)
      ensures old(cart) != map[] ==>
        && request == Some(OrderLines(old(cart), old(hardware)))
        && if answer.Answered? && IsOk(answer.response.status) && answer.response.body != JNull then
             && hardware == Restock(old(hardware), old(cart))
             && cart == map[]
             && notice == Succeeded(Get(answer.response.body, "message"))
           else if answer.Answered? && IsOk(answer.response.status) then
             // `response.data.message` on a null body throws after the restock
             // and the reset; the catch finds no `error.response`
             && hardware == Restock(old(hardware), old(cart))
             && cart == map[]
             && notice == FailedNotice("Order failed: " + OrderFallback)
           else
             && hardware == old(hardware) && cart == old(cart)
             && notice == FailedNotice("Order failed: " + MessageOr(answer, OrderFallback))
    {
      var catalog, selected := hardware, cart;
      var itemsToOrder := OrderLines(selected, catalog);
      EmptyOrderIffEmptyCart(selected, catalog);
      if |itemsToOrder| == 0 {
        return None, Warned(EmptyOrder);
      }
      request := Some(itemsToOrder);
      if answer.Answered? && IsOk(answer.response.status) {
        var orderedQuantities := OrderedQuantities(itemsToOrder);
        OrderRestocksCart(selected, catalog);
        var restocked := Restock(catalog, orderedQuantities);
        assert restocked == Restock(catalog, selected);
        hardware := restocked;
        cart := map[];
        if answer.response.body == JNull {
          notice := FailedNotice("Order failed: " + OrderFallback);
        } else {
          notice := Succeeded(Get(answer.response.body, "message"));
        }
      } else {
        notice := FailedNotice("Order failed: " + MessageOr(answer, OrderFallback));
      }
    }

    /** `totalItemsInOrder`: the number of cart keys. */
    function TotalItems(): (n: nat)
      reads this
      ensures n == |cart.Keys|
      ensures n == 0 <==> cart == map[]
    {
      |cart.Keys|
    }

    /** The Place Purchase Order button is disabled exactly when the cart is empty. */
    function OrderButtonDisabled(): (disabled: bool)
      reads this
      ensures disabled <==> cart == map[]
    {
      TotalItems() == 0
    }

    /** The order summary: the cart entries found in the catalog, sorted by id
        (line totals and the order total are not modelled). */
    function Summary(): (r: seq<OrderLine>)
      reads this
      ensures Increasing(LineIds(r))
      ensures forall l :: l in r ==> l.id in cart && FindItem(hardware, l.id).Some? && l == LineFor(hardware, l.id, cart[l.id])
      ensures forall id :: id in cart && FindItem(hardware, id).Some? ==> id in LineIds(r)
    {
      SummaryFor(SortedKeys(cart.Keys), cart, hardware)
    }
  }

  /** `error.response?.data?.message || fallback`. */
  function MessageOr(answer: Outcome, fallback: string): (r: string)
    ensures answer.NoResponse? ==> r == fallback
    ensures answer.Answered? && !FieldTruthy(answer.response.body, "message") ==> r == fallback
    ensures answer.Answered? && FieldTruthy(answer.response.body, "message") ==>
      r == ToJsString(Get(answer.response.body, "message").value)
  {
    if answer.Answered? && FieldTruthy(answer.response.body, "message") then
      ToJsString(Get(answer.response.body, "message").value)
    else fallback
  }
}
