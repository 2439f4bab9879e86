/**
 * Orders and customers: the money arithmetic of a new order, the guard on
 * cancelling an order, and the default flag across a customer's addresses.
 */
module Orders {
  import opened Wrappers
  import Delivery

  // ---------------------------------------------------------------- order totals

  datatype OrderItem = OrderItem(productId: string, productName: string, price: real, quantity: real, subtotal: real)

  /** One order line: a non-positive quantity is refused; the line's subtotal is price × quantity. */
  function NewItem(productId: string, productName: string, price: real, quantity: real): (r: Option<OrderItem>)
    ensures r.Some? <==> quantity > 0.0
    ensures r.Some? ==> r.value.productId == productId && r.value.productName == productName && r.value.price == price
                        && r.value.quantity == quantity && r.value.subtotal == price * quantity
  {
    if quantity <= 0.0 then None
    else Some(OrderItem(productId, productName, price, quantity, price * quantity))
  }

  /** The order subtotal: the sum of the line subtotals. */
  function OrderSubtotal(items: seq<OrderItem>): (s: real)
    ensures (forall k :: 0 <= k < |items| ==> items[k].subtotal >= 0.0) ==> s >= 0.0
  {
    if items == [] then 0.0
    else OrderSubtotal(items[..|items| - 1]) + items[|items| - 1].subtotal
  }

  lemma {:induction false} OrderSubtotalAppend(a: seq<OrderItem>, b: seq<OrderItem>)
    ensures OrderSubtotal(a + b) == OrderSubtotal(a) + OrderSubtotal(b)
    decreases |b|
  {
    if b == [] {
      assert a + b == a;
    } else {
      var n := |b| - 1;
      assert (a + b)[..|a + b| - 1] == a + b[..n];
      OrderSubtotalAppend(a, b[..n]);
    }
  }

  /** Lines made by NewItem from non-negative prices never give a negative subtotal. */
  lemma {:induction false} SubtotalOfNewItemsNonNegative(items: seq<OrderItem>)
    requires forall k :: 0 <= k < |items| ==> items[k].price >= 0.0 && items[k].quantity > 0.0
                                              && items[k].subtotal == items[k].price * items[k].quantity
    ensures OrderSubtotal(items) >= 0.0
  {
    forall k | 0 <= k < |items|
      ensures items[k].subtotal >= 0.0
    {
      var p, q := items[k].price, items[k].quantity;
      if p > 0.0 {
        assert p * q > 0.0;
      }
    }
  }

  datatype Totals = Totals(subtotal: real, discount: real, shipping: real, grandTotal: real)
  datatype OrderError = OrderAborted

  /**
   * The totals as the order flow computes them. The discount prompt turns a
   * blank answer into 0 before parsing; `discount` is None when the text is not
   * a decimal. As written, that parse failure is not the ValueError the code
   * catches but decimal.InvalidOperation, so it escapes to the outer handler
   * and the order is abandoned.
   */
  function TotalsAsWritten(items: seq<OrderItem>, discount: Option<real>, shipping: real): (r: Result<Totals, OrderError>)
    ensures r.Err? <==> discount.None?
    ensures r.Ok? ==> r.value == OrderTotals(items, discount, shipping)
  {
    if discount.None? then Err(OrderAborted)
    else Ok(OrderTotals(items, discount, shipping))
  }

  /** The intended totals: an unreadable discount counts as 0; grand total = subtotal − discount + shipping. */
  function OrderTotals(items: seq<OrderItem>, discount: Option<real>, shipping: real): (t: Totals)
    ensures t.subtotal == OrderSubtotal(items) && t.shipping == shipping
    ensures t.discount == (if discount.Some? then discount.value else 0.0)
    ensures t.grandTotal + t.discount == t.subtotal + t.shipping
  {
    var d := if discount.Some? then discount.value else 0.0;
    var s := OrderSubtotal(items);
    Totals(s, d, shipping, s - d + shipping)
  }

  /** An unreadable discount abandons the order as written; the intended flow charges no discount. */
  lemma UnreadableDiscountAbandonsOrder(items: seq<OrderItem>, shipping: real)
    ensures TotalsAsWritten(items, None, shipping) == Err(OrderAborted)
    ensures OrderTotals(items, None, shipping).grandTotal == OrderSubtotal(items) + shipping
  {
  }

  /**
   * Pricing an order: the shipping charge is the pincode's charge for the
   * order subtotal, so it never lowers the grand total below subtotal − discount.
   */
  method PriceOrder(items: seq<OrderItem>, discount: Option<real>, pincodes: seq<Delivery.Pincode>, pincodeNumber: string)
    returns (t: Totals)
    ensures t == OrderTotals(items, discount, t.shipping)
    ensures t.shipping >= 0.0 && t.grandTotal >= t.subtotal - t.discount
    ensures Delivery.FirstWithNumber(pincodes, pincodeNumber).None? ==> t.shipping == 0.0
    ensures Delivery.FirstWithNumber(pincodes, pincodeNumber).Some? ==>
              t.shipping == Delivery.BestCharge(Delivery.FirstWithNumber(pincodes, pincodeNumber).value.tiers, OrderSubtotal(items))
  {
    var subtotal := OrderSubtotal(items);
    var shipping := Delivery.ChargeForPincode(pincodes, pincodeNumber, subtotal);
    t := OrderTotals(items, discount, shipping);
  }

  /** Adding a line to an order never lowers its shipping charge (the charge grows with the subtotal). */
  lemma {:induction false} MoreItemsNeverLowerShipping(tiers: seq<Delivery.Tier>, items: seq<OrderItem>, extra: OrderItem)
    requires extra.subtotal >= 0.0
    ensures Delivery.BestCharge(tiers, OrderSubtotal(items)) <= Delivery.BestCharge(tiers, OrderSubtotal(items + [extra]))
  {
    assert (items + [extra])[..|items|] == items;
    Delivery.ChargeGrowsWithOrderValue(tiers, OrderSubtotal(items), OrderSubtotal(items + [extra]));
  }

  // ---------------------------------------------------------------- cancelling

  datatype Order = Order(orderId: string, customerName: string, status: string, totalAmount: real)
  datatype CancelError = OrderNotFound | AlreadyCancelled | AlreadyDelivered

  /**
   * cancel_order: a missing order, a cancelled one and a delivered one are
   * refused; otherwise a confirmed cancellation sets the status to Cancelled
   * and an unconfirmed one changes nothing.
   */
  function CancelOrder(found: Option<Order>, confirmed: bool): (r: Result<Order, CancelError>)
    ensures found.None? <==> r == Err(OrderNotFound)
    ensures found.Some? ==> (r == Err(AlreadyCancelled) <==> found.value.status == "Cancelled")
    ensures found.Some? ==> (r == Err(AlreadyDelivered) <==> found.value.status == "Delivered")
    ensures r.Ok? ==> r.value.(status := found.value.status) == found.value
    ensures r.Ok? ==> r.value.status == if confirmed then "Cancelled" else found.value.status
  {
    if found.None? then Err(OrderNotFound)
    else if found.value.status == "Cancelled" then Err(AlreadyCancelled)
    else if found.value.status == "Delivered" then Err(AlreadyDelivered)
    else if confirmed then Ok(found.value.(status := "Cancelled"))
    else Ok(found.value)
  }

  /** A delivered order never becomes cancelled, and a cancelled order cannot be cancelled again. */
  lemma CancelIsOneWay(o: Order, confirmed: bool)
    ensures o.status == "Delivered" ==> CancelOrder(Some(o), confirmed).Err?
    ensures CancelOrder(Some(o), true).Ok? ==>
              CancelOrder(Some(CancelOrder(Some(o), true).value), confirmed) == Err(AlreadyCancelled)
  {
  }

  // ---------------------------------------------------------------- customer addresses

  datatype Address = Address(id: string, flatNo: string, area: string, landmark: string, pincode: string, isDefault: bool)

  datatype AddressError = NoAddresses | InvalidSelection

  function DefaultCount(addresses: seq<Address>): (n: nat)
    ensures n <= |addresses|
  {
    if addresses == [] then 0
    else DefaultCount(addresses[..|addresses| - 1]) + if addresses[|addresses| - 1].isDefault then 1 else 0
  }

  /** Every address with its default flag cleared. */
  function ClearDefaults(addresses: seq<Address>): (r: seq<Address>)
    ensures |r| == |addresses|
    ensures forall i :: 0 <= i < |r| ==> r[i] == addresses[i].(isDefault := false)
  {
    seq(|addresses|, i requires 0 <= i < |addresses| => addresses[i].(isDefault := false))
  }

  /** The list after the address at idx becomes the only default. */
  function WithDefault(addresses: seq<Address>, idx: int): (r: seq<Address>)
    requires 0 <= idx < |addresses|
    ensures |r| == |addresses|
    ensures forall i :: 0 <= i < |r| ==> r[i] == addresses[i].(isDefault := i == idx)
  {
    ClearDefaults(addresses)[idx := addresses[idx].(isDefault := true)]
  }

  /** The list after add_customer_address: other defaults cleared when the new one is the default. */
  function WithNewAddress(addresses: seq<Address>, a: Address, setDefault: bool): (r: seq<Address>)
    ensures |r| == |addresses| + 1 && r[|addresses|] == a.(isDefault := setDefault)
    ensures forall i :: 0 <= i < |addresses| ==> r[i] == if setDefault then addresses[i].(isDefault := false) else addresses[i]
  {
    (if setDefault then ClearDefaults(addresses) else addresses) + [a.(isDefault := setDefault)]
  }

  lemma {:induction false} NoDefaultCountsZero(addresses: seq<Address>)
    requires forall i :: 0 <= i < |addresses| ==> !addresses[i].isDefault
    ensures DefaultCount(addresses) == 0
    decreases |addresses|
  {
    if addresses != [] {
      NoDefaultCountsZero(addresses[..|addresses| - 1]);
    }
  }

  lemma {:induction false} OneDefaultCountsOne(addresses: seq<Address>, idx: int)
    requires 0 <= idx < |addresses|
    requires forall i :: 0 <= i < |addresses| ==> (addresses[i].isDefault <==> i == idx)
    ensures DefaultCount(addresses) == 1
    decreases |addresses|
  {
    var n := |addresses| - 1;
    var init := addresses[..n];
    if idx == n {
      NoDefaultCountsZero(init);
    } else {
      OneDefaultCountsOne(init, idx);
    }
  }

  /** After set_default_address exactly one address, the chosen one, is the default. */
  lemma {:induction false} WithDefaultHasOneDefault(addresses: seq<Address>, idx: int)
    requires 0 <= idx < |addresses|
    ensures DefaultCount(WithDefault(addresses, idx)) == 1 && WithDefault(addresses, idx)[idx].isDefault
  {
    OneDefaultCountsOne(WithDefault(addresses, idx), idx);
  }

  /** add_customer_address keeps "at most one default" and, with setDefault, makes the new address the one. */
  lemma {:induction false} NewAddressKeepsOneDefault(addresses: seq<Address>, a: Address, setDefault: bool)
    requires DefaultCount(addresses) <= 1
    ensures DefaultCount(WithNewAddress(addresses, a, setDefault)) <= 1
    ensures setDefault ==> DefaultCount(WithNewAddress(addresses, a, setDefault)) == 1
  {
    var r := WithNewAddress(addresses, a, setDefault);
    var n := |addresses|;
    if setDefault {
      NoDefaultCountsZero(ClearDefaults(addresses));
      assert r[..n] == ClearDefaults(addresses);
    } else {
      assert r[..n] == addresses;
    }
  }

  /** A customer record; its address list is rewritten in place. */
  class Customer {
    const phone: string
    var addresses: seq<Address>

    constructor(phone: string, addresses: seq<Address>)
      ensures this.phone == phone && this.addresses == addresses
    {
      this.phone := phone;
      this.addresses := addresses;
    }

    /**
     * set_default_address: `choice` is the 1-based number typed in, None when it
     * is not an integer. The list stays as it was on every error.
     */
    method SetDefaultAddress(choice: Option<int>) returns (r: Result<(), AddressError>)
      modifies this
      ensures old(addresses) == [] ==> r == Err(NoAddresses)
      ensures old(addresses) != [] && (choice.None? || !(1 <= choice.value <= |old(addresses)|)) ==> r == Err(InvalidSelection)
      ensures old(addresses) != [] && choice.Some? && 1 <= choice.value <= |old(addresses)| ==> r.Ok?
      ensures r.Err? ==> addresses == old(addresses)
      ensures r.Ok? ==> choice.Some? && 1 <= choice.value <= |old(addresses)|
                        && addresses == WithDefault(old(addresses), choice.value - 1)
    {
      if addresses == [] {
        return Err(NoAddresses);
      }
      if choice.None? {
        return Err(InvalidSelection);
      }
      var idx := choice.value - 1;
      if idx < 0 || idx >= |addresses| {
        return Err(InvalidSelection);
      }
      ghost var before := addresses;
      for i := 0 to |addresses|
        invariant |addresses| == |before|
        invariant forall j :: 0 <= j < i ==> addresses[j] == before[j].(isDefault := false)
        invariant forall j :: i <= j < |addresses| ==> addresses[j] == before[j]
      {
        addresses := addresses[i := addresses[i].(isDefault := false)];
      }
      addresses := addresses[idx := addresses[idx].(isDefault := true)];
      r := Ok(());
    }

    /** add_customer_address: with setDefault every existing address loses its flag; the new one is appended. */
    method AddCustomerAddress(a: Address, setDefault: bool)
      modifies this
      ensures addresses == WithNewAddress(old(addresses), a, setDefault)
    {
      ghost var before := addresses;
      if setDefault {
        for i := 0 to |addresses|
          invariant |addresses| == |before|
          invariant forall j :: 0 <= j < i ==> addresses[j] == before[j].(isDefault := false)
          invariant forall j :: i <= j < |addresses| ==> addresses[j] == before[j]
        {
          addresses := addresses[i := addresses[i].(isDefault := false)];
        }
      }
      addresses := addresses + [a.(isDefault := setDefault)];
    }
  }
}
