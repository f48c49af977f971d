/** The Order schema of src/models/Order.js: an order and its items, the
    enumerations, minimums and required fields its validators enforce, and the
    defaults `Order.create` fills in. Money is integer cents. */
module OrderModel {
  import opened Common

  const OrderStatuses: seq<string> :=
    ["pending", "confirmed", "preparing", "delivering", "delivered", "cancelled"]
  const PaymentMethods: seq<string> := ["credit_card", "debit_card", "cash", "pix"]
  const DefaultStatus: string := "pending"
  /** 5.00 in the schema, in cents. */
  const DefaultDeliveryFee: int := 500

  datatype Address = Address(
    street: Option<string>, number: Option<string>, neighborhood: Option<string>,
    city: Option<string>, state: Option<string>, zipCode: Option<string>,
    complement: Option<string>)

  datatype OrderItem = OrderItem(product: Id, quantity: int, price: int)

  /** A stored order. Updates bypass the validators, so a stored order need not be valid. */
  datatype Order = Order(
    user: Id,
    items: seq<OrderItem>,
    total: int,
    status: string,
    deliveryAddress: Option<Address>,
    paymentMethod: string,
    deliveryFee: int,
    notes: Option<string>)

  predicate ValidItem(item: OrderItem)
  {
    item.quantity >= 1 && item.price >= 0
  }

  /** What the schema's validators accept. `total` is not tied to the items. */
  predicate ValidOrder(o: Order)
  {
    && (forall k :: 0 <= k < |o.items| ==> ValidItem(o.items[k]))
    && o.total >= 0
    && o.status in OrderStatuses
    && o.paymentMethod in PaymentMethods
  }

  /** Request bodies: every field may be missing. */
  datatype ItemInput = ItemInput(product: Option<Id>, quantity: Option<int>, price: Option<int>)

  datatype OrderInput = OrderInput(
    user: Option<Id>,
    items: seq<ItemInput>,
    total: Option<int>,
    status: Option<string>,
    deliveryAddress: Option<Address>,
    paymentMethod: Option<string>,
    deliveryFee: Option<int>,
    notes: Option<string>)

  /** An item passes its validators: product required, quantity required and at least 1,
      price required and at least 0. */
  predicate ItemAccepted(i: ItemInput)
  {
    i.product.Some? && i.quantity.Some? && i.quantity.value >= 1
    && i.price.Some? && i.price.value >= 0
  }

  /** The items of a body, validated one by one; None when any of them is rejected. */
  function ItemsFromInput(items: seq<ItemInput>): (r: Option<seq<OrderItem>>)
    ensures r.Some? <==> forall k :: 0 <= k < |items| ==> ItemAccepted(items[k])
    ensures r.Some? ==> |r.value| == |items|
    ensures r.Some? ==> forall k :: 0 <= k < |items| ==>
      r.value[k] == OrderItem(items[k].product.value, items[k].quantity.value, items[k].price.value)
  {
    if items == [] then Some([])
    else
      var i := items[0];
      var rest := ItemsFromInput(items[1..]);
      if ItemAccepted(i) && rest.Some? then
        Some([OrderItem(i.product.value, i.quantity.value, i.price.value)] + rest.value)
      else
        None
  }

  /** `Order.create(body)`: fill the defaults (status pending, delivery fee 5.00), then
      validate. None stands for the validation error. */
  function Materialize(b: OrderInput): (r: Option<Order>)
    ensures r.Some? <==>
      && b.user.Some?
      && (forall k :: 0 <= k < |b.items| ==> ItemAccepted(b.items[k]))
      && b.total.Some? && b.total.value >= 0
      && (b.status.None? || b.status.value in OrderStatuses)
      && b.paymentMethod.Some? && b.paymentMethod.value in PaymentMethods
    ensures r.Some? ==> ValidOrder(r.value)
    ensures r.Some? ==>
      && r.value.user == b.user.value
      && r.value.items == ItemsFromInput(b.items).value
      && r.value.total == b.total.value
      && r.value.paymentMethod == b.paymentMethod.value
      && r.value.deliveryAddress == b.deliveryAddress
      && r.value.notes == b.notes
    ensures r.Some? ==> r.value.status == (if b.status.Some? then b.status.value else "pending")
    ensures r.Some? ==> r.value.deliveryFee == (if b.deliveryFee.Some? then b.deliveryFee.value else 500)
  {
    var items := ItemsFromInput(b.items);
    if b.user.Some? && items.Some? && b.total.Some? && b.paymentMethod.Some? then
      var o := Order(
        b.user.value, items.value, b.total.value,
        if b.status.Some? then b.status.value else DefaultStatus,
        b.deliveryAddress, b.paymentMethod.value,
        if b.deliveryFee.Some? then b.deliveryFee.value else DefaultDeliveryFee,
        b.notes);
      assert forall k :: 0 <= k < |o.items| ==> ValidItem(o.items[k]);
      if o.total >= 0 && o.status in OrderStatuses && o.paymentMethod in PaymentMethods
      then Some(o) else None
    else None
  }

  /** The schema accepts a total that is not the sum of its items. */
  lemma TotalNotTiedToItems()
    ensures var b := OrderInput(Some("u1"), [ItemInput(Some("p1"), Some(2), Some(300))],
                                Some(0), None, None, Some("pix"), None, None);
            Materialize(b).Some? && Materialize(b).value.total == 0
            && Materialize(b).value.items[0].price * Materialize(b).value.items[0].quantity == 600
  {
  }

  /** Changing the status keeps a valid order valid exactly when the new status is one
      of the enumeration's values. */
  lemma StatusChangeValidity(o: Order, s: string)
    requires ValidOrder(o)
    ensures ValidOrder(o.(status := s)) <==> s in OrderStatuses
  {
  }
}
