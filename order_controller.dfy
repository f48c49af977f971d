/** The order collection of src/controllers/OrderController.js: create (through the
    schema's validators), list all, get one, merge update, status update and physical
    delete, over the collection held as a map. `findByIdAndUpdate` runs no validators
    here, so the two updates store whatever they are given. */
module OrderController {
  import opened Common
  import opened OrderModel

  const OrderNotFound: Failure := Failure(404, "Order not found")
  const ValidationMessage: string := "Order validation failed"

  /** A request body of `PUT /:id`: only the fields it carries are written. */
  datatype OrderPatch = OrderPatch(
    user: Option<Id>,
    items: Option<seq<OrderItem>>,
    total: Option<int>,
    status: Option<string>,
    deliveryAddress: Option<Address>,
    paymentMethod: Option<string>,
    deliveryFee: Option<int>,
    notes: Option<string>)

  const EmptyPatch: OrderPatch := OrderPatch(None, None, None, None, None, None, None, None)

  /** `findByIdAndUpdate(id, body)`: the fields of the body overwrite the stored ones. */
  function Merge(o: Order, patch: OrderPatch): Order
  {
    Order(
      WithDefault(patch.user, o.user),
      WithDefault(patch.items, o.items),
      WithDefault(patch.total, o.total),
      WithDefault(patch.status, o.status),
      if patch.deliveryAddress.Some? then patch.deliveryAddress else o.deliveryAddress,
      WithDefault(patch.paymentMethod, o.paymentMethod),
      WithDefault(patch.deliveryFee, o.deliveryFee),
      if patch.notes.Some? then patch.notes else o.notes)
  }

  /** An empty body changes nothing. */
  lemma MergeEmpty(o: Order)
    ensures Merge(o, EmptyPatch) == o
  {
  }

  /** Updating the status is the merge of a body that carries only `status`. */
  lemma StatusUpdateIsMerge(o: Order, s: string)
    ensures Merge(o, EmptyPatch.(status := Some(s))) == o.(status := s)
  {
  }

  /** Neither update re-runs the validators: a merge can store a negative total. */
  lemma MergeSkipsValidation(o: Order)
    requires ValidOrder(o)
    ensures !ValidOrder(Merge(o, EmptyPatch.(total := Some(-1))))
  {
  }

  class OrderStore {
    var orders: map<Id, Order>

    constructor ()
      ensures orders == map[]
    {
      orders := map[];
    }

    /** create: the body goes through the schema (defaults, validators); a rejected body
        answers 500 and stores nothing; otherwise the order is stored and answered with
        201. `newId` is the id the database assigns. */
    method Create(body: OrderInput, newId: Id) returns (res: Result<Order>)
      requires newId !in orders
      modifies this
      ensures Materialize(body).None? ==>
        res == Err(Failure(500, ValidationMessage)) && orders == old(orders)
      ensures Materialize(body).Some? ==>
        res == Created(Materialize(body).value) && orders == old(orders)[newId := res.value]
      ensures res.Created? ==> ValidOrder(res.value) && res.value.status in OrderStatuses
    {
      var o := Materialize(body);
      if o.None? {
        res := Err(Failure(InternalError, ValidationMessage));
      } else {
        orders := orders[newId := o.value];
        res := Created(o.value);
      }
    }

    /** findAll: every stored order, whoever owns it. */
    method FindAll() returns (r: map<Id, Order>)
      ensures r.Keys == orders.Keys && forall id :: id in r ==> r[id] == orders[id]
    {
      r := orders;
    }

    /** findOne: 404 when the id is absent. */
    method FindOne(id: Id) returns (res: Result<Order>)
      ensures id in orders ==> res == Ok(orders[id])
      ensures id !in orders ==> res == Err(OrderNotFound)
    {
      if id in orders {
        res := Ok(orders[id]);
      } else {
        res := Err(OrderNotFound);
      }
    }

    /** update: merges the body into the stored order; 404 when the id is absent. */
    method Update(id: Id, patch: OrderPatch) returns (res: Result<Order>)
      modifies this
      ensures id !in old(orders) ==> res == Err(OrderNotFound) && orders == old(orders)
      ensures id in old(orders) ==>
        orders == old(orders)[id := Merge(old(orders)[id], patch)] && res == Ok(orders[id])
    {
      if id !in orders {
        res := Err(OrderNotFound);
      } else {
        orders := orders[id := Merge(orders[id], patch)];
        res := Ok(orders[id]);
      }
    }

    /** updateStatus: writes only `status`, with no transition rule and no enumeration
        check; every other field and every other order stays as it was. A body without
        `status` updates nothing (Mongoose drops the undefined field). */
    method UpdateStatus(id: Id, status: Option<string>) returns (res: Result<Order>)
      modifies this
      ensures id !in old(orders) ==> res == Err(OrderNotFound) && orders == old(orders)
      ensures id in old(orders) && status.Some? ==>
        && orders == old(orders)[id := old(orders)[id].(status := status.value)]
        && res == Ok(orders[id])
      ensures id in old(orders) && status.None? ==> orders == old(orders) && res == Ok(orders[id])
      ensures id in old(orders) && status.Some? && ValidOrder(old(orders)[id]) ==>
        (ValidOrder(orders[id]) <==> status.value in OrderStatuses)
    {
      if id !in orders {
        res := Err(OrderNotFound);
      } else if status.None? {
        res := Ok(orders[id]);
      } else {
        if ValidOrder(orders[id]) {
          StatusChangeValidity(orders[id], status.value);
        }
        orders := orders[id := orders[id].(status := status.value)];
        res := Ok(orders[id]);
      }
    }

    /** delete: removes the order; 404 when the id is absent. */
    method Delete(id: Id) returns (res: Result<string>)
      modifies this
      ensures id !in old(orders) ==> res == Err(OrderNotFound) && orders == old(orders)
      ensures id in old(orders) ==> orders == old(orders) - {id} && res == Ok("Order deleted")
      ensures id !in orders
    {
      if id !in orders {
        res := Err(OrderNotFound);
      } else {
        orders := orders - {id};
        res := Ok("Order deleted");
      }
    }
  }

  /** A client of the store: after a delete, findOne on that id answers 404, and a
      second delete answers 404 too. */
  method DeleteThenFind(store: OrderStore, id: Id) returns (found: Result<Order>, again: Result<string>)
    modifies store
    ensures found == Err(OrderNotFound)
    ensures again == Err(OrderNotFound)
  {
    var _ := store.Delete(id);
    found := store.FindOne(id);
    again := store.Delete(id);
  }
}
