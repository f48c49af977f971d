/** The per-user cart and checkout of server.js: the process-wide `userCarts` table
    (user id to a sequence of lines), get, add-or-increment and remove, checkout into
    the order collection, the user's order list, and the `auth` middleware the cart
    routes sit behind. Prices are integer cents. */
module Server {
  import opened Common
  import opened ProductModel
  import opened Users
  import opened Guard

  /** A cart line: a snapshot of the product taken when it was first added, and a quantity. */
  datatype CartLine = CartLine(productId: Id, name: string, price: int, imageUrl: Option<string>, quantity: int)

  function Subtotal(line: CartLine): int
  {
    line.price * line.quantity
  }

  /** `cart.reduce((sum, item) => sum + item.price * item.quantity, 0)`. */
  function Total(lines: seq<CartLine>): int
  {
    if lines == [] then 0 else Total(lines[..|lines| - 1]) + Subtotal(lines[|lines| - 1])
  }

  /** The total of two carts put together is the sum of their totals. */
  lemma {:induction false} TotalAppend(a: seq<CartLine>, b: seq<CartLine>)
    ensures Total(a + b) == Total(a) + Total(b)
    decreases |b|
  {
    if b == [] {
      assert a + b == a;
    } else {
      var c := a + b;
      assert c[..|c| - 1] == a + b[..|b| - 1];
      TotalAppend(a, b[..|b| - 1]);
    }
  }

  /** Replacing one line changes the total by the difference of the two subtotals. */
  lemma TotalReplace(lines: seq<CartLine>, i: nat, line: CartLine)
    requires i < |lines|
    ensures Total(lines[i := line]) == Total(lines) - Subtotal(lines[i]) + Subtotal(line)
  {
    assert lines == lines[..i] + [lines[i]] + lines[i + 1..];
    assert lines[i := line] == lines[..i] + [line] + lines[i + 1..];
    TotalAppend(lines[..i] + [lines[i]], lines[i + 1..]);
    TotalAppend(lines[..i], [lines[i]]);
    TotalAppend(lines[..i] + [line], lines[i + 1..]);
    TotalAppend(lines[..i], [line]);
    assert Total([lines[i]]) == Subtotal(lines[i]) by { assert [lines[i]][..0] == []; }
    assert Total([line]) == Subtotal(line) by { assert [line][..0] == []; }
  }

  /** `userCarts[userId] || []`. */
  function CartOf(carts: map<Id, seq<CartLine>>, user: Id): seq<CartLine>
  {
    if user in carts then carts[user] else []
  }

  predicate HasLine(lines: seq<CartLine>, productId: Id)
  {
    exists i :: 0 <= i < |lines| && lines[i].productId == productId
  }

  /** A line of a slice is a line of the whole cart. */
  lemma HasLineSlice(lines: seq<CartLine>, productId: Id, lo: nat, hi: nat)
    requires lo <= hi <= |lines|
    ensures HasLine(lines[lo..hi], productId) ==> HasLine(lines, productId)
  {
    if HasLine(lines[lo..hi], productId) {
      var k :| 0 <= k < hi - lo && lines[lo..hi][k].productId == productId;
      assert lines[lo + k].productId == productId;
    }
  }

  /** At most one line per product. */
  ghost predicate UniqueProducts(lines: seq<CartLine>)
  {
    forall i, j :: 0 <= i < j < |lines| ==> lines[i].productId != lines[j].productId
  }

  /** The line pushed for a product not yet in the cart. */
  function NewLine(productId: Id, p: Product, quantity: int): CartLine
  {
    CartLine(productId, p.name, p.price, p.imageUrl, quantity)
  }

  /** The cart after `POST /api/cart/add`: the first line for the product has its
      quantity increased; with no such line, a snapshot of the product is pushed. */
  function AddLine(lines: seq<CartLine>, productId: Id, p: Product, quantity: int): seq<CartLine>
  {
    if lines == [] then [NewLine(productId, p, quantity)]
    else if lines[0].productId == productId then
      [lines[0].(quantity := lines[0].quantity + quantity)] + lines[1..]
    else [lines[0]] + AddLine(lines[1..], productId, p, quantity)
  }

  /** With a line for the product at `i` and none before it, only that line's
      quantity changes. */
  lemma {:induction false} AddLineIncrements(lines: seq<CartLine>, productId: Id, p: Product, quantity: int, i: nat)
    requires i < |lines| && lines[i].productId == productId
    requires forall k :: 0 <= k < i ==> lines[k].productId != productId
    ensures AddLine(lines, productId, p, quantity) == lines[i := lines[i].(quantity := lines[i].quantity + quantity)]
  {
    if i > 0 {
      AddLineIncrements(lines[1..], productId, p, quantity, i - 1);
      assert [lines[0]] + lines[1..][i - 1 := lines[i].(quantity := lines[i].quantity + quantity)]
          == lines[i := lines[i].(quantity := lines[i].quantity + quantity)];
    }
  }

  /** With no line for the product, exactly one snapshot line is appended and the
      earlier lines are unchanged. */
  lemma {:induction false} AddLineAppends(lines: seq<CartLine>, productId: Id, p: Product, quantity: int)
    requires !HasLine(lines, productId)
    ensures AddLine(lines, productId, p, quantity) == lines + [NewLine(productId, p, quantity)]
  {
    if lines != [] {
      assert lines[0].productId != productId;
      HasLineSlice(lines, productId, 1, |lines|);
      AddLineAppends(lines[1..], productId, p, quantity);
      assert [lines[0]] + (lines[1..] + [NewLine(productId, p, quantity)]) == lines + [NewLine(productId, p, quantity)];
    }
  }

  /** Adding keeps at most one line per product. */
  lemma AddLineKeepsUnique(lines: seq<CartLine>, productId: Id, p: Product, quantity: int)
    requires UniqueProducts(lines)
    ensures UniqueProducts(AddLine(lines, productId, p, quantity))
  {
    if HasLine(lines, productId) {
      var i :| 0 <= i < |lines| && lines[i].productId == productId;
      AddLineIncrements(lines, productId, p, quantity, i);
    } else {
      AddLineAppends(lines, productId, p, quantity);
    }
  }

  /** Raising a line's quantity raises its subtotal by its price times the increase. */
  lemma SubtotalIncrease(l: CartLine, quantity: int)
    ensures Subtotal(l.(quantity := l.quantity + quantity)) == Subtotal(l) + l.price * quantity
  {
    assert l.price * (l.quantity + quantity) == l.price * l.quantity + l.price * quantity;
  }

  /** Adding to the line at `i` raises the total by that line's stored price times the quantity. */
  lemma AddLineTotalAt(lines: seq<CartLine>, productId: Id, p: Product, quantity: int, i: nat)
    requires UniqueProducts(lines) && i < |lines| && lines[i].productId == productId
    ensures Total(AddLine(lines, productId, p, quantity)) == Total(lines) + lines[i].price * quantity
  {
    var l := lines[i];
    var l' := l.(quantity := l.quantity + quantity);
    assert forall k :: 0 <= k < i ==> lines[k].productId != productId;
    AddLineIncrements(lines, productId, p, quantity, i);
    TotalReplace(lines, i, l');
    SubtotalIncrease(l, quantity);
  }

  /** Adding raises the total by the quantity times the snapshot price of the line it
      lands on: the price stored when the product was first added, or the product's
      current price for a new line. */
  lemma AddLineTotal(lines: seq<CartLine>, productId: Id, p: Product, quantity: int)
    requires UniqueProducts(lines)
    ensures HasLine(lines, productId) ==> forall i :: 0 <= i < |lines| && lines[i].productId == productId ==>
      Total(AddLine(lines, productId, p, quantity)) == Total(lines) + lines[i].price * quantity
    ensures !HasLine(lines, productId) ==>
      Total(AddLine(lines, productId, p, quantity)) == Total(lines) + p.price * quantity
  {
    if HasLine(lines, productId) {
      forall i | 0 <= i < |lines| && lines[i].productId == productId
        ensures Total(AddLine(lines, productId, p, quantity)) == Total(lines) + lines[i].price * quantity
      {
        AddLineTotalAt(lines, productId, p, quantity, i);
      }
    } else {
      var l := NewLine(productId, p, quantity);
      AddLineAppends(lines, productId, p, quantity);
      TotalAppend(lines, [l]);
      assert Total([l]) == Subtotal(l) by { assert [l][..0] == []; }
    }
  }

  /** Adding the same product twice gives one line whose quantity is the sum of the
      two; the snapshot of the first add is kept. */
  lemma {:induction false} AddLineTwice(lines: seq<CartLine>, productId: Id, p: Product, p': Product, q1: int, q2: int)
    ensures AddLine(AddLine(lines, productId, p, q1), productId, p', q2) == AddLine(lines, productId, p, q1 + q2)
  {
    if lines != [] && lines[0].productId != productId {
      AddLineTwice(lines[1..], productId, p, p', q1, q2);
      var once := AddLine(lines, productId, p, q1);
      assert once[1..] == AddLine(lines[1..], productId, p, q1);
    }
  }

  /** `cart.filter(item => item.productId !== productId)`. */
  function Without(lines: seq<CartLine>, productId: Id): (r: seq<CartLine>)
    ensures |r| <= |lines|
    ensures forall k :: 0 <= k < |r| ==> r[k].productId != productId
  {
    if lines == [] then []
    else (if lines[0].productId == productId then [] else [lines[0]]) + Without(lines[1..], productId)
  }

  /** The lines kept are exactly the lines for other products. */
  lemma {:induction false} WithoutMembers(lines: seq<CartLine>, productId: Id)
    ensures forall l :: l in Without(lines, productId) <==> l in lines && l.productId != productId
  {
    if lines != [] {
      WithoutMembers(lines[1..], productId);
      assert lines == [lines[0]] + lines[1..];
    }
  }

  /** Filtering a concatenation filters each part, so the kept lines keep their order. */
  lemma {:induction false} WithoutAppend(a: seq<CartLine>, b: seq<CartLine>, productId: Id)
    ensures Without(a + b, productId) == Without(a, productId) + Without(b, productId)
  {
    if a == [] {
      assert a + b == b;
    } else {
      var head := if a[0].productId == productId then [] else [a[0]];
      var rest := a[1..];
      assert (a + b)[0] == a[0];
      assert (a + b)[1..] == rest + b;
      WithoutAppend(rest, b, productId);
      var wr, wb := Without(rest, productId), Without(b, productId);
      assert Without(a + b, productId) == head + (wr + wb);
      assert Without(a, productId) == head + wr;
    }
  }

  /** Removing a product that has no line is a no-op. */
  lemma {:induction false} WithoutAbsent(lines: seq<CartLine>, productId: Id)
    requires !HasLine(lines, productId)
    ensures Without(lines, productId) == lines
  {
    if lines != [] {
      assert lines[0].productId != productId;
      HasLineSlice(lines, productId, 1, |lines|);
      WithoutAbsent(lines[1..], productId);
      assert [lines[0]] + lines[1..] == lines;
    }
  }

  /** When line `i` is the only line for the product, removing the product drops
      exactly that line and keeps the others in order. */
  lemma {:induction false} WithoutAt(lines: seq<CartLine>, productId: Id, i: nat)
    requires i < |lines| && lines[i].productId == productId
    requires forall k :: 0 <= k < |lines| && k != i ==> lines[k].productId != productId
    ensures Without(lines, productId) == lines[..i] + lines[i + 1..]
    decreases i
  {
    var tail := lines[1..];
    if i == 0 {
      assert !HasLine(tail, productId) by {
        forall k | 0 <= k < |tail| ensures tail[k].productId != productId {
          assert tail[k] == lines[k + 1];
        }
      }
      WithoutAbsent(tail, productId);
      assert lines[..0] + lines[1..] == tail;
    } else {
      assert lines[0].productId != productId;
      assert forall k :: 0 <= k < |tail| && k != i - 1 ==> tail[k].productId != productId by {
        forall k | 0 <= k < |tail| && k != i - 1 ensures tail[k].productId != productId {
          assert tail[k] == lines[k + 1];
        }
      }
      WithoutAt(tail, productId, i - 1);
      assert lines[..i] == [lines[0]] + tail[..i - 1];
      assert lines[i + 1..] == tail[i..];
    }
  }

  /** A line whose product differs from every line of a cart with one line per
      product can go in front of it. */
  lemma ConsKeepsUnique(l: CartLine, rest: seq<CartLine>)
    requires UniqueProducts(rest)
    requires forall k :: 0 <= k < |rest| ==> rest[k].productId != l.productId
    ensures UniqueProducts([l] + rest)
  {
    var r := [l] + rest;
    forall i, j | 0 <= i < j < |r| ensures r[i].productId != r[j].productId {
      assert r[j] == rest[j - 1];
      if i > 0 {
        assert r[i] == rest[i - 1];
      }
    }
  }

  /** The first line's product has no other line in a cart with one line per product. */
  lemma UniqueSplit(lines: seq<CartLine>)
    requires UniqueProducts(lines) && lines != []
    ensures UniqueProducts(lines[1..])
    ensures forall k :: 0 <= k < |lines[1..]| ==> lines[1..][k].productId != lines[0].productId
  {
    var tail := lines[1..];
    forall i, j | 0 <= i < j < |tail| ensures tail[i].productId != tail[j].productId {
      assert tail[i] == lines[i + 1] && tail[j] == lines[j + 1];
    }
    forall k | 0 <= k < |tail| ensures tail[k].productId != lines[0].productId {
      assert tail[k] == lines[k + 1];
    }
  }

  /** Lines kept by the filter have products some line of the cart had. */
  lemma WithoutKeepsOthers(lines: seq<CartLine>, productId: Id, other: Id)
    requires forall k :: 0 <= k < |lines| ==> lines[k].productId != other
    ensures forall k :: 0 <= k < |Without(lines, productId)| ==> Without(lines, productId)[k].productId != other
  {
    WithoutMembers(lines, productId);
    var r := Without(lines, productId);
    forall k | 0 <= k < |r| ensures r[k].productId != other {
      assert r[k] in lines;
    }
  }

  /** Removing keeps at most one line per product. */
  lemma {:induction false} WithoutKeepsUnique(lines: seq<CartLine>, productId: Id)
    requires UniqueProducts(lines)
    ensures UniqueProducts(Without(lines, productId))
  {
    if lines != [] {
      UniqueSplit(lines);
      WithoutKeepsUnique(lines[1..], productId);
      if lines[0].productId != productId {
        WithoutKeepsOthers(lines[1..], productId, lines[0].productId);
        ConsKeepsUnique(lines[0], Without(lines[1..], productId));
      } else {
        assert Without(lines, productId) == Without(lines[1..], productId);
      }
    }
  }

  /** Removing lowers the total by exactly the removed line's subtotal. */
  lemma WithoutTotal(lines: seq<CartLine>, productId: Id, i: nat)
    requires UniqueProducts(lines) && i < |lines| && lines[i].productId == productId
    ensures Total(Without(lines, productId)) == Total(lines) - Subtotal(lines[i])
  {
    WithoutAt(lines, productId, i);
    var front, back := lines[..i], lines[i + 1..];
    assert lines == (front + [lines[i]]) + back;
    TotalAppend(front + [lines[i]], back);
    TotalAppend(front, [lines[i]]);
    TotalAppend(front, back);
    assert [lines[i]][..0] == [];
  }

  /** Adding a product that was not in the cart and then removing it gives the cart back. */
  lemma AddThenRemove(lines: seq<CartLine>, productId: Id, p: Product, quantity: int)
    requires !HasLine(lines, productId)
    ensures Without(AddLine(lines, productId, p, quantity), productId) == lines
  {
    AddLineAppends(lines, productId, p, quantity);
    WithoutAppend(lines, [NewLine(productId, p, quantity)], productId);
    WithoutAbsent(lines, productId);
    assert Without([NewLine(productId, p, quantity)], productId) == [] by {
      assert [NewLine(productId, p, quantity)][1..] == [];
    }
    assert lines + [] == lines;
  }

  /** An order of the server.js schema: the cart lines, the total, the status, the
      address and the payment method. */
  datatype PlacedOrder = PlacedOrder(
    userId: Id, items: seq<CartLine>, total: int, status: string, address: string, paymentMethod: string)

  const DefaultAddress: string := "Endereço não informado"
  const DefaultPaymentMethod: string := "cash"
  const EmptyCartFailure: Failure := Failure(400, "Carrinho vazio")

  /** The document `POST /api/orders` hands to `Order.create`. */
  function OrderFromCart(user: Id, lines: seq<CartLine>, address: Option<string>, paymentMethod: Option<string>)
    : (o: PlacedOrder)
    ensures o.userId == user && o.items == lines && o.total == Total(lines) && o.status == "pending"
    ensures o.address == (if Present(address) then address.value else DefaultAddress)
    ensures o.paymentMethod == (if Present(paymentMethod) then paymentMethod.value else DefaultPaymentMethod)
  {
    PlacedOrder(user, lines, Total(lines), "pending",
                OrElse(address, DefaultAddress), OrElse(paymentMethod, DefaultPaymentMethod))
  }

  /** `Order.find({ userId }).sort({ createdAt: -1 })` over orders kept in creation order. */
  function OrdersOf(orders: seq<PlacedOrder>, user: Id): (r: seq<PlacedOrder>)
    ensures |r| <= |orders|
    ensures forall o :: o in r <==> o in orders && o.userId == user
  {
    if orders == [] then []
    else
      var last := orders[|orders| - 1];
      var rest := orders[..|orders| - 1];
      assert orders == rest + [last];
      (if last.userId == user then [last] else []) + OrdersOf(rest, user)
  }

  /** The order just placed comes first in its owner's list, and no one else's list changes. */
  lemma OrdersOfAfterPlacing(orders: seq<PlacedOrder>, o: PlacedOrder, user: Id)
    ensures o.userId == user ==> OrdersOf(orders + [o], user) == [o] + OrdersOf(orders, user)
    ensures o.userId != user ==> OrdersOf(orders + [o], user) == OrdersOf(orders, user)
  {
    assert (orders + [o])[..|orders|] == orders;
  }

  /** `Array.prototype.find` on the cart: the index of the first line for the product, or -1. */
  method FindLine(lines: seq<CartLine>, productId: Id) returns (i: int)
    ensures -1 <= i < |lines|
    ensures i >= 0 ==> lines[i].productId == productId && forall k :: 0 <= k < i ==> lines[k].productId != productId
    ensures i == -1 <==> !HasLine(lines, productId)
  {
    i := 0;
    while i < |lines|
      invariant 0 <= i <= |lines|
      invariant forall k :: 0 <= k < i ==> lines[k].productId != productId
    {
      if lines[i].productId == productId {
        return;
      }
      i := i + 1;
    }
    i := -1;
  }

  /** The in-memory cart table and the order collection it checks out into. */
  class CartService {
    var carts: map<Id, seq<CartLine>>
    var orders: seq<PlacedOrder>

    /** Every cart has at most one line per product. */
    ghost predicate Valid()
      reads this
    {
      forall user :: user in carts ==> UniqueProducts(carts[user])
    }

    constructor ()
      ensures Valid() && carts == map[] && orders == []
    {
      carts := map[];
      orders := [];
    }

    /** `GET /api/cart`: the user's lines (none without a cart), their total and count. */
    method GetCart(user: Id) returns (lines: seq<CartLine>, total: int, count: nat)
      ensures user in carts ==> lines == carts[user]
      ensures user !in carts ==> lines == []
      ensures total == Total(lines) && count == |lines|
    {
      lines := CartOf(carts, user);
      total := Total(lines);
      count := |lines|;
    }

    /** `POST /api/cart/add`: an unknown product answers 404 and changes nothing.
        Otherwise the user's cart (created empty if missing) gets the product added:
        the existing line's quantity is increased, or a snapshot line is pushed.
        `quantity` defaults to 1; neither `isActive` nor the sign of `quantity` is
        checked. Other users' carts are untouched. */
    method Add(user: Id, productId: Id, quantity: Option<int>, catalog: map<Id, Product>)
      returns (res: Result<seq<CartLine>>)
      requires Valid()
      modifies this
      ensures Valid() && orders == old(orders)
      ensures productId !in catalog ==> res == Err(Failure(404, "Produto não encontrado")) && carts == old(carts)
      ensures productId in catalog ==>
        var q := if quantity.Some? then quantity.value else 1;
        && carts == old(carts)[user := AddLine(CartOf(old(carts), user), productId, catalog[productId], q)]
        && res == Ok(carts[user])
    {
      if productId !in catalog {
        res := Err(Failure(NotFound, "Produto não encontrado"));
        return;
      }
      var product := catalog[productId];
      var q := if quantity.Some? then quantity.value else 1;
      if user !in carts {
        carts := carts[user := []];
      }
      var lines := carts[user];
      var i := FindLine(lines, productId);
      var updated;
      if i >= 0 {
        AddLineIncrements(lines, productId, product, q, i);
        updated := lines[i := lines[i].(quantity := lines[i].quantity + q)];
      } else {
        AddLineAppends(lines, productId, product, q);
        updated := lines + [NewLine(productId, product, q)];
      }
      AddLineKeepsUnique(lines, productId, product, q);
      carts := carts[user := updated];
      res := Ok(updated);
    }

    /** `DELETE /api/cart/remove/:productId`: every line for the product goes, the
        others keep their order; without a cart nothing changes (no cart is created).
        Answers the cart, or no lines. */
    method Remove(user: Id, productId: Id) returns (lines: seq<CartLine>)
      requires Valid()
      modifies this
      ensures Valid() && orders == old(orders)
      ensures user in old(carts) ==> carts == old(carts)[user := Without(old(carts)[user], productId)]
      ensures user !in old(carts) ==> carts == old(carts)
      ensures lines == CartOf(carts, user)
    {
      if user in carts {
        WithoutKeepsUnique(carts[user], productId);
        carts := carts[user := Without(carts[user], productId)];
      }
      lines := CartOf(carts, user);
    }

    /** `POST /api/orders`: an empty or missing cart answers 400 and changes nothing.
        Otherwise the order (lines, total, status pending, address and payment method
        with their defaults) is handed to the store; `storageError` is the store's
        answer. Only after the order is stored is the cart emptied, so a store failure
        answers 500 and leaves the cart as it was. */
    method Checkout(user: Id, address: Option<string>, paymentMethod: Option<string>, storageError: Option<string>)
      returns (res: Result<PlacedOrder>)
      requires Valid()
      modifies this
      ensures Valid()
      ensures CartOf(old(carts), user) == [] ==>
        res == Err(EmptyCartFailure) && carts == old(carts) && orders == old(orders)
      ensures CartOf(old(carts), user) != [] && storageError.Some? ==>
        && res == Err(Failure(500, "Erro ao criar pedido: " + storageError.value))
        && carts == old(carts) && orders == old(orders)
      ensures CartOf(old(carts), user) != [] && storageError.None? ==>
        && res == Created(OrderFromCart(user, old(carts)[user], address, paymentMethod))
        && orders == old(orders) + [res.value]
        && carts == old(carts)[user := []]
    {
      var cart := CartOf(carts, user);
      if |cart| == 0 {
        res := Err(EmptyCartFailure);
        return;
      }
      var order := OrderFromCart(user, cart, address, paymentMethod);
      if storageError.Some? {
        res := Err(Failure(InternalError, "Erro ao criar pedido: " + storageError.value));
        return;
      }
      orders := orders + [order];
      carts := carts[user := []];
      res := Created(order);
    }

    /** `GET /api/orders`: the user's orders, newest first. */
    method ListOrders(user: Id) returns (r: seq<PlacedOrder>, count: nat)
      ensures forall o :: o in r <==> o in orders && o.userId == user
      ensures r == OrdersOf(orders, user) && count == |r|
    {
      r := OrdersOf(orders, user);
      count := |r|;
    }
  }

  /** The `auth` middleware of server.js: no token answers 401 'Token de acesso
      necessário'; a credential `verify` rejects, a payload without `userId`, a failed
      lookup or no such user all answer 401 'Token inválido'; otherwise the request
      continues as that user. */
  function ServerAuth(header: Option<string>, verify: Token -> Option<Claims>,
                      users: map<Id, User>, lookupFails: bool): (r: Result<Id>)
    ensures r.Err? ==> r.failure.status == 401
    ensures !Present(BearerToken(header)) ==> r == Err(Failure(401, "Token de acesso necessário"))
    ensures Present(BearerToken(header)) && r.Err? ==> r.failure == Failure(401, "Token inválido")
    ensures r.Ok? <==>
      && Present(BearerToken(header))
      && verify(BearerToken(header).value).Some?
      && "userId" in verify(BearerToken(header).value).value
      && !lookupFails
      && verify(BearerToken(header).value).value["userId"] in users
    ensures r.Ok? ==> r.value in users && r.value == verify(BearerToken(header).value).value["userId"]
  {
    var token := BearerToken(header);
    if !Present(token) then Err(Failure(Unauthorized, "Token de acesso necessário"))
    else
      match verify(token.value)
      case None => Err(Failure(Unauthorized, "Token inválido"))
      case Some(decoded) =>
        if "userId" !in decoded || lookupFails || decoded["userId"] !in users
        then Err(Failure(Unauthorized, "Token inválido"))
        else Ok(decoded["userId"])
  }

  /** A credential whose payload is `{ id }` (the one authController's `generateToken`
      signs) never passes server.js's `auth`, which reads `userId`. */
  lemma IdPayloadRejectedByServerAuth(token: Token, id: Id, verify: Token -> Option<Claims>,
                                      users: map<Id, User>, lookupFails: bool)
    requires token != "" && verify(token) == Some(map["id" := id])
    ensures ServerAuth(Some(BearerPrefix + token), verify, users, lookupFails) == Err(Failure(401, "Token inválido"))
  {
    BearerTokenOfBearerHeader(token);
  }

  /** Two products, 5.00 twice and 3.00 once, make a cart of two lines and 13.00. */
  lemma ExampleCartTotal(p1: Product, p2: Product)
    requires p1.price == 500 && p2.price == 300
    ensures var lines := AddLine(AddLine([], "P1", p1, 2), "P2", p2, 1);
      |lines| == 2 && Total(lines) == 1300
  {
    var once := AddLine([], "P1", p1, 2);
    assert once == [NewLine("P1", p1, 2)];
    assert once[0].productId != "P2" by { assert "P1"[1] != "P2"[1]; }
    assert once[1..] == [];
    var lines := AddLine(once, "P2", p2, 1);
    assert lines == [once[0]] + AddLine([], "P2", p2, 1);
    assert lines == [NewLine("P1", p1, 2), NewLine("P2", p2, 1)];
    assert lines[..1] == [NewLine("P1", p1, 2)];
    assert lines[..1][..0] == [];
    assert Total(lines[..1]) == Subtotal(lines[0]) == 1000;
    assert Subtotal(lines[1]) == 300;
  }
}
