/**
  The order routes (server/src/routes/orders.ts): the caller's own order list, the
  read check, two-phase creation (every item checked before any stock moves), the
  admin status update and the owner's cancel with its inventory restore.

  Creation decrements a product's top-level `stock`. Cancel increments
  `sizes.$[elem].stock` for the array elements whose `size` equals the item's size:
  a per-size counter, not `stock`. The model keeps the two counters apart. With the
  product schema's sizes stored as plain strings, no element carries a `size` field,
  so `sizeStock` below is empty in practice and the restore writes nothing.
 */
module OrderRoutes {
  import opened Wrappers
  import opened Accounts
  import opened OrderModel
  import Pagination
  import ProductModel

  type ProductId = ProductModel.ProductId

  /** The part of a stored product the order routes read or write. */
  datatype StockRecord = StockRecord(sizes: seq<string>, stock: int, sizeStock: map<string, int>)

  /** Why the first pass refuses an item (each is a 400 response). */
  datatype ItemProblem = ProductNotFound | SizeNotAvailable | InsufficientStock

  /** The first-pass checks on one item, in source order; None when it passes. */
  function CheckItem(products: map<ProductId, StockRecord>, item: OrderItem): Option<ItemProblem>
  {
    if item.product !in products then Some(ProductNotFound)
    else if item.size !in products[item.product].sizes then Some(SizeNotAvailable)
    else if products[item.product].stock < item.quantity then Some(InsufficientStock)
    else None
  }

  /** The first refused item with its problem, or None when every item passes. */
  function FirstFailure(products: map<ProductId, StockRecord>, items: seq<OrderItem>): (r: Option<(nat, ItemProblem)>)
    ensures r.None? <==> forall i :: 0 <= i < |items| ==> CheckItem(products, items[i]).None?
    ensures r.Some? ==> r.value.0 < |items| && CheckItem(products, items[r.value.0]) == Some(r.value.1)
    ensures r.Some? ==> forall j :: 0 <= j < r.value.0 ==> CheckItem(products, items[j]).None?
  {
    if |items| == 0 then None
    else if CheckItem(products, items[0]).Some? then Some((0, CheckItem(products, items[0]).value))
    else
      match FirstFailure(products, items[1..])
      case None => None
      case Some((k, p)) => Some((k + 1, p))
  }

  /** The quantities of the items for product `id`, summed. */
  function QuantityFor(items: seq<OrderItem>, id: ProductId): int
  {
    if |items| == 0 then 0
    else QuantityFor(items[..|items| - 1], id) + (if items[|items| - 1].product == id then items[|items| - 1].quantity else 0)
  }

  /** One `$inc: { stock: -quantity }`; an update of a missing product matches nothing. */
  function DecrementOne(products: map<ProductId, StockRecord>, item: OrderItem): map<ProductId, StockRecord>
  {
    if item.product in products
    then products[item.product := products[item.product].(stock := products[item.product].stock - item.quantity)]
    else products
  }

  /** The second pass of creation: the decrements issued one item after another. */
  function Decremented(products: map<ProductId, StockRecord>, items: seq<OrderItem>): map<ProductId, StockRecord>
  {
    if |items| == 0 then products else DecrementOne(Decremented(products, items[..|items| - 1]), items[|items| - 1])
  }

  /** Creation lowers each product's `stock` by the summed quantity of its items, and touches nothing else. */
  lemma {:induction false} DecrementedAt(products: map<ProductId, StockRecord>, items: seq<OrderItem>)
    ensures Decremented(products, items).Keys == products.Keys
    ensures forall id :: id in products ==>
      Decremented(products, items)[id] == products[id].(stock := products[id].stock - QuantityFor(items, id))
  {
    if |items| > 0 {
      DecrementedAt(products, items[..|items| - 1]);
    }
  }

  /** One cancel update: `$inc` on the per-size counter of the item's size, when there is one. */
  function RestockOne(products: map<ProductId, StockRecord>, item: OrderItem): map<ProductId, StockRecord>
  {
    if item.product in products && item.size in products[item.product].sizeStock then
      var p := products[item.product];
      products[item.product := p.(sizeStock := p.sizeStock[item.size := p.sizeStock[item.size] + item.quantity])]
    else products
  }

  /** The inventory restore of cancel, item by item. */
  function Restocked(products: map<ProductId, StockRecord>, items: seq<OrderItem>): map<ProductId, StockRecord>
  {
    if |items| == 0 then products else RestockOne(Restocked(products, items[..|items| - 1]), items[|items| - 1])
  }

  /** Cancel's restore never changes a product's top-level `stock`, nor its sizes. */
  lemma {:induction false} RestockedKeepsStock(products: map<ProductId, StockRecord>, items: seq<OrderItem>)
    ensures Restocked(products, items).Keys == products.Keys
    ensures forall id :: id in products ==>
      Restocked(products, items)[id].stock == products[id].stock &&
      Restocked(products, items)[id].sizes == products[id].sizes
  {
    if |items| > 0 {
      RestockedKeepsStock(products, items[..|items| - 1]);
    }
  }

  /**
    As written, creating an order and then cancelling it leaves every product it
    names with less `stock` than before.
   */
  lemma CreateThenCancelLosesStock(products: map<ProductId, StockRecord>, items: seq<OrderItem>, id: ProductId)
    requires id in products && QuantityFor(items, id) > 0
    ensures var after := Restocked(Decremented(products, items), items);
      id in after && after[id].stock == products[id].stock - QuantityFor(items, id) < products[id].stock
  {
    DecrementedAt(products, items);
    RestockedKeepsStock(Decremented(products, items), items);
  }

  /** The intended restore: `$inc: { stock: quantity }`, the inverse of creation's decrement. */
  function RestockOneCorrected(products: map<ProductId, StockRecord>, item: OrderItem): map<ProductId, StockRecord>
  {
    if item.product in products
    then products[item.product := products[item.product].(stock := products[item.product].stock + item.quantity)]
    else products
  }

  function RestockedCorrected(products: map<ProductId, StockRecord>, items: seq<OrderItem>): map<ProductId, StockRecord>
  {
    if |items| == 0 then products else RestockOneCorrected(RestockedCorrected(products, items[..|items| - 1]), items[|items| - 1])
  }

  lemma {:induction false} RestockedCorrectedAt(products: map<ProductId, StockRecord>, items: seq<OrderItem>)
    ensures RestockedCorrected(products, items).Keys == products.Keys
    ensures forall id :: id in products ==>
      RestockedCorrected(products, items)[id] == products[id].(stock := products[id].stock + QuantityFor(items, id))
  {
    if |items| > 0 {
      RestockedCorrectedAt(products, items[..|items| - 1]);
    }
  }

  /** With the intended restore, cancelling a created order gives back exactly the inventory before it. */
  lemma RestockRoundTrip(products: map<ProductId, StockRecord>, items: seq<OrderItem>)
    ensures RestockedCorrected(Decremented(products, items), items) == products
  {
    var d := Decremented(products, items);
    DecrementedAt(products, items);
    RestockedCorrectedAt(d, items);
    var r := RestockedCorrected(d, items);
    assert r.Keys == products.Keys;
    forall id | id in products
      ensures r[id] == products[id]
    {
    }
  }

  /**
    As written, each item is checked against the stock read before any decrement, so
    two lines for one product with stock 1 both pass and the stock ends at -1.
   */
  lemma DuplicateLinesOversell()
    ensures var products := map[7 := StockRecord(["M"], 1, map[])];
      var line := OrderItem(7, "Tee", "tee.jpg", "M", "Black", 1, 500);
      FirstFailure(products, [line, line]).None? &&
      7 in Decremented(products, [line, line]) && Decremented(products, [line, line])[7].stock == -1
  {
    var products := map[7 := StockRecord(["M"], 1, map[])];
    var line := OrderItem(7, "Tee", "tee.jpg", "M", "Black", 1, 500);
    assert CheckItem(products, line).None?;
    assert [line, line][1..] == [line];
    DecrementedAt(products, [line, line]);
    assert [line, line][..1] == [line];
    assert [line][..0] == [];
    assert QuantityFor([line], 7) == 1;
    assert QuantityFor([line, line], 7) == 2;
  }

  /** The intended check: each product's summed quantity against its stock. */
  predicate AggregateAvailable(products: map<ProductId, StockRecord>, items: seq<OrderItem>)
  {
    forall id :: id in products ==> QuantityFor(items, id) <= products[id].stock
  }

  /** When the summed check passes, no product's stock goes negative. */
  lemma AggregateCheckKeepsStock(products: map<ProductId, StockRecord>, items: seq<OrderItem>)
    requires AggregateAvailable(products, items)
    requires forall id :: id in products ==> products[id].stock >= 0
    ensures forall id :: id in Decremented(products, items) ==> Decremented(products, items)[id].stock >= 0
  {
    DecrementedAt(products, items);
  }

  /** The stored products, updated in place by creation and cancel. */
  class ProductCollection {
    var products: map<ProductId, StockRecord>

    constructor (products: map<ProductId, StockRecord>)
      ensures this.products == products
    {
      this.products := products;
    }

    /** `findByIdAndUpdate(id, { $inc: { stock: -quantity } })` */
    method DecrementStock(item: OrderItem)
      modifies this
      ensures products == DecrementOne(old(products), item)
    {
      if item.product in products {
        var p := products[item.product];
        products := products[item.product := p.(stock := p.stock - item.quantity)];
      }
    }

    /** `findByIdAndUpdate(id, { $inc: { 'sizes.$[elem].stock': quantity } }, { arrayFilters: [{ 'elem.size': size }] })` */
    method RestockSize(item: OrderItem)
      modifies this
      ensures products == RestockOne(old(products), item)
    {
      if item.product in products && item.size in products[item.product].sizeStock {
        var p := products[item.product];
        products := products[item.product := p.(sizeStock := p.sizeStock[item.size := p.sizeStock[item.size] + item.quantity])];
      }
    }
  }

  datatype CreateOutcome =
    | EmptyOrder                                    // 400: no items
    | ItemRefused(index: nat, problem: ItemProblem) // 400: the first failing item
    | Created(order: Order)                         // 201

  /**
    `POST /api/orders`. Missing or empty items are refused; otherwise every item is
    checked, and only when all pass are the stock decrements issued and the order
    created and saved. A refusal leaves every product as it was.
   */
  method CreateOrder(store: ProductCollection, caller: UserId, items: Option<seq<OrderItem>>,
                     paymentStatus: Option<PaymentStatus>, subtotal: int, tax: Option<int>, shippingCost: Option<int>,
                     now: nat, stamp: string)
    returns (r: CreateOutcome)
    modifies store
    ensures r.EmptyOrder? <==> items.None? || |items.value| == 0
    ensures r.ItemRefused? ==> items.Some? && FirstFailure(old(store.products), items.value) == Some((r.index, r.problem))
    ensures r.Created? <==> items.Some? && |items.value| > 0 && FirstFailure(old(store.products), items.value).None?
    ensures !r.Created? ==> store.products == old(store.products)
    ensures r.Created? ==> store.products == Decremented(old(store.products), items.value)
    ensures r.Created? ==> fresh(r.order) && r.order.user == caller && r.order.items == items.value
    ensures r.Created? ==> r.order.status == Pending && Text.StartsWith(r.order.orderNumber, "DN-")
    ensures r.Created? ==> r.order.total == subtotal + tax.GetOr(0) + shippingCost.GetOr(0)
    ensures r.Created? ==> r.order.isPaid == (paymentStatus == Some(PaymentCompleted)) && !r.order.isDelivered
  {
    if items.None? || |items.value| == 0 {
      return EmptyOrder;
    }
    var lines := items.value;
    var i := 0;
    while i < |lines|
      invariant 0 <= i <= |lines|
      invariant forall j :: 0 <= j < i ==> CheckItem(store.products, lines[j]).None?
    {
      var item := lines[i];
      if item.product !in store.products {
        return ItemRefused(i, ProductNotFound);
      }
      if item.size !in store.products[item.product].sizes {
        return ItemRefused(i, SizeNotAvailable);
      }
      if store.products[item.product].stock < item.quantity {
        return ItemRefused(i, InsufficientStock);
      }
      i := i + 1;
    }
    i := 0;
    while i < |lines|
      invariant 0 <= i <= |lines|
      invariant store.products == Decremented(old(store.products), lines[..i])
    {
      assert lines[..i + 1][..i] == lines[..i];
      store.DecrementStock(lines[i]);
      i := i + 1;
    }
    assert lines[..|lines|] == lines;
    var order := new Order(caller, lines, paymentStatus, subtotal, tax, shippingCost);
    order.Save(now, stamp);
    return Created(order);
  }

  /** `GET /api/orders/:id`: 404 for a missing order, 403 unless the caller owns it or is an admin. */
  method ReadOrder(order: Order?, caller: UserId, role: Role) returns (code: int)
    ensures code == 200 <==> order != null && (order.user == caller || role == Admin)
    ensures code == 404 <==> order == null
    ensures code == 200 || code == 403 || code == 404
  {
    if order == null {
      return 404;
    }
    if order.user != caller && role != Admin {
      return 403;
    }
    return 200;
  }

  /**
    `PUT /api/orders/:id/status` (admin). Any status of the enum is set, with no
    transition check (see `Order.ApplyStatusUpdate`). A name outside the enum fails the
    save's validation, and the stored order stays as it was.
   */
  method UpdateOrderStatus(order: Order?, status: string, trackingNumber: string, estimatedDelivery: Option<nat>,
                           notes: string, now: nat, stamp: string)
    returns (code: int)
    modifies order
    ensures order == null ==> code == 404
    ensures order != null && ParseStatus(status).None? ==> code == 500 && unchanged(order)
    ensures order != null && ParseStatus(status).Some? ==> code == 200 && order.status == ParseStatus(status).value
    ensures code == 200 ==> order != null && order.Hooked() == AfterSave(old(order.Hooked()).(status := order.status), now, stamp)
  {
    if order == null {
      return 404;
    }
    var parsed := ParseStatus(status);
    if parsed.None? {
      return 500;
    }
    order.ApplyStatusUpdate(parsed.value, trackingNumber, estimatedDelivery, notes, now, stamp);
    return 200;
  }

  /** Cancellation is open from these statuses only. */
  predicate Cancellable(s: OrderStatus)
  {
    s == Pending || s == Processing
  }

  /**
    `PUT /api/orders/:id/cancel`: 404 for a missing order, 403 for anyone but the owner
    (admins included), 400 unless pending or processing. Otherwise the per-size
    counters are restored item by item, and the order is saved as cancelled.
   */
  method CancelOrder(order: Order?, caller: UserId, store: ProductCollection, now: nat, stamp: string)
    returns (code: int)
    modifies order, store
    ensures order == null ==> code == 404
    ensures order != null && old(order.user) != caller ==> code == 403
    ensures order != null && old(order.user) == caller && !Cancellable(old(order.status)) ==> code == 400
    ensures code == 200 <==> order != null && old(order.user) == caller && Cancellable(old(order.status))
    ensures code != 200 ==> store.products == old(store.products)
    ensures code != 200 && order != null ==> unchanged(order)
    ensures code == 200 ==> store.products == Restocked(old(store.products), old(order.items))
    ensures code == 200 ==> order.status == Cancelled && order.items == old(order.items)
    ensures code == 200 ==> order.Hooked() == AfterSave(old(order.Hooked()).(status := Cancelled), now, stamp)
  {
    if order == null {
      return 404;
    }
    if order.user != caller {
      return 403;
    }
    if !Cancellable(order.status) {
      return 400;
    }
    var lines := order.items;
    var i := 0;
    while i < |lines|
      invariant 0 <= i <= |lines|
      invariant store.products == Restocked(old(store.products), lines[..i])
      invariant order.Hooked() == old(order.Hooked()) && order.items == lines
    {
      assert lines[..i + 1][..i] == lines[..i];
      store.RestockSize(lines[i]);
      i := i + 1;
    }
    assert lines[..|lines|] == lines;
    order.status := Cancelled;
    order.Save(now, stamp);
    return 200;
  }

  /** What the list endpoint needs of a stored order. */
  datatype OrderRow = OrderRow(user: UserId, status: string)

  /** The list query: the caller's orders, and only those with `status` when one is given. */
  function OwnOrders(rows: seq<OrderRow>, caller: UserId, status: string): (r: seq<OrderRow>)
    ensures forall i :: 0 <= i < |r| ==> r[i].user == caller && (status != "" ==> r[i].status == status)
    ensures |r| <= |rows|
  {
    if |rows| == 0 then []
    else
      var rest := OwnOrders(rows[1..], caller, status);
      if rows[0].user == caller && (status == "" || rows[0].status == status) then [rows[0]] + rest else rest
  }

  /** Every matching order of the caller is listed: the filter drops nothing it should keep. */
  lemma {:induction false} OwnOrdersComplete(rows: seq<OrderRow>, caller: UserId, status: string, i: nat)
    requires i < |rows| && rows[i].user == caller && (status == "" || rows[i].status == status)
    ensures rows[i] in OwnOrders(rows, caller, status)
  {
    if i > 0 {
      OwnOrdersComplete(rows[1..], caller, status, i - 1);
    }
  }

  /**
    `GET /api/orders`: the caller's orders matching the status filter, paged with a
    default limit of 10. Every listed order is the caller's own.
   */
  function ListOrders(rows: seq<OrderRow>, caller: UserId, status: string, pageQuery: Option<int>,
                      limitQuery: Option<int>): (r: Option<(seq<OrderRow>, Pagination.PageInfo)>)
    ensures Pagination.OrDefault(limitQuery, 10) > 0 ==> (r.None? <==> Pagination.OrDefault(pageQuery, 1) < 1)
    ensures r.Some? ==> r.value.1.total == |OwnOrders(rows, caller, status)| && r.value.1.limit != 0
    ensures r.Some? ==> forall i :: 0 <= i < |r.value.0| ==> r.value.0[i].user == caller
    ensures r == Pagination.Paginate(OwnOrders(rows, caller, status), pageQuery, limitQuery, 10)
  {
    var own := OwnOrders(rows, caller, status);
    var r := Pagination.Paginate(own, pageQuery, limitQuery, 10);
    assert r.Some? ==> forall i :: 0 <= i < |r.value.0| ==> r.value.0[i] in own;
    r
  }
}
