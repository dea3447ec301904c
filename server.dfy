/**
 * The order service: product lookup over the products file, and the checkout handler that
 * validates a request, numbers the new order and appends it to the orders file.
 */
module Server {
  import opened Wrappers
  import opened Seqs
  import opened Shop

  /** An HTTP answer: a 200 with a body, or an error status with the `error` message. */
  datatype Reply<T> = Ok(body: T) | Error(status: int, message: string)

  /** What the request body holds under `items`: nothing (or a falsy value), something not an array, or an array. */
  datatype ItemsField = NoItems | NotAList | Items(items: seq<CartLine>)

  /** The checkout request body; a `total` of `None` stands for an absent or null total. */
  datatype CheckoutBody = CheckoutBody(items: ItemsField, total: Option<int>, customer: Option<Customer>)

  /** A stored order; orders read back from the file may lack an id. */
  datatype Order = Order(id: Option<int>, createdAt: string, items: seq<CartLine>, total: int, customer: Customer)

  /** The products file read as JSON, `None` when it is missing or does not parse: `products || []`. */
  function AllProducts(file: Option<seq<Product>>): seq<Product>
  {
    if file.Some? then file.value else []
  }

  /** `GET /api/products/:id`: the first product with that id, or a 404. */
  function ProductById(file: Option<seq<Product>>, id: int): (r: Reply<Product>)
    ensures r.Ok? <==> exists k :: 0 <= k < |AllProducts(file)| && AllProducts(file)[k].id == id
    ensures r.Ok? ==> exists k :: 0 <= k < |AllProducts(file)| && AllProducts(file)[k] == r.body && r.body.id == id
                        && forall j :: 0 <= j < k ==> AllProducts(file)[j].id != id
    ensures r.Error? ==> r == Error(404, "Product not found")
  {
    var products := AllProducts(file);
    match FindIndex(products, ProductWithId(id))
    case Some(k) =>
      assert ProductWithId(id)(products[k]);
      Ok(products[k])
    case None =>
      assert forall k :: 0 <= k < |products| ==> !ProductWithId(id)(products[k]);
      Error(404, "Product not found")
  }

  /** A missing or unreadable products file reads as an empty catalog: every lookup is a 404. */
  lemma UnreadableProductsFile(id: int)
    ensures AllProducts(None) == []
    ensures ProductById(None, id) == Error(404, "Product not found")
  {
  }

  /** The checkout validation: a body whose `items` is a non-empty array, whose items are then taken as sent. */
  function ValidItems(body: Option<CheckoutBody>): (r: Option<seq<CartLine>>)
    ensures r.Some? <==> body.Some? && body.value.items.Items? && |body.value.items.items| > 0
    ensures r.Some? ==> r.value == body.value.items.items
  {
    match body
    case None => None
    case Some(b) =>
      match b.items
      case Items(items) => if |items| == 0 then None else Some(items)
      case _ => None
  }

  /** `o.id || 0` */
  function IdOrZero(o: Order): int
  {
    if o.id.Some? then o.id.value else 0
  }

  /** The new order's id: one more than the largest existing id (a missing id counting as 0), or 1. */
  function NextId(orders: seq<Order>): (r: int)
    ensures forall k :: 0 <= k < |orders| ==> IdOrZero(orders[k]) < r
    ensures |orders| == 0 ==> r == 1
    ensures |orders| > 0 ==> exists k :: 0 <= k < |orders| && IdOrZero(orders[k]) + 1 == r
  {
    if |orders| == 0 then 0 + 1
    else
      var ids := seq(|orders|, k requires 0 <= k < |orders| => IdOrZero(orders[k]));
      assert forall k :: 0 <= k < |orders| ==> ids[k] == IdOrZero(orders[k]);
      Max(ids) + 1
  }

  /** `order.total || sum`: a non-zero total as sent, otherwise the items' price total. */
  function StoredTotal(total: Option<int>, items: seq<CartLine>): int
  {
    if total.Some? && total.value != 0 then total.value else TotalPrice(items)
  }

  /** The order record built for an accepted request. */
  function NewOrder(id: int, createdAt: string, body: CheckoutBody, items: seq<CartLine>): Order
  {
    Order(Some(id), createdAt, items, StoredTotal(body.total, items),
          if body.customer.Some? then body.customer.value else map[])
  }

  /**
   * The order record keeps the items as received and the client's total unless it is falsy;
   * a missing customer becomes the empty record `{}`.
   */
  lemma NewOrderFields(id: int, createdAt: string, body: CheckoutBody, items: seq<CartLine>)
    ensures var o := NewOrder(id, createdAt, body, items);
      && o.id == Some(id) && o.createdAt == createdAt && o.items == items
      && (body.total.Some? && body.total.value != 0 ==> o.total == body.total.value)
      && (body.total.None? || body.total.value == 0 ==> o.total == TotalPrice(items))
      && (body.customer.Some? ==> o.customer == body.customer.value)
      && (body.customer.None? ==> o.customer == map[])
  {
  }

  /** The orders file read as JSON, `None` when it is missing or does not parse: `orders || []`. */
  function AllOrders(file: Option<seq<Order>>): seq<Order>
  {
    if file.Some? then file.value else []
  }

  /** A missing or unreadable orders file reads as no orders, so the first order gets id 1. */
  lemma UnreadableOrdersFile()
    ensures AllOrders(None) == [] && NextId(AllOrders(None)) == 1
  {
  }

  /** Ids increase along the file, as they do when every order came from this handler. */
  ghost predicate IdsIncrease(orders: seq<Order>)
  {
    forall i, j :: 0 <= i < j < |orders| ==> IdOrZero(orders[i]) < IdOrZero(orders[j])
  }

  /** Appending the new order keeps the ids increasing, so no id is ever handed out twice. */
  lemma AppendKeepsIdsIncreasing(orders: seq<Order>, createdAt: string, body: CheckoutBody, items: seq<CartLine>)
    requires IdsIncrease(orders)
    ensures IdsIncrease(orders + [NewOrder(NextId(orders), createdAt, body, items)])
  {
    var all := orders + [NewOrder(NextId(orders), createdAt, body, items)];
    forall i, j | 0 <= i < j < |all| ensures IdOrZero(all[i]) < IdOrZero(all[j]) {
      if j == |orders| {
        assert all[i] == orders[i];
      }
    }
  }

  /** When ids increase, the next id is simply the last order's id plus one. */
  lemma NextIdFollowsLast(orders: seq<Order>)
    requires IdsIncrease(orders) && |orders| > 0
    ensures NextId(orders) == IdOrZero(orders[|orders| - 1]) + 1
  {
    var k :| 0 <= k < |orders| && IdOrZero(orders[k]) + 1 == NextId(orders);
    if k < |orders| - 1 {
      assert IdOrZero(orders[k]) < IdOrZero(orders[|orders| - 1]);
    }
  }

  /** An explicit total of 0 is falsy, so the items' total is stored instead. */
  lemma ZeroTotalFallsBack(items: seq<CartLine>)
    ensures StoredTotal(Some(0), items) == TotalPrice(items) && StoredTotal(None, items) == TotalPrice(items)
  {
  }

  /** The total the client computes is what the server stores, whichever branch it takes. */
  lemma ClientTotalIsStored(cart: seq<CartLine>)
    ensures StoredTotal(Some(TotalPrice(cart)), cart) == TotalPrice(cart)
  {
  }

  /** Items at 100 x 2 and 50 x 1 store 250 without a total, and 999 when 999 is sent. */
  lemma StoredTotalExample()
    ensures var items := [CartLine(1, "", 100, "", 2), CartLine(2, "", 50, "", 1)];
      StoredTotal(None, items) == 250 && StoredTotal(Some(999), items) == 999
  {
    var items := [CartLine(1, "", 100, "", 2), CartLine(2, "", 50, "", 1)];
    assert items[..|items| - 1] == [items[0]];
    assert [items[0]][..0] == [];
    assert Sum([items[0]], LineTotal) == 200;
  }

  /** The orders file, kept as a whole and rewritten as a whole. */
  class OrderStore {
    var ordersFile: Option<seq<Order>>

    constructor (file: Option<seq<Order>>)
      ensures ordersFile == file
    {
      ordersFile := file;
    }

    /**
     * `POST /api/checkout`: `createdAt` is the server's clock, `writeSucceeds` whether the
     * rewrite of the file goes through. An accepted order is appended after every existing one.
     */
    method Checkout(body: Option<CheckoutBody>, createdAt: string, writeSucceeds: bool) returns (reply: Reply<int>)
      modifies this
      ensures ValidItems(body).None? ==> reply == Error(400, "Order must include items") && ordersFile == old(ordersFile)
      ensures ValidItems(body).Some? && !writeSucceeds ==> reply == Error(500, "Failed to save order") && ordersFile == old(ordersFile)
      ensures ValidItems(body).Some? && writeSucceeds ==>
        var prior := AllOrders(old(ordersFile));
        var id := NextId(prior);
        && reply == Ok(id)
        && ordersFile == Some(prior + [NewOrder(id, createdAt, body.value, body.value.items.items)])
    {
      var items := ValidItems(body);
      if items.None? {
        return Error(400, "Order must include items");
      }
      var orders := AllOrders(ordersFile);
      var nextId := NextId(orders);
      var newOrder := NewOrder(nextId, createdAt, body.value, items.value);
      orders := orders + [newOrder];
      if !writeSucceeds {
        return Error(500, "Failed to save order");
      }
      ordersFile := Some(orders);
      reply := Ok(newOrder.id.value);
    }
  }
}
