/**
 * The browser controller: the fetched catalog and its filtered view, the cart kept in memory
 * and written through to local storage on every change, and the checkout flow.
 */
module Storefront {
  import opened Wrappers
  import opened Seqs
  import opened Strings
  import opened Shop
  import opened Cart
  import Catalog

  /** What local storage holds under the cart key: nothing, text that does not parse, or saved lines. */
  datatype StoredCart = Missing | Unparsable | Saved(lines: seq<CartLine>)

  /** `loadCart`: the saved lines, or an empty cart when the key is absent or does not parse. */
  function LoadCart(stored: StoredCart): seq<CartLine>
  {
    if stored.Saved? then stored.lines else []
  }

  /** The body of the checkout request. */
  datatype Payload = Payload(items: seq<CartLine>, total: int, customer: Customer)

  /**
   * How the checkout request ends: an ok reply with the new order id, a reply that is not ok
   * with its `error` text ("" when absent), or a thrown error (no connection, or a reply body
   * that is not JSON).
   */
  datatype CheckoutReply = Accepted(orderId: int) | Rejected(error: string) | Unreachable

  /** The notice the user sees at the end of a checkout attempt. */
  datatype CheckoutOutcome =
    | EmptyCart
    | Cancelled
    | Placed(orderId: int)
    | Failed(message: string)
    | SavedOffline

  /** How a checkout attempt starts: refused with a notice, or an order sent to the server. */
  datatype CheckoutStart = Refused(notice: CheckoutOutcome) | Sent(order: Payload)

  /** How a sent order ends once its reply arrives: the notice, and the cart and pending order after it. */
  datatype Settled = Settled(outcome: CheckoutOutcome, cart: seq<CartLine>, pending: Option<Payload>)

  /** One uninterrupted checkout attempt: its notice, the request sent (if any), and the cart and pending order after it. */
  datatype CheckoutStep = CheckoutStep(outcome: CheckoutOutcome, request: Option<Payload>, cart: seq<CartLine>, pending: Option<Payload>)

  /** The order built from the cart and the two prompt answers; its total is the cart's price total. */
  function OrderPayload(cart: seq<CartLine>, name: string, phone: string): (r: Payload)
    ensures r.items == cart && r.total == TotalPrice(cart)
    ensures r.customer.Keys == {"name", "phone"} && r.customer["name"] == name && r.customer["phone"] == phone
  {
    Payload(cart, TotalPrice(cart), map["name" := name, "phone" := phone])
  }

  /** The notice for a reply that is not ok: `"Checkout failed: " + (data.error || "unknown")`. */
  function FailureNotice(error: string): (r: string)
    ensures |r| > |"Checkout failed: "| && r[..|"Checkout failed: "|] == "Checkout failed: "
    ensures error != [] ==> r[|"Checkout failed: "|..] == error
    ensures error == [] ==> r[|"Checkout failed: "|..] == "unknown"
  {
    "Checkout failed: " + (if error == [] then "unknown" else error)
  }

  /**
   * The part of `onCheckout` before the `await`: an empty cart or a dismissed prompt (`None`)
   * stops it; otherwise the order is built from the cart as it is now and sent.
   */
  function StartCheckout(cart: seq<CartLine>, name: Option<string>, phone: Option<string>): (r: CheckoutStart)
    ensures r.Sent? <==> cart != [] && name.Some? && phone.Some?
    ensures cart == [] ==> r == Refused(EmptyCart)
    ensures cart != [] && (name.None? || phone.None?) ==> r == Refused(Cancelled)
    ensures r.Sent? ==> r.order.items == cart && r.order.total == TotalPrice(cart)
                        && r.order.customer == map["name" := name.value, "phone" := phone.value]
  {
    if cart == [] then Refused(EmptyCart)
    else if name.None? || phone.None? then Refused(Cancelled)
    else Sent(OrderPayload(cart, name.value, phone.value))
  }

  /**
   * The part of `onCheckout` after the `await`, applied to the cart as it is when the reply
   * arrives: an accepted order empties that cart, whatever was added since the order was sent;
   * an unreachable server leaves the sent order pending; a rejection changes nothing.
   */
  function SettleCheckout(cart: seq<CartLine>, pending: Option<Payload>, order: Payload, reply: CheckoutReply): (r: Settled)
    ensures r.cart == (if reply.Accepted? then [] else cart)
    ensures r.pending == (if reply.Unreachable? then Some(order) else pending)
    ensures reply.Accepted? ==> r.outcome == Placed(reply.orderId)
    ensures reply.Rejected? ==> r.outcome == Failed(FailureNotice(reply.error))
    ensures reply.Unreachable? ==> r.outcome == SavedOffline
  {
    match reply
    case Accepted(id) => Settled(Placed(id), [], pending)
    case Rejected(error) => Settled(Failed(FailureNotice(error)), cart, pending)
    case Unreachable => Settled(SavedOffline, cart, Some(order))
  }

  /**
   * `onCheckout` when nothing else happens during the `await`: `name` and `phone` are the prompt
   * answers (`None` when a prompt is dismissed), `reply` how the request ends. Only an accepted
   * request empties the cart, and only an unreachable server leaves a pending order.
   */
  function CheckoutFlow(cart: seq<CartLine>, pending: Option<Payload>, name: Option<string>, phone: Option<string>, reply: CheckoutReply): (r: CheckoutStep)
    ensures cart == [] ==> r == CheckoutStep(EmptyCart, None, cart, pending)
    ensures cart != [] && (name.None? || phone.None?) ==> r == CheckoutStep(Cancelled, None, cart, pending)
    ensures r.request.None? ==> r.cart == cart && r.pending == pending
    ensures r.request.Some? ==> r.request.value.items == cart && r.request.value.total == TotalPrice(cart)
    ensures r.cart != cart ==> reply.Accepted? && r.cart == [] && r.outcome == Placed(reply.orderId)
    ensures r.pending != pending ==> reply.Unreachable? && r.pending == r.request
    ensures r.request.Some? && reply.Accepted? ==> r.cart == [] && r.outcome == Placed(reply.orderId)
    ensures r.request.Some? && reply.Unreachable? ==> r.cart == cart && r.pending == r.request
    ensures r.request.Some? && reply.Rejected? ==>
      && r.cart == cart && r.pending == pending
      && r.outcome == Failed("Checkout failed: " + (if reply.error == [] then "unknown" else reply.error))
  {
    if cart == [] then CheckoutStep(EmptyCart, None, cart, pending)
    else if name.None? || phone.None? then CheckoutStep(Cancelled, None, cart, pending)
    else
      var order := OrderPayload(cart, name.value, phone.value);
      match reply
      case Accepted(id) => CheckoutStep(Placed(id), Some(order), [], pending)
      case Rejected(error) => CheckoutStep(Failed(FailureNotice(error)), Some(order), cart, pending)
      case Unreachable => CheckoutStep(SavedOffline, Some(order), cart, Some(order))
  }

  /** An uninterrupted attempt is its start followed at once by the settling of the order it sent. */
  lemma CheckoutFlowSteps(cart: seq<CartLine>, pending: Option<Payload>, name: Option<string>, phone: Option<string>, reply: CheckoutReply)
    ensures var r := CheckoutFlow(cart, pending, name, phone, reply);
      match StartCheckout(cart, name, phone)
      case Refused(notice) => r == CheckoutStep(notice, None, cart, pending)
      case Sent(order) =>
        var s := SettleCheckout(cart, pending, order, reply);
        r == CheckoutStep(s.outcome, Some(order), s.cart, s.pending)
  {
  }

  /** A non-empty cart with both answers always sends exactly the cart, its total and the customer's answers. */
  lemma CheckoutSendsCart(cart: seq<CartLine>, pending: Option<Payload>, name: string, phone: string, reply: CheckoutReply)
    requires cart != []
    ensures var r := CheckoutFlow(cart, pending, Some(name), Some(phone), reply);
      r.request == Some(Payload(cart, TotalPrice(cart), map["name" := name, "phone" := phone]))
  {
  }

  /**
   * Lines added while an order is in flight are not part of it, yet an accepted reply empties
   * the cart they are in: they are neither ordered nor kept.
   */
  lemma AcceptedReplyDropsLaterLines(sent: seq<CartLine>, now: seq<CartLine>, pending: Option<Payload>,
                                     name: string, phone: string, id: int, l: CartLine)
    requires sent != [] && l in now && l !in sent
    ensures var start := StartCheckout(sent, Some(name), Some(phone));
      && start.Sent? && l !in start.order.items
      && l !in SettleCheckout(now, pending, start.order, Accepted(id)).cart
  {
  }

  class Controller {
    var products: seq<Product>
    var filtered: seq<Product>
    /** The category of the button marked active. */
    var activeCategory: string
    /** The text in the search box. */
    var searchBox: string
    var cart: seq<CartLine>
    /** Local storage under the cart key. */
    var storedCart: StoredCart
    /** Local storage under the pending-order key. */
    var pendingOrder: Option<Payload>
    /** The orders sent whose reply has not arrived yet. */
    ghost var inFlight: multiset<Payload>

    /** Write-through persistence: reloading the page would give back the cart in memory. */
    ghost predicate Valid()
      reads this
    {
      LoadCart(storedCart) == cart
    }

    /** Page start: the cart is loaded from storage; the catalog is still empty. */
    constructor (stored: StoredCart, pending: Option<Payload>, category: string)
      ensures Valid()
      ensures cart == LoadCart(stored) && storedCart == stored && pendingOrder == pending
      ensures products == [] && filtered == [] && activeCategory == category && searchBox == []
      ensures inFlight == multiset{}
    {
      products, filtered := [], [];
      activeCategory, searchBox := category, [];
      cart, storedCart, pendingOrder := LoadCart(stored), stored, pending;
      inFlight := multiset{};
    }

    /** `fetchProducts` once the list has arrived: every product is shown, whatever the filters say. */
    method ShowCatalog(fetched: seq<Product>)
      modifies this`products, this`filtered
      ensures products == fetched && filtered == fetched
    {
      products := fetched;
      filtered := products;
    }

    /** `applyFilters({category, query})`: missing criteria come from the active button and the search box. */
    method ApplyFilters(category: string, query: Option<string>)
      modifies this`filtered
      ensures filtered == Catalog.Filtered(products, Catalog.ActiveCategory(category, activeCategory), Catalog.ActiveQuery(query, searchBox))
    {
      var cat := Catalog.ActiveCategory(category, activeCategory);
      var q := Catalog.ActiveQuery(query, searchBox);
      filtered := Catalog.Filtered(products, cat, q);
    }

    /** `onSearch`: typing filters by the trimmed, lower-cased text within the active category. */
    method OnSearch(text: string)
      modifies this`searchBox, this`filtered
      ensures searchBox == text
      ensures filtered == Catalog.Filtered(products, activeCategory, Lower(Trim(text)))
    {
      searchBox := text;
      ApplyFilters([], Some(Lower(Trim(text))));
    }

    /** `onCategory`: the pressed button becomes active and the view is filtered by it and the search box. */
    method OnCategory(category: string)
      modifies this`activeCategory, this`filtered
      ensures activeCategory == category
      ensures filtered == Catalog.Filtered(products, category, Lower(Trim(searchBox)))
    {
      activeCategory := category;
      ApplyFilters(category, None);
    }

    /** `saveCart`: the whole cart is written to storage. */
    method SaveCart()
      modifies this`storedCart
      ensures storedCart == Saved(cart) && Valid()
    {
      storedCart := Saved(cart);
    }

    /** `addToCartById`: only a product of the catalog is added, and only then is the cart saved. */
    method AddToCartById(id: int, qty: int) returns (found: bool)
      requires Valid()
      modifies this`cart, this`storedCart
      ensures Valid()
      ensures found <==> exists k :: 0 <= k < |products| && products[k].id == id
      ensures cart == AddById(old(cart), products, id, qty)
      ensures storedCart == if found then Saved(cart) else old(storedCart)
    {
      var product := FindIndex(products, ProductWithId(id));
      if product.None? {
        found := false;
        return;
      }
      found := true;
      assert ProductWithId(id)(products[product.value]);
      var existing := FindIndex(cart, LineWithId(id));
      if existing.Some? {
        var i := existing.value;
        cart := cart[i := cart[i].(quantity := cart[i].quantity + qty)];
      } else {
        cart := cart + [Snapshot(products[product.value], qty)];
      }
      SaveCart();
    }

    /** The quantity field's change handler: the cart is saved only when a line for `id` exists. */
    method ChangeQuantity(id: int, entry: Option<int>)
      requires Valid()
      modifies this`cart, this`storedCart
      ensures Valid()
      ensures cart == SetQuantity(old(cart), id, entry)
      ensures storedCart == if exists k :: 0 <= k < |cart| && cart[k].id == id then Saved(cart) else old(storedCart)
    {
      var v := ClampQuantity(entry);
      var line := FindIndex(cart, LineWithId(id));
      if line.Some? {
        var i := line.value;
        assert LineWithId(id)(cart[i]);
        cart := cart[i := cart[i].(quantity := v)];
        SaveCart();
      }
    }

    /** The remove button's handler: every line for `id` goes, and the cart is saved. */
    method RemoveFromCart(id: int)
      requires Valid()
      modifies this`cart, this`storedCart
      ensures Valid()
      ensures cart == RemoveById(old(cart), id) && storedCart == Saved(cart)
    {
      cart := RemoveById(cart, id);
      SaveCart();
    }

    /**
     * `onCheckout` up to the `await`: with a non-empty cart and both answers the order is sent.
     * Nothing stops a second attempt while an earlier order is still in flight.
     */
    method BeginCheckout(name: Option<string>, phone: Option<string>) returns (start: CheckoutStart)
      modifies this`inFlight
      ensures start == StartCheckout(cart, name, phone)
      ensures inFlight == if start.Sent? then old(inFlight) + multiset{start.order} else old(inFlight)
    {
      if cart == [] {
        return Refused(EmptyCart);
      }
      if name.None? || phone.None? {
        return Refused(Cancelled);
      }
      var order := OrderPayload(cart, name.value, phone.value);
      inFlight := inFlight + multiset{order};
      start := Sent(order);
    }

    /**
     * `onCheckout` after the `await`, when the reply to `order` arrives: it acts on the cart as
     * it is by then, which the user may have changed since the order was sent.
     */
    method FinishCheckout(order: Payload, reply: CheckoutReply) returns (outcome: CheckoutOutcome)
      requires Valid() && order in inFlight
      modifies this`cart, this`storedCart, this`pendingOrder, this`inFlight
      ensures Valid()
      ensures inFlight == old(inFlight) - multiset{order}
      ensures var settled := SettleCheckout(old(cart), old(pendingOrder), order, reply);
        outcome == settled.outcome && cart == settled.cart && pendingOrder == settled.pending
      ensures storedCart == if reply.Accepted? then Saved([]) else old(storedCart)
    {
      inFlight := inFlight - multiset{order};
      match reply {
        case Accepted(id) =>
          outcome := Placed(id);
          cart := [];
          SaveCart();
        case Rejected(error) =>
          outcome := Failed(FailureNotice(error));
        case Unreachable =>
          outcome := SavedOffline;
          pendingOrder := Some(order);
      }
    }
  }
}
