/**
 * The client's cart as a value: the three changes the page makes to it (add a product,
 * set a line's quantity, remove a product) and the totals shown beside it.
 */
module Cart {
  import opened Wrappers
  import opened Seqs
  import opened Shop

  function LineWithId(id: int): CartLine -> bool
  {
    (l: CartLine) => l.id == id
  }

  function LineWithOtherId(id: int): CartLine -> bool
  {
    (l: CartLine) => l.id != id
  }

  function Quantity(l: CartLine): int
  {
    l.quantity
  }

  /** The badge count: the sum of the quantities. */
  function TotalCount(cart: seq<CartLine>): int
  {
    Sum(cart, Quantity)
  }

  /** No two lines of the cart are for the same product. */
  ghost predicate UniqueIds(cart: seq<CartLine>)
  {
    forall i, j :: 0 <= i < j < |cart| ==> cart[i].id != cart[j].id
  }

  ghost predicate PositiveQuantities(cart: seq<CartLine>)
  {
    forall k :: 0 <= k < |cart| ==> cart[k].quantity >= 1
  }

  /** The line added for a product: its id, name, price and image now, with the quantity. */
  function Snapshot(p: Product, qty: int): CartLine
  {
    CartLine(p.id, p.name, p.price, p.img, qty)
  }

  /**
   * `addToCartById(id, qty)`: an unknown product leaves the cart as it is; otherwise the first
   * line for the product grows by `qty`, or a new line for it is appended.
   */
  function AddById(cart: seq<CartLine>, products: seq<Product>, id: int, qty: int): (r: seq<CartLine>)
    ensures |cart| <= |r| <= |cart| + 1
    ensures forall k :: 0 <= k < |r| ==> r[k].id == id || (k < |cart| && r[k] == cart[k])
  {
    match FindIndex(products, ProductWithId(id))
    case None => cart
    case Some(j) =>
      assert ProductWithId(id)(products[j]);
      match FindIndex(cart, LineWithId(id))
      case Some(i) =>
        assert LineWithId(id)(cart[i]);
        cart[i := cart[i].(quantity := cart[i].quantity + qty)]
      case None => cart + [Snapshot(products[j], qty)]
  }

  /** `Math.max(1, Number(value) || 1)`: a missing or non-numeric entry (`None`) and 0 become 1. */
  function ClampQuantity(entry: Option<int>): (v: int)
    ensures v >= 1
    ensures entry.Some? && entry.value >= 1 ==> v == entry.value
    ensures (entry.None? || entry.value < 1) ==> v == 1
  {
    var n := if entry.None? || entry.value == 0 then 1 else entry.value;
    if n > 1 then n else 1
  }

  /** The quantity field's change handler: the first line for `id` takes the clamped quantity. */
  function SetQuantity(cart: seq<CartLine>, id: int, entry: Option<int>): (r: seq<CartLine>)
    ensures |r| == |cart|
    ensures forall k :: 0 <= k < |r| ==> r[k] == cart[k] || (cart[k].id == id && r[k] == cart[k].(quantity := ClampQuantity(entry)))
  {
    match FindIndex(cart, LineWithId(id))
    case None => cart
    case Some(i) =>
      assert LineWithId(id)(cart[i]);
      cart[i := cart[i].(quantity := ClampQuantity(entry))]
  }

  /** The remove button: `cart.filter(i => i.id !== id)`. */
  function RemoveById(cart: seq<CartLine>, id: int): (r: seq<CartLine>)
    ensures forall k :: 0 <= k < |r| ==> r[k].id != id && r[k] in cart
    ensures forall k :: 0 <= k < |cart| && cart[k].id != id ==> cart[k] in r
  {
    Filter(cart, LineWithOtherId(id))
  }

  // ---------------------------------------------------------------- adding

  /** Adding a product the catalog does not have changes nothing. */
  lemma AddByIdUnknownProduct(cart: seq<CartLine>, products: seq<Product>, id: int, qty: int)
    requires forall k :: 0 <= k < |products| ==> products[k].id != id
    ensures AddById(cart, products, id, qty) == cart
  {
  }

  /** Adding a product already in the cart raises that line's quantity by `qty`; nothing else changes. */
  lemma AddByIdExistingLine(cart: seq<CartLine>, products: seq<Product>, id: int, qty: int, i: nat)
    requires exists k :: 0 <= k < |products| && products[k].id == id
    requires i < |cart| && cart[i].id == id
    requires forall k :: 0 <= k < i ==> cart[k].id != id
    ensures var r := AddById(cart, products, id, qty);
      && |r| == |cart|
      && r[i] == cart[i].(quantity := cart[i].quantity + qty)
      && (forall k :: 0 <= k < |cart| && k != i ==> r[k] == cart[k])
  {
    var k :| 0 <= k < |products| && products[k].id == id;
    assert ProductWithId(id)(products[k]);
    assert LineWithId(id)(cart[i]);
    var line := FindIndex(cart, LineWithId(id));
    assert line == Some(i);
  }

  /** Adding a product not yet in the cart appends one line with the first matching product's snapshot. */
  lemma AddByIdNewLine(cart: seq<CartLine>, products: seq<Product>, id: int, qty: int, j: nat)
    requires j < |products| && products[j].id == id
    requires forall k :: 0 <= k < j ==> products[k].id != id
    requires forall k :: 0 <= k < |cart| ==> cart[k].id != id
    ensures AddById(cart, products, id, qty) == cart + [Snapshot(products[j], qty)]
  {
    assert ProductWithId(id)(products[j]);
    var found := FindIndex(products, ProductWithId(id));
    assert FindIndex(products, ProductWithId(id)) == Some(j);
  }

  /** Adding never creates a second line for a product. */
  lemma AddByIdKeepsIdsUnique(cart: seq<CartLine>, products: seq<Product>, id: int, qty: int)
    requires UniqueIds(cart)
    ensures UniqueIds(AddById(cart, products, id, qty))
  {
    var found := FindIndex(products, ProductWithId(id));
    if found.Some? {
      assert ProductWithId(id)(products[found.value]);
      var line := FindIndex(cart, LineWithId(id));
      if line.None? {
        var r := cart + [Snapshot(products[found.value], qty)];
        forall i, j | 0 <= i < j < |r| ensures r[i].id != r[j].id {
          if j == |cart| {
            assert !LineWithId(id)(cart[i]);
          }
        }
      }
    }
  }

  /** Raising one line's quantity by `qty` raises the count by `qty` and the price by `qty` times its price. */
  lemma {:induction false} RaiseLineTotals(cart: seq<CartLine>, i: nat, qty: int)
    requires i < |cart|
    ensures var r := cart[i := cart[i].(quantity := cart[i].quantity + qty)];
      TotalCount(r) == TotalCount(cart) + qty && TotalPrice(r) == TotalPrice(cart) + qty * cart[i].price
  {
    var line := cart[i].(quantity := cart[i].quantity + qty);
    SumUpdate(cart, i, line, Quantity);
    SumUpdate(cart, i, line, LineTotal);
    assert LineTotal(line) == LineTotal(cart[i]) + qty * cart[i].price;
  }

  /** Appending a line adds its quantity to the count and its price times quantity to the price. */
  lemma {:induction false} AppendLineTotals(cart: seq<CartLine>, line: CartLine)
    ensures TotalCount(cart + [line]) == TotalCount(cart) + line.quantity
    ensures TotalPrice(cart + [line]) == TotalPrice(cart) + line.price * line.quantity
  {
    SumAppend(cart, [line], Quantity);
    SumAppend(cart, [line], LineTotal);
    assert [line][..0] == [];
  }

  /** Adding `qty` of a known product raises the count by `qty` and the price by `qty` times the line's price. */
  lemma {:induction false} AddByIdTotals(cart: seq<CartLine>, products: seq<Product>, id: int, qty: int)
    requires exists k :: 0 <= k < |products| && products[k].id == id
    ensures var r := AddById(cart, products, id, qty);
      && TotalCount(r) == TotalCount(cart) + qty
      && exists k :: 0 <= k < |r| && r[k].id == id && TotalPrice(r) == TotalPrice(cart) + qty * r[k].price
  {
    var k :| 0 <= k < |products| && products[k].id == id;
    assert ProductWithId(id)(products[k]);
    var j := FindIndex(products, ProductWithId(id)).value;
    var line := FindIndex(cart, LineWithId(id));
    if line.Some? {
      RaisedLineTotals(cart, products, id, qty, j, line.value);
    } else {
      AppendedLineTotals(cart, products, id, qty, j);
    }
  }

  lemma {:induction false} RaisedLineTotals(cart: seq<CartLine>, products: seq<Product>, id: int, qty: int, j: nat, i: nat)
    requires FindIndex(products, ProductWithId(id)) == Some(j)
    requires FindIndex(cart, LineWithId(id)) == Some(i)
    ensures var r := AddById(cart, products, id, qty);
      && TotalCount(r) == TotalCount(cart) + qty
      && i < |r| && r[i].id == id && TotalPrice(r) == TotalPrice(cart) + qty * r[i].price
  {
    var r := AddById(cart, products, id, qty);
    assert r == cart[i := cart[i].(quantity := cart[i].quantity + qty)];
    RaiseLineTotals(cart, i, qty);
    assert LineWithId(id)(cart[i]);
  }

  lemma {:induction false} AppendedLineTotals(cart: seq<CartLine>, products: seq<Product>, id: int, qty: int, j: nat)
    requires FindIndex(products, ProductWithId(id)) == Some(j)
    requires FindIndex(cart, LineWithId(id)) == None
    ensures var r := AddById(cart, products, id, qty);
      && TotalCount(r) == TotalCount(cart) + qty
      && |cart| < |r| && r[|cart|].id == id && TotalPrice(r) == TotalPrice(cart) + qty * r[|cart|].price
  {
    var r := AddById(cart, products, id, qty);
    var line := Snapshot(products[j], qty);
    assert ProductWithId(id)(products[j]);
    assert r == cart + [line];
    AppendLineTotals(cart, line);
    assert r[|cart|] == line;
  }

  /** Adding a positive quantity keeps every quantity positive. */
  lemma AddByIdKeepsQuantitiesPositive(cart: seq<CartLine>, products: seq<Product>, id: int, qty: int)
    requires PositiveQuantities(cart) && qty >= 1
    ensures PositiveQuantities(AddById(cart, products, id, qty))
  {
  }

  // ---------------------------------------------------------------- quantity

  /** Setting a quantity touches only the first line for `id`, which takes the clamped value, at least 1. */
  lemma SetQuantityEffect(cart: seq<CartLine>, id: int, entry: Option<int>)
    ensures var r := SetQuantity(cart, id, entry);
      && |r| == |cart|
      && ((forall k :: 0 <= k < |cart| ==> cart[k].id != id) ==> r == cart)
      && forall i :: 0 <= i < |cart| && cart[i].id == id && (forall k :: 0 <= k < i ==> cart[k].id != id) ==>
           r[i] == cart[i].(quantity := ClampQuantity(entry)) && r[i].quantity >= 1
           && forall k :: 0 <= k < |cart| && k != i ==> r[k] == cart[k]
  {
    var line := FindIndex(cart, LineWithId(id));
    if line.Some? {
      assert LineWithId(id)(cart[line.value]);
      forall i | 0 <= i < |cart| && cart[i].id == id && (forall k :: 0 <= k < i ==> cart[k].id != id)
        ensures i == line.value
      {
        assert LineWithId(id)(cart[i]);
      }
    } else {
      forall i | 0 <= i < |cart| ensures cart[i].id != id {
        assert !LineWithId(id)(cart[i]);
      }
    }
  }

  // ---------------------------------------------------------------- removing

  /** Removing works run by run: the lines kept stay in their order. */
  lemma RemoveByIdKeepsOrder(a: seq<CartLine>, b: seq<CartLine>, id: int)
    ensures RemoveById(a + b, id) == RemoveById(a, id) + RemoveById(b, id)
  {
    FilterAppend(a, b, LineWithOtherId(id));
  }

  /** Removing a product the cart does not hold changes nothing. */
  lemma RemoveByIdAbsent(cart: seq<CartLine>, id: int)
    requires forall k :: 0 <= k < |cart| ==> cart[k].id != id
    ensures RemoveById(cart, id) == cart
  {
    FilterAll(cart, LineWithOtherId(id));
  }

  /** With one line per product, removing a product drops exactly its line and lowers the totals by it. */
  lemma RemoveByIdOneLine(cart: seq<CartLine>, id: int, i: nat)
    requires UniqueIds(cart) && i < |cart| && cart[i].id == id
    ensures RemoveById(cart, id) == cart[..i] + cart[i + 1..]
    ensures TotalCount(RemoveById(cart, id)) == TotalCount(cart) - cart[i].quantity
    ensures TotalPrice(RemoveById(cart, id)) == TotalPrice(cart) - cart[i].price * cart[i].quantity
  {
    var keep := LineWithOtherId(id);
    forall k | 0 <= k < |cart| && k != i ensures keep(cart[k]) {
      if k < i { assert cart[k].id != cart[i].id; } else { assert cart[i].id != cart[k].id; }
    }
    FilterDropsOne(cart, i, keep);
    SumDropOne(cart, i, Quantity);
    SumDropOne(cart, i, LineTotal);
  }

  // ---------------------------------------------------------------- a session

  /** Adding 2 and then 3 of product 5 gives one line of 5; a quantity of 0 becomes 1; removing empties the cart. */
  lemma CartSessionExample(p: Product)
    requires p.id == 5
    ensures var once := AddById([], [p], 5, 2);
      var twice := AddById(once, [p], 5, 3);
      && twice == [Snapshot(p, 5)]
      && SetQuantity(twice, 5, Some(0)) == [Snapshot(p, 1)]
      && RemoveById(twice, 5) == []
  {
    AddByIdNewLine([], [p], 5, 2, 0);
    AddByIdExistingLine([Snapshot(p, 2)], [p], 5, 3, 0);
    SetQuantityEffect([Snapshot(p, 5)], 5, Some(0));
    RemoveByIdOneLine([Snapshot(p, 5)], 5, 0);
  }
}
