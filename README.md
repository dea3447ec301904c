# LocalShop in Dafny

This project models the decision logic of LocalShop, a small e-commerce demo, in Dafny. LocalShop has two parts:

- a browser client (`Front-end/app.js`) that shows a filtered product catalog, keeps a cart in local storage and submits orders;
- an Express back end (`Back-end/server.js`) that serves products from `products.json` and appends orders to `orders.json`.

The DOM, `fetch`, `localStorage`, the file system and the clock are not modelled as code. They become parameters and fields:

- The products the client fetched are passed to `Controller.ShowCatalog`.
- The reply to the checkout request is a `CheckoutReply` value: accepted with an id, rejected with an error text, or unreachable.
- The two prompt answers are `Option<string>`. `None` means the prompt was dismissed.
- Whether the rewrite of `orders.json` succeeds is a `bool`.
- The server's clock is a `createdAt` string.
- The JSON files are `Option<seq<…>>`. `None` stands for a file that is missing or does not parse.
- The local-storage cart key is a `StoredCart`: missing, unparsable, or saved lines.

Modules:

- `Wrappers`: `Option`.
- `Seqs`: the JavaScript array built-ins the code uses: `find`/`findIndex` (`FindIndex`), `filter` (`Filter`), the summing `reduce` (`Sum`, a left fold) and `Math.max(...)` (`Max`), with their algebra (append, update, single removal).
- `Strings`: `trim` (ECMAScript white space and line terminators), ASCII `toLowerCase`, and `includes` (`Contains`, proved equal to "occurs at some position").
- `Html`: `escapeHtml`, plus `Unescape`, the decoding a browser applies, as its inverse.
- `Shop`: the records shared by both sides (`Product`, `CartLine`, `Customer`) and the price total `TotalPrice`. The same reduce appears on the client (`renderCart`, `onCheckout`) and on the server (`order.items.reduce`).
- `Catalog`: the `applyFilters` predicate and the filtered view.
- `Cart`: the cart changes as functions on `seq<CartLine>` (add by id, set a quantity, remove by id), the totals, and their lemmas.
- `Storefront`: the client's checkout as two functions, one for the part before the `await` (`StartCheckout`) and one for the reply (`SettleCheckout`), and the class `Controller`. Its fields are the client's module-level state. Its methods perform the updates the page performs and are each proved against the functions above. Checkout is two methods, `BeginCheckout` and `FinishCheckout`, so other handlers can change the cart while an order is in flight, as they can in the page. `Valid()` states write-through persistence: reloading the saved cart gives back the cart in memory.
- `Server`: product lookup, checkout validation, order numbering and the stored total as functions. The class `OrderStore` holds the orders file, and its `Checkout` method appends one order and rewrites the file.

## Model

| member | source | states |
|---|---|---|
| `Seqs.FindIndex` | Front-end/app.js:143-145 | `find`: the result is the first position whose element passes the test; `None` exactly when no element passes |
| `Seqs.Filter` | Front-end/app.js:193 | `filter`: every element kept is from the input and passes the test; every input element that passes is kept; never longer than the input |
| `Seqs.Sum` | Front-end/app.js:154-155 | the summing `reduce`, a left fold from 0; its algebra is stated by `SumAppend` (a sum over a concatenation is the sum of the parts) and `SumUpdate` (replacing one element changes the sum by the difference) |
| `Seqs.Max` | Back-end/server.js:51 | `Math.max(...)` over a non-empty list is one of its elements and no element exceeds it |
| `Strings.TrimStart` | Front-end/app.js:121 | leading white space only is removed: the result is a suffix, everything cut was white space, the result does not start with white space |
| `Strings.TrimEnd` | Front-end/app.js:121 | trailing white space only is removed: the result is a prefix, everything cut was white space, the result does not end with white space |
| `Strings.Trim` | Front-end/app.js:121 | the result is a contiguous piece `s[i..j]` of the input; everything cut before `i` and after `j` is white space; the result neither starts nor ends with white space |
| `Strings.Lower` | Front-end/app.js:121 | lower-casing keeps the length and maps each character on its own, `A`-`Z` to `a`-`z` and every other character to itself |
| `Strings.Contains` | Front-end/app.js:124 | `includes`, tried from each position in turn; `ContainsAt` proves it means "occurs at some position" |
| `Strings.ContainsAt` | Front-end/app.js:124 | `includes` holds exactly when the query occurs at some position of the text |
| `Html.EscapeHtml` | Front-end/app.js:274-276 | the escaped text contains no `<`, `>`, `"` or `'` and is never shorter than the input |
| `Html.UnescapeEscapeHtml` | Front-end/app.js:274-276 | escaping loses nothing: decoding the five entities gives back the original text |
| `Html.UnescapeEntity` | Front-end/app.js:275 | each replacement in the table decodes back to the character it replaced |
| `Html.EscapeHtmlKeepsPlainText` | Front-end/app.js:275 | text without any of `& < > ' "` is returned unchanged |
| `Html.EscapeHtmlAppend` | Front-end/app.js:275 | escaping is character by character: it distributes over concatenation |
| `Shop.TotalPrice` | Front-end/app.js:155 | the price total, the sum of price times quantity over the lines, computed the same way by the client (app.js:227) and the server (server.js:56); `AppendLineTotals`, `RaiseLineTotals`, `RemoveByIdOneLine` and `ClientTotalIsStored` state its behaviour |
| `Catalog.Filtered` | Front-end/app.js:122-126 | the view holds only catalog products that pass both the category test and the search test, and holds every catalog product that passes them |
| `Catalog.InCategory` | Front-end/app.js:123 | the category test: "All", or the product's own category; `FilteredAllShowsEverything` and `FilteredExample` state its effect |
| `Catalog.InSearch` | Front-end/app.js:124 | the search test: an empty query, or the query inside the lower-cased name or description; `FilteredAllShowsEverything` and `FilteredExample` state its effect |
| `Catalog.ActiveCategory` | Front-end/app.js:120 | an empty category falls back to the active button's; `Controller.ApplyFilters` states its use |
| `Catalog.ActiveQuery` | Front-end/app.js:121 | an explicit query is used as given, a missing one is the trimmed, lower-cased search box; `Controller.ApplyFilters` and `Controller.OnCategory` state its use |
| `Catalog.FilteredMembership` | Front-end/app.js:122-126 | a product is shown if and only if it is in the catalog and passes both tests |
| `Catalog.FilteredKeepsOrder` | Front-end/app.js:122 | the view keeps catalog order: filtering a concatenation is the concatenation of the filtered parts |
| `Catalog.FilteredAllShowsEverything` | Front-end/app.js:123-124 | with category "All" and an empty query the view is the whole catalog, in order |
| `Catalog.NoMugWithoutM` | Front-end/app.js:124 | support for `FilteredExample` only: a text without the letter m in either case never matches the one query "mug" after lower-casing |
| `Catalog.FilteredExample` | Front-end/app.js:119-126 | with "Red Mug" (Kitchen) and "Blue Pen" (Stationery), the query "mug" under "All" shows only the mug, and "Stationery" with no query shows only the pen |
| `Cart.ClampQuantity` | Front-end/app.js:184 | the new quantity is at least 1; an entry of 1 or more is kept; a non-numeric, zero or negative entry becomes 1 |
| `Cart.TotalCount` | Front-end/app.js:154 | the badge count, the sum of the quantities; `AddByIdTotals`, `RaiseLineTotals`, `AppendLineTotals` and `RemoveByIdOneLine` state how each change moves it |
| `Cart.AddById` | Front-end/app.js:142-147 | adding grows the cart by at most one line, and every line either is for the added id or is the line that was there before; the `AddById` lemmas below give each case exactly |
| `Cart.SetQuantity` | Front-end/app.js:183-186 | the length never changes, and every line is either as before or a line for the id with the clamped quantity; `SetQuantityEffect` says which line |
| `Cart.RemoveById` | Front-end/app.js:193 | no line for the id remains; every other line is kept and nothing new appears |
| `Cart.AddByIdUnknownProduct` | Front-end/app.js:143-144 | adding an id the catalog does not have leaves the cart unchanged |
| `Cart.AddByIdExistingLine` | Front-end/app.js:145-146 | when the cart already has a line for the id, that first line's quantity grows by `qty`; the length and every other line stay the same |
| `Cart.AddByIdNewLine` | Front-end/app.js:145-147 | when no line has the id, exactly one line is appended: the first matching product's id, name, price and image with quantity `qty` |
| `Cart.AddByIdKeepsIdsUnique` | Front-end/app.js:145-147 | if the cart had at most one line per product before adding, it still has afterwards |
| `Cart.AddByIdKeepsQuantitiesPositive` | Front-end/app.js:146-147 | adding a positive quantity keeps every line's quantity positive |
| `Cart.RaiseLineTotals` | Front-end/app.js:154-155 | raising a line by `qty` raises the count by `qty` and the price total by `qty` times that line's price |
| `Cart.AppendLineTotals` | Front-end/app.js:154-155 | appending a line adds its quantity to the count and its price times quantity to the price total |
| `Cart.AddByIdTotals` | Front-end/app.js:142-155 | adding `qty` of a known product raises the count by `qty` and the price total by `qty` times the price on the product's line |
| `Cart.SetQuantityEffect` | Front-end/app.js:183-186 | the length never changes; with no line for the id the cart is unchanged; otherwise only the first line for the id changes, to the clamped quantity, which is at least 1 |
| `Cart.RemoveByIdKeepsOrder` | Front-end/app.js:193 | the remaining lines keep their order: removing from a concatenation removes from each part |
| `Cart.RemoveByIdAbsent` | Front-end/app.js:193 | removing an id that no line has leaves the cart unchanged |
| `Cart.RemoveByIdOneLine` | Front-end/app.js:193 | with one line per product, removing drops exactly that line and lowers both totals by its contribution |
| `Cart.CartSessionExample` | Front-end/app.js:142-193 | adding 2 and then 3 of product 5 gives one line of quantity 5; setting its quantity to 0 gives 1; removing product 5 empties the cart |
| `Storefront.LoadCart` | Front-end/app.js:131-135 | the saved lines, or an empty cart when the key is missing or does not parse; `Controller.Valid` and the constructor state its use |
| `Storefront.OrderPayload` | Front-end/app.js:225-229 | the order carries the cart as its items, the cart's price total, and a customer record with exactly the keys `name` and `phone` holding the two answers |
| `Storefront.FailureNotice` | Front-end/app.js:243-244 | the notice starts with "Checkout failed: " and goes on with the server's error text, or "unknown" when it is empty |
| `Storefront.StartCheckout` | Front-end/app.js:218-229 | an order is sent exactly when the cart is non-empty and both prompts were answered; an empty cart gives the empty-cart notice, a dismissed prompt stops silently; the order is the cart, its price total and `{name, phone}` |
| `Storefront.SettleCheckout` | Front-end/app.js:231-251 | applied to the cart as it is when the reply arrives: only an accepted reply empties it, and then the notice carries the order id; only an unreachable server stores the sent order as pending; a rejection keeps both and gives the failure notice |
| `Storefront.CheckoutFlowSteps` | Front-end/app.js:217-252 | an attempt with nothing in between is `StartCheckout` followed at once by `SettleCheckout` of the order it sent |
| `Storefront.AcceptedReplyDropsLaterLines` | Front-end/app.js:226-240 | a line added while an order is in flight is not in that order, and an accepted reply still empties the cart holding it |
| `Storefront.CheckoutFlow` | Front-end/app.js:217-252 | an empty cart sends nothing and changes nothing; a dismissed prompt ends as `Cancelled`, sends nothing and changes nothing; any request carries the cart and its price total; only an accepted reply empties the cart; a rejected reply keeps the cart and the pending order and gives "Checkout failed: " followed by the error, or "unknown"; only an unreachable server stores the request as the pending order |
| `Storefront.CheckoutSendsCart` | Front-end/app.js:225-229 | with a non-empty cart and both answers, the request is exactly the cart, its price total and `{name, phone}` |
| `Storefront.Controller.constructor` | Front-end/app.js:131-135 | the cart starts as the saved lines, or empty when the key is missing or does not parse |
| `Storefront.Controller.ShowCatalog` | Front-end/app.js:39-47 | after the products arrive, the view shows all of them regardless of the active filters |
| `Storefront.Controller.ApplyFilters` | Front-end/app.js:119-126 | the view becomes the filtered catalog; an empty category falls back to the active button's; a missing query falls back to the trimmed, lower-cased search box |
| `Storefront.Controller.OnSearch` | Front-end/app.js:106-109 | typing filters by the trimmed, lower-cased text within the active category |
| `Storefront.Controller.OnCategory` | Front-end/app.js:111-117 | pressing a category button makes it active and filters by it and the current search box |
| `Storefront.Controller.SaveCart` | Front-end/app.js:136-139 | the whole cart is written to storage, so a reload gives it back |
| `Storefront.Controller.AddToCartById` | Front-end/app.js:142-150 | reports whether the id is in the catalog; the cart becomes `AddById` of the old cart; storage is rewritten only when the product was found |
| `Storefront.Controller.ChangeQuantity` | Front-end/app.js:182-187 | the cart becomes `SetQuantity` of the old cart; storage is rewritten only when a line for the id exists |
| `Storefront.Controller.RemoveFromCart` | Front-end/app.js:191-195 | the cart becomes `RemoveById` of the old cart and is saved |
| `Storefront.Controller.BeginCheckout` | Front-end/app.js:217-233 | the start is `StartCheckout` of the cart as it is now; a sent order joins the orders in flight, and an order already in flight does not prevent sending another |
| `Storefront.Controller.FinishCheckout` | Front-end/app.js:234-251 | the reply to an order in flight settles it: the cart and the pending order become those of `SettleCheckout` of the cart as it is by then; the saved cart becomes empty exactly when the order was accepted |
| `Server.ProductById` | Back-end/server.js:34-40 | found exactly when some product has the id, and then it is the first such product; otherwise a 404 "Product not found" |
| `Server.UnreadableProductsFile` | Back-end/server.js:29-30 | a missing or unreadable products file reads as an empty list, so every lookup is a 404 |
| `Server.AllProducts` | Back-end/server.js:36-37 | the file's list, or empty when it is missing or does not parse; `UnreadableProductsFile` states the fallback |
| `Server.ValidItems` | Back-end/server.js:45-47 | a request passes exactly when the body is present and `items` is a non-empty array, and then its items are taken as sent |
| `Server.IdOrZero` | Back-end/server.js:51 | an order without an id counts as 0; `NextId` states its use |
| `Server.AllOrders` | Back-end/server.js:50 | the file's orders, or none when it is missing or does not parse; `UnreadableOrdersFile` states the fallback |
| `Server.UnreadableOrdersFile` | Back-end/server.js:50-51 | a missing or unreadable orders file reads as no orders, so the first order gets id 1 |
| `Server.NextId` | Back-end/server.js:51 | the new id is greater than every existing id (a missing id counting as 0); it is one more than some existing id, or 1 when there are no orders |
| `Server.NextIdFollowsLast` | Back-end/server.js:51 | when the ids increase along the file, the new id is the last order's id plus one |
| `Server.AppendKeepsIdsIncreasing` | Back-end/server.js:51-59 | appending the new order keeps the ids strictly increasing, so no id is handed out twice |
| `Server.StoredTotal` | Back-end/server.js:56 | a non-zero total as sent, otherwise the items' price total; `ZeroTotalFallsBack`, `ClientTotalIsStored`, `NewOrderFields` and `StoredTotalExample` state both branches |
| `Server.NewOrder` | Back-end/server.js:52-58 | the record of an accepted order; `NewOrderFields` states each field |
| `Server.NewOrderFields` | Back-end/server.js:52-58 | the new order has the given id and time, the items exactly as received, the client's total when it is non-zero and otherwise the items' price total, and the customer as sent or `{}` when missing |
| `Server.ZeroTotalFallsBack` | Back-end/server.js:56 | an explicit total of 0, or none, is falsy, so the stored total is the items' price total |
| `Server.ClientTotalIsStored` | Back-end/server.js:56 | the total the client sends is the total stored, whichever branch of the fallback is taken |
| `Server.StoredTotalExample` | Back-end/server.js:56 | items at 100×2 and 50×1 store 250 without a total and 999 when 999 is sent |
| `Server.OrderStore.Checkout` | Back-end/server.js:43-66 | an invalid body is a 400 and leaves the file alone; a failed write is a 500 and leaves the file alone; otherwise the file becomes the earlier orders unchanged plus one new order at the end, and the reply carries its id `NextId` |

## Left out

- Rendering, event wiring, the product modal, `toggleCart`, `flashCart` and the alerts are presentation. They are not modelled; the checkout notices are kept as `CheckoutOutcome` values.
- The demo-product fallback when fetching products fails is a fixed constant and is not modelled. `ShowCatalog` takes whatever list the client ends up with.
- Express routing, CORS, body parsing, `app.listen` and `GET /api/ping` (which only reports the clock) are not modelled.
- JSON reading and writing are not modelled as code. A file or key that is missing or does not parse is `None`, `Missing` or `Unparsable`. A saved cart is assumed to read back as written. On the server, a file that parses to `null` or to another falsy value (`false`, `0`, `""`) is also `None`: `products || []` and `orders || []` turn it into an empty list. A server file that parses to a truthy value other than an array (an object, a non-zero number, a non-empty string) is not modelled: `find`, `map` or `push` then throws, an unhandled error for a product lookup and a 500 at checkout. On the client, a cart key that parses to something other than an array, `null` included, is not modelled: `loadCart` returns it as the cart.
- A failed write of `orders.json` is assumed to leave the file as it was. A partial write is not modelled.
- The race between two concurrent checkouts is not modelled. Each request reads the orders file, computes `nextId` and writes the whole file back. Two requests can therefore get the same id, or one order can be lost. The model runs one request at a time.
- Prices, quantities, totals and ids are unbounded integers. JavaScript number semantics (fractions, `NaN` from malformed items, `toLocaleString`) are not modelled. A quantity entry is `Option<int>`, with `None` for a non-numeric entry.
- The server does not check the shape of order items. The model gives every item a numeric price and quantity. An item without them, which makes the server's sum `NaN` or throw, is not modelled.
- A request body's `total` is `Option<int>`: `None` for an absent or `null` total, and 0 is the only falsy number. The falsy JSON values `""` and `false` behave like 0 in the source and are not distinguished. A total that is truthy but not a number, such as a non-empty string, is stored as sent by the source; it is not modelled.
- Strings.Lower: lower-cases the ASCII letters only, not full Unicode `toLowerCase`.
- `escapeHtml` converts its argument with `String(str)`. The model takes a string; non-string arguments are not modelled.
- Cart.AddByIdKeepsQuantitiesPositive: holds only for a positive `qty`. `addToCartById` itself does not clamp `qty`. The modal's `Number(value) || 1` (outside this model) can pass a negative number through.
- Storefront.Controller.FinishCheckout, Storefront.SettleCheckout: the pending order stored when the server is unreachable is the order as it was sent. In the source the order's `items` is the `cart` array itself, and its lines are the cart's own objects. Quantity changes made while the request is in flight therefore show in the stored pending order, beside the total computed when it was sent. Lines added with `push` show too, but only until `cart` is reassigned: a removal replaces the array with a new one, and later additions no longer reach the order. That aliasing is not modelled; the other effects of changes made during the `await` are (`SettleCheckout` acts on the cart as it is when the reply arrives).
- `createdAt` is an opaque string supplied by the caller. Its ISO-8601 form is not checked.
