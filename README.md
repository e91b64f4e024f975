# CoinBased storefront: a Dafny model of its collection logic

CoinBased is a small web shop for cryptocurrencies. An Express service
(`app.js`) keeps three JSON files: the product catalog, a feedback log and a
loyal-customer log. Every request reads one file, transforms the array in it
and, for the POST endpoints, writes the whole array back. The browser keeps a
cart in local storage (`public/coin.js`, `public/cart.js`) and searches the
catalog by name (`public/index.js`).

This project models those transformations and proves what they promise:

- `wrappers.dfy`, `seqs.dfy`: `Option`/`Result`, and the array built-ins the code relies on:
  `find` (`Seqs.IndexOf`), `filter` (`Seqs.Filter`) and `splice(start, 1)`
  (`Seqs.SpliceOne`, with JavaScript's rules for negative and out-of-range starts).
  They are specified against an order-preserving subsequence relation (`Seqs.IsSubsequence`).
- `records.dfy`: products, cart items, customers, feedback, HTTP errors, and
  `QuantityOf`, the total quantity that cart lines ask for one id.
- `catalog.dfy`: lookup by id (404 when absent) and the price/category filter.
- `inventory.dfy`: the checkout rule and its effect on every product.
- `customers.dfy`: validation, id assignment and append of a loyal customer.
- `routes.dfy`: the order in which Express tries the catalog GET routes (see Findings).
- `app.dfy`: class `App.Server`. Its fields `products`, `feedbacks` and `customers` are the three files.
  Its methods are the handlers. GET handlers have no `modifies` clause, so they cannot change a file.
  `Checkout` copies the catalog into an array, lowers quantities in place line by line, and writes the array back.
- `cart_items.dfy`, `cart_client.dfy`: the merge-or-append rule of `addToCart`.
  Class `CartClient.LocalCart` holds the local-storage entry `'cart'` (`None` when absent).
  It has the fetch, add, render, remove, clear and checkout operations.
- `search.dfy`: the case-insensitive name search and the numbering of table rows.

Ids, quantities and prices are unbounded integers; strings are `seq<char>`.

## Model

| member | source | states |
|---|---|---|
| `Seqs.IndexOf` | app.js:150 | the position found is the first whose key equals the id; `None` exactly when no element has that key |
| `Seqs.Filter` | app.js:95-100 | the result is an order-preserving subsequence; every kept element passes the test; every element that passes is kept as often as it occurs |
| `Seqs.SpliceOne` | public/cart.js:77 | `splice(start, 1)` removes exactly the element at the (JavaScript-adjusted) start when it is inside the array; the others keep their order; otherwise nothing changes |
| `Catalog.FindProduct` | app.js:69-73 | success returns the first product with the requested id; failure (404 "Product not found") happens exactly when no product has that id |
| `Catalog.ByPrice` | app.js:94-97 | with a price given, only products priced at most that price remain, all of them, in order; without one the catalog passes through |
| `Catalog.ByCategory` | app.js:98-101 | with a non-empty category given, only products of exactly that category remain, all of them, in order; otherwise everything passes |
| `Catalog.FilterCatalog` | app.js:92-102 | the result is an order-preserving subsequence of the catalog; each product in it meets both conditions (AND); each qualifying product is kept with its multiplicity; with neither parameter the whole catalog is returned |
| `Inventory.Decrement` | app.js:150-153 | one cart line never changes the catalog's length |
| `Inventory.CheckoutAll` | app.js:149-154 | processing the cart line by line never changes the catalog's length |
| `Inventory.DecrementAt` | app.js:150-153 | one line lowers only the quantity of the first product with its id, by the line's quantity; every other product and field is untouched |
| `Inventory.CheckoutAt` | app.js:149-154 | after checkout each product keeps its place and all fields but quantity; the first product with id k has lost the sum of the quantities of all lines with id k; later duplicates lose nothing |
| `Inventory.CheckoutIgnoresUnknownIds` | app.js:150-153 | lines whose id no product has leave the catalog exactly as it was |
| `Inventory.CheckoutKeepsUnorderedStock` | app.js:149-154 | a product whose id no cart line names comes out unchanged |
| `Inventory.CheckoutCanGoNegative` | app.js:152 | no floor at zero: ordering more than the stock leaves a negative quantity |
| `Customers.Register` | app.js:182-200 | a request missing any of name, email, address (absent or empty) leaves the store unchanged; otherwise exactly one customer is appended, with id old length + 1 and the given fields, and earlier records stay as they were |
| `Customers.RegisterKeepsIdsSequential` | app.js:193 | if customer i has id i + 1 before a registration, that still holds after it |
| `Customers.RegisterAllKeepsIdsSequential` | app.js:176-203 | any series of registrations from a sequential store keeps ids sequential, so pairwise distinct, and adds one customer per complete request |
| `Routes.Dispatch` | app.js:47-107 | the handler chosen is the first registered route whose pattern matches the path; none when no pattern matches |
| `Routes.FilterUnreachableAsRegistered` | app.js:66-107 | with the routes in registration order, no path reaches the filter handler |
| `Routes.FilterPathGoesToLookup` | app.js:66-72 | `/products/filter` is handled as a lookup of the product with id "filter" |
| `Routes.ReorderedReachesFilter` | app.js:89-102 | with the filter route registered before `:id`, `/products/filter` reaches the filter handler |
| `Routes.ReorderedKeepsOtherPaths` | app.js:47-107 | reordering changes the handler of no other path |
| `Routes.ReorderedDispatch` | app.js:30-32 | under the reordered table `/products` lists, `/products/filter` filters, `/products/<x>` looks up, and nothing else is routed |
| `App.ParseId` | app.js:69 | a segment yields an id exactly when it is decimal digits with an optional leading minus, and then the id is their value; any other segment yields none (NaN, which matches no product) |
| `App.ParseIdDecimal` | public/index.js:65 | the decimal form of a nonnegative id, as a coin link writes it, parses back to that id on the server |
| `App.ParseIdRejectsFilter` | app.js:69 | the segment "filter" yields no id |
| `App.Server.constructor` | app.js:23-25 | the server starts from the given contents of the three files |
| `App.Server.GetProducts` | app.js:47-50 | the whole catalog is returned in file order, and no file changes |
| `App.Server.GetProduct` | app.js:66-73 | the product returned is in the catalog with the requested id; 404 exactly when no product has it; no file changes |
| `App.Server.GetFilteredProducts` | app.js:89-102 | the answer is the filtered catalog, and no file changes |
| `App.Server.Get` | app.js:47-107 | a GET on the catalog, routed with the filter route ahead of `:id`, answers each URL with its own handler |
| `App.Server.PostFeedback` | app.js:117-125 | the feedback log becomes old log ++ [body], the body is echoed, and the other files are unchanged |
| `App.Server.Checkout` | app.js:143-160 | the in-place loop leaves the catalog equal to `CheckoutAll` of the old catalog and the cart; it is rewritten even when no line matched; the answer is "Checkout successful" |
| `App.Server.PostCustomer` | app.js:176-205 | an incomplete request gets 400 and leaves the store unchanged; a complete one appends the customer with id old length + 1 and gets the welcome message |
| `CartItems.AddItem` | public/coin.js:79-89 | if the cart holds the coin, its length is unchanged, the first line with the coin's id gains the quantity, and every other line stays in place unchanged; otherwise a line {id, name, price, quantity} from the coin is appended at the end and nothing else changes |
| `CartItems.AddItemKeepsIdsUnique` | public/coin.js:79-89 | a cart whose ids are unique still has unique ids after an add |
| `CartItems.AddItemQuantity` | public/coin.js:80-88 | the total quantity for the coin's id grows by exactly the added quantity; totals of other ids are unchanged |
| `CartClient.LocalCart.constructor` | public/cart.js:29 | the cart starts from the given local-storage entry |
| `CartClient.LocalCart.FetchCartItems` | public/cart.js:28-34 | with nothing stored the cart is empty, otherwise it is the stored array (public/coin.js:64-70 is the same function) |
| `CartClient.LocalCart.AddToCart` | public/coin.js:77-90 | the stored cart becomes the merge-or-append of the fetched cart with the coin and quantity |
| `CartClient.LocalCart.RenderCartItems` | public/cart.js:39-69 | one row per cart line, in order, showing the line and wiring its Remove button with the line's own index |
| `CartClient.LocalCart.RemoveFromCart` | public/cart.js:75-80 | the stored cart becomes the fetched cart with `splice(index, 1)` applied |
| `CartClient.LocalCart.ClearCart` | public/cart.js:85-88 | the entry is removed, so the next fetch gives the empty cart |
| `CartClient.LocalCart.CheckoutCart` | public/cart.js:93-113 | the stored cart is the request body; the cart is cleared only after the server answered, and left unchanged when the request failed |
| `CartClient.RemoveRenderedLine` | public/cart.js:45-59 | a rendered Remove button passes an index inside the cart, and removing it yields `cart[..i] + cart[i+1..]` |
| `Search.Lower` | public/index.js:52 | the result has the same length and no upper-case ASCII letter; every other character is kept and each upper-case letter becomes its lower-case partner |
| `Search.LowerIsIdempotent` | public/index.js:52 | lower-casing an already lower-cased string changes nothing |
| `Search.SearchCoins` | public/index.js:50-53 | with no or empty query the coins are returned unchanged; otherwise the result is an order-preserving subsequence, every kept coin's lower-cased name contains the lower-cased query, and every such coin is kept as often as it occurs |
| `Search.SearchIgnoresQueryCase` | public/index.js:51-52 | a query and its lower-cased form find the same coins |
| `Search.LoadCoins` | public/index.js:50-60 | one row per coin of the search result, in order, numbered 1..n |

## Findings

| source | as written | input that shows it | evidently intended | confidence | as-written member | corrected member |
|---|---|---|---|---|---|---|
| app.js:66-107 | `/products/:id` is registered before `/products/filter`, and Express uses the first route that matches | `GET /products/filter?price=100` is handled by the `:id` handler; `parseInt("filter")` is NaN, so the answer is 404 "Product not found" | the filter endpoint listed in the file header (app.js:10) answers with the filtered catalog | high (Express's first-match routing); not executed | `Routes.FilterUnreachableAsRegistered` | `Routes.ReorderedReachesFilter` |

`Routes.FilterPathGoesToLookup` and `App.ParseIdRejectsFilter` exhibit the failing request. `App.Server.Get` routes with the reordered table (`Routes.ReorderedDispatch`).

## Left out

- File I/O (`fs.readFile`/`writeFile`), JSON parsing and serialising, Express's static serving and `listen`: the files are the fields of `App.Server`.
- The catch blocks that set status 500 without sending a body: response plumbing with no effect on the data.
- Lost updates between concurrent requests: each handler is modelled as one atomic step.
- `parseInt` leniency (leading spaces, `+`, trailing garbage such as "12abc", hex): `App.ParseId` accepts only an optional minus sign followed by decimal digits.
- JavaScript's comparison of a number with the string query parameter `price`: the parameter is taken as an already parsed integer; `None` stands for an absent or empty parameter. A non-numeric price, which makes every comparison false, is not modelled.
- Floating-point prices and market caps: modelled as integers.
- Non-string request fields (for example a numeric name): customer fields are optional strings; `None` or "" fail validation as JavaScript falsy values do.
- Express path details (case-insensitive matching, trailing slashes, empty segments, POST routes): paths are lists of segments and only the GET catalog routes are tabled.
- `localStorage`, `fetch`, `checkStatus` and DOM construction: the storage entry is a field, the fetch outcome of checkout is a parameter, and rendering produces row values.
- The "Added to cart!" message and form reset in `addToCart`, and the re-render after remove and clear.
- Unicode case mapping in `toLowerCase`: only ASCII letters are lower-cased.
- public/contact.js and public/loyal_customer.js: they only read form fields, post them and show the reply.
