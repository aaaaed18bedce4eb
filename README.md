# Cart backend: a verified model

This project models the backend core of a small shop. The shop's store has
products, one cart per user, and line items `(id, cartId, productId, quantity)`.
The model covers four parts:

- **The cart service** (`CartService`). It adds to a cart, removes a line,
  empties a cart and reads a cart. Adding raises the quantity of an existing
  `(cart, product)` line or inserts a new one. Removing deletes a line only
  when both its id and the caller's cart id match. After every operation the
  service rebuilds the cart aggregate. The aggregate is the cart's line items
  joined with their products' current name, price and image, plus
  `total = Σ price × quantity` and `itemCount = Σ quantity`.
- **The cart repository** (`CartRepository`). It fetches the cart of a user,
  or creates one when there is none. It also deletes all line items of one
  cart, and has a `saveCart` that does nothing.
- **The cart controller** (`CartController`). It resolves the caller's user
  id from the `x-user-id` header, falling back to `"guest"`. It validates the
  add-to-cart body: `productId` must be a string and `quantity` an integer of
  at least 1. It maps each service outcome to an HTTP status (200, 201, 400,
  404 or 500) and a JSON body.
- **The product controller** (`ProductController`). It maps product lookups
  to 200, 404 or 500. For product creation it rejects a falsy name,
  description or price with 400. It turns a falsy `priceSale` into null, and
  replaces a falsy `imageUrl` with `https://picsum.photos/400/300?random=<now>`.

The store is the class `Store.Db`. Its fields are:

- the product table (a map from product id to product);
- the cart table (a sequence of rows);
- the line-item table (a sequence of rows);
- the counter `nextId`, which mints fresh cart and line-item ids.

`Db.Valid()` is the table invariant:

- ids are below the counter and distinct;
- each user has at most one cart;
- each cart has at most one line per product;
- every line item refers to an existing cart and product.

Every service and repository operation is a method that takes the store,
changes it under `modifies db`, and keeps `Valid()`. Each method's new state
is tied to a pure function of the old tables:

- `FetchOrCreate` for fetch-or-create;
- `Upsert` for adding;
- `RemoveLine` for the cart-scoped delete;
- `WithoutCart` for the bulk delete;
- `CalculateCartTotals` for the aggregate.

The properties the service promises are lemmas about those functions: totals
equal the sums over the cart's rows, other carts never change, and lines stay
unique. The controllers are pure functions from (request fields, service
outcome) to a `Response`. Handler methods compose those functions with the
store operations, so "the service is not called" reads as `unchanged(db)`.

Files:

- `types.dfy`: the records of the source's model types.
- `store.dfy`: the store, its queries and its invariant.
- `cart_repository.dfy`, `cart_service.dfy`, `cart_controller.dfy` and
  `product_controller.dfy`: one file per source file.
- `http.dfy`: JSON values, validation issues and responses.

## Model

| member | source | states |
|---|---|---|
| Store.ItemsOf | backend/src/services/cart-service.ts:14-17 | the rows of one cart: never more than the table holds, all carrying that cart id, and every product reference of the table is kept |
| Store.ItemsOfMembers | backend/src/services/cart-service.ts:14-17 | a row is among a cart's rows exactly when it is in the table with that cart id |
| Store.CartIndex | backend/src/repositories/cart-repository.ts:14-17 | the first cart owned by the user, or none exactly when no cart has that user id |
| Store.LineIndex | backend/src/services/cart-service.ts:45-47 | the first row of the (cart, product) pair, or none exactly when no row matches both |
| Store.RowIndex | backend/src/services/cart-service.ts:69-71 | the first row whose id and cart id both match, or none exactly when there is no such row |
| CartRepository.FetchOrCreate | backend/src/repositories/cart-repository.ts:13-25 | the returned cart belongs to the user and is in the resulting cart table |
| CartRepository.FetchOrCreateShape | backend/src/repositories/cart-repository.ts:14-23 | with a cart for the user, that cart is returned and the table is unchanged; without one, exactly one new cart with the fresh id is appended |
| CartRepository.FetchOrCreateIdempotent | backend/src/repositories/cart-repository.ts:13-25 | a second fetch for the same user returns the same cart and creates nothing, whatever fresh id it would use |
| CartRepository.NewCartHasNoItems | backend/src/repositories/cart-repository.ts:18-23 | a cart created with the counter's id has no line items |
| CartRepository.FetchOrCreateKeepsOneCartPerUser | backend/src/repositories/cart-repository.ts:18-23 | creating a cart keeps cart ids distinct and one cart per user |
| CartRepository.WithoutCart | backend/src/repositories/cart-repository.ts:32 | a row survives the bulk delete exactly when it belongs to another cart |
| CartRepository.WithoutCartItems | backend/src/repositories/cart-repository.ts:31-33 | after the bulk delete the cart holds nothing, and every other cart holds the same rows in the same order |
| CartRepository.WithoutCartKeepsUniqueLines | backend/src/repositories/cart-repository.ts:31-33 | the bulk delete keeps item ids and (cart, product) lines unique |
| CartRepository.GetCart | backend/src/repositories/cart-repository.ts:13-25 | the new cart table and the returned cart are those of FetchOrCreate; the cart belongs to the user; a cart not there before is the one new row, with the counter's id; items and products are unchanged |
| CartRepository.SaveCart | backend/src/repositories/cart-repository.ts:27-29 | the store is unchanged |
| CartRepository.ClearCart | backend/src/repositories/cart-repository.ts:31-33 | the line-item table becomes WithoutCart of the old one; carts, products and counter are unchanged; the invariant is kept |
| CartService.EnrichAll | backend/src/services/cart-service.ts:22-29 | one entry per row, in row order, each the row joined with its product |
| CartService.Subtotal | backend/src/services/cart-service.ts:19 | the reduce of price × quantity over rows from 0: no rows give 0 and one row gives its product's price times its quantity (SumsAppend gives the sum over a concatenation) |
| CartService.Quantities | backend/src/services/cart-service.ts:20 | the reduce of quantities over rows from 0: no rows give 0 and one row gives its quantity (SumsAppend gives the sum over a concatenation) |
| CartService.SumsAppend | backend/src/services/cart-service.ts:19-20 | both sums over a concatenation of rows are the sums over the parts, so the left-to-right reduce adds each row's share once |
| CartService.SumsOfEnriched | backend/src/services/cart-service.ts:19-29 | the sums over the joined entries equal the sums over the stored rows |
| CartService.CalculateCartTotals | backend/src/services/cart-service.ts:13-32 | same id and user as the cart; one entry per row of the cart, carrying the row's id, productId and quantity and the product's current name, price and imageUrl; total is Σ price × quantity and itemCount is Σ quantity over the cart's rows; both are 0 for an empty cart |
| CartService.ItemCountBounds | backend/src/services/cart-service.ts:20 | with positive quantities the item count is at least the number of entries, and is 0 exactly for an empty aggregate |
| CartService.SumsArePermutationInvariant | backend/src/services/cart-service.ts:19-20 | any reordering of the entries gives the same total and item count |
| CartService.Upsert | backend/src/services/cart-service.ts:45-58 | with a line for the (cart, product) pair, that first line is raised by the quantity, keeping its id, cart, product and position, with every other row kept and no row created; without one, exactly one row with the fresh id and the requested quantity is appended |
| CartService.UpsertQuantity | backend/src/services/cart-service.ts:45-58 | the (cart, product) quantity grows by exactly the requested amount and every other pair's quantity is unchanged |
| CartService.RaiseQuantity | backend/src/services/cart-service.ts:49-53 | raising the first line of a pair changes that pair's quantity by the amount and no other |
| CartService.InsertQuantity | backend/src/services/cart-service.ts:54-58 | appending the first line of a pair gives that pair the line's quantity and changes no other |
| CartService.UpsertOtherCarts | backend/src/services/cart-service.ts:45-58 | adding to one cart leaves the rows of every other cart unchanged |
| CartService.UpsertSums | backend/src/services/cart-service.ts:45-58 | adding raises the cart's quantity sum by the amount and its price sum by price × amount |
| CartService.RaiseSums | backend/src/services/cart-service.ts:49-53 | raising an existing row raises its cart's sums by that row's share of the increase |
| CartService.InsertSums | backend/src/services/cart-service.ts:54-58 | appending a row raises its cart's sums by that row's share |
| CartService.UpsertAggregate | backend/src/services/cart-service.ts:45-64 | after adding, the recomputed aggregate's itemCount grows by the amount and its total by price × amount, the line's quantity grows by the amount, and no other cart changes |
| CartService.UpsertKeepsUniqueLines | backend/src/services/cart-service.ts:45-58 | adding keeps at most one line per (cart, product) and distinct item ids when the fresh id is unused |
| CartService.UpsertKeepsPositive | backend/src/services/cart-service.ts:49-58 | adding a quantity of at least 1 keeps every stored quantity at least 1 |
| CartService.UpsertKeepsConsistent | backend/src/services/cart-service.ts:45-58 | adding to an existing cart and a known product keeps the table invariant, with the counter moving past the fresh id exactly when a row is created |
| CartService.RemoveLine | backend/src/services/cart-service.ts:69-71 | fails with the record-missing error exactly when no row matches both the item id and the cart id; otherwise exactly one row is removed |
| CartService.RemoveLineOtherCarts | backend/src/services/cart-service.ts:69-71 | a delete leaves the rows of every other cart unchanged |
| CartService.RemoveLineSameCart | backend/src/services/cart-service.ts:69-71 | the cart keeps exactly its rows other than the deleted item |
| CartService.RemoveLineSums | backend/src/services/cart-service.ts:67-77 | a delete lowers the cart's quantity sum and price sum by the deleted row's share |
| CartService.RemoveLineKeepsUniqueLines | backend/src/services/cart-service.ts:69-71 | a delete keeps item ids and (cart, product) lines unique |
| CartService.RemoveLineKeepsConsistent | backend/src/services/cart-service.ts:69-71 | a delete keeps the table invariant |
| CartService.RemoveLineRows | backend/src/services/cart-service.ts:69-71 | after a delete every other cart keeps its rows and the cart keeps exactly its rows other than the deleted item |
| CartService.RemoveLineAggregate | backend/src/services/cart-service.ts:67-77 | after a delete the recomputed aggregate's itemCount drops by the deleted row's quantity and its total by price × quantity, it no longer lists the deleted item, and no other cart changes |
| CartService.GetCart | backend/src/services/cart-service.ts:34-37 | the cart table and counter follow FetchOrCreate and the result is the aggregate of the fetched cart; items and products are unchanged |
| CartService.AddToCart | backend/src/services/cart-service.ts:39-65 | fails with "Product not found", leaving the store unchanged, exactly when the product is unknown; otherwise the carts follow FetchOrCreate, the items follow Upsert with the next fresh id, and the result is the recomputed aggregate of the user's cart |
| CartService.AddLine | backend/src/services/cart-service.ts:43-58 | fetches or creates the user's cart, then the line items follow Upsert for that cart with the next fresh id |
| CartService.SaveLine | backend/src/services/cart-service.ts:45-58 | the line items follow Upsert with the counter as fresh id, and the counter moves only when a row is inserted |
| CartService.RemoveFromCart | backend/src/services/cart-service.ts:67-77 | the carts follow FetchOrCreate; when the cart holds no row with the item id, the error is returned and the items are unchanged; otherwise the row is deleted and the recomputed aggregate is returned, with every other cart and the cart's other rows unchanged |
| CartService.DeleteLine | backend/src/services/cart-service.ts:69-71 | the outcome is RemoveLine of the old table; the items change only when it succeeds |
| CartService.ClearCart | backend/src/services/cart-service.ts:79-87 | the cart table and counter follow FetchOrCreate; the items become WithoutCart for the user's cart; products are unchanged; the aggregate has no items, total 0 and itemCount 0; every other cart's rows are unchanged |
| CartController.UserIdOf | backend/src/controllers/cart-controller.ts:15 | the header when present and non-empty, "guest" otherwise; never empty |
| CartController.ProductIdIssues | backend/src/controllers/cart-controller.ts:7 | no issue exactly when productId is a string; every issue names productId |
| CartController.QuantityIssues | backend/src/controllers/cart-controller.ts:8 | no issue exactly when quantity is an integral number of at least 1; a missing or non-number value gives the one number-type issue; for a number, the integer issue is reported exactly when it is not integral and the minimum issue exactly when it is below 1; every issue names quantity |
| CartController.ParseAddBody | backend/src/controllers/cart-controller.ts:6-9 | succeeds exactly on a body of the schema, returning its productId and a quantity of at least 1; otherwise reports at least one issue |
| CartController.ParseAddBodyIssues | backend/src/controllers/cart-controller.ts:6-9 | for an object body, the issues name exactly the fields that fail the schema |
| CartController.HalfQuantityIssues | backend/src/controllers/cart-controller.ts:8 | a quantity of 0.5 gets both the integer issue and the minimum issue |
| CartController.CartReply | backend/src/controllers/cart-controller.ts:16-21 | 200 with the aggregate exactly on success, 500 "Internal error" exactly on failure |
| CartController.AddReply | backend/src/controllers/cart-controller.ts:29-35 | 201 with the aggregate on success, 404 with the message exactly for "Product not found", 500 "Internal error" for any other failure |
| CartController.GetCart | backend/src/controllers/cart-controller.ts:13-22 | the cart table and counter follow FetchOrCreate for the resolved user; the reply is 200 with the recomputed aggregate of that cart; line items and products unchanged |
| CartController.AddToCart | backend/src/controllers/cart-controller.ts:24-36 | an invalid body gives 400 "Validation error" with its issues and leaves the store unchanged; a valid one has the outcome Added for the resolved user |
| CartController.AddValidated | backend/src/controllers/cart-controller.ts:29-34 | Added: 201 exactly when the product is known, with the carts following FetchOrCreate, the items following Upsert with the next fresh id and the body the recomputed aggregate; 404 "Product not found", store unchanged, exactly when it is not |
| CartController.RemoveFromCart | backend/src/controllers/cart-controller.ts:38-48 | the cart table and counter follow FetchOrCreate; 200 exactly when RemoveLine succeeds on the caller's cart, with the items the result of that delete and the body the recomputed aggregate; 500 "Internal error" with the items unchanged otherwise, whoever else holds the item |
| CartController.ClearCart | backend/src/controllers/cart-controller.ts:50-59 | the cart table and counter follow FetchOrCreate; the items become WithoutCart for the resolved user's cart; the reply is 200 with the recomputed aggregate, which has no items, total 0 and itemCount 0 |
| ProductController.NatToString | backend/src/controllers/product-controller.ts:41 | a non-empty string of digits without a leading zero |
| ProductController.NatToStringRoundTrip | backend/src/controllers/product-controller.ts:41 | reading the numeral back gives the number |
| ProductController.PlaceholderImageUrl | backend/src/controllers/product-controller.ts:41 | the placeholder prefix followed by digits whose value is the timestamp |
| ProductController.CreateProductRequest | backend/src/controllers/product-controller.ts:28-42 | 400 "Name, description and price are required" exactly when name, description or price is falsy; otherwise the fields are passed on, priceSale is null exactly when falsy, a non-empty imageUrl is kept and a falsy one becomes the placeholder |
| ProductController.ZeroPriceRejected | backend/src/controllers/product-controller.ts:30-34 | a price of 0 is rejected like a missing one |
| ProductController.CreateProductReply | backend/src/controllers/product-controller.ts:44-47 | 201 with the created product exactly on success, 500 "Internal error" exactly on failure |
| ProductController.GetProductReply | backend/src/controllers/product-controller.ts:8-14 | 200 with the product, 404 "Product not found" exactly when there is none, 500 "Internal error" exactly when the lookup fails |
| ProductController.GetAllProductsReply | backend/src/controllers/product-controller.ts:17-24 | 200 with the list exactly on success, 500 "Internal error" exactly on failure |
| ProductController.GetProduct | backend/src/controllers/product-controller.ts:6-15 | 200 with the stored product exactly when the id is in the table, 404 "Product not found" exactly when it is not |
| ProductController.CreateProduct | backend/src/controllers/product-controller.ts:26-48 | an invalid body gives the 400 reply and leaves the store unchanged; a valid one inserts the defaulted product under the new id and replies 201 with it |

## Left out

- Ids: cart and line-item ids are natural numbers minted from one counter. The ORM's generated string ids are not modelled, and the `itemId` route parameter is taken as such a number. The new product's id, also chosen by the database, is a parameter of `CreateProduct`.
- Prices are integers (cents). Floating-point totals, rounding and `parseFloat` of the price fields are not modelled.
- JavaScript numbers that are `NaN` or infinite are not modelled. A JSON number is an exact real.
- The product body's fields are taken as already typed: a string for name, description and imageUrl, a number for the prices. The source performs no type check there, and other JSON values are not modelled.
- Concurrency: each operation is atomic. The find-then-update race in adding to a cart is not modelled.
- The database's own failures (lost connection and the like) are not modelled in the store methods. They reach the controllers only through the pure reply functions `CartReply`, `AddReply`, `CreateProductReply`, `GetProductReply` and `GetAllProductsReply`, which take any failure as input.
- The ORM's ordering is not modelled. Rows are kept in table order, and listing all products sorted by name is only the reply function `GetAllProductsReply`, with no store method.
- The ORM's 32-bit integer column for quantities is not modelled; quantities are unbounded.
- The error of a delete that matches no row is the constant "Record to delete does not exist." It stands for the ORM's not-found error, whose exact text and code are not modelled. The controller maps any such failure to 500.
- `Date.now()` is the parameter `now` of the product request. The `console.log` calls in the cart controller are not modelled.
- The product repository and product service are pass-throughs to the ORM. Looking up a product is a lookup in the store's product map.
- CartService.AddToCart: takes any integer quantity, as the service does. Positivity of stored quantities is the conditional lemma `UpsertKeepsPositive`. The changes to the aggregate's sums and to other carts are stated in the lemma `UpsertAggregate` rather than in the method's contract.
- Validation issues keep only the field's path and the kind of failure (the expected type, or the minimum). The schema library's `message`, `received`, `type`, `inclusive` and `exact` fields of each issue in the 400 body are not modelled.
- The HTTP framework, routing and the frontend are not part of this model.
