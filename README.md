# vruksh-backend shop rules in Dafny

This project models the business rules of the vruksh-backend plant shop: its
Express controllers for carts, orders and products, and the Mongoose `Product`
schema. The state is three in-memory tables plus the catalog's order:

- `products`: id → Product;
- `carts`: user → Cart;
- `orders`: id → Order;
- `catalog`: the collection's natural order of product ids.

The database, HTTP and image-host layers are removed. Every failure the
controllers raise becomes an `Err` of the `Error` datatype in `common.dfy`.

Product, order and cart-line ids are kept in the form the ObjectId cast gives
them (`Common.Canon`, lower case). `findById` and the other lookups cast the id
they are given, so the model looks documents up under `Canon(id)`. The cart lines
store the cast id too. Category references are not cast (see "## Left out").

Layout:

- `common.dfy` (`Common`): ids and their cast, `Option`, `Result`, the error kinds, the caller, the body encoding, and JavaScript `||` on optional strings and numbers.
- `product_model.dfy` (`ProductModel`): the Product document and the `trim` setter on its name. It also holds the validators (required fields, `min: 0`), the defaults, and document creation (`Build`).
- `cart_rules.dfy` (`CartRules`): the line-level logic of the cart controller:
  - `findIndex`, increment-or-append, absolute set, filter;
  - the one-line-per-product invariant;
  - the quantity a cart holds of each product (`QtyOf`);
  - the line matching as the controller writes it, against the raw id.
- `order_rules.dfy` (`OrderRules`): the rules of order placement:
  - the stock pre-check and the snapshot into order lines;
  - the stock decrement as a function of the lines;
  - the admin-or-owner rule and the status patch.
- `catalog_rules.dfy` (`CatalogRules`): for listings, page number, page count, window and filters over documents with their ids. For updates, the truthiness merge of `updateProduct` and the save.
- `shop.dfy` (`Shop`): the class `Shop`, whose fields are the tables. The controllers are its methods. The controller methods that change state keep the invariant `Valid()`:
  - every stored product is valid;
  - every cart has one line per product;
  - the catalog lists each stored product once.

Main results:

- **Stock stays non-negative when cart lines are matched under the cast id.** `createOrder` lowers each product's stock by exactly the quantity its lines ordered (`OrderRules.DecrementedEffect`). Stock never goes negative, and the reason is not the schema's `min: 0`, which `$inc` does not run. It follows from the pre-check plus the cart's one-line-per-product invariant (`OrderRules.StockStaysValid`). `OrderRules.DuplicateLinesOverdraw` shows that the invariant is needed: without it, stock 5 and two lines of 3 both pass the pre-check and leave stock −1. The controllers as written match lines against the id as sent, and an id in upper case breaks the invariant (see "## Findings"). The model's cart methods match under the cast id.
- **A JSON update can never zero a number.** `updateProduct` merges with `||`. In a JSON body, 0 is falsy, so the merge never writes 0 into price or stock, nor "" into the description or the category (`CatalogRules.MergeFields`). A name of only white space is truthy, and the `trim` setter turns it into ""; the save's `required` validator then rejects it (`CatalogRules.SaveMerged`). The route also accepts multipart forms (`upload.array`), whose fields arrive as text. There "0" is truthy, and 0 is written (`CatalogRules.MultipartZeroStock`).

`updateCartItem` checks the stock before it looks up the cart, so its errors come in the order product, stock, cart, line.

## Model

| member | source | states |
|---|---|---|
| Common.Canon | controllers/cartController.js:27 | the ObjectId cast of an id: same length, no upper-case letter, each character lowered |
| Common.CanonIdempotent | controllers/cartController.js:27 | casting a cast id again changes nothing |
| Common.CanonOfLower | controllers/cartController.js:27 | an id without upper-case letters is its own cast |
| Common.StrOr | controllers/productController.js:113-116 | `x \|\| fallback` on strings: a non-empty input, otherwise the fallback; the result is "" only when the fallback is |
| Common.NumOr | controllers/productController.js:115-117 | `x \|\| fallback` on numbers: in a JSON body a non-zero input, otherwise the fallback, so 0 only when the fallback is 0; in a multipart body any given number, 0 included |
| ProductModel.TrimShape | models/Product.js:8 | `Trim`, the name setter: the result has no white space at either end, is no longer than the input, and is empty exactly when the input is all white space |
| ProductModel.TrimIdempotent | models/Product.js:8 | trimming twice is trimming once, so re-assigning a stored name keeps it |
| ProductModel.Report | models/Product.js:5-29 | the failing paths in schema order: each of the five validated paths is listed exactly when it fails, and the list is empty exactly when none fails |
| ProductModel.Errors | models/Product.js:5-29 | a document has no validation errors exactly when name, description and category are non-empty and price and stock are at least 0; the report names name, description, price, category and stock each exactly when that path fails |
| ProductModel.InputErrors | models/Product.js:5-29 | the failing paths of a new document, each exactly when it fails: name missing or blank after trimming, description missing or empty, price missing or negative, category missing or empty, stock given and negative; none fails exactly when all five pass |
| ProductModel.Build | models/Product.js:3-43 | `Product.create` succeeds exactly when name (trimmed), description, price, category are present and price and stock are at least 0; it stores the trimmed name, the description, the category, the given price, stock 0 when omitted, ratings and review count 0, and the images; the result is valid; failure reports the failing paths |
| CartRules.FindIndex | controllers/cartController.js:48-50 | either -1 and no line has the product, or the index of the first line that has it |
| CartRules.QtyOfUnique | controllers/cartController.js:48-62 | under the invariant, the quantity a cart holds of a product is that of its single line |
| CartRules.AddItemEffect | controllers/cartController.js:48-62 | `AddItem`, the `+=` or `push` of the line: the invariant is kept; an existing line gets `quantity + q` with its price kept, otherwise exactly one line (product, q, price) is appended; all other lines and other products' quantities are unchanged; the product's total rises by q |
| CartRules.AddItemAsWritten | controllers/cartController.js:48-62 | the controller's own matching: when a line compares equal to the id as sent, the line is raised as `AddItem` does; otherwise a line under the cast id is appended |
| CartRules.UpperCaseIdDuplicatesLine | controllers/cartController.js:48-62 | adding a product twice under its upper-case id leaves two lines for it, breaking the invariant |
| CartRules.CastIdMergesLine | controllers/cartController.js:48-62 | matching under the cast id, the second add raises the one line to 6 |
| CartRules.SetQuantityEffect | controllers/cartController.js:92-97 | `SetQuantity`, the `= quantity` on the line: it succeeds exactly when the product has a line; that line's quantity becomes q (not q added); the length, the invariant and other products' quantities are kept |
| CartRules.RemoveItem | controllers/cartController.js:118-120 | a line is kept exactly when it is in the cart and is for another product |
| CartRules.RemoveItemConcat | controllers/cartController.js:118-120 | the filter distributes over concatenation, so the kept lines stay in order |
| CartRules.RemoveAbsentIsNoOp | controllers/cartController.js:118-120 | removing a product that has no line leaves the cart unchanged |
| CartRules.RemoveItemEffect | controllers/cartController.js:118-120 | the invariant is kept, no line of the product remains, its quantity is 0, others' quantities are unchanged |
| CartRules.UpperCaseIdMissesLine | controllers/cartController.js:92-120 | under the upper-case id, setting finds no line and removing removes nothing; under the cast id the line is set and removed |
| OrderRules.FirstShortfallMeaning | controllers/orderController.js:22-28 | there is no shortfall exactly when every line's product exists with enough stock; otherwise the error is that of a line all of whose predecessors pass |
| OrderRules.CheckStock | controllers/orderController.js:22-28 | the loop returns the first line's shortfall in cart order, or none |
| OrderRules.Snapshot | controllers/orderController.js:31-36 | one order line per cart line, in order, copying product id, the product's name, the quantity and the cart line's price |
| OrderRules.SnapshotIgnoresLivePrice | controllers/orderController.js:31-36 | changing a product's current price does not change the order lines |
| OrderRules.DecrementedEffect | controllers/orderController.js:47-52 | `Decremented`, the `$inc` loop as a function of the lines: the same products exist, each as before except that its stock fell by exactly the quantity its lines ordered |
| OrderRules.OrderedWithinStock | controllers/orderController.js:22-28 | under the pre-check and the invariant, no product's lines ask for more than its stock |
| OrderRules.StockStaysValid | controllers/orderController.js:22-52 | with valid products, the one-line-per-product invariant and a passed pre-check, every product stays valid with stock at least 0 after the decrement |
| OrderRules.DuplicateLinesOverdraw | controllers/orderController.js:22-52 | two lines of 3 for a product of stock 5 both pass the pre-check, and the stock ends at -1 |
| OrderRules.PatchStatus | controllers/orderController.js:106-107 | a truthy status input replaces that status, anything else keeps it, with no transition check; every other field is unchanged |
| OrderRules.PatchStatusIdempotent | controllers/orderController.js:106-107 | applying the same patch twice equals applying it once |
| CatalogRules.PageOf | controllers/productController.js:42 | the page is the number given when it is non-zero, and 1 for NaN, absent or 0 |
| CatalogRules.PageCount | controllers/productController.js:53-62 | `ceil(count / 10)`: 0 exactly when count is 0, else `10*(pages-1) < count <= 10*pages` |
| CatalogRules.Window | controllers/productController.js:54-56 | at most 10 documents, the filtered ones from the skip onwards, and none when the skip is past the end |
| CatalogRules.Filter | controllers/productController.js:43-54 | a document is selected exactly when it is in the collection and satisfies the keyword and category conditions |
| CatalogRules.FilterConcat | controllers/productController.js:43-54 | filtering distributes over concatenation, so the selection keeps the collection's order |
| CatalogRules.FilterOne | controllers/productController.js:43-54 | one document is selected exactly when it matches, and then once |
| CatalogRules.FilterConjunctive | controllers/productController.js:43-54 | filtering by keyword and category together is filtering by one, then the other |
| CatalogRules.FilterWithoutConditions | controllers/productController.js:43-51 | with neither keyword nor category, the whole collection is selected |
| CatalogRules.ListProducts | controllers/productController.js:40-64 | a page below 1 fails with a negative skip; otherwise the result is the page, `ceil(count/10)` over the filtered documents, and exactly `min(10, count - 10*(page-1))` of them (none past the end), the filtered ones from index `10*(page-1)` on, each with its id |
| CatalogRules.MergeFields | controllers/productController.js:93-117 | `Merge`, the `x \|\| product.x` assignments: each of name (trimmed), description, price, category, stock takes a truthy input, else keeps its value; in a JSON body 0 is never written into price or stock, in a multipart body any given number is; "" is never written into the description or the category, and the name becomes "" only from a truthy input of only white space; images are replaced only when files were uploaded; rating and review count never change |
| CatalogRules.MergeNothing | controllers/productController.js:113-117 | a request with no truthy field and no files leaves the product exactly as it was |
| CatalogRules.PriceOnlyUpdate | controllers/productController.js:113-119 | a request carrying only a positive price saves the product with that price and no other change |
| CatalogRules.MultipartZeroStock | controllers/productController.js:117-119 | stock 0 sent in a multipart form is saved as stock 0; the same request as JSON changes nothing |
| CatalogRules.SaveMerged | controllers/productController.js:113-120 | the save succeeds exactly when the merged document passes the validators, and the stored result is valid; failure reports the failing paths |
| Shop.CollectImages | controllers/productController.js:12-23 | one image per uploaded file, in order |
| Shop.Shop.GetCart | controllers/cartController.js:8-19 | the caller's cart, or one with no items and total 0; nothing changes |
| Shop.Shop.AddToCart | controllers/cartController.js:24-66 | product missing under the cast id, then stock short of the requested quantity alone, each with no cart created; otherwise the cart, created if needed, gets the increment-or-append of the line under the cast id at the product's price; the invariant is kept |
| Shop.Shop.UpdateCartItem | controllers/cartController.js:71-104 | errors for product missing, stock short, cart missing and line missing, in that order, with the carts unchanged; otherwise the line under the cast id gets quantity exactly q |
| Shop.Shop.RemoveFromCart | controllers/cartController.js:109-124 | fails only without a cart; otherwise the lines of the product's cast id are filtered out |
| Shop.Shop.CreateOrder | controllers/orderController.js:9-58 | an absent or empty cart fails with nothing changed, and so does a line short of stock, with the first such line's error. On success: the order has the caller, the snapshot lines, the address and payment method, the cart's total; stock is decremented by the lines and stays at least 0; the caller's cart is deleted; products, carts and orders change in no other way |
| Shop.Shop.DecrementStock | controllers/orderController.js:47-52 | the loop leaves the products as `Decremented` of the lines, and nothing else changes |
| Shop.Shop.GetOrders | controllers/orderController.js:63-69 | exactly the orders whose user is the caller |
| Shop.Shop.GetOrderById | controllers/orderController.js:74-95 | absent gives not-found; a present order is returned exactly when `CanView` holds (the caller is admin or the owner), else not-authorized |
| Shop.Shop.UpdateOrderStatus | controllers/orderController.js:100-115 | for an admin caller: absent gives not-found with no change; otherwise the stored order becomes its status patch |
| Shop.Shop.GetProducts | controllers/productController.js:40-64 | the listing of the stored collection, in catalog order, each document with its id |
| Shop.Shop.GetProductById | controllers/productController.js:69-81 | the product stored under the cast id, or not-found |
| Shop.Shop.CreateProduct | controllers/productController.js:8-35 | for an admin caller: the result is `Build` of the input and the uploaded images; the new product is stored and listed last only on success |
| Shop.Shop.UpdateProduct | controllers/productController.js:86-125 | for an admin caller: absent gives not-found; otherwise the result is the save of the merge for the body's encoding; only a successful save changes the stored product |
| Shop.Shop.DeleteProduct | controllers/productController.js:130-145 | for an admin caller: absent gives not-found with no change; otherwise exactly that product is removed from the table and from the catalog order |
| Shop.CreateScenario | test/test.js:114-128 | from an empty shop, an admin creating "Test Plant" at 29.99 with stock 10, under any store-assigned id in cast form, stores exactly that product under that id and lists it; there are no carts and no orders |
| Shop.PriceScenario | test/test.js:139-148 | a JSON update carrying only a new positive price changes that product's price and nothing else in the shop |
| Shop.AddScenario | test/test.js:157-167 | adding 2 of a product to an empty cart opens a cart with one line of 2 at the product's price |
| Shop.SetScenario | test/test.js:173-182 | setting that line to 3 gives quantity 3, not 5 |
| Shop.OrderScenario | test/test.js:189-205 | ordering the cart of 3 leaves stock 7, no cart, and an order of the caller |
| Shop.ConfirmScenario | test/test.js:216-225 | an admin setting the order status to "Confirmed" stores that status on the order; products and carts are unchanged |

## Findings

| source | as written | input that shows it | evidently intended | confidence | as-written member | corrected member |
|---|---|---|---|---|---|---|
| controllers/cartController.js:48-50 | addToCart finds the line by comparing the stored reference's text (lower case) with the id as sent, while `findById` and the pushed line use the cast id | a product with stock 5 whose id is sent in upper case; two addToCart of 3, then createOrder: two lines pass the pre-check and stock ends at -1 (`OrderRules.DuplicateLinesOverdraw`) | the line is matched under the cast id, so the second add raises the one line to 6 | not executed | CartRules.UpperCaseIdDuplicatesLine | Shop.Shop.AddToCart |
| controllers/cartController.js:92-103 | updateCartItem compares the same way | a cart line for the product, and a PUT with its id in upper case: the product is found, the line is not, and the answer is "Item not found in cart" | the line's quantity is set | not executed | CartRules.UpperCaseIdMissesLine | Shop.Shop.UpdateCartItem |
| controllers/cartController.js:118-120 | removeFromCart filters the same way | a DELETE with the id in upper case: the line stays, and the cart is saved and returned | that product's line is removed | not executed | CartRules.UpperCaseIdMissesLine | Shop.Shop.RemoveFromCart |

## Left out

- Cloudinary uploads and deletions are network calls. Uploaded images are an input sequence, one per file, and the deletion of old images is not modelled. Multer's limit of 5 files is not modelled.
- The keyword regex (a case-insensitive match in the store) is the function parameter `nameMatches`.
- `models/Cart.js` and `models/Order.js` are not part of this model:
  - `totalPrice` is an opaque cart field that the cart operations keep and the order copies, so any recomputation in a save hook is not modelled;
  - the order statuses are `None` until set, standing for the schema defaults;
  - quantity validation on cart lines and the validation of `Order.create` are not modelled.
- `populate` display fields, status codes and JSON bodies are left out. A cart line whose product was deleted becomes `ProductUnavailable` at order time, which stands for the source's null dereference.
- Malformed ObjectIds (cast errors) are not modelled: `Canon` lowers every ASCII letter of any string, where the store accepts only hex ids. NaN and fractional numbers in bodies are not modelled either, nor a fractional `page` query parameter (`page=1.5` gives skip 5 and page 1.5): `PageInput` holds NaN or an integer. Quantities and prices are integers, with prices in cents rather than JavaScript floats.
- In a multipart body a numeric field is modelled as a numeral the store casts to its number; a field that is not a numeral (a cast error) is not modelled.
- Category references are stored and compared as sent. The store casts them too, in `Product.create`, in the `category` assignment of `updateProduct` and in the listing's `category` filter, so the model assumes category ids arrive already in cast form.
- The shipping address is a string, not the structured object the client sends.
- Authentication is reduced to the `Caller` (user id and role). The `protect, admin` gates of the product routes (routes/productRoutes.js:31-33) and of the order-status route are the `IsAdmin(caller)` preconditions of `CreateProduct`, `UpdateProduct`, `DeleteProduct` and `UpdateOrderStatus`.
- Fresh ids come from the store, so they are parameters of `CreateProduct` and `CreateOrder` that must be unused and already in cast form (a generated ObjectId is lower-case hex). The scenarios use short ids in that form.
- There is no concurrency and no atomicity: the steps of `createOrder` run in sequence and nothing fails between them.
- `GetOrders` returns a map, so the store's result order is not modelled.
- Document timestamps, the Category model, the seed script and the Swagger configuration are not modelled.
