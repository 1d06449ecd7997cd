/**
 * The shop's state — products, carts by user, orders — and the controller
 * operations of controllers/cartController.js, controllers/orderController.js
 * and controllers/productController.js as methods that change it.
 */
module Shop {
  import opened Common
  import opened ProductModel
  import opened CartRules
  import opened OrderRules
  import opened CatalogRules

  /** Ids without repetition. */
  predicate Distinct(ids: seq<Id>) {
    forall i, j :: 0 <= i < j < |ids| ==> ids[i] != ids[j]
  }

  /** The ids without the one deleted, in their order. */
  function Without(ids: seq<Id>, id: Id): (r: seq<Id>)
    ensures forall x :: x in r <==> x in ids && x != id
    ensures Distinct(ids) ==> Distinct(r)
  {
    if ids == [] then []
    else
      var rest := Without(ids[1..], id);
      assert Distinct(ids) ==> ids[0] !in ids[1..];
      if ids[0] == id then rest else [ids[0]] + rest
  }

  /** Every stored product is valid: non-negative price and stock, required fields present, name trimmed. */
  ghost predicate ProductsValid(products: map<Id, Product>) {
    forall id :: id in products ==> ProductModel.Valid(products[id])
  }

  /** Every cart has one line per product. */
  ghost predicate CartsWellFormed(carts: map<Id, Cart>) {
    forall u :: u in carts ==> OneLinePerProduct(carts[u].items)
  }

  /** The catalog order lists each stored product once. */
  ghost predicate Listed(catalog: seq<Id>, products: map<Id, Product>) {
    Distinct(catalog) && forall id :: id in catalog <==> id in products
  }

  lemma PutCart(carts: map<Id, Cart>, user: Id, cart: Cart)
    requires CartsWellFormed(carts) && OneLinePerProduct(cart.items)
    ensures CartsWellFormed(carts[user := cart])
  {
  }

  lemma PutProduct(products: map<Id, Product>, id: Id, p: Product)
    requires ProductsValid(products) && ProductModel.Valid(p)
    ensures ProductsValid(products[id := p])
  {
  }

  lemma ListAdded(catalog: seq<Id>, products: map<Id, Product>, id: Id, p: Product)
    requires Listed(catalog, products) && id !in products
    ensures Listed(catalog + [id], products[id := p])
  {
  }

  lemma ListRemoved(catalog: seq<Id>, products: map<Id, Product>, id: Id)
    requires Listed(catalog, products)
    ensures Listed(Without(catalog, id), products - {id})
  {
  }

  /** Placing the order of a user whose cart passed the pre-check keeps the shop's invariant. */
  lemma PlacementKeepsInvariant(products: map<Id, Product>, carts: map<Id, Cart>, catalog: seq<Id>, user: Id)
    requires ProductsValid(products) && CartsWellFormed(carts) && Listed(catalog, products)
    requires user in carts && AllInStock(products, carts[user].items)
    ensures ProductsValid(Decremented(products, carts[user].items))
    ensures CartsWellFormed(carts - {user})
    ensures Listed(catalog, Decremented(products, carts[user].items))
  {
    var lines := carts[user].items;
    StockStaysValid(products, lines);
    DecrementedEffect(products, lines);
  }

  /** The `for (const file of req.files)` upload loop: one image per file, in order. */
  method CollectImages(uploads: seq<Image>) returns (images: seq<Image>)
    ensures images == uploads
  {
    images := [];
    for i := 0 to |uploads|
      invariant images == uploads[..i]
    {
      images := images + [uploads[i]];
    }
    assert uploads[..|uploads|] == uploads;
  }

  class Shop {
    var products: map<Id, Product>
    /** The product collection's natural order, which listings follow. */
    var catalog: seq<Id>
    /** At most one cart per user, by construction of the map. */
    var carts: map<Id, Cart>
    var orders: map<Id, Order>

    /** The state every operation starts from and keeps. */
    ghost predicate Valid()
      reads this
    {
      ProductsValid(products) && CartsWellFormed(carts) && Listed(catalog, products)
    }

    constructor ()
      ensures Valid()
      ensures products == map[] && catalog == [] && carts == map[] && orders == map[]
    {
      products, catalog, carts, orders := map[], [], map[], map[];
    }

    // ----- controllers/cartController.js -----

    /** getCart: the caller's cart, or the empty placeholder. */
    method GetCart(caller: Caller) returns (cart: Cart)
      ensures caller.userId in carts ==> cart == carts[caller.userId]
      ensures caller.userId !in carts ==> cart.items == [] && cart.totalPrice == 0
    {
      if caller.userId in carts {
        cart := carts[caller.userId];
      } else {
        cart := NewCart;
      }
    }

    /**
     * addToCart: product missing, then stock short of the requested
     * quantity (only that quantity, not what the cart already holds); then
     * the cart is created if needed and the line added or raised. The
     * product is found under the cast id, and so is its line (the
     * controller compares lines with the id as sent; see AddItemAsWritten).
     */
    method AddToCart(caller: Caller, productId: Id, quantity: int) returns (r: Result<Cart>)
      requires Valid()
      modifies this
      ensures Valid()
      ensures products == old(products) && catalog == old(catalog) && orders == old(orders)
      ensures Canon(productId) !in products ==> r == Err(ProductNotFound) && carts == old(carts)
      ensures var pid := Canon(productId);
        pid in products && products[pid].stock < quantity ==> r == Err(NotEnoughStock) && carts == old(carts)
      ensures var pid := Canon(productId);
        pid in products && products[pid].stock >= quantity ==>
        var before := if caller.userId in old(carts) then old(carts)[caller.userId] else NewCart;
        && r == Ok(before.(items := AddItem(before.items, pid, quantity, products[pid].price)))
        && carts == old(carts)[caller.userId := r.value]
    {
      var pid := Canon(productId);
      if pid !in products {
        return Err(ProductNotFound);
      }
      var product := products[pid];
      if product.stock < quantity {
        return Err(NotEnoughStock);
      }
      var user := caller.userId;
      var cart: Cart;
      if user in carts {
        cart := carts[user];
      } else {
        cart := NewCart;
        carts := carts[user := cart];
      }
      ghost var before := cart;
      AddItemKeepsInvariant(cart.items, pid, quantity, product.price);
      var k := FindIndex(cart.items, pid);
      if k > -1 {
        cart := cart.(items := cart.items[k := cart.items[k].(quantity := cart.items[k].quantity + quantity)]);
      } else {
        cart := cart.(items := cart.items + [CartLine(pid, quantity, product.price)]);
      }
      assert cart == before.(items := AddItem(before.items, pid, quantity, product.price));
      PutCart(old(carts), user, cart);
      carts := carts[user := cart];
      return Ok(cart);
    }

    /**
     * updateCartItem: product missing, stock short, cart missing, line
     * missing, in that order; otherwise the line's quantity is replaced.
     * Product and line are both looked for under the cast id.
     */
    method UpdateCartItem(caller: Caller, productId: Id, quantity: int) returns (r: Result<Cart>)
      requires Valid()
      modifies this
      ensures Valid()
      ensures products == old(products) && catalog == old(catalog) && orders == old(orders)
      ensures r.Err? ==> carts == old(carts)
      ensures Canon(productId) !in products ==> r == Err(ProductNotFound)
      ensures var pid := Canon(productId);
        pid in products && products[pid].stock < quantity ==> r == Err(NotEnoughStock)
      ensures var pid := Canon(productId);
        pid in products && products[pid].stock >= quantity && caller.userId !in old(carts) ==> r == Err(CartNotFound)
      ensures var pid := Canon(productId);
        pid in products && products[pid].stock >= quantity && caller.userId in old(carts) ==>
        var before := old(carts)[caller.userId];
        && (!HasLine(before.items, pid) ==> r == Err(ItemNotFound))
        && (HasLine(before.items, pid) ==>
              && r == Ok(before.(items := SetQuantity(before.items, pid, quantity).value))
              && carts == old(carts)[caller.userId := r.value])
    {
      var pid := Canon(productId);
      if pid !in products {
        return Err(ProductNotFound);
      }
      var product := products[pid];
      if product.stock < quantity {
        return Err(NotEnoughStock);
      }
      var user := caller.userId;
      if user !in carts {
        return Err(CartNotFound);
      }
      var cart := carts[user];
      SetQuantityEffect(cart.items, pid, quantity);
      var k := FindIndex(cart.items, pid);
      if k > -1 {
        cart := cart.(items := cart.items[k := cart.items[k].(quantity := quantity)]);
        PutCart(carts, user, cart);
        carts := carts[user := cart];
        return Ok(cart);
      } else {
        return Err(ItemNotFound);
      }
    }

    /**
     * removeFromCart: fails only without a cart; otherwise filters out the
     * lines of the product under its cast id.
     */
    method RemoveFromCart(caller: Caller, productId: Id) returns (r: Result<Cart>)
      requires Valid()
      modifies this
      ensures Valid()
      ensures products == old(products) && catalog == old(catalog) && orders == old(orders)
      ensures caller.userId !in old(carts) ==> r == Err(CartNotFound) && carts == old(carts)
      ensures caller.userId in old(carts) ==>
        var before := old(carts)[caller.userId];
        && r == Ok(before.(items := RemoveItem(before.items, Canon(productId))))
        && carts == old(carts)[caller.userId := r.value]
    {
      var pid := Canon(productId);
      var user := caller.userId;
      if user !in carts {
        return Err(CartNotFound);
      }
      var cart := carts[user];
      RemoveItemKeepsInvariant(cart.items, pid);
      cart := cart.(items := RemoveItem(cart.items, pid));
      PutCart(carts, user, cart);
      carts := carts[user := cart];
      return Ok(cart);
    }

    // ----- controllers/orderController.js -----

    /**
     * createOrder: refuse an absent or empty cart, check every line against
     * stock before any effect, snapshot the lines, create the order, take
     * each line's quantity off its product's stock, delete the cart.
     */
    method CreateOrder(caller: Caller, shippingAddress: string, paymentMethod: string, orderId: Id)
      returns (r: Result<Order>)
      requires Valid()
      requires orderId !in orders && Canon(orderId) == orderId
      modifies this
      ensures Valid()
      ensures catalog == old(catalog)
      ensures r.Err? ==> products == old(products) && carts == old(carts) && orders == old(orders)
      ensures caller.userId !in old(carts) || old(carts)[caller.userId].items == [] ==> r == Err(NoItemsInCart)
      ensures caller.userId in old(carts) && old(carts)[caller.userId].items != [] ==>
        var lines := old(carts)[caller.userId].items;
        && (r.Ok? <==> FirstShortfall(old(products), lines).None?)
        && (r.Err? ==> Some(r.error) == FirstShortfall(old(products), lines))
      ensures r.Ok? ==>
        var cart := old(carts)[caller.userId];
        && AllInStock(old(products), cart.items)
        && r.value == Order(caller.userId, Snapshot(old(products), cart.items), shippingAddress,
                            paymentMethod, cart.totalPrice, None, None)
        && orders == old(orders)[orderId := r.value]
        && carts == old(carts) - {caller.userId}
        && products == Decremented(old(products), cart.items)
        && (forall id :: id in products ==> products[id].stock >= 0)
    {
      var user := caller.userId;
      if user !in carts || |carts[user].items| == 0 {
        return Err(NoItemsInCart);
      }
      var cart := carts[user];
      var failure := CheckStock(products, cart.items);
      if failure.Some? {
        return Err(failure.value);
      }
      FirstShortfallMeaning(products, cart.items);
      var items := Snapshot(products, cart.items);
      var order := Order(user, items, shippingAddress, paymentMethod, cart.totalPrice, None, None);
      orders := orders[orderId := order];

      ghost var before := products;
      DecrementStock(cart.items);
      PlacementKeepsInvariant(before, carts, catalog, user);

      carts := carts - {user};
      return Ok(order);
    }

    /** The `$inc: { stock: -quantity }` loop of createOrder, one update per line in order. */
    method DecrementStock(lines: seq<CartLine>)
      modifies this
      ensures products == Decremented(old(products), lines)
      ensures catalog == old(catalog) && carts == old(carts) && orders == old(orders)
    {
      for i := 0 to |lines|
        invariant products == Decremented(old(products), lines[..i])
        invariant catalog == old(catalog) && carts == old(carts) && orders == old(orders)
      {
        var line := lines[i];
        assert lines[..i + 1][..i] == lines[..i];
        if line.product in products {
          products := products[line.product := products[line.product].(stock := products[line.product].stock - line.quantity)];
        }
      }
      assert lines[..|lines|] == lines;
    }

    /** getOrders: exactly the caller's orders. */
    method GetOrders(caller: Caller) returns (mine: map<Id, Order>)
      ensures forall id :: id in mine <==> id in orders && orders[id].user == caller.userId
      ensures forall id :: id in mine ==> mine[id] == orders[id]
    {
      mine := map id | id in orders && orders[id].user == caller.userId :: orders[id];
    }

    /** getOrderById: absent gives not-found; present is shown to an admin or the owner only. */
    method GetOrderById(caller: Caller, id: Id) returns (r: Result<Order>)
      ensures Canon(id) !in orders ==> r == Err(OrderNotFound)
      ensures Canon(id) in orders ==> (r.Ok? <==> CanView(caller, orders[Canon(id)]))
      ensures Canon(id) in orders && CanView(caller, orders[Canon(id)]) ==> r == Ok(orders[Canon(id)])
      ensures Canon(id) in orders && !CanView(caller, orders[Canon(id)]) ==> r == Err(NotAuthorized)
    {
      var key := Canon(id);
      if key in orders {
        var order := orders[key];
        if caller.role == "admin" || order.user == caller.userId {
          return Ok(order);
        } else {
          return Err(NotAuthorized);
        }
      } else {
        return Err(OrderNotFound);
      }
    }

    /** updateOrderStatus, behind the admin gate of its route: a `x || old` patch of both statuses. */
    method UpdateOrderStatus(caller: Caller, id: Id, orderStatus: Option<string>, paymentStatus: Option<string>)
      returns (r: Result<Order>)
      requires IsAdmin(caller)
      requires Valid()
      modifies this
      ensures Valid()
      ensures products == old(products) && catalog == old(catalog) && carts == old(carts)
      ensures Canon(id) !in old(orders) ==> r == Err(OrderNotFound) && orders == old(orders)
      ensures Canon(id) in old(orders) ==>
        && r == Ok(PatchStatus(old(orders)[Canon(id)], orderStatus, paymentStatus))
        && orders == old(orders)[Canon(id) := r.value]
    {
      var key := Canon(id);
      if key in orders {
        var order := orders[key];
        order := order.(orderStatus := if TruthyStr(orderStatus) then Some(orderStatus.value) else order.orderStatus);
        order := order.(paymentStatus := if TruthyStr(paymentStatus) then Some(paymentStatus.value) else order.paymentStatus);
        orders := orders[key := order];
        return Ok(order);
      } else {
        return Err(OrderNotFound);
      }
    }

    // ----- controllers/productController.js -----

    /** The product collection in its natural order, each document with its id. */
    function Collection(): (all: seq<Entry>)
      reads this
      requires Valid()
      ensures |all| == |catalog|
      ensures forall i :: 0 <= i < |catalog| ==> catalog[i] in products && all[i] == Entry(catalog[i], products[catalog[i]])
    {
      var ps, ids := products, catalog;
      seq(|ids|, i requires 0 <= i < |ids| && ids[i] in ps => Entry(ids[i], ps[ids[i]]))
    }

    /** getProducts: the filtered collection, one page of it, the page number and the page count. */
    method GetProducts(q: Query, nameMatches: (string, string) -> bool) returns (r: Result<Listing>)
      requires Valid()
      ensures r == ListProducts(Collection(), q, nameMatches)
    {
      var all := Collection();
      r := ListProducts(all, q, nameMatches);
    }

    /** getProductById. */
    method GetProductById(id: Id) returns (r: Result<Product>)
      ensures Canon(id) in products ==> r == Ok(products[Canon(id)])
      ensures Canon(id) !in products ==> r == Err(ProductNotFound)
    {
      var key := Canon(id);
      if key in products {
        return Ok(products[key]);
      }
      return Err(ProductNotFound);
    }

    /**
     * createProduct: collect one image per uploaded file, then Product.create
     * under the identity the store assigns.
     */
    method CreateProduct(caller: Caller, input: ProductInput, uploads: seq<Image>, id: Id) returns (r: Result<Product>)
      requires IsAdmin(caller)
      requires Valid()
      requires id !in products && Canon(id) == id
      modifies this
      ensures Valid()
      ensures carts == old(carts) && orders == old(orders)
      ensures r == Build(input, uploads)
      ensures r.Ok? ==> products == old(products)[id := r.value] && catalog == old(catalog) + [id]
      ensures r.Err? ==> products == old(products) && catalog == old(catalog)
    {
      var images := CollectImages(uploads);
      r := Build(input, images);
      if r.Ok? {
        Insert(id, r.value);
      }
    }

    /** Stores a new valid product at the end of the collection. */
    method Insert(id: Id, p: Product)
      requires Valid() && ProductModel.Valid(p)
      requires id !in products
      modifies this
      ensures Valid()
      ensures products == old(products)[id := p] && catalog == old(catalog) + [id]
      ensures carts == old(carts) && orders == old(orders)
    {
      PutProduct(products, id, p);
      ListAdded(catalog, products, id, p);
      products := products[id := p];
      catalog := catalog + [id];
    }

    /**
     * updateProduct: not-found first; images replaced only when files were
     * uploaded; each field set to its input when truthy; the validators
     * decide whether the result is saved. Files can only come in a
     * multipart body.
     */
    method UpdateProduct(caller: Caller, id: Id, input: ProductInput, body: Body, uploads: seq<Image>)
      returns (r: Result<Product>)
      requires IsAdmin(caller)
      requires |uploads| > 0 ==> body == Multipart
      requires Valid()
      modifies this
      ensures Valid()
      ensures catalog == old(catalog) && carts == old(carts) && orders == old(orders)
      ensures Canon(id) !in old(products) ==> r == Err(ProductNotFound)
      ensures Canon(id) in old(products) ==> r == SaveMerged(old(products)[Canon(id)], input, body, uploads)
      ensures r.Ok? ==> products == old(products)[Canon(id) := r.value]
      ensures r.Err? ==> products == old(products)
    {
      var key := Canon(id);
      if key !in products {
        return Err(ProductNotFound);
      }
      var product := products[key];
      if |uploads| > 0 {
        var images := CollectImages(uploads);
        product := product.(images := images);
      }
      product := product.(name := Trim(StrOr(input.name, product.name)));
      product := product.(description := StrOr(input.description, product.description));
      product := product.(price := NumOr(input.price, body, product.price));
      product := product.(category := StrOr(input.category, product.category));
      product := product.(stock := NumOr(input.stock, body, product.stock));
      assert product == Merge(old(products)[key], input, body, uploads);
      var errs := Errors(product);
      if errs != [] {
        return Err(ValidationFailed(errs));
      }
      assert SaveMerged(old(products)[key], input, body, uploads) == Ok(product);
      Replace(key, product);
      return Ok(product);
    }

    /** Saves a valid document over a stored product; the collection order is kept. */
    method Replace(id: Id, p: Product)
      requires Valid() && ProductModel.Valid(p)
      requires id in products
      modifies this
      ensures Valid()
      ensures products == old(products)[id := p]
      ensures catalog == old(catalog) && carts == old(carts) && orders == old(orders)
    {
      PutProduct(products, id, p);
      products := products[id := p];
    }

    /** deleteProduct: not-found, or exactly that product removed. */
    method DeleteProduct(caller: Caller, id: Id) returns (r: Result<Id>)
      requires IsAdmin(caller)
      requires Valid()
      modifies this
      ensures Valid()
      ensures carts == old(carts) && orders == old(orders)
      ensures Canon(id) !in old(products) ==> r == Err(ProductNotFound) && products == old(products) && catalog == old(catalog)
      ensures Canon(id) in old(products) ==>
        && r == Ok(Canon(id))
        && products == old(products) - {Canon(id)}
        && catalog == Without(old(catalog), Canon(id))
    {
      var key := Canon(id);
      if key !in products {
        return Err(ProductNotFound);
      }
      ListRemoved(catalog, products, key);
      products := products - {key};
      catalog := Without(catalog, key);
      return Ok(key);
    }
  }

  /** The product the repository's integration script creates, after its price update. */
  const TestPlant: Product := Product("Test Plant", "A beautiful test plant", 3999, "category-1", 10, [], 0, 0)

  /** The product id the script sends is already in the form the ObjectId cast produces. */
  lemma ProductIdIsCast()
    ensures Canon("p1") == "p1"
  {
    CanonOfLower("p1");
  }

  /** So is the order id. */
  lemma OrderIdIsCast()
    ensures Canon("o1") == "o1"
  {
    CanonOfLower("o1");
  }

  /** The product the script posts, at 29.99. */
  const ScriptProduct: ProductInput :=
    ProductInput(Some("Test Plant"), Some("A beautiful test plant"), Some(2999), Some("category-1"), Some(10))

  /** That request builds the test plant at its first price. */
  lemma ScriptProductBuilds()
    ensures Build(ScriptProduct, []) == Ok(TestPlant.(price := 2999))
  {
    var name := "Test Plant";
    assert name[0] == 'T' && name[|name| - 1] == 't';
    assert Trimmed(name);
    TrimOfTrimmed(name);
  }

  /** The integration script's first step: an admin creates the product at its first price, under the id the store assigns. */
  method CreateScenario(id: Id) returns (shop: Shop)
    requires Canon(id) == id
    ensures shop.Valid()
    ensures shop.products == map[id := TestPlant.(price := 2999)] && shop.catalog == [id]
    ensures shop.carts == map[] && shop.orders == map[]
  {
    shop := new Shop();
    var created := shop.CreateProduct(Caller("admin-1", "admin"), ScriptProduct, [], id);
    ScriptProductBuilds();
  }

  /** The script's price update: only the new price is sent, as JSON, and every other field is kept. */
  method PriceScenario(shop: Shop, id: Id, price: int)
    requires shop.Valid()
    requires Canon(id) in shop.products && price > 0
    modifies shop
    ensures shop.Valid()
    ensures var key := Canon(id);
      shop.products == old(shop.products)[key := old(shop.products)[key].(price := price)]
    ensures shop.catalog == old(shop.catalog) && shop.carts == old(shop.carts) && shop.orders == old(shop.orders)
  {
    PriceOnlyUpdate(shop.products[Canon(id)], price, Json);
    var updated := shop.UpdateProduct(Caller("admin-1", "admin"), id, ProductInput(None, None, Some(price), None, None), Json, []);
    assert updated.Ok?;
  }

  /** The script's first cart step: adding 2 to an empty cart opens it with one line at the product's price. */
  method AddScenario(shop: Shop)
    requires shop.Valid()
    requires "p1" in shop.products && shop.carts == map[]
    requires shop.products["p1"].stock >= 2 && shop.products["p1"].price == 3999
    modifies shop
    ensures shop.Valid()
    ensures shop.products == old(shop.products) && shop.orders == old(shop.orders)
    ensures shop.carts == map["user-1" := Cart([CartLine("p1", 2, 3999)], 0)]
  {
    ProductIdIsCast();
    assert AddItem([], "p1", 2, 3999) == [CartLine("p1", 2, 3999)];
    var added := shop.AddToCart(Caller("user-1", "user"), "p1", 2);
  }

  /** The cart step behind the script's second request, on the line itself. */
  lemma SetLineToThree()
    ensures var items := [CartLine("p1", 2, 3999)];
      && HasLine(items, "p1")
      && SetQuantity(items, "p1", 3) == Some([CartLine("p1", 3, 3999)])
  {
    var items := [CartLine("p1", 2, 3999)];
    assert items[0].product == "p1";
    assert FindIndex(items, "p1") == 0;
    var set3 := items[0 := items[0].(quantity := 3)];
    assert |set3| == 1 && set3[0] == CartLine("p1", 3, 3999);
    assert set3 == [CartLine("p1", 3, 3999)];
  }

  /** The script's second cart step: setting the line to 3 replaces its quantity rather than adding to it. */
  method SetScenario(shop: Shop)
    requires shop.Valid()
    requires "p1" in shop.products && shop.products["p1"].stock >= 3
    requires shop.carts == map["user-1" := Cart([CartLine("p1", 2, 3999)], 0)]
    modifies shop
    ensures shop.Valid()
    ensures shop.products == old(shop.products) && shop.orders == old(shop.orders)
    ensures shop.carts == map["user-1" := Cart([CartLine("p1", 3, 3999)], 0)]
  {
    ProductIdIsCast();
    SetLineToThree();
    var changed := shop.UpdateCartItem(Caller("user-1", "user"), "p1", 3);
  }

  /** The script's order step: placing the order takes 3 from the stock of 10 and empties the cart. */
  method OrderScenario(shop: Shop)
    requires shop.Valid()
    requires shop.products == map["p1" := TestPlant]
    requires shop.carts == map["user-1" := Cart([CartLine("p1", 3, 3999)], 0)]
    requires shop.orders == map[]
    modifies shop
    ensures shop.Valid()
    ensures shop.carts == map[]
    ensures shop.products == map["p1" := TestPlant.(stock := 7)]
    ensures "o1" in shop.orders && shop.orders["o1"].user == "user-1"
  {
    var user := Caller("user-1", "user");
    var lines := [CartLine("p1", 3, 3999)];
    assert AllInStock(shop.products, lines);
    OrderIdIsCast();
    var placed := shop.CreateOrder(user, "123 Test St", "COD", "o1");
    assert placed.Ok?;
    assert placed.value.items == [OrderLine("p1", "Test Plant", 3, 3999)];
    assert lines[..0] == [];
    assert shop.products == map["p1" := TestPlant.(stock := 7)];
  }

  /** The script's last step: an admin confirms the order it placed. */
  method ConfirmScenario(shop: Shop)
    requires shop.Valid()
    requires "o1" in shop.orders
    modifies shop
    ensures shop.Valid()
    ensures shop.products == old(shop.products) && shop.carts == old(shop.carts)
    ensures "o1" in shop.orders && shop.orders["o1"].orderStatus == Some("Confirmed")
  {
    OrderIdIsCast();
    var confirmed := shop.UpdateOrderStatus(Caller("admin-1", "admin"), "o1", Some("Confirmed"), None);
    assert confirmed.Ok? && confirmed.value.orderStatus == Some("Confirmed");
  }
}
