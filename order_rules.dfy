/**
 * The rules of controllers/orderController.js that do not depend on the
 * tables' identity: the stock pre-check, the snapshot of cart lines into
 * order lines, the stock decrement as a function of the lines, the
 * admin-or-owner access test and the status patch.
 */
module OrderRules {
  import opened Common
  import opened ProductModel
  import opened CartRules

  /** An order line: a copy made when the order is placed, not a link to the product. */
  datatype OrderLine = OrderLine(product: Id, name: string, quantity: int, price: int)

  /**
   * An order. The statuses are None until an admin sets them: their
   * initial values are the order schema's defaults, which are not part of
   * this model. The shipping address and payment method are passed through
   * as the client sent them.
   */
  datatype Order = Order(
    user: Id,
    items: seq<OrderLine>,
    shippingAddress: string,
    paymentMethod: string,
    totalPrice: int,
    orderStatus: Option<string>,
    paymentStatus: Option<string>)

  /** Why one line fails the pre-check, if it does. */
  function Shortfall(products: map<Id, Product>, line: CartLine): Option<Error> {
    if line.product !in products then Some(ProductUnavailable)
    else if products[line.product].stock < line.quantity then Some(NotEnoughStockFor(products[line.product].name))
    else None
  }

  predicate InStock(products: map<Id, Product>, line: CartLine) {
    line.product in products && products[line.product].stock >= line.quantity
  }

  predicate AllInStock(products: map<Id, Product>, lines: seq<CartLine>) {
    forall i :: 0 <= i < |lines| ==> InStock(products, lines[i])
  }

  /** The error of the first line that fails the pre-check, in cart order. */
  function FirstShortfall(products: map<Id, Product>, lines: seq<CartLine>): Option<Error> {
    if lines == [] then None
    else if Shortfall(products, lines[0]).Some? then Shortfall(products, lines[0])
    else FirstShortfall(products, lines[1..])
  }

  /**
   * No shortfall exactly when every line's product exists and has the stock
   * for the line; otherwise the error is that of some line all of whose
   * predecessors pass.
   */
  lemma {:induction false} FirstShortfallMeaning(products: map<Id, Product>, lines: seq<CartLine>)
    ensures FirstShortfall(products, lines).None? <==> AllInStock(products, lines)
    ensures FirstShortfall(products, lines).Some? ==>
      exists k :: 0 <= k < |lines| && FirstShortfall(products, lines) == Shortfall(products, lines[k])
              && forall j :: 0 <= j < k ==> InStock(products, lines[j])
  {
    if lines != [] {
      var tail := lines[1..];
      FirstShortfallMeaning(products, tail);
      assert forall j :: 0 <= j < |tail| ==> tail[j] == lines[j + 1];
      if Shortfall(products, lines[0]).None? {
        assert AllInStock(products, lines) <==> AllInStock(products, tail);
        if FirstShortfall(products, tail).Some? {
          var k :| 0 <= k < |tail| && FirstShortfall(products, tail) == Shortfall(products, tail[k])
                   && forall j :: 0 <= j < k ==> InStock(products, tail[j]);
          assert FirstShortfall(products, lines) == Shortfall(products, lines[k + 1]);
          assert forall j :: 0 <= j < k + 1 ==> InStock(products, lines[j]);
        }
      } else {
        assert FirstShortfall(products, lines) == Shortfall(products, lines[0]);
      }
    }
  }

  /** The pre-check loop of createOrder: it stops at the first line that fails. */
  method CheckStock(products: map<Id, Product>, lines: seq<CartLine>) returns (failure: Option<Error>)
    ensures failure == FirstShortfall(products, lines)
  {
    var i := 0;
    while i < |lines|
      invariant 0 <= i <= |lines|
      invariant FirstShortfall(products, lines) == FirstShortfall(products, lines[i..])
    {
      var line := lines[i];
      assert lines[i..][1..] == lines[i + 1..];
      if line.product !in products {
        return Some(ProductUnavailable);
      }
      if products[line.product].stock < line.quantity {
        return Some(NotEnoughStockFor(products[line.product].name));
      }
      i := i + 1;
    }
    return None;
  }

  /**
   * The `cart.items.map(...)` snapshot: one order line per cart line, in
   * order, with the product's name and the price the cart line captured.
   */
  function Snapshot(products: map<Id, Product>, lines: seq<CartLine>): (r: seq<OrderLine>)
    requires forall i :: 0 <= i < |lines| ==> lines[i].product in products
    ensures |r| == |lines|
    ensures forall i :: 0 <= i < |lines| ==>
      r[i] == OrderLine(lines[i].product, products[lines[i].product].name, lines[i].quantity, lines[i].price)
  {
    if lines == [] then []
    else
      [OrderLine(lines[0].product, products[lines[0].product].name, lines[0].quantity, lines[0].price)]
      + Snapshot(products, lines[1..])
  }

  /** The order's prices come from the cart: a different live price of any product gives the same order lines. */
  lemma SnapshotIgnoresLivePrice(products: map<Id, Product>, lines: seq<CartLine>, id: Id, livePrice: int)
    requires id in products
    requires forall i :: 0 <= i < |lines| ==> lines[i].product in products
    ensures Snapshot(products[id := products[id].(price := livePrice)], lines) == Snapshot(products, lines)
  {
  }

  /** `findByIdAndUpdate(line.product, { $inc: { stock: -line.quantity } })`; an absent product is left alone. */
  function DecOne(products: map<Id, Product>, line: CartLine): map<Id, Product> {
    if line.product in products
    then products[line.product := products[line.product].(stock := products[line.product].stock - line.quantity)]
    else products
  }

  /** The catalog after the decrement loop has run over the given lines in order. */
  function Decremented(products: map<Id, Product>, lines: seq<CartLine>): map<Id, Product>
    decreases |lines|
  {
    if lines == [] then products
    else DecOne(Decremented(products, lines[..|lines| - 1]), lines[|lines| - 1])
  }

  /**
   * After the loop every product is as before except that its stock fell
   * by exactly the total quantity its lines ordered.
   */
  lemma {:induction false} DecrementedEffect(products: map<Id, Product>, lines: seq<CartLine>)
    ensures Decremented(products, lines).Keys == products.Keys
    ensures forall id :: id in products ==>
      Decremented(products, lines)[id] == products[id].(stock := products[id].stock - QtyOf(lines, id))
    decreases |lines|
  {
    if lines != [] {
      var init, last := lines[..|lines| - 1], lines[|lines| - 1];
      assert lines == init + [last];
      DecrementedEffect(products, init);
      forall id | id in products
        ensures Decremented(products, lines)[id] == products[id].(stock := products[id].stock - QtyOf(lines, id))
      {
        QtyOfAppend(init, last, id);
      }
    }
  }

  /** Under the pre-check and the invariant, no product's lines ask for more than its stock. */
  lemma {:induction false} OrderedWithinStock(products: map<Id, Product>, lines: seq<CartLine>, id: Id)
    requires id in products && products[id].stock >= 0
    requires OneLinePerProduct(lines) && AllInStock(products, lines)
    ensures QtyOf(lines, id) <= products[id].stock
  {
    if HasLine(lines, id) {
      var k :| 0 <= k < |lines| && lines[k].product == id;
      QtyOfUnique(lines, k);
      assert InStock(products, lines[k]);
    } else {
      QtyOfAbsent(lines, id);
    }
  }

  /**
   * The pre-check and the one-line-per-product invariant together keep
   * every product valid, so no stock goes negative.
   */
  lemma {:induction false} StockStaysValid(products: map<Id, Product>, lines: seq<CartLine>)
    requires forall id :: id in products ==> Valid(products[id])
    requires OneLinePerProduct(lines) && AllInStock(products, lines)
    ensures forall id :: id in Decremented(products, lines) ==>
      Valid(Decremented(products, lines)[id]) && Decremented(products, lines)[id].stock >= 0
  {
    var after := Decremented(products, lines);
    DecrementedEffect(products, lines);
    forall id | id in after ensures Valid(after[id]) && after[id].stock >= 0 {
      var p := products[id];
      assert Valid(p);
      OrderedWithinStock(products, lines, id);
      assert after[id] == p.(stock := p.stock - QtyOf(lines, id));
    }
  }

  /**
   * Without the invariant the pre-check would not protect the stock: two
   * lines of 3 for a product with stock 5 each pass the pre-check, and the
   * stock would end at -1.
   */
  lemma DuplicateLinesOverdraw()
    ensures var fern := Product("Fern", "A fern", 1500, "plants", 5, [], 0, 0);
      var products := map["fe" := fern];
      var lines := [CartLine("fe", 3, 1500), CartLine("fe", 3, 1500)];
      && Valid(fern)
      && AllInStock(products, lines)
      && !OneLinePerProduct(lines)
      && "fe" in Decremented(products, lines)
      && Decremented(products, lines)["fe"].stock == -1
  {
    var fern := Product("Fern", "A fern", 1500, "plants", 5, [], 0, 0);
    var products := map["fe" := fern];
    var lines := [CartLine("fe", 3, 1500), CartLine("fe", 3, 1500)];
    DecrementedEffect(products, lines);
    assert lines[1..][1..] == [];
    assert QtyOf(lines, "fe") == 6;
  }

  /** The admin-or-owner rule of getOrderById. */
  predicate CanView(caller: Caller, order: Order) {
    IsAdmin(caller) || order.user == caller.userId
  }

  /**
   * updateOrderStatus's `x || order.x` on both statuses: a truthy input
   * replaces the status, whatever it was; anything else keeps it.
   */
  function PatchStatus(order: Order, orderStatus: Option<string>, paymentStatus: Option<string>): (r: Order)
    ensures r.orderStatus == if TruthyStr(orderStatus) then Some(orderStatus.value) else order.orderStatus
    ensures r.paymentStatus == if TruthyStr(paymentStatus) then Some(paymentStatus.value) else order.paymentStatus
    ensures r.(orderStatus := order.orderStatus, paymentStatus := order.paymentStatus) == order
  {
    order.(orderStatus := if TruthyStr(orderStatus) then Some(orderStatus.value) else order.orderStatus,
           paymentStatus := if TruthyStr(paymentStatus) then Some(paymentStatus.value) else order.paymentStatus)
  }

  /** Applying the same patch twice is applying it once. */
  lemma PatchStatusIdempotent(order: Order, orderStatus: Option<string>, paymentStatus: Option<string>)
    ensures PatchStatus(PatchStatus(order, orderStatus, paymentStatus), orderStatus, paymentStatus)
         == PatchStatus(order, orderStatus, paymentStatus)
  {
  }
}
