/**
 * The line-level rules of controllers/cartController.js, on values: how
 * `findIndex`, the `+=` and `=` on a line's quantity, `push` and `filter`
 * change a cart's sequence of lines, and the "one line per product"
 * invariant they keep.
 */
module CartRules {
  import opened Common

  /** One line of a cart: a product, how many, and the unit price captured when it was added. */
  datatype CartLine = CartLine(product: Id, quantity: int, price: int)

  /**
   * A cart. Its total is carried as the stored document has it; the cart
   * schema that may recompute it on save is not part of this model.
   */
  datatype Cart = Cart(items: seq<CartLine>, totalPrice: int)

  /** The document `Cart.create` starts from, and what getCart sends when there is no cart. */
  const NewCart: Cart := Cart([], 0)

  /** No product has two lines. */
  predicate OneLinePerProduct(items: seq<CartLine>) {
    forall i, j :: 0 <= i < j < |items| ==> items[i].product != items[j].product
  }

  predicate HasLine(items: seq<CartLine>, pid: Id) {
    exists i :: 0 <= i < |items| && items[i].product == pid
  }

  /** `items.findIndex(item => item.product === pid)`: the first line for pid, or -1. */
  function FindIndex(items: seq<CartLine>, pid: Id): (k: int)
    ensures -1 <= k < |items|
    ensures k >= 0 ==> items[k].product == pid
    ensures forall j :: 0 <= j < |items| && (k < 0 || j < k) ==> items[j].product != pid
  {
    if items == [] then -1
    else if items[0].product == pid then 0
    else
      var k := FindIndex(items[1..], pid);
      if k < 0 then -1 else k + 1
  }

  /** How much of a product one line holds. */
  function Contribution(line: CartLine, pid: Id): int {
    if line.product == pid then line.quantity else 0
  }

  /** The total quantity of a product over all lines. */
  function QtyOf(items: seq<CartLine>, pid: Id): int {
    if items == [] then 0 else Contribution(items[0], pid) + QtyOf(items[1..], pid)
  }

  lemma {:induction false} QtyOfAppend(items: seq<CartLine>, x: CartLine, pid: Id)
    ensures QtyOf(items + [x], pid) == QtyOf(items, pid) + Contribution(x, pid)
  {
    if items != [] {
      assert (items + [x])[1..] == items[1..] + [x];
      QtyOfAppend(items[1..], x, pid);
    }
  }

  lemma {:induction false} QtyOfUpdate(items: seq<CartLine>, k: nat, x: CartLine, pid: Id)
    requires k < |items|
    ensures QtyOf(items[k := x], pid) == QtyOf(items, pid) - Contribution(items[k], pid) + Contribution(x, pid)
  {
    if k > 0 {
      assert items[k := x][1..] == items[1..][k - 1 := x];
      QtyOfUpdate(items[1..], k - 1, x, pid);
    } else {
      assert items[k := x][1..] == items[1..];
    }
  }

  /** A product with no line has quantity 0. */
  lemma {:induction false} QtyOfAbsent(items: seq<CartLine>, pid: Id)
    requires !HasLine(items, pid)
    ensures QtyOf(items, pid) == 0
  {
    if items != [] {
      assert !HasLine(items[1..], pid) by {
        forall i | 0 <= i < |items[1..]| ensures items[1..][i].product != pid {
          assert items[1..][i] == items[i + 1];
        }
      }
      QtyOfAbsent(items[1..], pid);
    }
  }

  /** Under the invariant, a product's quantity is that of its one line. */
  lemma {:induction false} QtyOfUnique(items: seq<CartLine>, k: nat)
    requires OneLinePerProduct(items) && k < |items|
    ensures QtyOf(items, items[k].product) == items[k].quantity
  {
    var pid := items[k].product;
    if k == 0 {
      assert !HasLine(items[1..], pid) by {
        forall i | 0 <= i < |items[1..]| ensures items[1..][i].product != pid {
          assert items[1..][i] == items[i + 1];
        }
      }
      QtyOfAbsent(items[1..], pid);
    } else {
      assert items[1..][k - 1] == items[k];
      QtyOfUnique(items[1..], k - 1);
    }
  }

  /**
   * addToCart once the cart exists: `+=` on the product's line, or
   * `push` of a new line carrying the price given.
   */
  function AddItem(items: seq<CartLine>, pid: Id, q: int, price: int): seq<CartLine> {
    var k := FindIndex(items, pid);
    if k >= 0 then items[k := items[k].(quantity := items[k].quantity + q)]
    else items + [CartLine(pid, q, price)]
  }

  /**
   * Adding raises the product's quantity by q and nobody else's; an existing
   * line keeps its place and its price, otherwise exactly one line
   * {pid, q, price} is appended; every other line is untouched.
   */
  lemma AddItemEffect(items: seq<CartLine>, pid: Id, q: int, price: int)
    requires OneLinePerProduct(items)
    ensures var r := AddItem(items, pid, q, price);
      && OneLinePerProduct(r)
      && QtyOf(r, pid) == QtyOf(items, pid) + q
      && (forall other :: other != pid ==> QtyOf(r, other) == QtyOf(items, other))
      && (forall j :: 0 <= j < |items| && items[j].product != pid ==> r[j] == items[j])
      && (forall j :: 0 <= j < |items| && items[j].product == pid ==>
            r[j] == items[j].(quantity := items[j].quantity + q))
      && (HasLine(items, pid) ==> |r| == |items|)
      && (!HasLine(items, pid) ==> |r| == |items| + 1 && r[|items|] == CartLine(pid, q, price))
  {
    var k := FindIndex(items, pid);
    var r := AddItem(items, pid, q, price);
    if k >= 0 {
      var x := items[k].(quantity := items[k].quantity + q);
      QtyOfUnique(items, k);
      QtyOfUnique(r, k);
      forall other | other != pid ensures QtyOf(r, other) == QtyOf(items, other) {
        QtyOfUpdate(items, k, x, other);
      }
    } else {
      var x := CartLine(pid, q, price);
      QtyOfAppend(items, x, pid);
      forall other | other != pid ensures QtyOf(r, other) == QtyOf(items, other) {
        QtyOfAppend(items, x, other);
      }
    }
  }

  /** Adding keeps one line per product. */
  lemma AddItemKeepsInvariant(items: seq<CartLine>, pid: Id, q: int, price: int)
    requires OneLinePerProduct(items)
    ensures OneLinePerProduct(AddItem(items, pid, q, price))
  {
    AddItemEffect(items, pid, q, price);
  }

  /**
   * addToCart's line handling as the controller writes it: the line is
   * looked for by comparing each stored reference's lower-case text with the
   * id as the request sent it, while a pushed line stores the cast id.
   */
  function AddItemAsWritten(items: seq<CartLine>, requested: Id, q: int, price: int): (r: seq<CartLine>)
    ensures HasLine(items, requested) ==> r == AddItem(items, requested, q, price)
    ensures !HasLine(items, requested) ==> r == items + [CartLine(Canon(requested), q, price)]
  {
    if FindIndex(items, requested) >= 0 then AddItem(items, requested, q, price)
    else items + [CartLine(Canon(requested), q, price)]
  }

  /**
   * Adding a product twice under its id in upper case: each time the line
   * is missed and a line under the cast id is pushed, so the cart ends with
   * two lines for one product.
   */
  lemma UpperCaseIdDuplicatesLine()
    ensures var twice := AddItemAsWritten(AddItemAsWritten([], "FE", 3, 1500), "FE", 3, 1500);
      && twice == [CartLine("fe", 3, 1500), CartLine("fe", 3, 1500)]
      && !OneLinePerProduct(twice)
  {
    assert Canon("FE") == "fe";
    var once := [CartLine("fe", 3, 1500)];
    assert AddItemAsWritten([], "FE", 3, 1500) == once;
    assert once[0].product != "FE";
    assert !HasLine(once, "FE");
    var twice := once + [CartLine("fe", 3, 1500)];
    assert AddItemAsWritten(once, "FE", 3, 1500) == twice;
    assert twice[0].product == twice[1].product;
  }

  /** Matching the line under the cast id instead, the second add raises the one line. */
  lemma CastIdMergesLine()
    ensures var pid := Canon("FE");
      AddItem(AddItem([], pid, 3, 1500), pid, 3, 1500) == [CartLine("fe", 6, 1500)]
  {
    assert Canon("FE") == "fe";
    var once := [CartLine("fe", 3, 1500)];
    assert AddItem([], "fe", 3, 1500) == once;
    assert FindIndex(once, "fe") == 0;
  }

  /** updateCartItem's `= q` on the product's line; None when the product has no line. */
  function SetQuantity(items: seq<CartLine>, pid: Id, q: int): Option<seq<CartLine>> {
    var k := FindIndex(items, pid);
    if k < 0 then None else Some(items[k := items[k].(quantity := q)])
  }

  /**
   * Setting succeeds exactly when the product has a line; the line's
   * quantity becomes q (whatever it was), its price stays, and every other
   * line is untouched.
   */
  lemma SetQuantityEffect(items: seq<CartLine>, pid: Id, q: int)
    requires OneLinePerProduct(items)
    ensures SetQuantity(items, pid, q).Some? <==> HasLine(items, pid)
    ensures SetQuantity(items, pid, q).Some? ==>
      var r := SetQuantity(items, pid, q).value;
      && OneLinePerProduct(r)
      && |r| == |items|
      && QtyOf(r, pid) == q
      && (forall other :: other != pid ==> QtyOf(r, other) == QtyOf(items, other))
      && (forall j :: 0 <= j < |items| && items[j].product != pid ==> r[j] == items[j])
      && (forall j :: 0 <= j < |items| && items[j].product == pid ==> r[j] == items[j].(quantity := q))
  {
    var k := FindIndex(items, pid);
    if k >= 0 {
      var x := items[k].(quantity := q);
      var r := items[k := x];
      QtyOfUnique(r, k);
      forall other | other != pid ensures QtyOf(r, other) == QtyOf(items, other) {
        QtyOfUpdate(items, k, x, other);
      }
    }
  }

  /** removeFromCart's `filter(item => item.product !== pid)`. */
  function RemoveItem(items: seq<CartLine>, pid: Id): (r: seq<CartLine>)
    ensures forall line :: line in r <==> line in items && line.product != pid
    ensures |r| <= |items|
  {
    if items == [] then []
    else (if items[0].product == pid then [] else [items[0]]) + RemoveItem(items[1..], pid)
  }

  /** Filtering distributes over concatenation: the kept lines stay in their order. */
  lemma {:induction false} RemoveItemConcat(a: seq<CartLine>, b: seq<CartLine>, pid: Id)
    ensures RemoveItem(a + b, pid) == RemoveItem(a, pid) + RemoveItem(b, pid)
  {
    if a != [] {
      assert (a + b)[1..] == a[1..] + b;
      RemoveItemConcat(a[1..], b, pid);
    } else {
      assert a + b == b;
    }
  }

  /** Removing a product that has no line changes nothing. */
  lemma {:induction false} RemoveAbsentIsNoOp(items: seq<CartLine>, pid: Id)
    requires !HasLine(items, pid)
    ensures RemoveItem(items, pid) == items
  {
    if items != [] {
      assert !HasLine(items[1..], pid) by {
        forall i | 0 <= i < |items[1..]| ensures items[1..][i].product != pid {
          assert items[1..][i] == items[i + 1];
        }
      }
      RemoveAbsentIsNoOp(items[1..], pid);
      assert items == [items[0]] + items[1..];
    }
  }

  /** Dropping the first line keeps the invariant. */
  lemma TailKeepsInvariant(items: seq<CartLine>)
    requires OneLinePerProduct(items) && items != []
    ensures OneLinePerProduct(items[1..])
  {
    var tail := items[1..];
    forall i, j | 0 <= i < j < |tail| ensures tail[i].product != tail[j].product {
      assert tail[i] == items[i + 1] && tail[j] == items[j + 1];
    }
  }

  /** A line put in front of lines for other products keeps the invariant. */
  lemma ConsKeepsInvariant(x: CartLine, rest: seq<CartLine>)
    requires OneLinePerProduct(rest)
    requires forall j :: 0 <= j < |rest| ==> rest[j].product != x.product
    ensures OneLinePerProduct([x] + rest)
  {
    var r := [x] + rest;
    forall i, j | 0 <= i < j < |r| ensures r[i].product != r[j].product {
      assert r[j] == rest[j - 1];
      if i > 0 {
        assert r[i] == rest[i - 1];
      }
    }
  }

  /** Under the invariant no later line belongs to the first line's product. */
  lemma FirstIsAlone(items: seq<CartLine>, rest: seq<CartLine>)
    requires OneLinePerProduct(items) && items != []
    requires forall line :: line in rest ==> line in items[1..]
    ensures forall j :: 0 <= j < |rest| ==> rest[j].product != items[0].product
  {
    var tail := items[1..];
    forall j | 0 <= j < |rest| ensures rest[j].product != items[0].product {
      assert rest[j] in tail;
      var i :| 0 <= i < |tail| && tail[i] == rest[j];
      assert tail[i] == items[i + 1];
    }
  }

  /** Filtering lines out keeps one line per product. */
  lemma {:induction false} RemoveItemKeepsInvariant(items: seq<CartLine>, pid: Id)
    requires OneLinePerProduct(items)
    ensures OneLinePerProduct(RemoveItem(items, pid))
  {
    if items != [] {
      var tail := items[1..];
      TailKeepsInvariant(items);
      RemoveItemKeepsInvariant(tail, pid);
      var rt := RemoveItem(tail, pid);
      if items[0].product != pid {
        FirstIsAlone(items, rt);
        ConsKeepsInvariant(items[0], rt);
        assert RemoveItem(items, pid) == [items[0]] + rt;
      } else {
        assert RemoveItem(items, pid) == [] + rt;
        assert [] + rt == rt;
      }
    }
  }

  /** Filtering takes the product's quantity to 0 and keeps everybody else's. */
  lemma {:induction false} RemoveItemQty(items: seq<CartLine>, pid: Id, other: Id)
    ensures QtyOf(RemoveItem(items, pid), other) == if other == pid then 0 else QtyOf(items, other)
  {
    if items != [] {
      RemoveItemQty(items[1..], pid, other);
      var head := if items[0].product == pid then [] else [items[0]];
      var rt := RemoveItem(items[1..], pid);
      assert RemoveItem(items, pid) == head + rt;
      if head == [] {
        assert head + rt == rt;
      } else {
        assert (head + rt)[1..] == rt;
      }
    }
  }

  /**
   * Removing keeps the invariant, leaves no line for the product and keeps
   * every other product's quantity.
   */
  lemma RemoveItemEffect(items: seq<CartLine>, pid: Id)
    requires OneLinePerProduct(items)
    ensures var r := RemoveItem(items, pid);
      && OneLinePerProduct(r)
      && !HasLine(r, pid)
      && QtyOf(r, pid) == 0
      && (forall other :: other != pid ==> QtyOf(r, other) == QtyOf(items, other))
  {
    var r := RemoveItem(items, pid);
    RemoveItemKeepsInvariant(items, pid);
    RemoveItemQty(items, pid, pid);
    forall other | other != pid ensures QtyOf(r, other) == QtyOf(items, other) {
      RemoveItemQty(items, pid, other);
    }
    forall i | 0 <= i < |r| ensures r[i].product != pid {
      assert r[i] in r;
    }
  }

  /**
   * updateCartItem and removeFromCart compare with the id as sent, so under
   * the upper-case id the line is not found and nothing is removed; under
   * the cast id the line is set and removed.
   */
  lemma UpperCaseIdMissesLine()
    ensures var items := [CartLine("fe", 3, 1500)];
      && SetQuantity(items, "FE", 5) == None
      && RemoveItem(items, "FE") == items
      && SetQuantity(items, Canon("FE"), 5) == Some([CartLine("fe", 5, 1500)])
      && RemoveItem(items, Canon("FE")) == []
  {
    assert Canon("FE") == "fe";
    var items := [CartLine("fe", 3, 1500)];
    assert items[0].product != "FE";
    assert items[1..] == [];
    assert RemoveItem(items, "FE") == [items[0]] + RemoveItem([], "FE");
    assert RemoveItem(items, "fe") == [] + RemoveItem([], "fe");
    assert FindIndex(items, "fe") == 0;
    var set5 := items[0 := items[0].(quantity := 5)];
    assert |set5| == 1 && set5[0] == CartLine("fe", 5, 1500);
    assert set5 == [CartLine("fe", 5, 1500)];
  }
}
