/**
 * The shopping cart: an ordered list of lines, each a catalog product with a
 * quantity. The two updaters (add to cart, change quantity) are functions from
 * the old list to the new one, and the item count and the total are folds
 * over the list.
 */
module ShoppingCart {
  import opened Optional
  import opened Catalog

  /** One cart line. */
  datatype CartItem = CartItem(product: Product, quantity: int)

  /** No two lines are for the same product id. */
  ghost predicate OneLinePerProduct(cart: seq<CartItem>)
  {
    forall i, j :: 0 <= i < j < |cart| ==> cart[i].product.id != cart[j].product.id
  }

  /** Every line holds at least one unit. */
  ghost predicate PositiveQuantities(cart: seq<CartItem>)
  {
    forall i :: 0 <= i < |cart| ==> cart[i].quantity >= 1
  }

  /** The cart invariant: one line per product id, every quantity at least 1. */
  ghost predicate WellFormed(cart: seq<CartItem>)
  {
    OneLinePerProduct(cart) && PositiveQuantities(cart)
  }

  /** Some line of the cart is for product `id`. */
  ghost predicate HasLine(cart: seq<CartItem>, id: int)
  {
    exists i :: 0 <= i < |cart| && cart[i].product.id == id
  }

  // ---------------------------------------------------------------------------
  // Add to cart

  /** The first line for product `id`, if any (JavaScript's `find`). */
  function Find(cart: seq<CartItem>, id: int): (r: Option<CartItem>)
    ensures r.None? <==> !HasLine(cart, id)
    ensures r.Some? ==> r.value in cart && r.value.product.id == id
    ensures r.Some? ==>
      exists k :: 0 <= k < |cart| && cart[k] == r.value && forall j :: 0 <= j < k ==> cart[j].product.id != id
  {
    if cart == [] then None
    else if cart[0].product.id == id then Some(cart[0])
    else
      var r := Find(cart[1..], id);
      assert r.Some? ==> r.value in cart;
      assert HasLine(cart[1..], id) ==> HasLine(cart, id) by {
        if HasLine(cart[1..], id) {
          var i :| 0 <= i < |cart[1..]| && cart[1..][i].product.id == id;
          assert cart[i + 1].product.id == id;
        }
      }
      assert r.Some? ==>
        exists k :: 0 <= k < |cart| && cart[k] == r.value && forall j :: 0 <= j < k ==> cart[j].product.id != id
      by {
        if r.Some? {
          var k :| 0 <= k < |cart[1..]| && cart[1..][k] == r.value
            && forall j :: 0 <= j < k ==> cart[1..][j].product.id != id;
          assert cart[k + 1] == r.value;
          forall j | 0 <= j < k + 1
            ensures cart[j].product.id != id
          {
            if j > 0 {
              assert cart[j] == cart[1..][j - 1];
            }
          }
        }
      }
      r
  }

  /** A line for product `id` gains one unit; any other line is returned as is. */
  function BumpLine(item: CartItem, id: int): CartItem
  {
    if item.product.id == id then item.(quantity := item.quantity + 1) else item
  }

  /** The `map` step of add-to-cart. */
  function Bumped(cart: seq<CartItem>, id: int): (r: seq<CartItem>)
    ensures |r| == |cart|
  {
    seq(|cart|, i requires 0 <= i < |cart| => BumpLine(cart[i], id))
  }

  /**
   * Adding `p`: a cart that already has a line for `p.id` gets one more unit on
   * that line (the line keeps the product it already holds); otherwise a new
   * line with quantity 1 goes at the end.
   */
  function AddedToCart(cart: seq<CartItem>, p: Product): (r: seq<CartItem>)
    ensures HasLine(r, p.id)
    ensures |r| == if HasLine(cart, p.id) then |cart| else |cart| + 1
  {
    if Find(cart, p.id).Some? then
      assert HasLine(Bumped(cart, p.id), p.id) by {
        var k :| 0 <= k < |cart| && cart[k].product.id == p.id;
        assert Bumped(cart, p.id)[k].product.id == p.id;
      }
      Bumped(cart, p.id)
    else
      assert (cart + [CartItem(p, 1)])[|cart|].product.id == p.id;
      cart + [CartItem(p, 1)]
  }

  // ---------------------------------------------------------------------------
  // Change quantity

  /**
   * The `map` step of the quantity update: the line for `id` becomes
   * `quantity + delta` when that is positive and is dropped (`null`)
   * otherwise; other lines are kept.
   */
  function AdjustLine(item: CartItem, id: int, delta: int): Option<CartItem>
  {
    if item.product.id == id then
      var q := item.quantity + delta;
      if q > 0 then Some(item.(quantity := q)) else None
    else Some(item)
  }

  /** The `filter` step of the quantity update: drop the `null`s, keep the order. */
  function Compact(s: seq<Option<CartItem>>): (r: seq<CartItem>)
    ensures |r| <= |s|
  {
    if s == [] then []
    else (if s[0].Some? then [s[0].value] else []) + Compact(s[1..])
  }

  /** Both steps of the quantity update of line `id` by `delta`. */
  function UpdatedQuantity(cart: seq<CartItem>, id: int, delta: int): (r: seq<CartItem>)
    ensures |r| <= |cart|
  {
    Compact(seq(|cart|, i requires 0 <= i < |cart| => AdjustLine(cart[i], id, delta)))
  }

  // ---------------------------------------------------------------------------
  // Derived values

  /** The number of units in the cart: `reduce` of the quantities from the left, starting at 0. */
  function ItemCount(cart: seq<CartItem>): (r: int)
  {
    if cart == [] then 0 else ItemCount(cart[..|cart| - 1]) + cart[|cart| - 1].quantity
  }

  /** The cart's total in cents: `reduce` of price times quantity from the left, starting at 0. */
  function Total(cart: seq<CartItem>): (r: int)
  {
    if cart == [] then 0
    else Total(cart[..|cart| - 1]) + cart[|cart| - 1].product.price * cart[|cart| - 1].quantity
  }

  // ---------------------------------------------------------------------------
  // The folds

  /** The item count of two carts laid end to end is the sum of their counts. */
  lemma {:induction false} ItemCountAppend(a: seq<CartItem>, b: seq<CartItem>)
    ensures ItemCount(a + b) == ItemCount(a) + ItemCount(b)
  {
    if b == [] {
      assert a + b == a;
    } else {
      var ab := a + b;
      assert ab[..|ab| - 1] == a + b[..|b| - 1];
      ItemCountAppend(a, b[..|b| - 1]);
    }
  }

  /** The total of two carts laid end to end is the sum of their totals. */
  lemma {:induction false} TotalAppend(a: seq<CartItem>, b: seq<CartItem>)
    ensures Total(a + b) == Total(a) + Total(b)
  {
    if b == [] {
      assert a + b == a;
    } else {
      var ab := a + b;
      assert ab[..|ab| - 1] == a + b[..|b| - 1];
      TotalAppend(a, b[..|b| - 1]);
    }
  }

  /** A one-line cart counts that line's quantity and costs its price times its quantity. */
  lemma {:induction false} SingleLine(item: CartItem)
    ensures ItemCount([item]) == item.quantity
    ensures Total([item]) == item.product.price * item.quantity
  {
    assert [item][..0] == [];
  }

  /** The folds of a cart split around one of its lines. */
  lemma {:induction false} SplitAround(before: seq<CartItem>, item: CartItem, after: seq<CartItem>)
    ensures ItemCount(before + [item] + after) == ItemCount(before) + item.quantity + ItemCount(after)
    ensures Total(before + [item] + after) == Total(before) + item.product.price * item.quantity + Total(after)
  {
    ItemCountAppend(before + [item], after);
    ItemCountAppend(before, [item]);
    TotalAppend(before + [item], after);
    TotalAppend(before, [item]);
    SingleLine(item);
  }

  /** One more unit on one line adds one to the count and that line's price to the total. */
  lemma {:induction false} OneMoreUnit(before: seq<CartItem>, item: CartItem, after: seq<CartItem>)
    ensures ItemCount(before + [item.(quantity := item.quantity + 1)] + after) ==
      ItemCount(before + [item] + after) + 1
    ensures Total(before + [item.(quantity := item.quantity + 1)] + after) ==
      Total(before + [item] + after) + item.product.price
  {
    var line := item.(quantity := item.quantity + 1);
    SplitAround(before, item, after);
    SplitAround(before, line, after);
    PriceOfOneMore(item.product.price, item.quantity);
  }

  /** Price times one more unit is one more price. */
  lemma PriceOfOneMore(price: int, quantity: int)
    ensures price * (quantity + 1) == price * quantity + price
  {
  }

  /**
   * In a well-formed cart there are at least as many units as lines, so the
   * count shown on the cart badge is positive exactly when the cart has a
   * line; the total is never negative.
   */
  lemma {:induction false} CountAndTotalBounds(cart: seq<CartItem>)
    requires PositiveQuantities(cart)
    ensures ItemCount(cart) >= |cart|
    ensures ItemCount(cart) > 0 <==> cart != []
    ensures Total(cart) >= 0
  {
    if cart != [] {
      var init := cart[..|cart| - 1];
      assert PositiveQuantities(init);
      CountAndTotalBounds(init);
    }
  }

  // ---------------------------------------------------------------------------
  // Add to cart: properties

  /**
   * A product already in the cart: the cart keeps its length, the line for
   * that product gains exactly one unit and every other line stays the same,
   * in the same position.
   */
  lemma {:induction false} AddExisting(cart: seq<CartItem>, p: Product, k: int)
    requires OneLinePerProduct(cart)
    requires 0 <= k < |cart| && cart[k].product.id == p.id
    ensures AddedToCart(cart, p) == cart[k := cart[k].(quantity := cart[k].quantity + 1)]
  {
    assert HasLine(cart, p.id);
    var r := AddedToCart(cart, p);
    var expected := cart[k := cart[k].(quantity := cart[k].quantity + 1)];
    assert |r| == |expected|;
    forall i | 0 <= i < |r| ensures r[i] == expected[i] {
      if i != k {
        assert cart[i].product.id != p.id by {
          if i < k { assert cart[i].product.id != cart[k].product.id; }
          else { assert cart[k].product.id != cart[i].product.id; }
        }
      }
    }
  }

  /** `AddExisting`, written as the cart split around the bumped line. */
  lemma AddExistingSplit(cart: seq<CartItem>, p: Product, k: int)
    requires OneLinePerProduct(cart)
    requires 0 <= k < |cart| && cart[k].product.id == p.id
    ensures cart == cart[..k] + [cart[k]] + cart[k + 1..]
    ensures AddedToCart(cart, p) == cart[..k] + [cart[k].(quantity := cart[k].quantity + 1)] + cart[k + 1..]
  {
    AddExisting(cart, p, k);
    assert cart == cart[..k] + [cart[k]] + cart[k + 1..];
  }

  /** A product not in the cart: a line with quantity 1 is appended, earlier lines unchanged. */
  lemma {:induction false} AddNew(cart: seq<CartItem>, p: Product)
    requires !HasLine(cart, p.id)
    ensures AddedToCart(cart, p) == cart + [CartItem(p, 1)]
  {
  }

  /** Adding a product to a cart with one line per product adds exactly one unit. */
  lemma {:induction false} AddCountsOne(cart: seq<CartItem>, p: Product)
    requires OneLinePerProduct(cart)
    ensures ItemCount(AddedToCart(cart, p)) == ItemCount(cart) + 1
  {
    if k :| 0 <= k < |cart| && cart[k].product.id == p.id {
      AddExistingSplit(cart, p, k);
      OneMoreUnit(cart[..k], cart[k], cart[k + 1..]);
    } else {
      AddNew(cart, p);
      ItemCountAppend(cart, [CartItem(p, 1)]);
      SingleLine(CartItem(p, 1));
    }
  }

  /**
   * Adding a product raises the total by that product's price, provided every
   * line already held for its id holds that same product.
   */
  lemma {:induction false} AddChargesPrice(cart: seq<CartItem>, p: Product)
    requires OneLinePerProduct(cart)
    requires forall i :: 0 <= i < |cart| && cart[i].product.id == p.id ==> cart[i].product == p
    ensures Total(AddedToCart(cart, p)) == Total(cart) + p.price
  {
    if k :| 0 <= k < |cart| && cart[k].product.id == p.id {
      AddExistingSplit(cart, p, k);
      OneMoreUnit(cart[..k], cart[k], cart[k + 1..]);
    } else {
      AddNew(cart, p);
      TotalAppend(cart, [CartItem(p, 1)]);
      SingleLine(CartItem(p, 1));
    }
  }

  /** Adding to the cart keeps it well formed. */
  lemma {:induction false} AddKeepsWellFormed(cart: seq<CartItem>, p: Product)
    requires WellFormed(cart)
    ensures WellFormed(AddedToCart(cart, p))
  {
    if k :| 0 <= k < |cart| && cart[k].product.id == p.id {
      AddExisting(cart, p, k);
    }
  }

  /** The cart after adding `p` to `cart` `n` times in a row. */
  function AddedRepeatedly(cart: seq<CartItem>, p: Product, n: nat): seq<CartItem>
  {
    if n == 0 then cart else AddedToCart(AddedRepeatedly(cart, p, n - 1), p)
  }

  /** Adding one product `n >= 1` times to the empty cart gives a single line with quantity `n`. */
  lemma {:induction false} AddRepeatedly(p: Product, n: nat)
    requires n >= 1
    ensures AddedRepeatedly([], p, n) == [CartItem(p, n)]
    ensures ItemCount(AddedRepeatedly([], p, n)) == n
  {
    if n > 1 {
      AddRepeatedly(p, n - 1);
      AddExisting([CartItem(p, n - 1)], p, 0);
    }
    SingleLine(CartItem(p, n));
  }

  // ---------------------------------------------------------------------------
  // Change quantity: properties

  /** The quantity update works line by line: it distributes over concatenation. */
  lemma {:induction false} UpdatedAppend(a: seq<CartItem>, b: seq<CartItem>, id: int, delta: int)
    ensures UpdatedQuantity(a + b, id, delta) == UpdatedQuantity(a, id, delta) + UpdatedQuantity(b, id, delta)
  {
    var ma := seq(|a|, i requires 0 <= i < |a| => AdjustLine(a[i], id, delta));
    var mb := seq(|b|, i requires 0 <= i < |b| => AdjustLine(b[i], id, delta));
    var mab := seq(|a + b|, i requires 0 <= i < |a + b| => AdjustLine((a + b)[i], id, delta));
    assert mab == ma + mb;
    CompactAppend(ma, mb);
  }

  /** Dropping the `null`s distributes over concatenation. */
  lemma {:induction false} CompactAppend(s: seq<Option<CartItem>>, t: seq<Option<CartItem>>)
    ensures Compact(s + t) == Compact(s) + Compact(t)
  {
    if s == [] {
      assert s + t == t;
    } else {
      assert (s + t)[0] == s[0] && (s + t)[1..] == s[1..] + t;
      CompactAppend(s[1..], t);
    }
  }

  /** Updating a one-line cart. */
  lemma {:induction false} UpdatedSingle(item: CartItem, id: int, delta: int)
    ensures UpdatedQuantity([item], id, delta) ==
      match AdjustLine(item, id, delta) case Some(line) => [line] case None => []
  {
    var m := seq(1, i requires 0 <= i < 1 => AdjustLine([item][i], id, delta));
    assert m == [AdjustLine(item, id, delta)];
    assert m[1..] == [];
  }

  /** Updating a product that has no line in the cart leaves the cart unchanged. */
  lemma {:induction false} UpdateAbsent(cart: seq<CartItem>, id: int, delta: int)
    requires !HasLine(cart, id)
    ensures UpdatedQuantity(cart, id, delta) == cart
  {
    if cart == [] {
      assert UpdatedQuantity(cart, id, delta) == Compact([]);
    } else {
      assert cart == [cart[0]] + cart[1..];
      UpdatedAppend([cart[0]], cart[1..], id, delta);
      UpdatedSingle(cart[0], id, delta);
      UpdateAbsent(cart[1..], id, delta);
    }
  }

  /**
   * Updating the line at `k`: the lines before and after it are untouched and
   * keep their order; the line itself becomes `quantity + delta` if that is
   * positive and is removed otherwise.
   */
  lemma {:induction false} UpdateSplit(cart: seq<CartItem>, id: int, delta: int, k: int)
    requires OneLinePerProduct(cart)
    requires 0 <= k < |cart| && cart[k].product.id == id
    ensures UpdatedQuantity(cart, id, delta) ==
      cart[..k] +
      (if cart[k].quantity + delta > 0 then [cart[k].(quantity := cart[k].quantity + delta)] else []) +
      cart[k + 1..]
  {
    assert cart == cart[..k] + [cart[k]] + cart[k + 1..];
    UpdatedAppend(cart[..k] + [cart[k]], cart[k + 1..], id, delta);
    UpdatedAppend(cart[..k], [cart[k]], id, delta);
    UpdatedSingle(cart[k], id, delta);
    UpdateAbsent(cart[..k], id, delta);
    UpdateAbsent(cart[k + 1..], id, delta);
  }

  /**
   * Updating a product that has a line: if the new quantity is positive it
   * replaces the old one in the same position, otherwise the line is removed;
   * all other lines keep their values and relative order.
   */
  lemma {:induction false} UpdatePresent(cart: seq<CartItem>, id: int, delta: int, k: int)
    requires OneLinePerProduct(cart)
    requires 0 <= k < |cart| && cart[k].product.id == id
    ensures cart[k].quantity + delta > 0 ==>
      UpdatedQuantity(cart, id, delta) == cart[k := cart[k].(quantity := cart[k].quantity + delta)]
    ensures cart[k].quantity + delta <= 0 ==>
      UpdatedQuantity(cart, id, delta) == cart[..k] + cart[k + 1..]
  {
    UpdateSplit(cart, id, delta, k);
    if cart[k].quantity + delta > 0 {
      var line := cart[k].(quantity := cart[k].quantity + delta);
      assert cart[..k] + [line] + cart[k + 1..] == cart[k := line];
    } else {
      assert cart[..k] + [] + cart[k + 1..] == cart[..k] + cart[k + 1..];
    }
  }

  /**
   * The item count after an update: up by `delta` if the line stays, down by
   * the line's whole quantity if it is removed.
   */
  lemma {:induction false} UpdateCount(cart: seq<CartItem>, id: int, delta: int, k: int)
    requires OneLinePerProduct(cart)
    requires 0 <= k < |cart| && cart[k].product.id == id
    ensures ItemCount(UpdatedQuantity(cart, id, delta)) ==
      ItemCount(cart) + (if cart[k].quantity + delta > 0 then delta else -cart[k].quantity)
  {
    UpdateSplit(cart, id, delta, k);
    var mid := if cart[k].quantity + delta > 0 then [cart[k].(quantity := cart[k].quantity + delta)] else [];
    assert cart == cart[..k] + [cart[k]] + cart[k + 1..];
    SplitAround(cart[..k], cart[k], cart[k + 1..]);
    if cart[k].quantity + delta > 0 {
      SplitAround(cart[..k], mid[0], cart[k + 1..]);
    } else {
      assert cart[..k] + mid + cart[k + 1..] == cart[..k] + cart[k + 1..];
      ItemCountAppend(cart[..k], cart[k + 1..]);
    }
  }

  /** A line removed by an update is gone: a further update of that id changes nothing. */
  lemma {:induction false} UpdateRemoves(cart: seq<CartItem>, id: int, delta: int, k: int, delta2: int)
    requires OneLinePerProduct(cart)
    requires 0 <= k < |cart| && cart[k].product.id == id
    requires cart[k].quantity + delta <= 0
    ensures !HasLine(UpdatedQuantity(cart, id, delta), id)
    ensures UpdatedQuantity(UpdatedQuantity(cart, id, delta), id, delta2) == UpdatedQuantity(cart, id, delta)
  {
    UpdatePresent(cart, id, delta, k);
    UpdateAbsent(cart[..k] + cart[k + 1..], id, delta2);
  }

  /** Updating a quantity keeps the cart well formed. */
  lemma {:induction false} UpdateKeepsWellFormed(cart: seq<CartItem>, id: int, delta: int)
    requires WellFormed(cart)
    ensures WellFormed(UpdatedQuantity(cart, id, delta))
  {
    if k :| 0 <= k < |cart| && cart[k].product.id == id {
      UpdatePresent(cart, id, delta, k);
      if cart[k].quantity + delta <= 0 {
        var r := cart[..k] + cart[k + 1..];
        forall i, j | 0 <= i < j < |r| ensures r[i].product.id != r[j].product.id {
          var i', j' := if i < k then i else i + 1, if j < k then j else j + 1;
          assert r[i] == cart[i'] && r[j] == cart[j'];
        }
        forall i | 0 <= i < |r| ensures r[i].quantity >= 1 {
          assert r[i] == cart[if i < k then i else i + 1];
        }
      }
    } else {
      UpdateAbsent(cart, id, delta);
    }
  }
}
