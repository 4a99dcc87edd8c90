/** The storefront page's cart state (app/page.tsx). The page component holds
    the cart and two panel flags; each handler replaces the cart with a new
    value computed from the old one, and those new values are the pure
    functions below. */
module HomePage {
  import opened Types
  import opened JsText

  /** The line is for product `id` in size `size`: the cart's key. */
  predicate Matches(item: CartItem, id: string, size: string) {
    item.product.id == id && item.selectedSize == size
  }

  predicate HasLine(cart: seq<CartItem>, id: string, size: string) {
    exists i :: 0 <= i < |cart| && Matches(cart[i], id, size)
  }

  /** The cart invariant: no two lines share a product id and size, and no
      line has a quantity below 1. */
  predicate WellFormed(cart: seq<CartItem>) {
    && (forall i, j :: 0 <= i < j < |cart| ==> !Matches(cart[j], cart[i].product.id, cart[i].selectedSize))
    && (forall i :: 0 <= i < |cart| ==> cart[i].quantity >= 1)
  }

  // ------------------------------------------------------- cart functions

  /** The cart `addToCart(product, size)` installs: every line for the key
      gets one more, or, if there is none, a new line with quantity 1 is
      appended. */
  function AddLine(cart: seq<CartItem>, product: Product, size: string): (r: seq<CartItem>)
    ensures |r| == if HasLine(cart, product.id, size) then |cart| else |cart| + 1
    ensures HasLine(r, product.id, size)
  {
    if HasLine(cart, product.id, size) then
      var r := seq(|cart|, i requires 0 <= i < |cart| =>
        if Matches(cart[i], product.id, size) then cart[i].(quantity := cart[i].quantity + 1) else cart[i]);
      var k := LineIndex(cart, product.id, size);
      assert Matches(r[k], product.id, size);
      r
    else
      assert Matches((cart + [CartItem(product, 1, size)])[|cart|], product.id, size);
      cart + [CartItem(product, 1, size)]
  }

  /** The cart `removeFromCart(id, size)` installs: the lines for the key
      filtered out. */
  function RemoveLine(cart: seq<CartItem>, id: string, size: string): (r: seq<CartItem>)
    ensures |r| <= |cart|
  {
    if cart == [] then []
    else (if Matches(cart[0], id, size) then [] else [cart[0]]) + RemoveLine(cart[1..], id, size)
  }

  /** The cart `updateQuantity(id, size, quantity)` installs. */
  function SetQuantity(cart: seq<CartItem>, id: string, size: string, quantity: int): (r: seq<CartItem>)
    ensures |r| <= |cart|
    ensures quantity != 0 ==> |r| == |cart|
  {
    if quantity == 0 then
      RemoveLine(cart, id, size)
    else
      seq(|cart|, i requires 0 <= i < |cart| =>
        if Matches(cart[i], id, size) then cart[i].(quantity := quantity) else cart[i])
  }

  /** `getTotalPrice()`: the left-to-right sum of price times quantity. */
  function TotalPrice(cart: seq<CartItem>): (total: int) {
    if cart == [] then 0 else TotalPrice(cart[..|cart| - 1]) + LineTotal(cart[|cart| - 1])
  }

  /** The header badge's number: the left-to-right sum of the quantities. */
  function ItemCount(cart: seq<CartItem>): (count: int) {
    if cart == [] then 0 else ItemCount(cart[..|cart| - 1]) + cart[|cart| - 1].quantity
  }

  /** Position of the first line for the key, or `|cart|` when there is
      none: where `cart.find` stops. */
  function LineIndex(cart: seq<CartItem>, id: string, size: string): (k: nat)
    ensures k <= |cart|
    ensures k < |cart| ==> Matches(cart[k], id, size)
    ensures forall i :: 0 <= i < k ==> !Matches(cart[i], id, size)
  {
    if cart == [] then 0
    else if Matches(cart[0], id, size) then 0
    else 1 + LineIndex(cart[1..], id, size)
  }

  /** The price one more `addToCart(product, size)` is charged at: the
      snapshot already in the cart for that key, or else the product's. */
  function UnitPrice(cart: seq<CartItem>, product: Product, size: string): (price: int)
    ensures !HasLine(cart, product.id, size) ==> price == product.price
    ensures HasLine(cart, product.id, size) ==>
      exists i :: 0 <= i < |cart| && Matches(cart[i], product.id, size) && price == cart[i].product.price
  {
    var k := LineIndex(cart, product.id, size);
    if k < |cart| then cart[k].product.price else product.price
  }

  /** `n` calls of `addToCart(product, size)` in a row. */
  function AddTimes(cart: seq<CartItem>, product: Product, size: string, n: nat): (r: seq<CartItem>) {
    if n == 0 then cart else AddLine(AddTimes(cart, product, size, n - 1), product, size)
  }

  // ------------------------------------------------------------ lemmas: add

  /** In a well-formed cart a key has at most one line. */
  lemma OnlyLine(cart: seq<CartItem>, id: string, size: string, k: nat)
    requires WellFormed(cart)
    requires k < |cart| && Matches(cart[k], id, size)
    ensures forall j :: 0 <= j < |cart| && j != k ==> !Matches(cart[j], id, size)
  {
    forall j | 0 <= j < |cart| && j != k
      ensures !Matches(cart[j], id, size)
    {
      if j < k {
        assert !Matches(cart[k], cart[j].product.id, cart[j].selectedSize);
      } else {
        assert !Matches(cart[j], cart[k].product.id, cart[k].selectedSize);
      }
    }
  }

  /** Adding a key that already has a line increments that line only. */
  lemma AddToExistingLine(cart: seq<CartItem>, product: Product, size: string, k: nat)
    requires WellFormed(cart)
    requires k < |cart| && Matches(cart[k], product.id, size)
    ensures AddLine(cart, product, size) == cart[k := cart[k].(quantity := cart[k].quantity + 1)]
  {
    OnlyLine(cart, product.id, size, k);
  }

  /** Adding a key that has no line appends one line with quantity 1. */
  lemma AddNewLine(cart: seq<CartItem>, product: Product, size: string)
    requires !HasLine(cart, product.id, size)
    ensures var r := AddLine(cart, product, size);
      && |r| == |cart| + 1 && r[..|cart|] == cart
      && r[|cart|] == CartItem(product, 1, size)
  {
  }

  /** From a cart without the key, `n` adds leave exactly one new line, at the
      end, with quantity `n`. */
  lemma {:induction false} AddRepeated(cart: seq<CartItem>, product: Product, size: string, n: nat)
    requires n >= 1 && !HasLine(cart, product.id, size)
    ensures AddTimes(cart, product, size, n) == cart + [CartItem(product, n, size)]
  {
    if n > 1 {
      AddRepeated(cart, product, size, n - 1);
      var before := cart + [CartItem(product, n - 1, size)];
      assert Matches(before[|cart|], product.id, size);
      assert AddLine(before, product, size) == cart + [CartItem(product, n, size)];
    }
  }

  /** The same product in two sizes gives two lines. */
  lemma TwoSizesTwoLines(cart: seq<CartItem>, product: Product, m: string, l: string)
    requires m != l
    requires !HasLine(cart, product.id, m) && !HasLine(cart, product.id, l)
    ensures AddLine(AddLine(cart, product, m), product, l)
         == cart + [CartItem(product, 1, m), CartItem(product, 1, l)]
  {
    var once := cart + [CartItem(product, 1, m)];
    assert !HasLine(once, product.id, l) by {
      forall i | 0 <= i < |once| ensures !Matches(once[i], product.id, l) {
        if i < |cart| { assert once[i] == cart[i]; }
      }
    }
  }

  lemma AddPreservesWellFormed(cart: seq<CartItem>, product: Product, size: string)
    requires WellFormed(cart)
    ensures WellFormed(AddLine(cart, product, size))
  {
    if HasLine(cart, product.id, size) {
      var k :| 0 <= k < |cart| && Matches(cart[k], product.id, size);
      AddToExistingLine(cart, product, size, k);
    } else {
      var r := AddLine(cart, product, size);
      forall i, j | 0 <= i < j < |r|
        ensures !Matches(r[j], r[i].product.id, r[i].selectedSize)
      {
        if j == |cart| {
          assert !Matches(cart[i], product.id, size);
        }
      }
    }
  }

  // --------------------------------------------------- lemmas: remove, set

  /** The lines kept are exactly the lines of the cart not for the key. */
  lemma {:induction false} RemoveLineMembers(cart: seq<CartItem>, id: string, size: string)
    ensures forall x :: x in RemoveLine(cart, id, size) <==> x in cart && !Matches(x, id, size)
  {
    if cart != [] {
      var tail := cart[1..];
      RemoveLineMembers(tail, id, size);
      assert cart == [cart[0]] + tail;
    }
  }

  lemma {:induction false} RemoveAbsent(cart: seq<CartItem>, id: string, size: string)
    requires !HasLine(cart, id, size)
    ensures RemoveLine(cart, id, size) == cart
  {
    if cart != [] {
      assert !HasLine(cart[1..], id, size) by {
        forall i | 0 <= i < |cart| - 1 ensures !Matches(cart[1..][i], id, size) {
          assert cart[1..][i] == cart[i + 1];
        }
      }
      RemoveAbsent(cart[1..], id, size);
      assert !Matches(cart[0], id, size);
    }
  }

  lemma {:induction false} RemoveAppend(a: seq<CartItem>, b: seq<CartItem>, id: string, size: string)
    ensures RemoveLine(a + b, id, size) == RemoveLine(a, id, size) + RemoveLine(b, id, size)
  {
    if a != [] {
      var head := if Matches(a[0], id, size) then [] else [a[0]];
      assert (a + b)[0] == a[0];
      assert (a + b)[1..] == a[1..] + b;
      assert RemoveLine(a + b, id, size) == head + RemoveLine(a[1..] + b, id, size);
      RemoveAppend(a[1..], b, id, size);
      assert RemoveLine(a, id, size) == head + RemoveLine(a[1..], id, size);
    } else {
      assert a + b == b;
    }
  }

  /** Removing twice is removing once. */
  lemma RemoveIdempotent(cart: seq<CartItem>, id: string, size: string)
    ensures RemoveLine(RemoveLine(cart, id, size), id, size) == RemoveLine(cart, id, size)
  {
    var r := RemoveLine(cart, id, size);
    RemoveLineMembers(cart, id, size);
    assert !HasLine(r, id, size) by {
      forall i | 0 <= i < |r| ensures !Matches(r[i], id, size) {
        assert r[i] in r;
      }
    }
    RemoveAbsent(r, id, size);
  }

  /** When line `k` is the only one for the key, removal drops just it. */
  lemma {:induction false} RemoveOnlyLine(cart: seq<CartItem>, id: string, size: string, k: nat)
    requires k < |cart| && Matches(cart[k], id, size)
    requires forall j :: 0 <= j < |cart| && j != k ==> !Matches(cart[j], id, size)
    ensures RemoveLine(cart, id, size) == cart[..k] + cart[k + 1..]
  {
    var tail := cart[1..];
    var rest := RemoveLine(tail, id, size);
    if k == 0 {
      assert rest == tail by {
        assert !HasLine(tail, id, size) by {
          forall j | 0 <= j < |tail| ensures !Matches(tail[j], id, size) {
            assert tail[j] == cart[j + 1];
          }
        }
        RemoveAbsent(tail, id, size);
      }
      assert RemoveLine(cart, id, size) == [] + rest;
    } else {
      assert rest == tail[..k - 1] + tail[k..] by {
        forall j | 0 <= j < |tail| && j != k - 1 ensures !Matches(tail[j], id, size) {
          assert tail[j] == cart[j + 1];
        }
        RemoveOnlyLine(tail, id, size, k - 1);
      }
      assert RemoveLine(cart, id, size) == [cart[0]] + rest by {
        assert !Matches(cart[0], id, size);
      }
      assert cart[..k] == [cart[0]] + tail[..k - 1];
      assert cart[k + 1..] == tail[k..];
    }
  }

  /** Removing a key that has a line drops exactly that line and keeps the
      others in order. */
  lemma RemoveExistingLine(cart: seq<CartItem>, id: string, size: string, k: nat)
    requires WellFormed(cart)
    requires k < |cart| && Matches(cart[k], id, size)
    ensures RemoveLine(cart, id, size) == cart[..k] + cart[k + 1..]
  {
    OnlyLine(cart, id, size, k);
    RemoveOnlyLine(cart, id, size, k);
  }

  /** A line whose key no later line has can go in front of a well-formed cart. */
  lemma ConsWellFormed(x: CartItem, rest: seq<CartItem>)
    requires WellFormed(rest) && x.quantity >= 1
    requires !HasLine(rest, x.product.id, x.selectedSize)
    ensures WellFormed([x] + rest)
  {
    var r := [x] + rest;
    forall i, j | 0 <= i < j < |r|
      ensures !Matches(r[j], r[i].product.id, r[i].selectedSize)
    {
      assert r[j] == rest[j - 1];
      if i > 0 {
        assert r[i] == rest[i - 1];
      }
    }
  }

  /** The lines after the first of a well-formed cart are well-formed and
      hold no line for the first line's key. */
  lemma TailWellFormed(cart: seq<CartItem>)
    requires WellFormed(cart) && cart != []
    ensures WellFormed(cart[1..])
    ensures !HasLine(cart[1..], cart[0].product.id, cart[0].selectedSize)
  {
    var tail := cart[1..];
    forall i, j | 0 <= i < j < |tail|
      ensures !Matches(tail[j], tail[i].product.id, tail[i].selectedSize)
    {
      assert tail[i] == cart[i + 1] && tail[j] == cart[j + 1];
    }
    forall j | 0 <= j < |tail| ensures !Matches(tail[j], cart[0].product.id, cart[0].selectedSize) {
      assert tail[j] == cart[j + 1];
    }
  }

  /** A key without a line in a cart has none in any cart of fewer lines. */
  lemma NoLineInSub(sub: seq<CartItem>, cart: seq<CartItem>, id: string, size: string)
    requires forall x :: x in sub ==> x in cart
    requires !HasLine(cart, id, size)
    ensures !HasLine(sub, id, size)
  {
    forall j | 0 <= j < |sub| ensures !Matches(sub[j], id, size) {
      assert sub[j] in cart;
    }
  }

  lemma {:induction false} RemovePreservesWellFormed(cart: seq<CartItem>, id: string, size: string)
    requires WellFormed(cart)
    ensures WellFormed(RemoveLine(cart, id, size))
  {
    if cart != [] {
      var tail := cart[1..];
      TailWellFormed(cart);
      RemovePreservesWellFormed(tail, id, size);
      var rest := RemoveLine(tail, id, size);
      if Matches(cart[0], id, size) {
        assert RemoveLine(cart, id, size) == [] + rest;
      } else {
        RemoveLineMembers(tail, id, size);
        NoLineInSub(rest, tail, cart[0].product.id, cart[0].selectedSize);
        ConsWellFormed(cart[0], rest);
        assert RemoveLine(cart, id, size) == [cart[0]] + rest;
      }
    }
  }

  /** Quantity 0 removes the line, exactly as `removeFromCart` does. */
  lemma SetZeroIsRemove(cart: seq<CartItem>, id: string, size: string)
    ensures SetQuantity(cart, id, size, 0) == RemoveLine(cart, id, size)
  {
  }

  /** A non-zero quantity replaces the matching line's quantity and nothing else. */
  lemma SetQuantityOfLine(cart: seq<CartItem>, id: string, size: string, quantity: int, k: nat)
    requires quantity != 0 && WellFormed(cart)
    requires k < |cart| && Matches(cart[k], id, size)
    ensures SetQuantity(cart, id, size, quantity) == cart[k := cart[k].(quantity := quantity)]
  {
    OnlyLine(cart, id, size, k);
  }

  /** With no line for the key, `updateQuantity` leaves the cart as it was. */
  lemma SetQuantityAbsent(cart: seq<CartItem>, id: string, size: string, quantity: int)
    requires !HasLine(cart, id, size)
    ensures SetQuantity(cart, id, size, quantity) == cart
  {
    if quantity == 0 {
      RemoveAbsent(cart, id, size);
    }
  }

  /** The invariant survives every quantity the cart's buttons can send. */
  lemma SetQuantityPreservesWellFormed(cart: seq<CartItem>, id: string, size: string, quantity: int)
    requires WellFormed(cart) && quantity >= 0
    ensures WellFormed(SetQuantity(cart, id, size, quantity))
  {
    if quantity == 0 {
      RemovePreservesWellFormed(cart, id, size);
    } else {
      var r := SetQuantity(cart, id, size, quantity);
      forall i, j | 0 <= i < j < |r|
        ensures !Matches(r[j], r[i].product.id, r[i].selectedSize)
      {
        assert !Matches(cart[j], cart[i].product.id, cart[i].selectedSize);
      }
    }
  }

  // ------------------------------------------------------- lemmas: totals

  lemma {:induction false} TotalPriceAppend(a: seq<CartItem>, b: seq<CartItem>)
    ensures TotalPrice(a + b) == TotalPrice(a) + TotalPrice(b)
  {
    if b == [] {
      assert a + b == a;
    } else {
      assert (a + b)[..|a + b| - 1] == a + b[..|b| - 1];
      TotalPriceAppend(a, b[..|b| - 1]);
    }
  }

  lemma {:induction false} ItemCountAppend(a: seq<CartItem>, b: seq<CartItem>)
    ensures ItemCount(a + b) == ItemCount(a) + ItemCount(b)
  {
    if b == [] {
      assert a + b == a;
    } else {
      assert (a + b)[..|a + b| - 1] == a + b[..|b| - 1];
      ItemCountAppend(a, b[..|b| - 1]);
    }
  }

  lemma TotalsOfSplit(cart: seq<CartItem>, k: nat)
    requires k < |cart|
    ensures TotalPrice(cart) == TotalPrice(cart[..k]) + LineTotal(cart[k]) + TotalPrice(cart[k + 1..])
    ensures ItemCount(cart) == ItemCount(cart[..k]) + cart[k].quantity + ItemCount(cart[k + 1..])
  {
    assert cart == cart[..k] + [cart[k]] + cart[k + 1..];
    TotalPriceAppend(cart[..k] + [cart[k]], cart[k + 1..]);
    TotalPriceAppend(cart[..k], [cart[k]]);
    ItemCountAppend(cart[..k] + [cart[k]], cart[k + 1..]);
    ItemCountAppend(cart[..k], [cart[k]]);
    assert [cart[k]][..0] == [];
  }

  /** With every quantity at least 1, the badge shows at least one per line. */
  lemma {:induction false} ItemCountAtLeastLines(cart: seq<CartItem>)
    requires WellFormed(cart)
    ensures ItemCount(cart) >= |cart|
  {
    if cart != [] {
      var front := cart[..|cart| - 1];
      assert WellFormed(front) by {
        forall i, j | 0 <= i < j < |front|
          ensures !Matches(front[j], front[i].product.id, front[i].selectedSize)
        {
          assert front[i] == cart[i] && front[j] == cart[j];
        }
        forall i | 0 <= i < |front| ensures front[i].quantity >= 1 {
          assert front[i] == cart[i];
        }
      }
      ItemCountAtLeastLines(front);
    }
  }

  /** Replacing one line changes the totals by the difference of the two lines. */
  lemma TotalsOfUpdate(cart: seq<CartItem>, k: nat, item: CartItem)
    requires k < |cart|
    ensures TotalPrice(cart[k := item]) == TotalPrice(cart) - LineTotal(cart[k]) + LineTotal(item)
    ensures ItemCount(cart[k := item]) == ItemCount(cart) - cart[k].quantity + item.quantity
  {
    var r := cart[k := item];
    TotalsOfSplit(cart, k);
    TotalsOfSplit(r, k);
    assert r[..k] == cart[..k] && r[k + 1..] == cart[k + 1..];
  }

  /** The totals after appending one line. */
  lemma TotalsOfPush(cart: seq<CartItem>, line: CartItem)
    ensures TotalPrice(cart + [line]) == TotalPrice(cart) + LineTotal(line)
    ensures ItemCount(cart + [line]) == ItemCount(cart) + line.quantity
  {
    assert (cart + [line])[..|cart|] == cart;
  }

  /** One more unit on a line adds one unit price to its line total. */
  lemma OneMoreUnit(line: CartItem)
    ensures LineTotal(line.(quantity := line.quantity + 1)) == LineTotal(line) + line.product.price
  {
    var p, q := line.product.price, line.quantity;
    assert p * (q + 1) == p * q + p;
  }

  /** One more unit on line `k` raises the total by that line's price and
      the count by 1. */
  lemma BumpTotals(cart: seq<CartItem>, k: nat)
    requires k < |cart|
    ensures TotalPrice(cart[k := cart[k].(quantity := cart[k].quantity + 1)])
         == TotalPrice(cart) + cart[k].product.price
    ensures ItemCount(cart[k := cart[k].(quantity := cart[k].quantity + 1)]) == ItemCount(cart) + 1
  {
    TotalsOfUpdate(cart, k, cart[k].(quantity := cart[k].quantity + 1));
    OneMoreUnit(cart[k]);
  }

  /** One `addToCart` raises the total by one unit's price and the badge by 1. */
  lemma AddRaisesTotals(cart: seq<CartItem>, product: Product, size: string)
    requires WellFormed(cart)
    ensures TotalPrice(AddLine(cart, product, size)) == TotalPrice(cart) + UnitPrice(cart, product, size)
    ensures ItemCount(AddLine(cart, product, size)) == ItemCount(cart) + 1
  {
    var k := LineIndex(cart, product.id, size);
    if k < |cart| {
      AddToExistingLine(cart, product, size, k);
      BumpTotals(cart, k);
    } else {
      assert !HasLine(cart, product.id, size);
      TotalsOfPush(cart, CartItem(product, 1, size));
    }
  }

  /** Removing a line takes its price times quantity off the total. */
  lemma RemoveLowersTotal(cart: seq<CartItem>, id: string, size: string, k: nat)
    requires WellFormed(cart)
    requires k < |cart| && Matches(cart[k], id, size)
    ensures TotalPrice(RemoveLine(cart, id, size)) == TotalPrice(cart) - LineTotal(cart[k])
  {
    RemoveExistingLine(cart, id, size, k);
    TotalsOfSplit(cart, k);
    TotalPriceAppend(cart[..k], cart[k + 1..]);
  }

  /** Two Classic White Tees in M at 29.99 and one Navy Blue Crew in L at
      32.99 come to 92.97. */
  lemma TotalPriceExample(white: Product, navy: Product)
    requires white.price == 2999 && navy.price == 3299
    ensures TotalPrice([CartItem(white, 2, "M"), CartItem(navy, 1, "L")]) == 9297
  {
    var c := [CartItem(white, 2, "M"), CartItem(navy, 1, "L")];
    assert c[..1] == [CartItem(white, 2, "M")];
    assert c[..1][..0] == [];
    assert TotalPrice(c[..1]) == 5998;
  }

  // ------------------------------------------------------------ the page

  /** The page component's state: the cart and whether the cart panel and
      the checkout form are open. */
  class Storefront {
    var cart: seq<CartItem>
    var isCartOpen: bool
    var isCheckoutOpen: bool

    constructor ()
      ensures cart == [] && !isCartOpen && !isCheckoutOpen
    {
      cart, isCartOpen, isCheckoutOpen := [], false, false;
    }

    /** `addToCart`: merge or append, then open the cart panel. */
    method AddToCart(product: Product, size: string)
      modifies this`cart, this`isCartOpen
      ensures cart == AddLine(old(cart), product, size) && isCartOpen
      ensures WellFormed(old(cart)) ==> WellFormed(cart)
    {
      ghost var before := cart;
      cart := AddLine(cart, product, size);
      isCartOpen := true;
      if WellFormed(before) {
        AddPreservesWellFormed(before, product, size);
      }
    }

    /** `updateQuantity`: 0 removes the line, anything else replaces its quantity. */
    method UpdateQuantity(id: string, size: string, quantity: int)
      modifies this`cart
      ensures cart == SetQuantity(old(cart), id, size, quantity)
      ensures WellFormed(old(cart)) && quantity >= 0 ==> WellFormed(cart)
    {
      ghost var before := cart;
      cart := SetQuantity(cart, id, size, quantity);
      if WellFormed(before) && quantity >= 0 {
        SetQuantityPreservesWellFormed(before, id, size, quantity);
      }
    }

    /** `removeFromCart`. */
    method RemoveFromCart(id: string, size: string)
      modifies this`cart
      ensures cart == RemoveLine(old(cart), id, size)
      ensures WellFormed(old(cart)) ==> WellFormed(cart)
    {
      ghost var before := cart;
      cart := RemoveLine(cart, id, size);
      if WellFormed(before) {
        RemovePreservesWellFormed(before, id, size);
      }
    }

    /** `getTotalPrice()`: the `reduce` over the lines, left to right. */
    method GetTotalPrice() returns (total: int)
      ensures total == TotalPrice(cart)
    {
      total := 0;
      var i := 0;
      while i < |cart|
        invariant 0 <= i <= |cart|
        invariant total == TotalPrice(cart[..i])
      {
        assert cart[..i + 1][..i] == cart[..i];
        total := total + LineTotal(cart[i]);
        i := i + 1;
      }
      assert cart[..i] == cart;
    }

    /** The header badge: hidden for an empty cart, otherwise the sum of the
        quantities. */
    method BadgeCount() returns (badge: Option<int>)
      ensures badge.None? <==> cart == []
      ensures badge.Some? ==> badge.value == ItemCount(cart)
    {
      if |cart| == 0 {
        return None;
      }
      var sum := 0;
      var i := 0;
      while i < |cart|
        invariant 0 <= i <= |cart|
        invariant sum == ItemCount(cart[..i])
      {
        assert cart[..i + 1][..i] == cart[..i];
        sum := sum + cart[i].quantity;
        i := i + 1;
      }
      assert cart[..i] == cart;
      badge := Some(sum);
    }

    /** `handleCheckout`: close the cart panel and open the checkout form. */
    method HandleCheckout()
      modifies this`isCartOpen, this`isCheckoutOpen
      ensures !isCartOpen && isCheckoutOpen
    {
      isCartOpen, isCheckoutOpen := false, true;
    }

    /** `handleOrderComplete`: empty the cart and close the checkout form. */
    method HandleOrderComplete()
      modifies this`cart, this`isCheckoutOpen
      ensures cart == [] && !isCheckoutOpen
      ensures TotalPrice(cart) == 0 && ItemCount(cart) == 0
    {
      cart, isCheckoutOpen := [], false;
    }
  }
}
