/**
 * `calcularTotal` and `totalItems` (src/App.tsx:217-219, 238): left folds
 * over the cart, and how each cart operation moves them.
 */
module Totals {
  import opened Menu
  import opened Cart

  /** `cart.reduce((sum, l) => sum + f(l), 0)`, folded from the left. */
  function Sum(f: CartLine -> int, cart: seq<CartLine>): int
  {
    if cart == [] then 0 else Sum(f, cart[..|cart| - 1]) + f(cart[|cart| - 1])
  }

  function Subtotal(l: CartLine): int
  {
    l.price * l.quantity
  }

  function Quantity(l: CartLine): int
  {
    l.quantity
  }

  /** `calcularTotal()`: the sum of price times quantity; never negative on a cart of positive quantities. */
  function Total(cart: seq<CartLine>): (t: int)
    ensures AllPositive(cart) ==> t >= 0
  {
    SumNonNegative(Subtotal, cart);
    Sum(Subtotal, cart)
  }

  /** `totalItems`: the number of units; at least one per line on a cart of positive quantities. */
  function ItemCount(cart: seq<CartLine>): (n: int)
    ensures AllPositive(cart) ==> n >= |cart|
  {
    SumAtLeastLength(cart);
    Sum(Quantity, cart)
  }

  lemma {:induction false} SumNonNegative(f: CartLine -> int, cart: seq<CartLine>)
    requires forall i :: 0 <= i < |cart| && cart[i].quantity >= 1 ==> f(cart[i]) >= 0
    ensures AllPositive(cart) ==> Sum(f, cart) >= 0
  {
    if cart != [] {
      SumNonNegative(f, cart[..|cart| - 1]);
    }
  }

  lemma {:induction false} SumAtLeastLength(cart: seq<CartLine>)
    ensures AllPositive(cart) ==> Sum(Quantity, cart) >= |cart|
  {
    if cart != [] {
      SumAtLeastLength(cart[..|cart| - 1]);
    }
  }

  /** The sum over a concatenation is the sum of the sums. */
  lemma {:induction false} SumAppend(f: CartLine -> int, a: seq<CartLine>, b: seq<CartLine>)
    ensures Sum(f, a + b) == Sum(f, a) + Sum(f, b)
    decreases |b|
  {
    if b == [] {
      assert a + b == a;
    } else {
      assert (a + b)[..|a + b| - 1] == a + b[..|b| - 1];
      SumAppend(f, a, b[..|b| - 1]);
    }
  }

  lemma SumSingleton(f: CartLine -> int, l: CartLine)
    ensures Sum(f, [l]) == f(l)
  {
    assert [l][..0] == [];
  }

  /** Replacing one line moves the sum by the difference of the two lines' terms. */
  lemma SumReplace(f: CartLine -> int, cart: seq<CartLine>, k: int, l: CartLine)
    requires 0 <= k < |cart|
    ensures Sum(f, cart[k := l]) == Sum(f, cart) - f(cart[k]) + f(l)
  {
    var pre, post := cart[..k], cart[k + 1..];
    assert cart == (pre + [cart[k]]) + post;
    assert cart[k := l] == (pre + [l]) + post;
    SumAppend(f, pre + [cart[k]], post);
    SumAppend(f, pre + [l], post);
    SumAppend(f, pre, [cart[k]]);
    SumAppend(f, pre, [l]);
    SumSingleton(f, cart[k]);
    SumSingleton(f, l);
  }

  /** Splicing out one line lowers the sum by that line's term. */
  lemma SumSplice(f: CartLine -> int, cart: seq<CartLine>, k: int)
    requires 0 <= k < |cart|
    ensures Sum(f, cart[..k] + cart[k + 1..]) == Sum(f, cart) - f(cart[k])
  {
    var pre, front, post := cart[..k], cart[..k + 1], cart[k + 1..];
    assert front + post == cart;
    assert front[..k] == pre;
    calc {
      Sum(f, cart);
      { SumAppend(f, front, post); }
      Sum(f, front) + Sum(f, post);
      Sum(f, pre) + f(cart[k]) + Sum(f, post);
      { SumAppend(f, pre, post); }
      Sum(f, pre + post) + f(cart[k]);
    }
  }

  /** Lines whose price and quantity agree pointwise give the same sums. */
  lemma {:induction false} SumPointwise(f: CartLine -> int, a: seq<CartLine>, b: seq<CartLine>)
    requires |a| == |b| && forall i :: 0 <= i < |a| ==> f(a[i]) == f(b[i])
    ensures Sum(f, a) == Sum(f, b)
  {
    if a != [] {
      SumPointwise(f, a[..|a| - 1], b[..|b| - 1]);
    }
  }

  /** Every line of the cart with this item's id has the catalogue price (the catalogue never changes). */
  ghost predicate PriceAgrees(cart: seq<CartLine>, item: MenuItem)
  {
    forall i :: 0 <= i < |cart| && cart[i].id == item.id ==> cart[i].price == item.price
  }

  /** Adding an item raises the unit count by one and, when the cart's price for it is the catalogue's, the total by its price. */
  lemma AddTotals(cart: seq<CartLine>, item: MenuItem, category: Category)
    requires WellFormed(cart)
    ensures ItemCount(AddToCart(cart, item, category)) == ItemCount(cart) + 1
    ensures PriceAgrees(cart, item) ==> Total(AddToCart(cart, item, category)) == Total(cart) + item.price
  {
    if InCart(cart, item.id) {
      var k :| 0 <= k < |cart| && cart[k].id == item.id;
      AddExisting(cart, item, category, k);
      BumpTotals(cart, k);
    } else {
      AddNewTotals(cart, item, category);
    }
  }

  lemma AddNewTotals(cart: seq<CartLine>, item: MenuItem, category: Category)
    requires !InCart(cart, item.id)
    ensures Total(AddToCart(cart, item, category)) == Total(cart) + item.price
    ensures ItemCount(AddToCart(cart, item, category)) == ItemCount(cart) + 1
  {
    var l := NewLine(item, category);
    assert AddToCart(cart, item, category) == cart + [l];
    SumAppend(Subtotal, cart, [l]);
    SumAppend(Quantity, cart, [l]);
    SumSingleton(Subtotal, l);
    SumSingleton(Quantity, l);
  }

  lemma Distribute(p: int, q: int, d: int)
    ensures p * (q + d) == p * q + p * d
  {
  }

  /** `d` more units of line `k` add its price times `d` to the total and `d` to the unit count. */
  lemma ChangeTotals(cart: seq<CartLine>, k: int, d: int)
    requires 0 <= k < |cart|
    ensures var r := cart[k := cart[k].(quantity := cart[k].quantity + d)];
            Total(r) == Total(cart) + cart[k].price * d && ItemCount(r) == ItemCount(cart) + d
  {
    var l := cart[k].(quantity := cart[k].quantity + d);
    SumReplace(Subtotal, cart, k, l);
    SumReplace(Quantity, cart, k, l);
    Distribute(l.price, cart[k].quantity, d);
  }

  /** One more unit of line `k` adds its price to the total and one to the unit count. */
  lemma BumpTotals(cart: seq<CartLine>, k: int)
    requires 0 <= k < |cart|
    ensures var r := cart[k := cart[k].(quantity := cart[k].quantity + 1)];
            Total(r) == Total(cart) + cart[k].price && ItemCount(r) == ItemCount(cart) + 1
  {
    ChangeTotals(cart, k, 1);
  }

  /** An accepted change of quantity moves the total by price times the change and the unit count by the change; a rejected one moves neither. */
  lemma UpdateTotals(cart: seq<CartLine>, id: int, delta: int, k: int)
    requires WellFormed(cart) && 0 <= k < |cart| && cart[k].id == id
    ensures var r := UpdateQuantity(cart, id, delta);
            var accepted := cart[k].quantity + delta > 0;
            Total(r) == Total(cart) + (if accepted then cart[k].price * delta else 0) &&
            ItemCount(r) == ItemCount(cart) + (if accepted then delta else 0)
  {
    UpdateAt(cart, id, delta, k);
    if cart[k].quantity + delta > 0 {
      ChangeTotals(cart, k, delta);
    }
  }

  /** Removing a line lowers the total by its subtotal and the unit count by its quantity. */
  lemma RemoveTotals(cart: seq<CartLine>, id: int, k: int)
    requires UniqueIds(cart) && 0 <= k < |cart| && cart[k].id == id
    ensures Total(RemoveFromCart(cart, id)) == Total(cart) - cart[k].price * cart[k].quantity
    ensures ItemCount(RemoveFromCart(cart, id)) == ItemCount(cart) - cart[k].quantity
  {
    RemoveAt(cart, id, k);
    SumSplice(Subtotal, cart, k);
    SumSplice(Quantity, cart, k);
  }

  /** Notes never change the total or the unit count. */
  lemma SetNotesTotals(cart: seq<CartLine>, id: int, notes: string)
    ensures Total(SetNotes(cart, id, notes)) == Total(cart)
    ensures ItemCount(SetNotes(cart, id, notes)) == ItemCount(cart)
  {
    SumPointwise(Subtotal, SetNotes(cart, id, notes), cart);
    SumPointwise(Quantity, SetNotes(cart, id, notes), cart);
  }

  /** Two sample lines: two of a 45 torta and one 30 juice come to 120, three units. */
  lemma SampleTotal()
    ensures var cart := [CartLine(1, "Torta de Jamón", "", 45, 2, Optional.None, Tortas),
                         CartLine(12, "Jugo Natural", "", 30, 1, Optional.None, Bebidas)];
            Total(cart) == 120 && ItemCount(cart) == 3
  {
    var cart := [CartLine(1, "Torta de Jamón", "", 45, 2, Optional.None, Tortas),
                 CartLine(12, "Jugo Natural", "", 30, 1, Optional.None, Bebidas)];
    assert cart[..1][..0] == [] && cart[..1] == [cart[0]];
    assert Sum(Subtotal, cart[..1]) == 90;
    assert Sum(Quantity, cart[..1]) == 2;
  }
}
