/**
 * The cart: `ItemCarrito` lines and the new-array computations of
 * `agregarAlCarrito`, `actualizarCantidad`, `eliminarDelCarrito` and
 * `agregarNotas` (src/App.tsx:21-25, 176-215), with what each one does to a
 * well-formed cart.
 */
module Cart {
  import opened Optional
  import opened Menu
  import Seqs

  /** `ItemCarrito`: a menu item's fields, its quantity, an optional note and the tab it was added from. */
  datatype CartLine = CartLine(
    id: int,
    name: string,
    description: string,
    price: nat,
    quantity: int,
    notes: Option<string>,
    category: Category)

  /** `{ ...item, cantidad: 1, categoria }` */
  function NewLine(item: MenuItem, category: Category): CartLine
  {
    CartLine(item.id, item.name, item.description, item.price, 1, None, category)
  }

  ghost predicate InCart(cart: seq<CartLine>, id: int)
  {
    exists i :: 0 <= i < |cart| && cart[i].id == id
  }

  /** No two lines share an id. */
  ghost predicate UniqueIds(cart: seq<CartLine>)
  {
    forall i, j :: 0 <= i < j < |cart| ==> cart[i].id != cart[j].id
  }

  predicate AllPositive(cart: seq<CartLine>)
  {
    forall i :: 0 <= i < |cart| ==> cart[i].quantity >= 1
  }

  /** What every reachable cart satisfies: one line per id, every quantity at least 1. */
  ghost predicate WellFormed(cart: seq<CartLine>)
  {
    UniqueIds(cart) && AllPositive(cart)
  }

  /** `carrito.find((i) => i.id === id)`: the first line with that id, if any. */
  function FindLine(cart: seq<CartLine>, id: int): (r: Option<CartLine>)
    ensures r.None? <==> !InCart(cart, id)
    ensures r.Some? ==> exists k :: 0 <= k < |cart| && cart[k] == r.value && r.value.id == id &&
                                    forall j :: 0 <= j < k ==> cart[j].id != id
  {
    if cart == [] then None
    else if cart[0].id == id then Some(cart[0])
    else
      var r := FindLine(cart[1..], id);
      if r.Some? then
        var k :| 0 <= k < |cart[1..]| && cart[1..][k] == r.value && r.value.id == id &&
                 forall j :: 0 <= j < k ==> cart[1..][j].id != id;
        assert cart[k + 1] == r.value;
        r
      else
        assert forall i :: 0 < i < |cart| ==> cart[i] == cart[1..][i - 1];
        r
  }

  // ---------------------------------------------------------------- add

  function Bump(id: int): CartLine -> CartLine
  {
    (l: CartLine) => if l.id == id then l.(quantity := l.quantity + 1) else l
  }

  /** `agregarAlCarrito(item, categoria)`: merge by id, otherwise append a new line. */
  function AddToCart(cart: seq<CartLine>, item: MenuItem, category: Category): (r: seq<CartLine>)
    ensures |r| == if InCart(cart, item.id) then |cart| else |cart| + 1
  {
    if FindLine(cart, item.id).Some? then Seqs.Map(Bump(item.id), cart)
    else cart + [NewLine(item, category)]
  }

  /** Re-adding an item already in the cart raises that line's quantity by one and changes nothing else. */
  lemma AddExisting(cart: seq<CartLine>, item: MenuItem, category: Category, k: int)
    requires UniqueIds(cart) && 0 <= k < |cart| && cart[k].id == item.id
    ensures AddToCart(cart, item, category) == cart[k := cart[k].(quantity := cart[k].quantity + 1)]
  {
    assert FindLine(cart, item.id).Some?;
  }

  /** Adding a new item appends one line: the item's fields, quantity 1, no note and the given category. */
  lemma AddNew(cart: seq<CartLine>, item: MenuItem, category: Category)
    requires !InCart(cart, item.id)
    ensures AddToCart(cart, item, category) == cart + [NewLine(item, category)]
    ensures var l := AddToCart(cart, item, category)[|cart|];
            l.id == item.id && l.name == item.name && l.description == item.description &&
            l.price == item.price && l.quantity == 1 && l.notes == None && l.category == category
  {
  }

  lemma AddPreservesWellFormed(cart: seq<CartLine>, item: MenuItem, category: Category)
    requires WellFormed(cart)
    ensures WellFormed(AddToCart(cart, item, category))
  {
    if InCart(cart, item.id) {
      var k :| 0 <= k < |cart| && cart[k].id == item.id;
      AddExisting(cart, item, category, k);
    }
  }

  // ---------------------------------------------------------------- adjust quantity

  function Adjust(id: int, delta: int): CartLine -> CartLine
  {
    (l: CartLine) => if l.id == id && l.quantity + delta > 0 then l.(quantity := l.quantity + delta) else l
  }

  function HasPositiveQuantity(l: CartLine): bool
  {
    l.quantity > 0
  }

  /** `actualizarCantidad(id, cambio)`: accept the new quantity only if positive, then drop non-positive lines. */
  function UpdateQuantity(cart: seq<CartLine>, id: int, delta: int): (r: seq<CartLine>)
    ensures forall i :: 0 <= i < |r| ==> r[i].quantity > 0
    ensures |r| <= |cart|
  {
    Seqs.Filter(HasPositiveQuantity, Seqs.Map(Adjust(id, delta), cart))
  }

  /**
   * On a cart whose quantities are all at least 1 the final filter removes
   * nothing: the length stays, quantities stay at least 1, and a line changes
   * only when it has the id and its new quantity is positive.
   */
  lemma UpdateKeepsLines(cart: seq<CartLine>, id: int, delta: int)
    requires AllPositive(cart)
    ensures var r := UpdateQuantity(cart, id, delta);
            |r| == |cart| && AllPositive(r) &&
            forall i :: 0 <= i < |cart| ==>
              r[i] == if cart[i].id == id && cart[i].quantity + delta > 0
                      then cart[i].(quantity := cart[i].quantity + delta) else cart[i]
  {
    Seqs.FilterAllPass(HasPositiveQuantity, Seqs.Map(Adjust(id, delta), cart));
  }

  /**
   * On a well-formed cart, adjusting line `k` either sets its quantity to the
   * new positive value or leaves the whole cart as it was (the minus button
   * at quantity 1 does nothing).
   */
  lemma UpdateAt(cart: seq<CartLine>, id: int, delta: int, k: int)
    requires WellFormed(cart) && 0 <= k < |cart| && cart[k].id == id
    ensures UpdateQuantity(cart, id, delta) ==
            if cart[k].quantity + delta > 0 then cart[k := cart[k].(quantity := cart[k].quantity + delta)]
            else cart
  {
    UpdateKeepsLines(cart, id, delta);
  }

  /** Adjusting an id that is not in a well-formed cart changes nothing. */
  lemma UpdateAbsent(cart: seq<CartLine>, id: int, delta: int)
    requires AllPositive(cart) && !InCart(cart, id)
    ensures UpdateQuantity(cart, id, delta) == cart
  {
    UpdateKeepsLines(cart, id, delta);
  }

  lemma UpdatePreservesWellFormed(cart: seq<CartLine>, id: int, delta: int)
    requires WellFormed(cart)
    ensures WellFormed(UpdateQuantity(cart, id, delta))
  {
    UpdateKeepsLines(cart, id, delta);
  }

  // ---------------------------------------------------------------- remove

  function NotId(id: int): CartLine -> bool
  {
    (l: CartLine) => l.id != id
  }

  /** `eliminarDelCarrito(id)` */
  function RemoveFromCart(cart: seq<CartLine>, id: int): (r: seq<CartLine>)
    ensures !InCart(r, id)
    ensures |r| <= |cart|
  {
    Seqs.Filter(NotId(id), cart)
  }

  /**
   * Removal deletes every line with the id, keeps every copy of every other
   * line, keeps their relative order, and a second removal is a no-op.
   */
  lemma RemoveSpec(cart: seq<CartLine>, id: int)
    ensures var r := RemoveFromCart(cart, id);
            Seqs.IsSubsequence(r, cart) &&
            (forall l :: l in r <==> l in cart && l.id != id) &&
            RemoveFromCart(r, id) == r
    ensures forall l :: multiset(RemoveFromCart(cart, id))[l] == if l.id != id then multiset(cart)[l] else 0
  {
    Seqs.FilterMultiset(NotId(id), cart);
    Seqs.FilterIsSubsequence(NotId(id), cart);
    Seqs.FilterIdempotent(NotId(id), cart);
    forall l | l in cart && l.id != id
      ensures l in RemoveFromCart(cart, id)
    {
      Seqs.FilterKeepsPassing(NotId(id), cart, l);
    }
  }

  /** In a cart with unique ids, removal splices out exactly the one line with that id. */
  lemma RemoveAt(cart: seq<CartLine>, id: int, k: int)
    requires UniqueIds(cart) && 0 <= k < |cart| && cart[k].id == id
    ensures RemoveFromCart(cart, id) == cart[..k] + cart[k + 1..]
  {
    var p := NotId(id);
    assert cart == cart[..k] + ([cart[k]] + cart[k + 1..]);
    Seqs.FilterAppend(p, cart[..k], [cart[k]] + cart[k + 1..]);
    Seqs.FilterAppend(p, [cart[k]], cart[k + 1..]);
    Seqs.FilterAllPass(p, cart[..k]);
    Seqs.FilterAllPass(p, cart[k + 1..]);
  }

  /** Removing an id that is not in the cart changes nothing. */
  lemma RemoveAbsent(cart: seq<CartLine>, id: int)
    requires !InCart(cart, id)
    ensures RemoveFromCart(cart, id) == cart
  {
    Seqs.FilterAllPass(NotId(id), cart);
  }

  lemma RemovePreservesWellFormed(cart: seq<CartLine>, id: int)
    requires WellFormed(cart)
    ensures WellFormed(RemoveFromCart(cart, id))
  {
    if InCart(cart, id) {
      var k :| 0 <= k < |cart| && cart[k].id == id;
      RemoveAt(cart, id, k);
    } else {
      RemoveAbsent(cart, id);
    }
  }

  // ---------------------------------------------------------------- notes

  function WithNotes(id: int, notes: string): CartLine -> CartLine
  {
    (l: CartLine) => if l.id == id then l.(notes := Some(notes)) else l
  }

  /** The cart computed by `agregarNotas(id, notas)`. */
  function SetNotes(cart: seq<CartLine>, id: int, notes: string): (r: seq<CartLine>)
    ensures |r| == |cart|
  {
    Seqs.Map(WithNotes(id, notes), cart)
  }

  /**
   * Setting notes changes only the `notes` field, only of the lines with the
   * id, and a later note for the same id replaces an earlier one.
   */
  lemma SetNotesSpec(cart: seq<CartLine>, id: int, notes: string, later: string)
    ensures var r := SetNotes(cart, id, notes);
            (forall i :: 0 <= i < |cart| ==>
               r[i].(notes := cart[i].notes) == cart[i] &&
               r[i].notes == if cart[i].id == id then Some(notes) else cart[i].notes) &&
            SetNotes(r, id, later) == SetNotes(cart, id, later)
  {
  }

  /** In a cart with unique ids, exactly the one matching line gets the note. */
  lemma SetNotesAt(cart: seq<CartLine>, id: int, notes: string, k: int)
    requires UniqueIds(cart) && 0 <= k < |cart| && cart[k].id == id
    ensures SetNotes(cart, id, notes) == cart[k := cart[k].(notes := Some(notes))]
  {
  }

  lemma SetNotesPreservesWellFormed(cart: seq<CartLine>, id: int, notes: string)
    requires WellFormed(cart)
    ensures WellFormed(SetNotes(cart, id, notes))
  {
  }
}
