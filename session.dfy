/**
 * The state of the `App` component (src/App.tsx:159-165) and the handlers
 * that replace it: each `setX` becomes an assignment to field `x`.
 */
module Session {
  import opened Optional
  import opened Menu
  import opened Cart
  import opened Totals

  class OrderSession {
    /** `carrito` */
    var cart: seq<CartLine>
    /** `mostrarCarrito`: the cart view is open. */
    var showCart: bool
    /** `itemNotasId`: the line whose note is being edited, if any. */
    var notesItemId: Option<int>
    /** `notasTemp`: the text of the note being edited. */
    var notesDraft: string
    /** `pedidoEnviado`: an order was submitted and its completion is pending. */
    var orderSent: bool

    ghost predicate Valid()
      reads this
    {
      WellFormed(cart)
    }

    /** The initial `useState` values. */
    constructor ()
      ensures Valid()
      ensures cart == [] && !showCart && notesItemId == None && notesDraft == "" && !orderSent
    {
      cart := [];
      showCart := false;
      notesItemId := None;
      notesDraft := "";
      orderSent := false;
    }

    /** `calcularTotal()` */
    function OrderTotal(): (t: int)
      reads this
      requires Valid()
      ensures t >= 0
      ensures cart == [] ==> t == 0
    {
      Total(cart)
    }

    /** `totalItems` */
    function TotalItems(): (n: int)
      reads this
      requires Valid()
      ensures n >= |cart|
      ensures cart == [] ==> n == 0
    {
      ItemCount(cart)
    }

    /** `agregarAlCarrito(item, categoria)` */
    method AddToCart(item: MenuItem, category: Category)
      requires Valid()
      modifies this
      ensures Valid()
      ensures cart == Cart.AddToCart(old(cart), item, category)
      ensures PriceAgrees(old(cart), item) ==> Total(cart) == Total(old(cart)) + item.price
      ensures ItemCount(cart) == ItemCount(old(cart)) + 1
      ensures showCart == old(showCart) && notesItemId == old(notesItemId)
      ensures notesDraft == old(notesDraft) && orderSent == old(orderSent)
    {
      AddPreservesWellFormed(cart, item, category);
      AddTotals(cart, item, category);
      cart := Cart.AddToCart(cart, item, category);
    }

    /** `actualizarCantidad(id, cambio)`: never removes a line from a valid cart. */
    method UpdateQuantity(id: int, delta: int)
      requires Valid()
      modifies this
      ensures Valid()
      ensures cart == Cart.UpdateQuantity(old(cart), id, delta)
      ensures |cart| == old(|cart|)
      ensures forall i :: 0 <= i < |cart| ==> cart[i].id == old(cart[i].id)
      ensures showCart == old(showCart) && notesItemId == old(notesItemId)
      ensures notesDraft == old(notesDraft) && orderSent == old(orderSent)
    {
      UpdatePreservesWellFormed(cart, id, delta);
      UpdateKeepsLines(cart, id, delta);
      cart := Cart.UpdateQuantity(cart, id, delta);
    }

    /** `eliminarDelCarrito(id)` */
    method RemoveFromCart(id: int)
      requires Valid()
      modifies this
      ensures Valid()
      ensures cart == Cart.RemoveFromCart(old(cart), id)
      ensures !InCart(cart, id)
      ensures showCart == old(showCart) && notesItemId == old(notesItemId)
      ensures notesDraft == old(notesDraft) && orderSent == old(orderSent)
    {
      RemovePreservesWellFormed(cart, id);
      cart := Cart.RemoveFromCart(cart, id);
    }

    /** `agregarNotas(id, notas)`: store the note and close the editor. */
    method SaveNotes(id: int, notes: string)
      requires Valid()
      modifies this
      ensures Valid()
      ensures cart == SetNotes(old(cart), id, notes)
      ensures OrderTotal() == old(OrderTotal()) && TotalItems() == old(TotalItems())
      ensures notesItemId == None && notesDraft == ""
      ensures showCart == old(showCart) && orderSent == old(orderSent)
    {
      SetNotesPreservesWellFormed(cart, id, notes);
      SetNotesTotals(cart, id, notes);
      cart := SetNotes(cart, id, notes);
      notesItemId := None;
      notesDraft := "";
    }

    /** The cart button in the header (src/App.tsx:262). */
    method OpenCart()
      modifies this
      ensures showCart
      ensures cart == old(cart) && notesItemId == old(notesItemId)
      ensures notesDraft == old(notesDraft) && orderSent == old(orderSent)
    {
      showCart := true;
    }

    /** The backdrop, the close button and "Ver Menú" (src/App.tsx:373, 387, 411). */
    method CloseCart()
      modifies this
      ensures !showCart
      ensures cart == old(cart) && notesItemId == old(notesItemId)
      ensures notesDraft == old(notesDraft) && orderSent == old(orderSent)
    {
      showCart := false;
    }

    /** "Agregar instrucciones" on line `k`, shown when it has no note: open its editor, keeping the draft. */
    method BeginNotes(k: int)
      requires 0 <= k < |cart|
      modifies this
      ensures cart == old(cart) && showCart == old(showCart)
      ensures notesItemId == Some(cart[k].id)
      ensures notesDraft == old(notesDraft) && orderSent == old(orderSent)
    {
      notesItemId := Some(cart[k].id);
    }

    /** "Editar" on line `k`, shown when it has a note: open its editor with the stored note as the draft. */
    method EditNotes(k: int)
      requires 0 <= k < |cart|
      modifies this
      ensures cart == old(cart) && showCart == old(showCart) && orderSent == old(orderSent)
      ensures notesItemId == Some(cart[k].id)
      ensures notesDraft == match cart[k].notes case Some(n) => n case None => ""
    {
      notesItemId := Some(cart[k].id);
      notesDraft := match cart[k].notes case Some(n) => n case None => "";
    }

    /** Typing in the note editor. */
    method TypeNotes(text: string)
      modifies this
      ensures notesDraft == text
      ensures cart == old(cart) && showCart == old(showCart)
      ensures notesItemId == old(notesItemId) && orderSent == old(orderSent)
    {
      notesDraft := text;
    }

    /** "Cancelar" in the note editor: close it and drop the draft, leaving the cart as it was. */
    method CancelNotes()
      modifies this
      ensures notesItemId == None && notesDraft == ""
      ensures cart == old(cart) && showCart == old(showCart) && orderSent == old(orderSent)
    {
      notesItemId := None;
      notesDraft := "";
    }

    /** `enviarPedido()`, up to the scheduling of its completion; the button is disabled while an order is pending. */
    method SubmitOrder()
      requires Valid() && !orderSent
      modifies this
      ensures Valid()
      ensures orderSent
      ensures cart == old(cart) && showCart == old(showCart)
      ensures notesItemId == old(notesItemId) && notesDraft == old(notesDraft)
    {
      orderSent := true;
    }

    /** The deferred completion of `enviarPedido()`: empty the cart, close its view, clear the flag. */
    method CompleteSubmission()
      requires Valid() && orderSent
      modifies this
      ensures Valid()
      ensures cart == [] && !showCart && !orderSent
      ensures OrderTotal() == 0 && TotalItems() == 0
      ensures notesItemId == old(notesItemId) && notesDraft == old(notesDraft)
    {
      cart := [];
      showCart := false;
      orderSent := false;
    }
  }

  /** A client run: merge, minus at quantity 1, a note, submission and its completion. */
  method SampleSession()
  {
    var torta := MenuItem(1, "Torta de Jamón", "Jamón de pierna", 45);
    var jugo := MenuItem(12, "Jugo Natural", "Naranja", 30);
    var s := new OrderSession();
    s.OpenCart();
    s.AddToCart(torta, Tortas);
    s.AddToCart(torta, Tortas);
    assert |s.cart| == 1 && s.cart[0].quantity == 2;
    s.AddToCart(jugo, Bebidas);
    assert s.OrderTotal() == 120 && s.TotalItems() == 3;
    UpdateAt(s.cart, 12, -1, 1);
    s.UpdateQuantity(12, -1);
    assert |s.cart| == 2 && s.cart[1].quantity == 1;
    s.BeginNotes(0);
    s.TypeNotes("sin cebolla");
    s.SaveNotes(1, s.notesDraft);
    assert s.cart[0].notes == Some("sin cebolla") && s.OrderTotal() == 120;
    s.SubmitOrder();
    s.CompleteSubmission();
    assert s.cart == [] && !s.orderSent && !s.showCart;
  }
}
