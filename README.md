# La Calzadita ordering page: a verified model of the cart

The ordering page is one React component, `App` in `src/App.tsx`. A customer
browses a fixed menu in four categories (tortas, tacos, bebidas, extras) and
searches it. They build a cart (`carrito`) of lines (`ItemCarrito`), each with
a quantity (`cantidad`) and one optional free-text note (`notas`). Then they
submit the order (`enviarPedido`). This project models that cart logic in
Dafny and proves what each operation does:

- `optional.dfy`, module `Optional`: the optional value used for `notas?`
  and for the result of `find`.
- `seqs.dfy`, module `Seqs`: `map` and `filter` as the source's array methods
  behave, with a subsequence predicate and the filter lemmas that every cart
  operation relies on.
- `menu.dfy`, module `Menu`: `MenuItem`, `Categoria`, ASCII lower-casing, a
  substring test proved equal to "occurs at some index", and the search
  filter `filtrarItems`.
- `cart.dfy`, module `Cart`: `ItemCarrito` and the new-array computations of
  `agregarAlCarrito`, `actualizarCantidad`, `eliminarDelCarrito` and
  `agregarNotas` as functions. Lemmas give each operation's effect on a
  well-formed cart. A cart is well-formed when no two lines share an id and
  every quantity is at least 1.
- `totals.dfy`, module `Totals`: `calcularTotal` and `totalItems` as left
  folds, and how each operation moves them.
- `session.dfy`, module `Session`: the component's state as a class
  `OrderSession`. Its methods are the handlers, each tied to the functions
  above, keeping the cart well-formed.

Behaviour worth knowing, proved below:
- `actualizarCantidad` ends with a filter that drops lines of quantity 0 or
  less. On a well-formed cart that filter never removes anything: a change
  that would bring the quantity to 0 or below is rejected first. So the minus
  button at quantity 1 does nothing, and among the per-line controls only the
  trash button removes a line.
- Submitting sets `pedidoEnviado`. The deferred completion empties the cart,
  closes the cart view and clears the flag. The only guard against a second
  submission is the button's `disabled={pedidoEnviado}` (src/App.tsx:547), so
  `SubmitOrder` requires that no order is pending.

The code keeps one note per cart line, no phone numbers and no saved state,
and completes a submission with a single 2500 ms timeout; the model follows
it.

## Model

| member | source | states |
|---|---|---|
| Menu.LowerIsLower | src/App.tsx:171-172 | lower-casing keeps the length, leaves no upper-case letter and is idempotent |
| Menu.ContainsIff | src/App.tsx:171-172 | `includes` holds exactly when the query occurs at some index of the text (both directions) |
| Menu.FilterItems | src/App.tsx:167-174 | for a non-empty query every returned item has the lower-cased query in its lower-cased name or description; the result is never longer than the input |
| Menu.FilterItemsSpec | src/App.tsx:167-174 | the result is a subsequence of the input, in catalogue order; an item is in it exactly when it is in the input and matches (or the query is empty), and as many times as in the input |
| Cart.FindLine | src/App.tsx:177 | `find` returns nothing exactly when no line has the id; otherwise it returns the first line with that id |
| Cart.AddToCart | src/App.tsx:176-187 | the cart keeps its length when the id is present and grows by one when it is absent |
| Cart.AddExisting | src/App.tsx:177-183 | re-adding an id already in a cart with unique ids raises that line's quantity by 1 and leaves every other line unchanged |
| Cart.AddNew | src/App.tsx:184-186 | adding an absent id keeps every earlier line and appends one line with the item's id, name, description and price, quantity 1, no note and the given category |
| Cart.AddPreservesWellFormed | src/App.tsx:176-187 | adding keeps ids unique and every quantity at least 1 |
| Cart.UpdateQuantity | src/App.tsx:189-203 | every line left has a positive quantity and no line is added |
| Cart.UpdateKeepsLines | src/App.tsx:192-201 | from a cart of quantities at least 1, no line is removed; a line changes only when it has the id and its new quantity is positive, and then to quantity plus change |
| Cart.UpdateAt | src/App.tsx:189-203 | on a well-formed cart the result is the cart with line k set to the new quantity if that is positive, and the unchanged cart otherwise |
| Cart.UpdateAbsent | src/App.tsx:193-199 | adjusting an id that is not in a cart of positive quantities leaves the cart unchanged |
| Cart.UpdatePreservesWellFormed | src/App.tsx:189-203 | adjusting keeps ids unique and every quantity at least 1 |
| Cart.RemoveFromCart | src/App.tsx:205-207 | no line with the id is left and the cart does not grow |
| Cart.RemoveSpec | src/App.tsx:205-207 | the result is a subsequence of the cart; it holds exactly the lines whose id differs, each as many times as in the cart; a second removal is a no-op |
| Cart.RemoveAt | src/App.tsx:205-207 | in a cart with unique ids, removal splices out exactly line k |
| Cart.RemoveAbsent | src/App.tsx:205-207 | removing an absent id leaves the cart unchanged |
| Cart.RemovePreservesWellFormed | src/App.tsx:205-207 | removal keeps ids unique and every quantity at least 1 |
| Cart.SetNotes | src/App.tsx:210-212 | the cart keeps its length |
| Cart.SetNotesSpec | src/App.tsx:210-212 | each line differs from before at most in its note; lines with the id get the note and the others keep theirs; a later note for the id replaces an earlier one |
| Cart.SetNotesAt | src/App.tsx:210-212 | in a cart with unique ids only line k changes, and only its note |
| Cart.SetNotesPreservesWellFormed | src/App.tsx:210-212 | setting a note keeps ids unique and every quantity at least 1 |
| Totals.Total | src/App.tsx:217-219 | the total of a cart of positive quantities is never negative |
| Totals.ItemCount | src/App.tsx:238 | the unit count of a cart of positive quantities is at least its number of lines |
| Totals.SumAppend | src/App.tsx:217-219 | the fold over a concatenation is the sum of the two folds |
| Totals.AddTotals | src/App.tsx:176-187 | adding an item raises the unit count by 1 and, when the cart's lines agree with the catalogue price, the total by the item's price |
| Totals.ChangeTotals | src/App.tsx:194-196 | changing line k's quantity by d moves the total by its price times d and the unit count by d |
| Totals.AddNewTotals | src/App.tsx:184-186 | appending a new line raises the total by the item's price and the unit count by 1 |
| Totals.BumpTotals | src/App.tsx:180-182 | one more unit of a line adds that line's price to the total and 1 to the unit count |
| Totals.UpdateTotals | src/App.tsx:189-203 | an accepted change moves the total by price times change and the unit count by the change; a rejected one moves neither |
| Totals.RemoveTotals | src/App.tsx:205-207 | removal lowers the total by the line's price times quantity and the unit count by its quantity |
| Totals.SetNotesTotals | src/App.tsx:209-212 | notes never change the total or the unit count |
| Totals.SampleTotal | src/App.tsx:217-219 | two 45 tortas and one 30 juice total 120, in 3 units |
| Session.OrderSession.constructor | src/App.tsx:159-165 | the initial state: empty cart, cart view closed, no note being edited, empty draft, no order pending |
| Session.OrderSession.OrderTotal | src/App.tsx:217-219 | the total is never negative and is 0 for an empty cart |
| Session.OrderSession.TotalItems | src/App.tsx:238 | the unit count is at least the number of lines and is 0 for an empty cart |
| Session.OrderSession.AddToCart | src/App.tsx:176-187 | the new cart is the merge of the item and stays well-formed; the unit count rises by 1 and, with lines agreeing with the catalogue, the total by the item's price; other state unchanged |
| Session.OrderSession.UpdateQuantity | src/App.tsx:189-203 | the new cart is the adjusted cart; no line is removed and ids keep their positions; other state unchanged |
| Session.OrderSession.RemoveFromCart | src/App.tsx:205-207 | the new cart is the cart without the id; other state unchanged |
| Session.OrderSession.SaveNotes | src/App.tsx:209-215 | the note is stored, totals unchanged, and the editor state ends as no id and an empty draft |
| Session.OrderSession.OpenCart | src/App.tsx:262 | the cart view is open; nothing else changes |
| Session.OrderSession.CloseCart | src/App.tsx:373 | the cart view is closed; nothing else changes |
| Session.OrderSession.BeginNotes | src/App.tsx:520 | the editor is open on line k's id and the draft is kept; nothing else changes |
| Session.OrderSession.EditNotes | src/App.tsx:509-512 | the editor is open on line k's id with its stored note, or an empty draft when it has none |
| Session.OrderSession.TypeNotes | src/App.tsx:473 | the draft is the typed text; nothing else changes |
| Session.OrderSession.CancelNotes | src/App.tsx:487-490 | the editor ends closed with an empty draft and the cart unchanged |
| Session.OrderSession.SubmitOrder | src/App.tsx:221-222 | allowed only with no order pending; sets the pending flag and changes nothing else |
| Session.OrderSession.CompleteSubmission | src/App.tsx:223-227 | the cart ends empty (total and count 0), the cart view closed and the flag cleared |

## Left out

- Rendering, CSS classes, icons, emojis and category display names
  (src/App.tsx:36-41, 230-236, 240-590) are presentation only.
- Choosing a category tab and typing into the search box
  (src/App.tsx:287, 298) are not modelled as state. `FilterItems` takes the
  query as a parameter instead of reading `busqueda`.
- The concrete menu (src/App.tsx:43-156) is static data. Two of its items
  appear only as sample input in `Totals.SampleTotal` and
  `Session.SampleSession`.
- The 2500 ms `setTimeout` is modelled as an explicit `CompleteSubmission`
  step. Timing, React's batching of state updates and handlers reading a
  stale `carrito` from an older render are not modelled: each handler reads
  the current state.
- The submit button is shown only when the cart view is open and the cart is
  non-empty. `SubmitOrder` requires only that no order is pending, which is
  the guard the button itself carries.
- Menu.Lower: folds only the ASCII letters A-Z. Full Unicode `toLowerCase`
  (accented capitals such as `Á`) and `includes` on UTF-16 code units are not
  modelled.
- Prices and quantities are exact integers. JavaScript's floating-point
  `number` agrees with them for every amount on this menu, and fractional
  prices are not modelled.
- Sending the order to a messaging service is not modelled: the code only
  sets and clears the pending flag and keeps nothing beyond the page's state.
