# La Cocina de Anita ordering app — verified model

This project models the logic of a small food-ordering web app in Dafny. A
customer browses the menu and adds items to a cart. At checkout the order is
sent as a WhatsApp message. Four source files hold that logic, and each has a
module here:

- `Store` (`src/lib/store.ts`): the application store. It holds the cart, an
  ordered list of `{item, quantity, notes}` lines, and the screen being shown.
  - `OrderStore` is a class whose `seq` field the cart operations replace:
    append, remove by index, clear, set the screen.
  - The item count and the order total are folds, computed on demand.
- `MenuScreen` (`src/components/MenuScreen.tsx`): the rules for what goes into
  the cart.
  - Pure functions: the category filter, the quantity stepper (clamped to
    [min, 99], where min is 10 for the "Hallaca x Decena" option), option
    folding (the option's price and name replace the item's) and the price
    preview.
  - `ItemModal` is a class over the modal's four state fields. Its
    add-to-order method writes into the store.
- `PaymentInfo` (`src/components/PaymentInfo.tsx`): the checkout.
  - Required-field validation and the submit button's guard.
  - The order message, built by `GenerateWhatsAppMessage` with one `+=` per
    piece of text. It is specified as a list of `Piece`s and the text they
    render as.
  - The WhatsApp URL.
  - The popup notification, a class over the five popup fields. A ghost
    `trace` records every state it passes through.
  - The submit handler, which strings these together.
- `Orders` (`src/lib/orders.ts`, `createOrder`): the order total and the item
  rows. The database is a class with a map of orders and a list of item rows.
  Each call on it may succeed, answer with an error, or throw; the model
  chooses among these nondeterministically.

Shared modules:

- `Common`: an `Option` type, plus sequence prefix and suffix predicates.
- `Money`: amounts as integer cents, with JavaScript's two number-to-text
  conversions. `${x}` prints 2.5 as "2.5"; `x.toFixed(2)` prints "2.50".
  Both are proved to read back as the amount they print.
- `Types`: the catalogue's data shapes (`src/types/index.tsx`), the four
  payment methods, and two entries of the catalogue (`src/lib/menu-data.ts`)
  used as concrete values.

Two behaviours of the code shape the model:

- The checkout file opens the WhatsApp URL directly. It publishes no event
  and never calls `createOrder`, so `SubmitOrder` and `CreateOrder` are
  separate operations here.
- `createOrder`'s compensating delete does not look at the delete's own
  reply. When that delete fails, the order stays in the database without
  items, and the items' error is still returned. If the delete throws, the
  generic error is returned instead. `Orders.CreateOrder` states each of
  these outcomes.

## Model

| member | source | states |
|---|---|---|
| Store.Subtotal | src/lib/store.ts:110 | one line's share of the total, price × quantity; its sums are stated by OrderTotal, OrderTotalAppend and RemoveLineEffect |
| Store.ItemCount | src/lib/store.ts:99-102 | the quantity sum is non-negative, and at least every line's quantity, when no quantity is negative |
| Store.OrderTotal | src/lib/store.ts:108-111 | the sum of price × quantity is non-negative when no price and no quantity is negative |
| Store.ItemCountAppend | src/lib/store.ts:99-102 | the count of two carts joined is the sum of their counts |
| Store.OrderTotalAppend | src/lib/store.ts:108-111 | the total of two carts joined is the sum of their totals |
| Store.DropIndex | src/lib/store.ts:91-93 | filtering out one position never lengthens the list |
| Store.DropIndexInRange | src/lib/store.ts:91-93 | an index in range removes exactly that line; the lines before and after keep their order |
| Store.DropIndexOutOfRange | src/lib/store.ts:91-93 | a negative index, or one past the end, leaves the list unchanged |
| Store.RemoveLineEffect | src/lib/store.ts:91-111 | removing line i takes exactly its quantity off the count and its subtotal off the total |
| Store.OrderStore.constructor | src/lib/store.ts:65-69 | initial state: the welcome screen and an empty cart |
| Store.OrderStore.SetCurrentScreen | src/lib/store.ts:75 | sets the screen; the cart is unchanged |
| Store.OrderStore.AddToOrder | src/lib/store.ts:83-85 | appends exactly one line `{item, quantity, notes}` and checks no quantity; count grows by quantity, total by price × quantity; the screen is unchanged |
| Store.OrderStore.RemoveFromOrder | src/lib/store.ts:91-93 | in range: removes exactly line i, lowering count and total by that line's share; out of range: no change; the screen is unchanged |
| Store.OrderStore.ClearOrder | src/lib/store.ts:116 | empty cart, count and total 0, the screen unchanged |
| Store.OrderStore.GetOrderItemCount | src/lib/store.ts:99-102 | reads the store without changing it; non-negative and at least every line's quantity when no quantity is negative |
| Store.OrderStore.GetOrderTotal | src/lib/store.ts:108-111 | reads the store without changing it; non-negative when no price and no quantity is negative |
| MenuScreen.MinQuantity | src/components/MenuScreen.tsx:137 | the stepper minimum is 10 exactly when the selected option is "Hallaca x Decena", and 1 otherwise |
| MenuScreen.InitialQuantity | src/components/MenuScreen.tsx:153-158 | picking something named "Hallaca x Decena" sets quantity 10; anything else sets 1 |
| MenuScreen.InitialQuantityIsMinimum | src/components/MenuScreen.tsx:296-299 | clicking an option starts the stepper exactly at that option's minimum |
| MenuScreen.NextQuantity | src/components/MenuScreen.tsx:134-146 | the result always lies in [min, 99]; from within range: a step of exactly ±1, except that a decrement at min and an increment at 99 change nothing |
| MenuScreen.WithOption | src/components/MenuScreen.tsx:93-102 | id `item.id-option.id`, name `item.name - option.name`, the option's price, the option's description if it is non-empty and the item's otherwise; every other field is the item's |
| MenuScreen.ResolvedItem | src/components/MenuScreen.tsx:93-105 | the item `handleAddToOrder` stores: with options and a chosen option, the option's price under a new id extending the item's; otherwise the item unchanged; category and options kept either way |
| MenuScreen.PreviewPrice | src/components/MenuScreen.tsx:79-85 | 0 with no item; option price × quantity when the item has options and one is chosen; item price × quantity otherwise; equals the subtotal of the line the add button would append |
| MenuScreen.ItemsInCategory | src/components/MenuScreen.tsx:63-67 | an item is kept exactly when it is in the menu and has that category |
| MenuScreen.ItemsInCategoryAppend | src/components/MenuScreen.tsx:63-67 | filtering keeps menu order: it distributes over joined parts of the menu |
| MenuScreen.FilteredItems | src/components/MenuScreen.tsx:63-67 | "All" gives the whole menu; any other category gives exactly the items of that category |
| MenuScreen.ItemModal.constructor | src/components/MenuScreen.tsx:21-33 | no item, no option, quantity 1, empty notes |
| MenuScreen.ItemModal.SelectItem | src/components/MenuScreen.tsx:153-158 | item set, option cleared, notes emptied, quantity 10 for "Hallaca x Decena" and 1 otherwise |
| MenuScreen.ItemModal.SelectOption | src/components/MenuScreen.tsx:296-299 | option set and quantity reset to that option's minimum |
| MenuScreen.ItemModal.ChangeQuantity | src/components/MenuScreen.tsx:134-146 | quantity becomes the clamped step and stays within the stepper's bounds |
| MenuScreen.ItemModal.SetNotes | src/components/MenuScreen.tsx:382-386 | notes are replaced by the typed text, which the 200-character limit bounds |
| MenuScreen.ItemModal.Close | src/components/MenuScreen.tsx:163-168 | the selection resets to no item, no option, quantity 1, empty notes |
| MenuScreen.ItemModal.AddDisabled | src/components/MenuScreen.tsx:398 | disabled exactly when the item has options and none is chosen, which is exactly when the add would store an item that has options as the bare item, at its own price and id; while enabled, an item with options is stored with the chosen option folded in, at the option's price |
| MenuScreen.ItemModal.Preview | src/components/MenuScreen.tsx:79-85 | 0 with no item; otherwise the subtotal of exactly the line the add button would append |
| MenuScreen.ItemModal.AddToOrder | src/components/MenuScreen.tsx:91-113 | with an item selected: appends exactly one line (option folded in only when the item has options and one is chosen), the total grows by the previewed price, and the selection resets; with no item: no change |
| Money.NatToString | src/components/PaymentInfo.tsx:121 | a natural number prints as a non-empty string of digits, with no leading zero except for 0 itself |
| Money.NatToStringRoundTrip | src/components/PaymentInfo.tsx:121 | the decimal digits printed for a line number read back as that number |
| Money.IntToString | src/components/PaymentInfo.tsx:122 | an integer prints as its digits, with a leading '-' when negative |
| Money.ToFixed2 | src/components/PaymentInfo.tsx:124 | `toFixed(2)` prints a '-' exactly for negative amounts, then the whole part with no padding zero (an amount under 1.00 prints a single '0' before the point), a point and exactly two digits |
| Money.NumberToString | src/components/PaymentInfo.tsx:123 | `${price}` prints a '-' exactly for negative amounts and a whole part with no padding zero (under 1.00 it is the single digit '0', then the point or the end); no decimal point for a whole amount; a fractional amount prints a point and no trailing zero ("2.5", not "2.50") |
| Money.ToFixed2RoundTrip | src/components/PaymentInfo.tsx:124 | the text `toFixed(2)` prints reads back as the same amount of cents |
| Money.NumberToStringRoundTrip | src/components/PaymentInfo.tsx:123 | the text `${price}` prints reads back as the same amount of cents |
| Money.RenderingsAgree | src/components/PaymentInfo.tsx:123-124 | the unit-price form and the subtotal form of an amount denote the same cents |
| PaymentInfo.ReadyToSubmit | src/components/PaymentInfo.tsx:245 | an order that passes validation has name, phone and address filled in, and its message has at least one cart-line block and the payment line |
| PaymentInfo.SubmitDisabled | src/components/PaymentInfo.tsx:498-505 | disabled whenever the popup is shown or validation would fail; enabled whenever validation passes and no popup is shown |
| PaymentInfo.Render | src/components/PaymentInfo.tsx:108-150 | the literal text each `message +=` appends, never empty; RenderLeads and MessageFraming state what is proved of it |
| PaymentInfo.MessagePieces | src/components/PaymentInfo.tsx:108-150 | the message as its pieces: opening, one block per cart line, closing; specified by MessageEnds, PaymentLineIffSelected, NotesBlockIffNotes, DateBlockIffDate and CartLinesInOrder |
| PaymentInfo.Message | src/components/PaymentInfo.tsx:107-153 | the text of those pieces; GenerateWhatsAppMessage builds exactly it, MessageFraming is proved of the text, and EmojiPiecesIffFields of its pieces |
| PaymentInfo.RenderLeads | src/components/PaymentInfo.tsx:108-150 | a piece's text starts with 💳, 📝 or 📅 exactly when it is the payment line, the special-notes block or the date block |
| PaymentInfo.LeadingEmoji | src/components/PaymentInfo.tsx:108-150 | a list of pieces has a piece starting with 💳 (📝, 📅) exactly when it holds a payment (notes, date) piece |
| PaymentInfo.EmojiPiecesIffFields | src/components/PaymentInfo.tsx:112-148 | among a message's pieces, a piece opens with 💳, 📝 or 📅 exactly when the payment method, the special notes or the delivery date was filled in |
| PaymentInfo.MessageAsBuilt | src/components/PaymentInfo.tsx:107-153 | the `+=` sequence builds exactly the text of the message's pieces |
| PaymentInfo.OpeningMessage | src/components/PaymentInfo.tsx:108-118 | header, customer block, the payment line only when a method is chosen, blank line, cart heading, divider |
| PaymentInfo.AppendLine | src/components/PaymentInfo.tsx:121-128 | one cart line's block: its 1-based number and name, quantity, unit price, subtotal, a notes line only for non-empty notes, a blank line |
| PaymentInfo.AppendItems | src/components/PaymentInfo.tsx:120-129 | the `forEach` appends the blocks of all cart lines, in cart order |
| PaymentInfo.AppendClosing | src/components/PaymentInfo.tsx:131-150 | divider, the total, the notes block only for non-empty notes, the date block only for a non-empty date, the closing line |
| PaymentInfo.GenerateWhatsAppMessage | src/components/PaymentInfo.tsx:107-153 | the message built equals the specified message of the cart and the form |
| PaymentInfo.MessageEnds | src/components/PaymentInfo.tsx:108-150 | every message has at least two pieces; the first is the header and the last the closing line |
| PaymentInfo.MessageFraming | src/components/PaymentInfo.tsx:108-150 | the message text starts with the fixed header and ends with the fixed closing line |
| PaymentInfo.PaymentLineIffSelected | src/components/PaymentInfo.tsx:112-114 | a payment line for method m appears exactly when m is the chosen method; there is one exactly when a method is chosen |
| PaymentInfo.NotesBlockIffNotes | src/components/PaymentInfo.tsx:134-136 | the special-notes block appears exactly when notes are non-empty, and carries those notes |
| PaymentInfo.DateBlockIffDate | src/components/PaymentInfo.tsx:138-148 | the date block appears exactly when a date is entered, and carries its locale rendering |
| PaymentInfo.ItemPiecesPrefix | src/components/PaymentInfo.tsx:120-129 | the blocks of the first j cart lines are a prefix of the blocks of the whole cart |
| PaymentInfo.CartLinesInOrder | src/components/PaymentInfo.tsx:120-129 | the block of line k, titled k + 1, follows the blocks of lines 0..k-1 directly |
| PaymentInfo.TotalAsPrinted | src/components/PaymentInfo.tsx:124-132 | the cart total equals the sum of the subtotals as printed and read back |
| PaymentInfo.PrintedTotalIsSumOfSubtotals | src/components/PaymentInfo.tsx:124-132 | the printed total reads back as exactly the sum of the printed subtotals |
| PaymentInfo.ExampleTotal | src/lib/store.ts:108-111 | Hallaca Individual × 2, Hallaca x Decena × 10 and Lasagna × 1 come to 37.00 |
| PaymentInfo.ExampleTotalText | src/components/PaymentInfo.tsx:132 | a total of 3700 cents prints as "37.00" |
| PaymentInfo.WhatsAppUrl | src/components/PaymentInfo.tsx:267-276 | the `whatsapp://send?phone=50768257958&text=` form exactly on mobile and the `https://wa.me/50768257958?text=` form exactly elsewhere; both end with the same encoded message |
| PaymentInfo.CloseButtonShown | src/components/PaymentInfo.tsx:560-563 | a close button is shown exactly on a visible error popup |
| PaymentInfo.StepsWellFormed | src/components/PaymentInfo.tsx:186-236 | from a resting popup, show, update and hide pass only through well-formed stage/exiting states and end resting; hide ends hidden |
| PaymentInfo.UpdatePassesThroughEntering | src/components/PaymentInfo.tsx:207-220 | an update returns to stage 1 before the content changes and reaches stage 2 only at its end |
| PaymentInfo.Notification.constructor | src/components/PaymentInfo.tsx:44-60 | hidden, empty message, type success, not exiting, stage 0 |
| PaymentInfo.Notification.Show | src/components/PaymentInfo.tsx:186-198 | message and type set, visible, not exiting, stage 1, then stage 2 |
| PaymentInfo.Notification.Update | src/components/PaymentInfo.tsx:207-220 | stage 1, then the new message and type, then stage 2; still visible |
| PaymentInfo.Notification.Hide | src/components/PaymentInfo.tsx:227-236 | stage 3 and exiting, then hidden, not exiting, stage 0 |
| PaymentInfo.DismissOnlyOnErrors | src/components/PaymentInfo.tsx:243-300 | no progress or success popup of a submission offers the close button; the validation and failure popups do |
| PaymentInfo.SubmitOrder | src/components/PaymentInfo.tsx:243-300 | invalid: error popup, nothing opened, cart and screen kept; valid: the URL of the encoded message is opened, the cart is cleared and the screen set to welcome; exception: the error popup, with cart and screen kept; the popup ends hidden |
| PaymentInfo.Reject | src/components/PaymentInfo.tsx:245-251 | the validation-error popup is shown, then hidden |
| PaymentInfo.Dispatch | src/components/PaymentInfo.tsx:256-263 | the validating, generating and ready messages in order; the popup ends showing "ready" as a success |
| PaymentInfo.Fail | src/components/PaymentInfo.tsx:290-296 | the failure popup is shown, then hidden |
| PaymentInfo.Finish | src/components/PaymentInfo.tsx:280-284 | the "sent" message, then the popup hides |
| Orders.OrNull | src/lib/orders.ts:37-39 | an absent or empty string is stored as null; anything else is stored as given |
| Orders.TotalAmount | src/lib/orders.ts:27 | the reduce of quantity × unit price; TotalAmountAppend, TotalAmountNonNegative and RowSubtotalsMatchTotal state its properties |
| Orders.FieldsOf | src/lib/orders.ts:30-44 | the order row copies name, phone, address and payment method, carries the computed total, has null date or notes exactly when they are absent or empty, and stores them as given otherwise |
| Orders.ItemRows | src/lib/orders.ts:52-60 | one row per item, in order, each tied to the order id, with subtotal quantity × unit price and null for missing notes |
| Orders.TotalAmountAppend | src/lib/orders.ts:27 | the total of joined item lists is the sum of their totals |
| Orders.TotalAmountNonNegative | src/lib/orders.ts:27 | with no negative quantity or price, the total is non-negative |
| Orders.RowSubtotalsMatchTotal | src/lib/orders.ts:52-60 | the rows' subtotals add up to the order's `total_amount` |
| Orders.StoredRowsMatchOrder | src/lib/orders.ts:27-60 | for an order stored from the data: one row per item, and the subtotals sum to the stored total |
| Orders.OrderDatabase.InsertOrder | src/lib/orders.ts:30-44 | on success, a new order under an id not in use; otherwise the orders are unchanged |
| Orders.OrderDatabase.InsertItems | src/lib/orders.ts:62-64 | on success, all rows are appended; otherwise none are |
| Orders.OrderDatabase.DeleteOrder | src/lib/orders.ts:69 | on success, the order with that id is gone; otherwise the orders are unchanged |
| Orders.CreateOrder | src/lib/orders.ts:24-78 | success exactly when an order is returned; order insert fails: its message, nothing stored, no item insert; item insert fails: the compensating delete, then the items' message; both succeed: success with the stored order and its rows; any exception: "Error inesperado al crear el pedido" |

## Left out

- Timers, `requestAnimationFrame` and the forced reflow (`src/components/PaymentInfo.tsx:160-177`). Each notification call runs to completion. The model keeps the order of the popup states, but not their durations or how timers interleave.
- The close button's own click, which calls the same hide as `Notification.Hide`. A second hide, fired later by the 4-second timer, is not modelled.
- The user-agent check in `isMobileDevice`: `isMobile` is an input.
- `encodeURIComponent`, and the Panama-time `toLocaleString` of the delivery date, are opaque function parameters. An exception from either of them, or from `window.open`, is the `throws` input of `SubmitOrder`. That exception is raised before the URL is opened.
- Floating-point arithmetic: amounts are integer cents. JavaScript's exponent notation for very large numbers is not modelled.
- `src/lib/orderListener.ts`: the checkout file never uses it, and it is DOM event plumbing.
- `getOrdersByDateRange`, `getTodayOrders` and `updateOrderStatus` (`src/lib/orders.ts:83-124`), and the Supabase client (`src/utils/supabase.ts`): these are network queries outside `createOrder`.
- The order columns the database fills in (status, timestamps) are not modelled. Order ids are natural numbers rather than the database's strings. An exception from a database call is modelled as happening before that call writes anything.
- `Orders.OrderDatabase.InsertOrder`: the id is taken from a counter. The only promise kept is that the id is fresh.
- The rendering-only components (`WelcomeScreen.tsx`, `OrderForm.tsx`, `Button.tsx`, `Card.tsx`, `page.tsx`, `layout.tsx`) and the build configuration. The navigation buttons of the menu screen only call `setCurrentScreen`, which is modelled.
- `PaymentInfo.SubmitOrder`: the validation-failure path is modelled, although the disabled submit button keeps it from being reached through the button.
- `PaymentInfo.Notification.Hide` keeps the message and type of the popup it hides, because the code never resets them.
