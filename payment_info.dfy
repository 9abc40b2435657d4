/**
 * The checkout screen of src/components/PaymentInfo.tsx: required-field
 * validation, the order message sent over WhatsApp, the destination URL,
 * the animated popup notification, and the submit handler that strings them
 * together. Timers and animation frames are abstracted away: each
 * notification step runs to completion, and the popup records every state
 * it passes through.
 */
module PaymentInfo {
  import opened Common
  import opened Money
  import opened Types
  import opened Store
  import MenuScreen

  /** The checkout form's fields; an empty string is an empty input. */
  datatype CheckoutForm = CheckoutForm(
    customerName: string,
    customerPhone: string,
    customerAddress: string,
    specialNotes: string,
    deliveryDate: string,
    paymentMethod: Option<PaymentMethod>)

  // ---------------------------------------------------------------------------
  // Validation and the submit button

  /**
   * The check at the top of `handleSubmitOrder`. An order that passes it has
   * a message with at least one cart-line block and with the payment line.
   */
  function ReadyToSubmit(cart: seq<OrderLine>, form: CheckoutForm): (ready: bool)
    ensures ready ==> |ItemPieces(cart)| > 0 && |PaymentPieces(form)| == 1 && PaymentPieces(form)[0].PaymentMethodLine?
    ensures ready ==> form.customerName != "" && form.customerPhone != "" && form.customerAddress != ""
  {
    && |cart| > 0
    && form.customerName != ""
    && form.customerPhone != ""
    && form.customerAddress != ""
    && form.paymentMethod.Some?
  }

  /** The submit button's `disabled` condition. */
  function SubmitDisabled(cart: seq<OrderLine>, form: CheckoutForm, showPopup: bool): (disabled: bool)
    ensures showPopup ==> disabled
    ensures !ReadyToSubmit(cart, form) ==> disabled
    ensures ReadyToSubmit(cart, form) && !showPopup ==> !disabled
  {
    |cart| == 0 || form.customerName == "" || form.customerPhone == ""
      || form.customerAddress == "" || form.paymentMethod.None? || showPopup
  }

  // ---------------------------------------------------------------------------
  // The order message. `generateWhatsAppMessage` appends one piece of text
  // per `message +=`; a message is specified as the list of those pieces and
  // the text each renders as.

  datatype Piece =
    | Heading
    | CustomerName(name: string)
    | CustomerPhone(phone: string)
    | CustomerAddress(address: string)
    | PaymentMethodLine(choice: PaymentMethod)
    | BlankLine
    | CartHeading
    | Divider
    | LineTitle(position: nat, name: string)
    | LineQuantity(quantity: int)
    | LineUnitPrice(price: Cents)
    | LineSubtotal(subtotal: Cents)
    | LineNotes(notes: string)
    | Total(total: Cents)
    | SpecialNotes(notes: string)
    | DeliveryDate(formatted: string)
    | Closing

  /**
   * The text of one piece. The quantity prints as an integer, the unit price
   * by the default number conversion, the subtotal and the total by
   * `toFixed(2)`.
   */
  function Render(p: Piece): (s: string)
    ensures 0 < |s|
  {
    match p
    case Heading => "🍽️ *NUEVO PEDIDO - LA COCINA DE ANITA*\n\n"
    case CustomerName(name) => "👤 *Cliente:* " + name + "\n"
    case CustomerPhone(phone) => "📱 *Teléfono:* " + phone + "\n"
    case CustomerAddress(address) => "📍 *Dirección:* " + address + "\n"
    case PaymentMethodLine(m) => "💳 *Método de Pago:* " + m.Name() + "\n"
    case BlankLine => "\n"
    case CartHeading => "🛒 *PEDIDO:*\n"
    case Divider => "━━━━━━━━━━━━━━━━━━━━\n"
    case LineTitle(position, name) => NatToString(position) + ". " + name + "\n"
    case LineQuantity(quantity) => "   • Cantidad: " + IntToString(quantity) + "\n"
    case LineUnitPrice(price) => "   • Precio unitario: $" + NumberToString(price) + "\n"
    case LineSubtotal(subtotal) => "   • Subtotal: $" + ToFixed2(subtotal) + "\n"
    case LineNotes(notes) => "   • Notas: " + notes + "\n"
    case Total(total) => "💰 *TOTAL: $" + ToFixed2(total) + "*\n\n"
    case SpecialNotes(notes) => "📝 *Notas especiales:*\n" + notes + "\n\n"
    case DeliveryDate(formatted) => "📅 *Fecha de entrega solicitada:* " + formatted + "\n\n"
    case Closing => "¡Gracias por elegir La Cocina de Anita! 🙏"
  }

  /** The text of a list of pieces: their renderings, in order. */
  function Text(pieces: seq<Piece>): string {
    if |pieces| == 0 then "" else Text(pieces[..|pieces| - 1]) + Render(pieces[|pieces| - 1])
  }

  function PaymentPieces(form: CheckoutForm): seq<Piece> {
    if form.paymentMethod.Some? then [PaymentMethodLine(form.paymentMethod.value)] else []
  }

  /** The header, the customer block and the cart heading. */
  function OpeningPieces(form: CheckoutForm): seq<Piece> {
    [Heading] + [CustomerName(form.customerName)] + [CustomerPhone(form.customerPhone)]
    + [CustomerAddress(form.customerAddress)] + PaymentPieces(form) + [BlankLine]
    + [CartHeading] + [Divider]
  }

  function NotesLinePieces(line: OrderLine): seq<Piece> {
    if line.notes != "" then [LineNotes(line.notes)] else []
  }

  /** The block of the cart line at 0-based position `index`, numbered from one. */
  function LinePieces(index: nat, line: OrderLine): seq<Piece> {
    [LineTitle(index + 1, line.item.name)] + [LineQuantity(line.quantity)]
    + [LineUnitPrice(line.item.price)] + [LineSubtotal(Subtotal(line))]
    + NotesLinePieces(line) + [BlankLine]
  }

  function ItemPieces(cart: seq<OrderLine>): seq<Piece> {
    if |cart| == 0 then []
    else ItemPieces(cart[..|cart| - 1]) + LinePieces(|cart| - 1, cart[|cart| - 1])
  }

  function NotesPieces(form: CheckoutForm): seq<Piece> {
    if form.specialNotes != "" then [SpecialNotes(form.specialNotes)] else []
  }

  /** `localeDate` stands for the Panama-time `toLocaleString` rendering of the date input. */
  function DatePieces(form: CheckoutForm, localeDate: string -> string): seq<Piece> {
    if form.deliveryDate != "" then [DeliveryDate(localeDate(form.deliveryDate))] else []
  }

  /** The total, the optional notes and date blocks, and the closing line. */
  function ClosingPieces(cart: seq<OrderLine>, form: CheckoutForm, localeDate: string -> string): seq<Piece> {
    [Divider] + [Total(OrderTotal(cart))] + NotesPieces(form) + DatePieces(form, localeDate) + [Closing]
  }

  function MessagePieces(cart: seq<OrderLine>, form: CheckoutForm, localeDate: string -> string): seq<Piece> {
    OpeningPieces(form) + ItemPieces(cart) + ClosingPieces(cart, form, localeDate)
  }

  /** The message text. */
  function Message(cart: seq<OrderLine>, form: CheckoutForm, localeDate: string -> string): string {
    Text(MessagePieces(cart, form, localeDate))
  }

  lemma TextSingle(p: Piece)
    ensures Text([p]) == Render(p)
  {
    assert [p][..0] == [];
  }

  lemma TextSnoc(pieces: seq<Piece>, p: Piece)
    ensures Text(pieces + [p]) == Text(pieces) + Render(p)
  {
    assert (pieces + [p])[..|pieces|] == pieces;
  }

  lemma {:induction false} TextAppend(a: seq<Piece>, b: seq<Piece>)
    ensures Text(a + b) == Text(a) + Text(b)
    decreases |b|
  {
    if |b| == 0 {
      assert a + b == a;
    } else {
      var n := |b| - 1;
      assert (a + b)[..|a + b| - 1] == a + b[..n];
      assert (a + b)[|a + b| - 1] == b[n];
      TextAppend(a, b[..n]);
      Associate(Text(a), Text(b[..n]), Render(b[n]));
    }
  }

  lemma Associate(a: string, b: string, c: string)
    ensures a + (b + c) == a + b + c
  {
  }

  // The message as the method builds it, one `+=` after another. The method
  // grows a string from the left, so its loop invariant and postconditions
  // are stated over these strings; the *IsText lemmas below connect them to
  // the pieces, which every property of the message is stated about.

  function OptionalText(pieces: seq<Piece>): string
    requires |pieces| <= 1
  {
    if |pieces| == 0 then "" else Render(pieces[0])
  }

  function OpeningText(form: CheckoutForm): string {
    Render(Heading) + Render(CustomerName(form.customerName)) + Render(CustomerPhone(form.customerPhone))
    + Render(CustomerAddress(form.customerAddress)) + OptionalText(PaymentPieces(form)) + Render(BlankLine)
    + Render(CartHeading) + Render(Divider)
  }

  function AppendLineText(acc: string, index: nat, line: OrderLine): string {
    acc + Render(LineTitle(index + 1, line.item.name)) + Render(LineQuantity(line.quantity))
    + Render(LineUnitPrice(line.item.price)) + Render(LineSubtotal(Subtotal(line)))
    + OptionalText(NotesLinePieces(line)) + Render(BlankLine)
  }

  function ItemsText(acc: string, cart: seq<OrderLine>): string {
    if |cart| == 0 then acc
    else AppendLineText(ItemsText(acc, cart[..|cart| - 1]), |cart| - 1, cart[|cart| - 1])
  }

  function AppendClosingText(acc: string, cart: seq<OrderLine>, form: CheckoutForm, localeDate: string -> string): string {
    acc + Render(Divider) + Render(Total(OrderTotal(cart))) + OptionalText(NotesPieces(form))
    + OptionalText(DatePieces(form, localeDate)) + Render(Closing)
  }

  lemma OptionalTextIsText(pieces: seq<Piece>)
    requires |pieces| <= 1
    ensures OptionalText(pieces) == Text(pieces)
  {
    if |pieces| == 1 {
      assert pieces == [pieces[0]];
      TextSingle(pieces[0]);
    }
  }

  lemma {:induction false} OpeningTextIsText(form: CheckoutForm)
    ensures OpeningText(form) == Text(OpeningPieces(form))
  {
    var h, n, p, a := [Heading], [CustomerName(form.customerName)],
                      [CustomerPhone(form.customerPhone)], [CustomerAddress(form.customerAddress)];
    var pay := PaymentPieces(form);
    TextSingle(Heading);
    TextSnoc(h, n[0]);
    TextSnoc(h + n, p[0]);
    TextSnoc(h + n + p, a[0]);
    TextAppend(h + n + p + a, pay);
    OptionalTextIsText(pay);
    TextSnoc(h + n + p + a + pay, BlankLine);
    TextSnoc(h + n + p + a + pay + [BlankLine], CartHeading);
    TextSnoc(h + n + p + a + pay + [BlankLine] + [CartHeading], Divider);
  }

  lemma {:induction false} LineTextIsText(acc: string, index: nat, line: OrderLine)
    ensures AppendLineText(acc, index, line) == acc + Text(LinePieces(index, line))
  {
    var t, q, u, s := [LineTitle(index + 1, line.item.name)], [LineQuantity(line.quantity)],
                      [LineUnitPrice(line.item.price)], [LineSubtotal(Subtotal(line))];
    var notes := NotesLinePieces(line);
    TextSingle(t[0]);
    TextSnoc(t, q[0]);
    TextSnoc(t + q, u[0]);
    TextSnoc(t + q + u, s[0]);
    TextAppend(t + q + u + s, notes);
    OptionalTextIsText(notes);
    TextSnoc(t + q + u + s + notes, BlankLine);
    var rt, rq, ru, rs, rn, rb := Render(t[0]), Render(q[0]), Render(u[0]), Render(s[0]),
                                  OptionalText(notes), Render(BlankLine);
    assert Text(LinePieces(index, line)) == rt + rq + ru + rs + rn + rb;
    Associate(acc, rt + rq + ru + rs + rn, rb);
    Associate(acc, rt + rq + ru + rs, rn);
    Associate(acc, rt + rq + ru, rs);
    Associate(acc, rt + rq, ru);
    Associate(acc, rt, rq);
  }

  lemma {:induction false} ItemsTextIsText(acc: string, cart: seq<OrderLine>)
    ensures ItemsText(acc, cart) == acc + Text(ItemPieces(cart))
  {
    if |cart| == 0 {
      assert acc + "" == acc;
    } else {
      var n := |cart| - 1;
      ItemsTextIsText(acc, cart[..n]);
      LineTextIsText(ItemsText(acc, cart[..n]), n, cart[n]);
      TextAppend(ItemPieces(cart[..n]), LinePieces(n, cart[n]));
      Associate(acc, Text(ItemPieces(cart[..n])), Text(LinePieces(n, cart[n])));
    }
  }

  lemma {:induction false} ClosingTextIsText(acc: string, cart: seq<OrderLine>, form: CheckoutForm, localeDate: string -> string)
    ensures AppendClosingText(acc, cart, form, localeDate) == acc + Text(ClosingPieces(cart, form, localeDate))
  {
    var d, t := [Divider], [Total(OrderTotal(cart))];
    var notes, date := NotesPieces(form), DatePieces(form, localeDate);
    TextSingle(Divider);
    TextSnoc(d, t[0]);
    TextAppend(d + t, notes);
    OptionalTextIsText(notes);
    TextAppend(d + t + notes, date);
    OptionalTextIsText(date);
    TextSnoc(d + t + notes + date, Closing);
    var rd, rt, rn, rdate, rc := Render(Divider), Render(t[0]), OptionalText(notes),
                                 OptionalText(date), Render(Closing);
    assert Text(ClosingPieces(cart, form, localeDate)) == rd + rt + rn + rdate + rc;
    Associate(acc, rd + rt + rn + rdate, rc);
    Associate(acc, rd + rt + rn, rdate);
    Associate(acc, rd + rt, rn);
    Associate(acc, rd, rt);
  }

  /** The message text is the concatenation the method builds. */
  lemma {:induction false} MessageAsBuilt(cart: seq<OrderLine>, form: CheckoutForm, localeDate: string -> string)
    ensures Message(cart, form, localeDate) ==
      AppendClosingText(ItemsText(OpeningText(form), cart), cart, form, localeDate)
  {
    var o, i, c := OpeningPieces(form), ItemPieces(cart), ClosingPieces(cart, form, localeDate);
    OpeningTextIsText(form);
    ItemsTextIsText(OpeningText(form), cart);
    ClosingTextIsText(ItemsText(OpeningText(form), cart), cart, form, localeDate);
    TextAppend(o, i);
    TextAppend(o + i, c);
  }

  /** The header and the customer block, up to the cart heading. */
  method OpeningMessage(form: CheckoutForm) returns (message: string)
    ensures message == OpeningText(form)
  {
    message := Render(Heading);
    message := message + Render(CustomerName(form.customerName));
    message := message + Render(CustomerPhone(form.customerPhone));
    message := message + Render(CustomerAddress(form.customerAddress));
    if form.paymentMethod.Some? {
      message := message + Render(PaymentMethodLine(form.paymentMethod.value));
    } else {
      assert message + "" == message;
    }
    message := message + Render(BlankLine);
    message := message + Render(CartHeading);
    message := message + Render(Divider);
  }

  /** One iteration of the `forEach`: the block of the cart line at `index`. */
  method AppendLine(message: string, index: nat, line: OrderLine) returns (extended: string)
    ensures extended == AppendLineText(message, index, line)
  {
    extended := message + Render(LineTitle(index + 1, line.item.name));
    extended := extended + Render(LineQuantity(line.quantity));
    extended := extended + Render(LineUnitPrice(line.item.price));
    extended := extended + Render(LineSubtotal(line.item.price * line.quantity));
    if line.notes != "" {
      extended := extended + Render(LineNotes(line.notes));
    } else {
      assert extended + "" == extended;
    }
    extended := extended + Render(BlankLine);
  }

  /** The `forEach` over the cart: one block per line, in cart order. */
  method AppendItems(message: string, cart: seq<OrderLine>) returns (extended: string)
    ensures extended == ItemsText(message, cart)
  {
    extended := message;
    for i := 0 to |cart|
      invariant extended == ItemsText(message, cart[..i])
    {
      extended := AppendLine(extended, i, cart[i]);
      assert cart[..i + 1][..i] == cart[..i];
    }
    assert cart[..|cart|] == cart;
  }

  /** The total, the optional notes and date blocks, and the closing line. */
  method AppendClosing(message: string, cart: seq<OrderLine>, form: CheckoutForm, localeDate: string -> string)
    returns (extended: string)
    ensures extended == AppendClosingText(message, cart, form, localeDate)
  {
    extended := message + Render(Divider);
    extended := extended + Render(Total(OrderTotal(cart)));
    if form.specialNotes != "" {
      extended := extended + Render(SpecialNotes(form.specialNotes));
    } else {
      assert extended + "" == extended;
    }
    if form.deliveryDate != "" {
      extended := extended + Render(DeliveryDate(localeDate(form.deliveryDate)));
    } else {
      assert extended + "" == extended;
    }
    extended := extended + Render(Closing);
  }

  /**
   * `generateWhatsAppMessage`: the header, the customer block (the payment
   * line only when a method is chosen), one block per cart line in cart
   * order, the total, the notes and date blocks when they are filled in, and
   * the closing line.
   */
  method GenerateWhatsAppMessage(cart: seq<OrderLine>, form: CheckoutForm, localeDate: string -> string)
    returns (message: string)
    ensures message == Message(cart, form, localeDate)
  {
    message := OpeningMessage(form);
    message := AppendItems(message, cart);
    message := AppendClosing(message, cart, form, localeDate);
    MessageAsBuilt(cart, form, localeDate);
  }

  /** The first piece of every message is the header and the last one the closing line. */
  lemma MessageEnds(cart: seq<OrderLine>, form: CheckoutForm, localeDate: string -> string)
    ensures var ps := MessagePieces(cart, form, localeDate);
      && 2 <= |ps|
      && ps == [Heading] + ps[1..]
      && ps == ps[..|ps| - 1] + [Closing]
  {
    var ps := MessagePieces(cart, form, localeDate);
    assert ps[0] == Heading;
    assert ps[|ps| - 1] == Closing;
  }

  /** The message opens with the fixed header and ends with the fixed closing line. */
  lemma MessageFraming(cart: seq<OrderLine>, form: CheckoutForm, localeDate: string -> string)
    ensures IsPrefix(Render(Heading), Message(cart, form, localeDate))
    ensures IsSuffix(Render(Closing), Message(cart, form, localeDate))
  {
    var ps := MessagePieces(cart, form, localeDate);
    var n := |ps| - 1;
    MessageEnds(cart, form, localeDate);
    TextAppend([Heading], ps[1..]);
    TextSingle(Heading);
    AppendFraming(Render(Heading), Text(ps[1..]));
    TextSnoc(ps[..n], Closing);
    AppendFraming(Text(ps[..n]), Render(Closing));
  }

  /** The pieces a cart-line block is made of. */
  predicate IsLinePiece(p: Piece) {
    p.LineTitle? || p.LineQuantity? || p.LineUnitPrice? || p.LineSubtotal? || p.LineNotes? || p.BlankLine?
  }

  lemma {:induction false} ItemPiecesAreLinePieces(cart: seq<OrderLine>)
    ensures forall p :: p in ItemPieces(cart) ==> IsLinePiece(p)
  {
    if |cart| > 0 {
      ItemPiecesAreLinePieces(cart[..|cart| - 1]);
    }
  }

  lemma OpeningPiecesKinds(form: CheckoutForm)
    ensures forall p :: p in OpeningPieces(form) ==>
      && !p.SpecialNotes? && !p.DeliveryDate?
      && (p.PaymentMethodLine? ==> form.paymentMethod == Some(p.choice))
  {
  }

  lemma ClosingPiecesKinds(cart: seq<OrderLine>, form: CheckoutForm, localeDate: string -> string)
    ensures forall p :: p in ClosingPieces(cart, form, localeDate) ==>
      && !p.PaymentMethodLine?
      && (p.SpecialNotes? ==> form.specialNotes != "" && p.notes == form.specialNotes)
      && (p.DeliveryDate? ==> form.deliveryDate != "" && p.formatted == localeDate(form.deliveryDate))
  {
  }

  /** Some piece of the list renders with `c` as its first character. */
  predicate LeadsWith(pieces: seq<Piece>, c: char) {
    exists k :: 0 <= k < |pieces| && Render(pieces[k])[0] == c
  }

  /** The leading character tells the payment, notes and date pieces apart from every other piece. */
  lemma RenderLeads(p: Piece)
    ensures Render(p)[0] == '💳' <==> p.PaymentMethodLine?
    ensures Render(p)[0] == '📝' <==> p.SpecialNotes?
    ensures Render(p)[0] == '📅' <==> p.DeliveryDate?
  {
    var s := Render(p);
    match p
    case Heading => assert s[0] == '🍽';
    case CustomerName(name) => assert s[0] == '👤';
    case CustomerPhone(phone) => assert s[0] == '📱';
    case CustomerAddress(address) => assert s[0] == '📍';
    case PaymentMethodLine(m) => assert s[0] == '💳';
    case BlankLine => assert s[0] == '\n';
    case CartHeading => assert s[0] == '🛒';
    case Divider => assert s[0] == '━';
    case LineTitle(position, name) => assert s[0] == NatToString(position)[0];
    case LineQuantity(quantity) => assert s[0] == ' ';
    case LineUnitPrice(price) => assert s[0] == ' ';
    case LineSubtotal(subtotal) => assert s[0] == ' ';
    case LineNotes(notes) => assert s[0] == ' ';
    case Total(total) => assert s[0] == '💰';
    case SpecialNotes(notes) => assert s[0] == '📝';
    case DeliveryDate(formatted) => assert s[0] == '📅';
    case Closing => assert s[0] == '¡';
  }

  /** In any list of pieces, a piece opens with the card, memo or calendar emoji exactly when a payment, notes or date piece is present. */
  lemma LeadingEmoji(pieces: seq<Piece>)
    ensures LeadsWith(pieces, '💳') <==> exists k :: 0 <= k < |pieces| && pieces[k].PaymentMethodLine?
    ensures LeadsWith(pieces, '📝') <==> exists k :: 0 <= k < |pieces| && pieces[k].SpecialNotes?
    ensures LeadsWith(pieces, '📅') <==> exists k :: 0 <= k < |pieces| && pieces[k].DeliveryDate?
  {
    forall k | 0 <= k < |pieces| {
      RenderLeads(pieces[k]);
    }
  }

  /** The payment line appears exactly when a method is chosen, and names that method. */
  lemma {:induction false} PaymentLineIffSelected(cart: seq<OrderLine>, form: CheckoutForm, localeDate: string -> string)
    ensures forall m :: PaymentMethodLine(m) in MessagePieces(cart, form, localeDate) <==> form.paymentMethod == Some(m)
    ensures (exists k :: 0 <= k < |MessagePieces(cart, form, localeDate)|
               && MessagePieces(cart, form, localeDate)[k].PaymentMethodLine?) <==> form.paymentMethod.Some?
  {
    ItemPiecesAreLinePieces(cart);
    OpeningPiecesKinds(form);
    ClosingPiecesKinds(cart, form, localeDate);
    var ps := MessagePieces(cart, form, localeDate);
    if exists k :: 0 <= k < |ps| && ps[k].PaymentMethodLine? {
      var k :| 0 <= k < |ps| && ps[k].PaymentMethodLine?;
      assert ps[k] in ps;
    }
    if form.paymentMethod.Some? {
      assert PaymentMethodLine(form.paymentMethod.value) in ps;
    }
  }

  /** The special-notes block appears exactly when notes were entered, and carries them. */
  lemma {:induction false} NotesBlockIffNotes(cart: seq<OrderLine>, form: CheckoutForm, localeDate: string -> string)
    ensures forall n :: SpecialNotes(n) in MessagePieces(cart, form, localeDate) <==>
      form.specialNotes != "" && n == form.specialNotes
    ensures (exists k :: 0 <= k < |MessagePieces(cart, form, localeDate)|
               && MessagePieces(cart, form, localeDate)[k].SpecialNotes?) <==> form.specialNotes != ""
  {
    ItemPiecesAreLinePieces(cart);
    OpeningPiecesKinds(form);
    ClosingPiecesKinds(cart, form, localeDate);
    var ps := MessagePieces(cart, form, localeDate);
    if exists k :: 0 <= k < |ps| && ps[k].SpecialNotes? {
      var k :| 0 <= k < |ps| && ps[k].SpecialNotes?;
      assert ps[k] in ps;
    }
    if form.specialNotes != "" {
      assert SpecialNotes(form.specialNotes) in ps;
    }
  }

  /** The delivery-date block appears exactly when a date was entered, rendered by `localeDate`. */
  lemma {:induction false} DateBlockIffDate(cart: seq<OrderLine>, form: CheckoutForm, localeDate: string -> string)
    ensures forall d :: DeliveryDate(d) in MessagePieces(cart, form, localeDate) <==>
      form.deliveryDate != "" && d == localeDate(form.deliveryDate)
    ensures (exists k :: 0 <= k < |MessagePieces(cart, form, localeDate)|
               && MessagePieces(cart, form, localeDate)[k].DeliveryDate?) <==> form.deliveryDate != ""
  {
    ItemPiecesAreLinePieces(cart);
    OpeningPiecesKinds(form);
    ClosingPiecesKinds(cart, form, localeDate);
    var ps := MessagePieces(cart, form, localeDate);
    if exists k :: 0 <= k < |ps| && ps[k].DeliveryDate? {
      var k :| 0 <= k < |ps| && ps[k].DeliveryDate?;
      assert ps[k] in ps;
    }
    if form.deliveryDate != "" {
      assert DeliveryDate(localeDate(form.deliveryDate)) in ps;
    }
  }

  /**
   * Read by its leading characters: a message has a piece opening with 💳,
   * 📝 or 📅 exactly when the payment method, the special notes or the
   * delivery date was filled in.
   */
  lemma EmojiPiecesIffFields(cart: seq<OrderLine>, form: CheckoutForm, localeDate: string -> string)
    ensures LeadsWith(MessagePieces(cart, form, localeDate), '💳') <==> form.paymentMethod.Some?
    ensures LeadsWith(MessagePieces(cart, form, localeDate), '📝') <==> form.specialNotes != ""
    ensures LeadsWith(MessagePieces(cart, form, localeDate), '📅') <==> form.deliveryDate != ""
  {
    LeadingEmoji(MessagePieces(cart, form, localeDate));
    PaymentLineIffSelected(cart, form, localeDate);
    NotesBlockIffNotes(cart, form, localeDate);
    DateBlockIffDate(cart, form, localeDate);
  }

  /** The blocks of the first j cart lines begin the blocks of the whole cart. */
  lemma {:induction false} ItemPiecesPrefix(cart: seq<OrderLine>, j: nat)
    requires j <= |cart|
    ensures IsPrefix(ItemPieces(cart[..j]), ItemPieces(cart))
    decreases |cart|
  {
    if j == |cart| {
      assert cart[..j] == cart;
    } else {
      var n := |cart| - 1;
      ItemPiecesPrefix(cart[..n], j);
      assert cart[..n][..j] == cart[..j];
    }
  }

  /**
   * Cart lines appear in cart order: the block of line k, titled with number
   * k + 1, follows the blocks of lines 0 .. k-1 directly.
   */
  lemma {:induction false} CartLinesInOrder(cart: seq<OrderLine>, k: nat)
    requires k < |cart|
    ensures IsPrefix(ItemPieces(cart[..k]) + LinePieces(k, cart[k]), ItemPieces(cart))
    ensures LinePieces(k, cart[k])[0] == LineTitle(k + 1, cart[k].item.name)
  {
    ItemPiecesPrefix(cart, k + 1);
    assert cart[..k + 1][..k] == cart[..k];
  }

  /** The amount a printed figure reads back as (0 for text that is not an amount). */
  function AmountOf(s: string): Cents {
    match ParseAmount(s)
    case Some(v) => v
    case None => 0
  }

  /** The sum of the subtotals as printed on the line blocks, read back. */
  function PrintedSubtotalSum(cart: seq<OrderLine>): Cents {
    if |cart| == 0 then 0
    else PrintedSubtotalSum(cart[..|cart| - 1]) + AmountOf(ToFixed2(Subtotal(cart[|cart| - 1])))
  }

  lemma {:induction false} TotalAsPrinted(cart: seq<OrderLine>)
    ensures OrderTotal(cart) == PrintedSubtotalSum(cart)
  {
    if |cart| > 0 {
      TotalAsPrinted(cart[..|cart| - 1]);
      ToFixed2RoundTrip(Subtotal(cart[|cart| - 1]));
    }
  }

  /** The printed total reads back as exactly the sum of the printed subtotals. */
  lemma PrintedTotalIsSumOfSubtotals(cart: seq<OrderLine>)
    ensures ParseAmount(ToFixed2(OrderTotal(cart))) == Some(PrintedSubtotalSum(cart))
  {
    ToFixed2RoundTrip(OrderTotal(cart));
    TotalAsPrinted(cart);
  }

  /** Three catalogue lines, 3.00 x 2, 2.50 x 10 and 6.00 x 1, come to 37.00. */
  lemma ExampleTotal()
    ensures OrderTotal([
      OrderLine(MenuScreen.WithOption(Hallaca, HallacaIndividualOption), 2, ""),
      OrderLine(MenuScreen.WithOption(Hallaca, HallacaDecenaOption), 10, ""),
      OrderLine(Lasagna, 1, "")]) == 3700
  {
    var individual := MenuScreen.WithOption(Hallaca, HallacaIndividualOption);
    var decena := MenuScreen.WithOption(Hallaca, HallacaDecenaOption);
    assert individual.price == 300 && decena.price == 250;
    var lines := [OrderLine(individual, 2, ""), OrderLine(decena, 10, ""), OrderLine(Lasagna, 1, "")];
    assert lines[..1][..0] == [];
    assert lines[..2][..1] == lines[..1];
    assert lines[..3] == lines;
    assert OrderTotal(lines[..1]) == 600;
    assert OrderTotal(lines[..2]) == 3100;
  }

  /** That total prints as "37.00" on the total line. */
  lemma ExampleTotalText()
    ensures ToFixed2(3700) == "37.00"
  {
    assert NatToString(37) == NatToString(3) + ['7'];
  }

  // ---------------------------------------------------------------------------
  // Destination URL

  const PhoneNumber: string := "50768257958"
  const AppPrefix: string := "whatsapp://send?phone=" + PhoneNumber + "&text="
  const WebPrefix: string := "https://wa.me/" + PhoneNumber + "?text="

  /** The URL opened for `encodedMessage`: the app scheme on mobile devices, the web form elsewhere. */
  function WhatsAppUrl(isMobile: bool, encodedMessage: string): (url: string)
    ensures IsSuffix(encodedMessage, url)
    ensures isMobile <==> IsPrefix(AppPrefix, url)
    ensures !isMobile <==> IsPrefix(WebPrefix, url)
    ensures |url| == |encodedMessage| + (if isMobile then |AppPrefix| else |WebPrefix|)
  {
    var url := (if isMobile then AppPrefix else WebPrefix) + encodedMessage;
    assert AppPrefix[0] == 'w' && WebPrefix[0] == 'h';
    assert url[0] == (if isMobile then 'w' else 'h');
    url
  }

  // ---------------------------------------------------------------------------
  // The popup notification

  datatype PopupType = Success | Error | Loading

  /** One observable state of the popup: shown, message, type, exiting, animation stage. */
  datatype PopupView = PopupView(visible: bool, message: string, popupType: PopupType, exiting: bool, stage: int)

  /** A state between two notification calls: hidden at stage 0, or shown at stage 2. */
  predicate Resting(v: PopupView) {
    && !v.exiting
    && (v.visible ==> v.stage == 2)
    && (!v.visible ==> v.stage == 0)
  }

  /** Every state the popup passes through: a known stage, exiting exactly at stage 3, hidden only when idle or exiting. */
  predicate WellFormed(v: PopupView) {
    && 0 <= v.stage <= 3
    && (v.exiting <==> v.stage == 3)
    && (v.visible || v.stage == 0 || v.exiting)
  }

  /** The error popup is the only one with a close button. */
  function CloseButtonShown(v: PopupView): (shown: bool)
    ensures shown <==> v.visible && v.popupType == Error
  {
    v.visible && v.popupType == Error
  }

  /** The states `showNotificationPremium` passes through: entering (1), then active (2). */
  function ShowSteps(message: string, kind: PopupType): seq<PopupView> {
    [PopupView(true, message, kind, false, 1), PopupView(true, message, kind, false, 2)]
  }

  /** `updateNotificationMessage`: back to entering, swap the content, then active again. */
  function UpdateSteps(v: PopupView, message: string, kind: PopupType): seq<PopupView> {
    [v.(stage := 1),
     v.(stage := 1, message := message, popupType := kind),
     v.(stage := 2, message := message, popupType := kind)]
  }

  /** `hideNotificationPremium`: exiting (3), then hidden and idle (0); message and type are kept. */
  function HideSteps(v: PopupView): seq<PopupView> {
    [v.(stage := 3, exiting := true), v.(visible := false, exiting := false, stage := 0)]
  }

  /** Every transition, started from a resting state, passes only through well-formed states and ends resting. */
  lemma StepsWellFormed(v: PopupView, message: string, kind: PopupType)
    requires Resting(v)
    ensures forall k :: 0 <= k < 2 ==> WellFormed(ShowSteps(message, kind)[k])
    ensures Resting(ShowSteps(message, kind)[1])
    ensures v.visible ==> forall k :: 0 <= k < 3 ==> WellFormed(UpdateSteps(v, message, kind)[k])
    ensures v.visible ==> Resting(UpdateSteps(v, message, kind)[2])
    ensures forall k :: 0 <= k < 2 ==> WellFormed(HideSteps(v)[k])
    ensures Resting(HideSteps(v)[1]) && !HideSteps(v)[1].visible
  {
  }

  /** An update is entering while its content changes, and active only at its end. */
  lemma UpdatePassesThroughEntering(v: PopupView, message: string, kind: PopupType)
    ensures forall k :: 0 <= k < 3 && UpdateSteps(v, message, kind)[k].stage == 2 ==> k == 2
    ensures UpdateSteps(v, message, kind)[0].message == v.message
    ensures UpdateSteps(v, message, kind)[1].stage == 1 && UpdateSteps(v, message, kind)[1].message == message
  {
  }

  /** The popup's state fields, and a ghost record of every state it has shown. */
  class Notification {
    var showPopup: bool
    var popupMessage: string
    var popupType: PopupType
    var isExiting: bool
    var animationStage: int
    ghost var trace: seq<PopupView>

    function View(): PopupView
      reads this
    {
      PopupView(showPopup, popupMessage, popupType, isExiting, animationStage)
    }

    ghost predicate Valid()
      reads this
    {
      && Resting(View())
      && forall k :: 0 <= k < |trace| ==> WellFormed(trace[k])
    }

    /** The initial state: hidden, empty message, type success, stage 0. */
    constructor ()
      ensures Valid() && trace == []
      ensures View() == PopupView(false, "", Success, false, 0)
    {
      showPopup, popupMessage, popupType, isExiting, animationStage := false, "", Success, false, 0;
      trace := [];
    }

    /** `showNotificationPremium`, with its 600 ms settle delay run to completion. */
    method Show(message: string, kind: PopupType)
      requires Valid()
      modifies this
      ensures Valid()
      ensures trace == old(trace) + ShowSteps(message, kind)
      ensures View() == PopupView(true, message, kind, false, 2)
    {
      popupMessage, popupType, animationStage, isExiting, showPopup := message, kind, 1, false, true;
      trace := trace + [View()];
      animationStage := 2;
      trace := trace + [View()];
    }

    /** `updateNotificationMessage`, with its 200 ms and 300 ms delays run to completion. */
    method Update(message: string, kind: PopupType)
      requires Valid() && showPopup
      modifies this
      ensures Valid()
      ensures trace == old(trace) + UpdateSteps(old(View()), message, kind)
      ensures View() == old(View()).(message := message, popupType := kind)
    {
      animationStage := 1;
      trace := trace + [View()];
      popupMessage, popupType := message, kind;
      trace := trace + [View()];
      animationStage := 2;
      trace := trace + [View()];
    }

    /** `hideNotificationPremium`, with its 400 ms exit delay run to completion. */
    method Hide()
      requires Valid()
      modifies this
      ensures Valid()
      ensures trace == old(trace) + HideSteps(old(View()))
      ensures View() == old(View()).(visible := false, exiting := false, stage := 0)
    {
      animationStage, isExiting := 3, true;
      trace := trace + [View()];
      showPopup, isExiting, animationStage := false, false, 0;
      trace := trace + [View()];
    }
  }

  // ---------------------------------------------------------------------------
  // The submit handler

  const ValidationErrorText: string := "Por favor completa todos los campos requeridos y selecciona un método de pago."
  const ValidatingText: string := "¡Perfecto! Validando tu pedido..."
  const GeneratingText: string := "📝 Generando mensaje para WhatsApp..."
  const ReadyText: string := "✅ ¡Pedido listo! Abriendo WhatsApp..."
  const SentText: string := "🎉 ¡Pedido enviado exitosamente!"
  const FailureText: string := "❌ Error al enviar el pedido. Intenta de nuevo."

  /** A popup at rest showing `message`. */
  function Shown(message: string, kind: PopupType): PopupView {
    PopupView(true, message, kind, false, 2)
  }

  /** Validation failed: the error popup, hidden again after its 4 s delay. */
  function RejectedSteps(): seq<PopupView> {
    ShowSteps(ValidationErrorText, Error) + HideSteps(Shown(ValidationErrorText, Error))
  }

  /** Validated: the three progress messages shown before the URL is opened. */
  function DispatchSteps(): seq<PopupView> {
    ShowSteps(ValidatingText, Loading)
    + UpdateSteps(Shown(ValidatingText, Loading), GeneratingText, Loading)
    + UpdateSteps(Shown(GeneratingText, Loading), ReadyText, Success)
  }

  /** After the URL is opened: the success message, then the popup hides. */
  function SentSteps(): seq<PopupView> {
    UpdateSteps(Shown(ReadyText, Success), SentText, Success) + HideSteps(Shown(SentText, Success))
  }

  /** The catch block: the error popup, hidden again after its 4 s delay. */
  function CaughtSteps(): seq<PopupView> {
    ShowSteps(FailureText, Error) + HideSteps(Shown(FailureText, Error))
  }

  /** Only error popups offer the close button; progress and success popups never do. */
  lemma DismissOnlyOnErrors()
    ensures forall k :: 0 <= k < |DispatchSteps() + SentSteps()| ==> !CloseButtonShown((DispatchSteps() + SentSteps())[k])
    ensures CloseButtonShown(RejectedSteps()[1]) && CloseButtonShown(CaughtSteps()[1])
  {
  }

  /**
   * `handleSubmitOrder`. `throws` stands for an exception raised while the
   * message is encoded or the URL opened (for instance `encodeURIComponent`
   * rejecting a lone surrogate); `encode` and `localeDate` stand for
   * `encodeURIComponent` and the date rendering. `opened` is the URL passed
   * to `window.open`, if any.
   */
  method SubmitOrder(store: OrderStore, popup: Notification, form: CheckoutForm, isMobile: bool,
                     encode: string -> string, localeDate: string -> string, throws: bool)
    returns (launched: Option<string>)
    requires popup.Valid()
    modifies store, popup
    ensures popup.Valid() && !popup.showPopup
    ensures !ReadyToSubmit(old(store.orderItems), form) ==>
      && launched == None
      && store.orderItems == old(store.orderItems) && store.currentScreen == old(store.currentScreen)
      && popup.trace == old(popup.trace) + RejectedSteps()
    ensures ReadyToSubmit(old(store.orderItems), form) && !throws ==>
      && launched == Some(WhatsAppUrl(isMobile, encode(Message(old(store.orderItems), form, localeDate))))
      && store.orderItems == [] && store.currentScreen == Welcome
      && popup.trace == old(popup.trace) + DispatchSteps() + SentSteps()
    ensures ReadyToSubmit(old(store.orderItems), form) && throws ==>
      && launched == None
      && store.orderItems == old(store.orderItems) && store.currentScreen == old(store.currentScreen)
      && popup.trace == old(popup.trace) + DispatchSteps() + CaughtSteps()
  {
    launched := None;
    if !ReadyToSubmit(store.orderItems, form) {
      Reject(popup);
      return;
    }
    Dispatch(popup);
    if throws {
      Fail(popup);
      return;
    }
    var message := GenerateWhatsAppMessage(store.orderItems, form, localeDate);
    var url := WhatsAppUrl(isMobile, encode(message));
    launched := Some(url);
    Finish(popup);
    store.ClearOrder();
    store.SetCurrentScreen(Welcome);
  }

  /** The validation-error popup, then its hiding. */
  method Reject(popup: Notification)
    requires popup.Valid()
    modifies popup
    ensures popup.Valid() && !popup.showPopup
    ensures popup.trace == old(popup.trace) + RejectedSteps()
  {
    popup.Show(ValidationErrorText, Error);
    popup.Hide();
  }

  /** The three progress messages of a validated order. */
  method Dispatch(popup: Notification)
    requires popup.Valid()
    modifies popup
    ensures popup.Valid() && popup.View() == Shown(ReadyText, Success)
    ensures popup.trace == old(popup.trace) + DispatchSteps()
  {
    popup.Show(ValidatingText, Loading);
    popup.Update(GeneratingText, Loading);
    popup.Update(ReadyText, Success);
  }

  /** The catch block's error popup, then its hiding. */
  method Fail(popup: Notification)
    requires popup.Valid()
    modifies popup
    ensures popup.Valid() && !popup.showPopup
    ensures popup.trace == old(popup.trace) + CaughtSteps()
  {
    popup.Show(FailureText, Error);
    popup.Hide();
  }

  /** The success message once the URL is opened, then the hiding. */
  method Finish(popup: Notification)
    requires popup.Valid() && popup.View() == Shown(ReadyText, Success)
    modifies popup
    ensures popup.Valid() && !popup.showPopup
    ensures popup.trace == old(popup.trace) + SentSteps()
  {
    popup.Update(SentText, Success);
    popup.Hide();
  }
}
