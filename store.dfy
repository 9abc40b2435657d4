/**
 * The application store of src/lib/store.ts: the cart (an ordered list of
 * order lines) and the screen being shown. The cart operations replace the
 * store's fields; the count and the total are folds computed on demand.
 */
module Store {
  import opened Money
  import opened Types

  datatype Screen = Welcome | Menu | Order | Payment

  /** One cart entry: the (possibly option-resolved) item, its quantity and notes. */
  datatype OrderLine = OrderLine(item: MenuItem, quantity: int, notes: string)

  /** What one line contributes to the total: `item.price * quantity`. */
  function Subtotal(line: OrderLine): Cents {
    line.item.price * line.quantity
  }

  predicate QuantitiesNonNegative(lines: seq<OrderLine>) {
    forall i :: 0 <= i < |lines| ==> lines[i].quantity >= 0
  }

  predicate PricesNonNegative(lines: seq<OrderLine>) {
    forall i :: 0 <= i < |lines| ==> lines[i].item.price >= 0
  }

  /** `getOrderItemCount`: `reduce((count, line) => count + line.quantity, 0)`. */
  function ItemCount(lines: seq<OrderLine>): (count: int)
    ensures QuantitiesNonNegative(lines) ==> count >= 0
    ensures QuantitiesNonNegative(lines) ==> forall i :: 0 <= i < |lines| ==> lines[i].quantity <= count
  {
    if lines == [] then 0 else ItemCount(lines[..|lines| - 1]) + lines[|lines| - 1].quantity
  }

  /** `getOrderTotal`: `reduce((total, line) => total + line.item.price * line.quantity, 0)`. */
  function OrderTotal(lines: seq<OrderLine>): (total: Cents)
    ensures PricesNonNegative(lines) && QuantitiesNonNegative(lines) ==> total >= 0
  {
    if lines == [] then 0 else OrderTotal(lines[..|lines| - 1]) + Subtotal(lines[|lines| - 1])
  }

  lemma {:induction false} ItemCountAppend(a: seq<OrderLine>, b: seq<OrderLine>)
    ensures ItemCount(a + b) == ItemCount(a) + ItemCount(b)
    decreases |b|
  {
    if b == [] {
      assert a + b == a;
    } else {
      assert (a + b)[..|a + b| - 1] == a + b[..|b| - 1];
      ItemCountAppend(a, b[..|b| - 1]);
    }
  }

  lemma {:induction false} OrderTotalAppend(a: seq<OrderLine>, b: seq<OrderLine>)
    ensures OrderTotal(a + b) == OrderTotal(a) + OrderTotal(b)
    decreases |b|
  {
    if b == [] {
      assert a + b == a;
    } else {
      assert (a + b)[..|a + b| - 1] == a + b[..|b| - 1];
      OrderTotalAppend(a, b[..|b| - 1]);
    }
  }

  /**
   * `filter((_, i) => i !== index)`: every element whose position differs
   * from `index`, in their original order.
   */
  function DropIndex<T>(s: seq<T>, index: int): (r: seq<T>)
    ensures |r| <= |s|
  {
    if s == [] then [] else (if index == 0 then [] else [s[0]]) + DropIndex(s[1..], index - 1)
  }

  /** An index in range removes exactly that element. */
  lemma {:induction false} DropIndexInRange<T>(s: seq<T>, index: int)
    requires 0 <= index < |s|
    ensures DropIndex(s, index) == s[..index] + s[index + 1..]
  {
    if index == 0 {
      DropIndexOutOfRange(s[1..], -1);
      assert s[index + 1..] == s[1..];
    } else {
      DropIndexInRange(s[1..], index - 1);
      assert s[..index] == [s[0]] + s[1..][..index - 1];
      assert s[index + 1..] == s[1..][index..];
    }
  }

  /** An index out of range (negative, or past the end) leaves the list as it was. */
  lemma {:induction false} DropIndexOutOfRange<T>(s: seq<T>, index: int)
    requires index < 0 || index >= |s|
    ensures DropIndex(s, index) == s
  {
    if s != [] {
      DropIndexOutOfRange(s[1..], index - 1);
      assert s == [s[0]] + s[1..];
    }
  }

  /** Removing line i takes exactly its quantity off the count and its subtotal off the total. */
  lemma RemoveLineEffect(lines: seq<OrderLine>, i: int)
    requires 0 <= i < |lines|
    ensures ItemCount(DropIndex(lines, i)) == ItemCount(lines) - lines[i].quantity
    ensures OrderTotal(DropIndex(lines, i)) == OrderTotal(lines) - Subtotal(lines[i])
  {
    DropIndexInRange(lines, i);
    var front, back := lines[..i], lines[i + 1..];
    assert lines == front + [lines[i]] + back;
    ItemCountAppend(front + [lines[i]], back);
    ItemCountAppend(front, [lines[i]]);
    ItemCountAppend(front, back);
    OrderTotalAppend(front + [lines[i]], back);
    OrderTotalAppend(front, [lines[i]]);
    OrderTotalAppend(front, back);
  }

  /** The store: one instance per session. */
  class OrderStore {
    var currentScreen: Screen
    var orderItems: seq<OrderLine>

    /** The initial state: the welcome screen and an empty cart. */
    constructor ()
      ensures currentScreen == Welcome && orderItems == []
    {
      currentScreen := Welcome;
      orderItems := [];
    }

    /** `setCurrentScreen`: changes the screen and nothing else. */
    method SetCurrentScreen(screen: Screen)
      modifies this`currentScreen
      ensures currentScreen == screen
      ensures orderItems == old(orderItems)
    {
      currentScreen := screen;
    }

    /** `addToOrder`: appends one line, with no check on the quantity. */
    method AddToOrder(item: MenuItem, quantity: int, notes: string)
      modifies this`orderItems
      ensures orderItems == old(orderItems) + [OrderLine(item, quantity, notes)]
      ensures ItemCount(orderItems) == old(ItemCount(orderItems)) + quantity
      ensures OrderTotal(orderItems) == old(OrderTotal(orderItems)) + item.price * quantity
      ensures currentScreen == old(currentScreen)
    {
      orderItems := orderItems + [OrderLine(item, quantity, notes)];
      assert orderItems[..|orderItems| - 1] == old(orderItems);
    }

    /** `removeFromOrder`: drops the line at `index`; an index out of range changes nothing. */
    method RemoveFromOrder(index: int)
      modifies this`orderItems
      ensures orderItems == DropIndex(old(orderItems), index)
      ensures 0 <= index < |old(orderItems)| ==>
        && orderItems == old(orderItems)[..index] + old(orderItems)[index + 1..]
        && ItemCount(orderItems) == old(ItemCount(orderItems)) - old(orderItems)[index].quantity
        && OrderTotal(orderItems) == old(OrderTotal(orderItems)) - Subtotal(old(orderItems)[index])
      ensures (index < 0 || index >= |old(orderItems)|) ==> orderItems == old(orderItems)
      ensures currentScreen == old(currentScreen)
    {
      if 0 <= index < |orderItems| {
        DropIndexInRange(orderItems, index);
        RemoveLineEffect(orderItems, index);
      } else {
        DropIndexOutOfRange(orderItems, index);
      }
      orderItems := DropIndex(orderItems, index);
    }

    /** `clearOrder`: empties the cart and keeps the screen. */
    method ClearOrder()
      modifies this`orderItems
      ensures orderItems == []
      ensures ItemCount(orderItems) == 0 && OrderTotal(orderItems) == 0
      ensures currentScreen == old(currentScreen)
    {
      orderItems := [];
    }

    /** `getOrderItemCount`, read from the current state. */
    function GetOrderItemCount(): (count: int)
      reads this
      ensures QuantitiesNonNegative(orderItems) ==> count >= 0
      ensures QuantitiesNonNegative(orderItems) ==> forall i :: 0 <= i < |orderItems| ==> orderItems[i].quantity <= count
    {
      ItemCount(orderItems)
    }

    /** `getOrderTotal`, read from the current state. */
    function GetOrderTotal(): (total: Cents)
      reads this
      ensures PricesNonNegative(orderItems) && QuantitiesNonNegative(orderItems) ==> total >= 0
    {
      OrderTotal(orderItems)
    }
  }
}
