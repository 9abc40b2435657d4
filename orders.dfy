/**
 * `createOrder` of src/lib/orders.ts: the order total, the item rows built
 * from the order's items, and the control flow over the database calls,
 * with the compensating delete when the item rows cannot be stored. The
 * database is a map of orders and a list of item rows; each call on it may
 * succeed, answer with an error, or throw, and which one happens is not
 * under the program's control.
 */
module Orders {
  import opened Common
  import opened Money
  import opened Types

  /** The database's identifier of an order row. */
  type OrderId = nat

  /** One entry of `CreateOrderData.items`. */
  datatype ItemInput = ItemInput(itemId: string, itemName: string, quantity: int, unitPrice: Cents, notes: Option<string>)

  /** `CreateOrderData`: the customer block, the optional date and notes, and the items. */
  datatype CreateOrderData = CreateOrderData(
    customerName: string,
    customerPhone: string,
    customerAddress: string,
    deliveryDate: Option<string>,
    paymentMethod: PaymentMethod,
    specialNotes: Option<string>,
    items: seq<ItemInput>)

  /** The columns `createOrder` writes into the orders table. */
  datatype OrderFields = OrderFields(
    customerName: string,
    customerPhone: string,
    customerAddress: string,
    deliveryDate: Option<string>,
    paymentMethod: PaymentMethod,
    specialNotes: Option<string>,
    totalAmount: Cents)

  /** An order row as the insert's `select().single()` returns it. */
  datatype OrderRecord = OrderRecord(id: OrderId, fields: OrderFields)

  /** A row of the order_items table. */
  datatype ItemRow = ItemRow(
    orderId: OrderId,
    itemId: string,
    itemName: string,
    quantity: int,
    unitPrice: Cents,
    subtotal: Cents,
    notes: Option<string>)

  /** What one database call came back with: data, an `error` object with its message, or an exception. */
  datatype Reply = Ok | Failed(message: string) | Threw

  /** `createOrder`'s result object `{ success, order?, error? }`. */
  datatype CreateOrderResult = CreateOrderResult(success: bool, order: Option<OrderRecord>, error: Option<string>)

  const UnexpectedError: string := "Error inesperado al crear el pedido"

  function Created(order: OrderRecord): CreateOrderResult {
    CreateOrderResult(true, Some(order), None)
  }

  function NotCreated(error: string): CreateOrderResult {
    CreateOrderResult(false, None, Some(error))
  }

  /** `value || null`: an absent and an empty string are both stored as null. */
  function OrNull(value: Option<string>): (stored: Option<string>)
    ensures stored.Some? <==> value.Some? && value.value != ""
    ensures stored.Some? ==> stored == value
  {
    if value.Some? && value.value != "" then value else None
  }

  /** `items.reduce((sum, item) => sum + item.quantity * item.unit_price, 0)`. */
  function TotalAmount(items: seq<ItemInput>): Cents {
    if |items| == 0 then 0
    else TotalAmount(items[..|items| - 1]) + items[|items| - 1].quantity * items[|items| - 1].unitPrice
  }

  /** The total adds up part by part. */
  lemma {:induction false} TotalAmountAppend(a: seq<ItemInput>, b: seq<ItemInput>)
    ensures TotalAmount(a + b) == TotalAmount(a) + TotalAmount(b)
    decreases |b|
  {
    if |b| == 0 {
      assert a + b == a;
    } else {
      assert (a + b)[..|a + b| - 1] == a + b[..|b| - 1];
      TotalAmountAppend(a, b[..|b| - 1]);
    }
  }

  /** No item with a negative quantity or price makes the total negative. */
  lemma {:induction false} TotalAmountNonNegative(items: seq<ItemInput>)
    requires forall k :: 0 <= k < |items| ==> items[k].quantity >= 0 && items[k].unitPrice >= 0
    ensures TotalAmount(items) >= 0
  {
    if |items| > 0 {
      TotalAmountNonNegative(items[..|items| - 1]);
      var last := items[|items| - 1];
      assert last.quantity * last.unitPrice >= 0;
    }
  }

  /** The insert's columns: the customer block, null for empty date and notes, and the total. */
  function FieldsOf(data: CreateOrderData): (fields: OrderFields)
    ensures fields.totalAmount == TotalAmount(data.items)
    ensures fields.customerName == data.customerName && fields.customerPhone == data.customerPhone
    ensures fields.customerAddress == data.customerAddress && fields.paymentMethod == data.paymentMethod
    ensures fields.deliveryDate.Some? <==> data.deliveryDate.Some? && data.deliveryDate.value != ""
    ensures fields.specialNotes.Some? <==> data.specialNotes.Some? && data.specialNotes.value != ""
    ensures fields.deliveryDate.Some? ==> fields.deliveryDate == data.deliveryDate
    ensures fields.specialNotes.Some? ==> fields.specialNotes == data.specialNotes
  {
    OrderFields(data.customerName, data.customerPhone, data.customerAddress,
                OrNull(data.deliveryDate), data.paymentMethod, OrNull(data.specialNotes),
                TotalAmount(data.items))
  }

  /** The row one item becomes. */
  function RowOf(orderId: OrderId, item: ItemInput): ItemRow {
    ItemRow(orderId, item.itemId, item.itemName, item.quantity, item.unitPrice,
            item.quantity * item.unitPrice, OrNull(item.notes))
  }

  /** `items.map(...)`: one row per item, in item order, each tied to the order. */
  function ItemRows(orderId: OrderId, items: seq<ItemInput>): (rows: seq<ItemRow>)
    ensures |rows| == |items|
    ensures forall k :: 0 <= k < |items| ==>
      && rows[k].orderId == orderId
      && rows[k].itemId == items[k].itemId && rows[k].itemName == items[k].itemName
      && rows[k].quantity == items[k].quantity && rows[k].unitPrice == items[k].unitPrice
      && rows[k].subtotal == items[k].quantity * items[k].unitPrice
      && rows[k].notes == OrNull(items[k].notes)
  {
    if |items| == 0 then []
    else ItemRows(orderId, items[..|items| - 1]) + [RowOf(orderId, items[|items| - 1])]
  }

  /** The sum of a list of rows' subtotals. */
  function SumSubtotals(rows: seq<ItemRow>): Cents {
    if |rows| == 0 then 0 else SumSubtotals(rows[..|rows| - 1]) + rows[|rows| - 1].subtotal
  }

  /** The stored rows' subtotals add up to the total stored on the order. */
  lemma {:induction false} RowSubtotalsMatchTotal(orderId: OrderId, items: seq<ItemInput>)
    ensures SumSubtotals(ItemRows(orderId, items)) == TotalAmount(items)
  {
    if |items| > 0 {
      var rows := ItemRows(orderId, items);
      assert rows[..|rows| - 1] == ItemRows(orderId, items[..|items| - 1]);
      RowSubtotalsMatchTotal(orderId, items[..|items| - 1]);
    }
  }

  /** The two tables `createOrder` writes to. */
  class OrderDatabase {
    var orders: map<OrderId, OrderFields>
    var itemRows: seq<ItemRow>
    var nextId: OrderId

    /** Every stored order has an identifier below the next one to be handed out. */
    ghost predicate Valid()
      reads this
    {
      forall id :: id in orders ==> id < nextId
    }

    constructor ()
      ensures Valid() && orders == map[] && itemRows == []
    {
      orders, itemRows, nextId := map[], [], 0;
    }

    /** `from('orders').insert([fields]).select().single()`: on success, a new row with a fresh id. */
    method InsertOrder(fields: OrderFields) returns (reply: Reply, id: OrderId)
      requires Valid()
      modifies this
      ensures Valid() && itemRows == old(itemRows)
      ensures reply.Ok? ==> id !in old(orders) && orders == old(orders)[id := fields]
      ensures !reply.Ok? ==> orders == old(orders)
    {
      id := nextId;
      if * {
        orders := orders[id := fields];
        nextId := nextId + 1;
        reply := Ok;
      } else if * {
        var message: string :| true;
        reply := Failed(message);
      } else {
        reply := Threw;
      }
    }

    /** `from('order_items').insert(rows)`: all the rows or none of them. */
    method InsertItems(rows: seq<ItemRow>) returns (reply: Reply)
      requires Valid()
      modifies this`itemRows
      ensures Valid()
      ensures reply.Ok? ==> itemRows == old(itemRows) + rows
      ensures !reply.Ok? ==> itemRows == old(itemRows)
    {
      if * {
        itemRows := itemRows + rows;
        reply := Ok;
      } else if * {
        var message: string :| true;
        reply := Failed(message);
      } else {
        reply := Threw;
      }
    }

    /** `from('orders').delete().eq('id', id)`. */
    method DeleteOrder(id: OrderId) returns (reply: Reply)
      requires Valid()
      modifies this`orders
      ensures Valid()
      ensures reply.Ok? ==> orders == old(orders) - {id}
      ensures !reply.Ok? ==> orders == old(orders)
    {
      if * {
        orders := orders - {id};
        reply := Ok;
      } else if * {
        var message: string :| true;
        reply := Failed(message);
      } else {
        reply := Threw;
      }
    }
  }

  /**
   * `createOrder`. The ghost out-parameters report what each database call
   * came back with (None: the call was not made) and the id of the inserted
   * order. The delete's own error is not looked at: when it fails, the order
   * stays without items and the items' error is returned.
   */
  method CreateOrder(db: OrderDatabase, data: CreateOrderData)
    returns (result: CreateOrderResult, ghost orderReply: Reply, ghost orderId: OrderId,
             ghost itemsReply: Option<Reply>, ghost deleteReply: Option<Reply>)
    requires db.Valid()
    modifies db
    ensures db.Valid()
    ensures result.success <==> result.order.Some?
    ensures result.success <==> result.error.None?
    // The order insert failed or threw: nothing else is attempted and nothing is stored.
    ensures orderReply.Failed? ==> result == NotCreated(orderReply.message)
    ensures orderReply.Threw? ==> result == NotCreated(UnexpectedError)
    ensures !orderReply.Ok? ==>
      && itemsReply == None && deleteReply == None
      && db.orders == old(db.orders) && db.itemRows == old(db.itemRows)
    // The order was inserted under a fresh id, and the item rows were sent.
    ensures orderReply.Ok? ==> orderId !in old(db.orders) && itemsReply.Some?
    ensures itemsReply == Some(Ok) ==>
      && result == Created(OrderRecord(orderId, FieldsOf(data)))
      && deleteReply == None
      && db.orders == old(db.orders)[orderId := FieldsOf(data)]
      && db.itemRows == old(db.itemRows) + ItemRows(orderId, data.items)
    ensures itemsReply.Some? && itemsReply.value.Failed? ==>
      && deleteReply.Some? && db.itemRows == old(db.itemRows)
      && (deleteReply.value.Ok? ==> db.orders == old(db.orders))
      && (!deleteReply.value.Ok? ==> db.orders == old(db.orders)[orderId := FieldsOf(data)])
      && (deleteReply.value.Threw? ==> result == NotCreated(UnexpectedError))
      && (!deleteReply.value.Threw? ==> result == NotCreated(itemsReply.value.message))
    ensures itemsReply == Some(Threw) ==>
      && deleteReply == None && result == NotCreated(UnexpectedError)
      && db.orders == old(db.orders)[orderId := FieldsOf(data)] && db.itemRows == old(db.itemRows)
  {
    itemsReply, deleteReply := None, None;
    var fields := FieldsOf(data);
    var inserted, id := db.InsertOrder(fields);
    orderReply, orderId := inserted, id;
    if inserted.Threw? {
      result := NotCreated(UnexpectedError);
    } else if inserted.Failed? {
      result := NotCreated(inserted.message);
    } else {
      var rows := ItemRows(id, data.items);
      var stored := db.InsertItems(rows);
      itemsReply := Some(stored);
      if stored.Threw? {
        result := NotCreated(UnexpectedError);
      } else if stored.Failed? {
        var deleted := db.DeleteOrder(id);
        deleteReply := Some(deleted);
        if deleted.Threw? {
          result := NotCreated(UnexpectedError);
        } else {
          result := NotCreated(stored.message);
        }
      } else {
        result := Created(OrderRecord(id, fields));
      }
    }
  }

  /**
   * A stored order and its stored rows agree: when `createOrder` succeeds,
   * the rows it added are tied to the new order, and their subtotals add up
   * to the order's total.
   */
  lemma StoredRowsMatchOrder(order: OrderRecord, data: CreateOrderData)
    requires order.fields == FieldsOf(data)
    ensures |ItemRows(order.id, data.items)| == |data.items|
    ensures SumSubtotals(ItemRows(order.id, data.items)) == order.fields.totalAmount
  {
    RowSubtotalsMatchTotal(order.id, data.items);
  }
}
