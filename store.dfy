/**
 * The persisted state behind the backend routes: the `items` catalog, the `bills`
 * table and the `bill_items` line table, plus the errors the handlers answer with.
 */
module Store {
  import opened Common

  type ItemId = string
  type BillId = string
  /** A calendar date (`bill_date`), as a day ordinal. */
  type Day = int
  /** A server timestamp (`new Date()`), opaque and ordered. */
  type Time = int
  /** A stored, already compressed image (`image_base64`). */
  type Image = string

  /** A row of `items`. Money is in integer cents. */
  datatype Item = Item(name: string, price: int, stock: int, image: Option<Image>,
                       createdAt: Time, updatedAt: Time)

  /** A row of `bills`. */
  datatype Bill = Bill(date: Day, total: int, final: int, createdAt: Time)

  /** A row of `bill_items`; `itemId` is nullable. */
  datatype Line = Line(billId: BillId, itemId: Option<ItemId>, quantity: int, unit: int,
                       total: int, createdAt: Time)

  /** A snapshot of the three tables. */
  datatype Tables = Tables(items: map<ItemId, Item>, bills: map<BillId, Bill>, lines: seq<Line>)

  /** Every failure a handler can answer with. */
  datatype Error =
    | MissingBillFields   // 400 'billDate and items are required'
    | BillNotFound        // 404 'Bill not found'
    | LineMissingField    // thrown: 'Each bill item requires itemId and quantity'
    | LineItemNotFound    // thrown: 'Item not found'
    | InsufficientStock   // thrown: 'Insufficient stock'
    | MissingItemFields   // 400 'name, price and stock are required'
    | ItemNotFound        // 404 'Item not found'
    | CompressionFailed   // thrown by the image compressor

  /** Every line belongs to an existing bill (the `bill_items.bill_id` foreign key). */
  ghost predicate LinesHaveBills(t: Tables) {
    forall i :: 0 <= i < |t.lines| ==> t.lines[i].billId in t.bills
  }

  /** The database: the three tables, updated in place by the route handlers. */
  class Database {
    var items: map<ItemId, Item>
    var bills: map<BillId, Bill>
    var lines: seq<Line>

    constructor ()
      ensures items == map[] && bills == map[] && lines == []
    {
      items, bills, lines := map[], map[], [];
    }

    /** The current contents of the tables. */
    function State(): (t: Tables)
      reads this
      ensures t.items == items && t.bills == bills && t.lines == lines
    {
      Tables(items, bills, lines)
    }
  }
}
