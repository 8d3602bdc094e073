/**
 * The bill transaction engine of the backend `/bills` routes: pricing a request against the
 * catalog, and the create, replace and delete transactions with their stock bookkeeping.
 *
 * Each transaction is specified by a pure function from the tables before the request to
 * either the tables after COMMIT or the error that caused the ROLLBACK (`CreateTx`,
 * `ReplaceTx`, `DeleteTx`); the handler methods change a `Database` step by step, as the SQL
 * statements do, and are proved to end in that state.
 */
module Bills {
  import opened Common
  import opened Store
  import Ordering

  /** One requested line, `{ itemId, quantity, pricePerUnit? }`. */
  datatype Entry = Entry(itemId: Option<ItemId>, quantity: Option<int>, pricePerUnit: Option<int>)

  /** The body of POST and PUT; `items` is `None` when it is not an array. */
  datatype BillRequest = BillRequest(billDate: Option<Day>, items: Option<seq<Entry>>, finalPrice: Option<int>)

  /** An accepted line, before it is written. */
  datatype PricedItem = PricedItem(itemId: ItemId, quantity: int, unit: int, total: int)

  /** A line as the bill queries return it, joined with the current item row. */
  datatype LineView = LineView(itemId: Option<ItemId>, name: Option<string>, image: Option<Image>,
                               quantity: int, unit: int, total: int)

  /** A bill as the bill queries return it. */
  datatype BillView = BillView(id: BillId, date: Day, total: int, final: int, createdAt: Time,
                               lines: seq<LineView>)

  /** The `where` clause chosen by `GET /`. */
  datatype Filter = OnDate(day: Day) | Between(start: Day, end: Day) | From(start: Day) | Until(end: Day) | Everything

  // ---------------------------------------------------------------------------------------
  // Validation and pricing

  /** JavaScript truthiness of a line's `itemId`. */
  predicate HasId(id: Option<ItemId>) {
    id.Some? && id.value != ""
  }

  /** JavaScript truthiness of a line's `quantity`. */
  predicate HasQuantity(q: Option<int>) {
    q.Some? && q.value != 0
  }

  /** The body check shared by POST and PUT. */
  predicate RequestValid(req: BillRequest) {
    req.billDate.Some? && req.items.Some? && |req.items.value| > 0
  }

  /** Checks and prices one requested line against the catalog as it stands. */
  function PriceEntry(catalog: map<ItemId, Item>, e: Entry): (r: Result<PricedItem, Error>)
    ensures r.Ok? <==> HasId(e.itemId) && HasQuantity(e.quantity) && e.itemId.value in catalog
                       && e.quantity.value <= catalog[e.itemId.value].stock
    ensures r == Err(LineMissingField) <==> !HasId(e.itemId) || !HasQuantity(e.quantity)
    ensures r == Err(LineItemNotFound) <==> HasId(e.itemId) && HasQuantity(e.quantity) && e.itemId.value !in catalog
    ensures r == Err(InsufficientStock) <==> HasId(e.itemId) && HasQuantity(e.quantity) && e.itemId.value in catalog
                                             && catalog[e.itemId.value].stock < e.quantity.value
    ensures r.Ok? ==> r.value.itemId == e.itemId.value && r.value.quantity == e.quantity.value
                      && r.value.unit == e.pricePerUnit.GetOr(catalog[e.itemId.value].price)
                      && r.value.total == r.value.unit * r.value.quantity
  {
    if !HasId(e.itemId) || !HasQuantity(e.quantity) then Err(LineMissingField)
    else if e.itemId.value !in catalog then Err(LineItemNotFound)
    else
      var product := catalog[e.itemId.value];
      if product.stock < e.quantity.value then Err(InsufficientStock)
      else
        var unit := e.pricePerUnit.GetOr(product.price);
        Ok(PricedItem(e.itemId.value, e.quantity.value, unit, unit * e.quantity.value))
  }

  /**
   * Prices a whole request, stopping at the first line that fails. Every line is checked
   * against the same catalog: no stock is taken until all lines are priced.
   */
  function PriceAll(catalog: map<ItemId, Item>, entries: seq<Entry>): (r: Result<seq<PricedItem>, Error>)
    ensures r.Ok? <==> forall i :: 0 <= i < |entries| ==> PriceEntry(catalog, entries[i]).Ok?
    ensures r.Ok? ==> |r.value| == |entries|
                      && forall i :: 0 <= i < |entries| ==> PriceEntry(catalog, entries[i]) == Ok(r.value[i])
    ensures r.Err? ==> exists j :: 0 <= j < |entries| && PriceEntry(catalog, entries[j]) == Err(r.error)
                                   && forall i :: 0 <= i < j ==> PriceEntry(catalog, entries[i]).Ok?
    decreases |entries|
  {
    if entries == [] then Ok([])
    else
      var head := PriceEntry(catalog, entries[0]);
      if head.Err? then Err(head.error)
      else
        var tail := PriceAll(catalog, entries[1..]);
        if tail.Err? then
          var j :| 0 <= j < |entries[1..]| && PriceEntry(catalog, entries[1..][j]) == Err(tail.error)
                   && forall i :: 0 <= i < j ==> PriceEntry(catalog, entries[1..][i]).Ok?;
          assert PriceEntry(catalog, entries[j + 1]) == Err(tail.error);
          assert forall i :: 0 <= i < j + 1 ==> PriceEntry(catalog, entries[i]).Ok? by {
            forall i | 0 <= i < j + 1 ensures PriceEntry(catalog, entries[i]).Ok? {
              if i > 0 { assert entries[i] == entries[1..][i - 1]; }
            }
          }
          Err(tail.error)
        else
          assert forall i :: 1 <= i < |entries| ==> entries[i] == entries[1..][i - 1];
          Ok([head.value] + tail.value)
  }

  /** `buildPricedItems`: the pricing loop, reading the catalog once per line. */
  method BuildPricedItems(catalog: map<ItemId, Item>, entries: seq<Entry>) returns (r: Result<seq<PricedItem>, Error>)
    ensures r == PriceAll(catalog, entries)
  {
    var priced: seq<PricedItem> := [];
    for i := 0 to |entries|
      invariant |priced| == i
      invariant forall k :: 0 <= k < i ==> PriceEntry(catalog, entries[k]) == Ok(priced[k])
    {
      var line := PriceEntry(catalog, entries[i]);
      if line.Err? {
        return Err(line.error);
      }
      priced := priced + [line.value];
    }
    assert PriceAll(catalog, entries).value == priced;
    return Ok(priced);
  }

  /** The `reduce` over the priced lines' totals. */
  function TotalOf(priced: seq<PricedItem>): int
    decreases |priced|
  {
    if priced == [] then 0 else TotalOf(priced[..|priced| - 1]) + priced[|priced| - 1].total
  }

  /** The sum of the stored totals of some lines. */
  function LineTotals(lines: seq<Line>): int
    decreases |lines|
  {
    if lines == [] then 0 else LineTotals(lines[..|lines| - 1]) + lines[|lines| - 1].total
  }

  // ---------------------------------------------------------------------------------------
  // The line table

  /** The row written for a priced line. */
  function ToLine(billId: BillId, p: PricedItem, now: Time): Line {
    Line(billId, Some(p.itemId), p.quantity, p.unit, p.total, now)
  }

  /** The rows written for a bill's priced lines, in request order. */
  function NewLines(billId: BillId, priced: seq<PricedItem>, now: Time): (r: seq<Line>)
    ensures |r| == |priced| && forall i :: 0 <= i < |priced| ==> r[i] == ToLine(billId, priced[i], now)
    decreases |priced|
  {
    if priced == [] then []
    else NewLines(billId, priced[..|priced| - 1], now) + [ToLine(billId, priced[|priced| - 1], now)]
  }

  /** `SELECT ... FROM bill_items WHERE bill_id = id`, in insertion order. */
  function LinesOf(lines: seq<Line>, id: BillId): seq<Line>
    decreases |lines|
  {
    if lines == [] then []
    else LinesOf(lines[..|lines| - 1], id) + (if lines[|lines| - 1].billId == id then [lines[|lines| - 1]] else [])
  }

  /** What `DELETE FROM bill_items WHERE bill_id = id` leaves. */
  function WithoutBill(lines: seq<Line>, id: BillId): seq<Line>
    decreases |lines|
  {
    if lines == [] then []
    else WithoutBill(lines[..|lines| - 1], id) + (if lines[|lines| - 1].billId != id then [lines[|lines| - 1]] else [])
  }

  // ---------------------------------------------------------------------------------------
  // Stock

  /** `UPDATE items SET stock = stock + delta, updated_at = now WHERE id = id`. */
  function AddStock(items: map<ItemId, Item>, id: ItemId, delta: int, now: Time): map<ItemId, Item> {
    if id in items then items[id := items[id].(stock := items[id].stock + delta, updatedAt := now)] else items
  }

  /** The restore loop: gives back the quantity of every previous line that still names an item. */
  function Restored(items: map<ItemId, Item>, prev: seq<Line>, now: Time): map<ItemId, Item>
    decreases |prev|
  {
    if prev == [] then items
    else
      var base := Restored(items, prev[..|prev| - 1], now);
      var l := prev[|prev| - 1];
      if l.itemId.None? then base else AddStock(base, l.itemId.value, l.quantity, now)
  }

  /** The decrement loop: takes the quantity of every priced line. */
  function Consumed(items: map<ItemId, Item>, priced: seq<PricedItem>, now: Time): map<ItemId, Item>
    decreases |priced|
  {
    if priced == [] then items
    else
      var p := priced[|priced| - 1];
      AddStock(Consumed(items, priced[..|priced| - 1], now), p.itemId, -p.quantity, now)
  }

  /** The quantity some lines hold of item `k`. */
  function RestoredQty(prev: seq<Line>, k: ItemId): int
    decreases |prev|
  {
    if prev == [] then 0
    else RestoredQty(prev[..|prev| - 1], k) + (if prev[|prev| - 1].itemId == Some(k) then prev[|prev| - 1].quantity else 0)
  }

  /** The quantity some priced lines take of item `k`. */
  function ConsumedQty(priced: seq<PricedItem>, k: ItemId): int
    decreases |priced|
  {
    if priced == [] then 0
    else ConsumedQty(priced[..|priced| - 1], k) + (if priced[|priced| - 1].itemId == k then priced[|priced| - 1].quantity else 0)
  }

  /** The quantity a request asks for of item `k`. */
  function RequestedQty(entries: seq<Entry>, k: ItemId): int
    decreases |entries|
  {
    if entries == [] then 0
    else RequestedQty(entries[..|entries| - 1], k)
         + (if entries[|entries| - 1].itemId == Some(k) then entries[|entries| - 1].quantity.GetOr(0) else 0)
  }

  /** Two rows of one item agree on everything the bill routes do not write. */
  predicate SameExceptStock(a: Item, b: Item) {
    a.name == b.name && a.price == b.price && a.image == b.image && a.createdAt == b.createdAt
  }

  lemma {:induction false} RestoredStock(items: map<ItemId, Item>, prev: seq<Line>, now: Time)
    ensures Restored(items, prev, now).Keys == items.Keys
    ensures forall k :: k in items ==> Restored(items, prev, now)[k].stock == items[k].stock + RestoredQty(prev, k)
                                       && SameExceptStock(Restored(items, prev, now)[k], items[k])
    decreases |prev|
  {
    if prev != [] {
      RestoredStock(items, prev[..|prev| - 1], now);
    }
  }

  lemma {:induction false} ConsumedStock(items: map<ItemId, Item>, priced: seq<PricedItem>, now: Time)
    ensures Consumed(items, priced, now).Keys == items.Keys
    ensures forall k :: k in items ==> Consumed(items, priced, now)[k].stock == items[k].stock - ConsumedQty(priced, k)
                                       && SameExceptStock(Consumed(items, priced, now)[k], items[k])
    decreases |priced|
  {
    if priced != [] {
      ConsumedStock(items, priced[..|priced| - 1], now);
    }
  }

  /** A priced request takes, of every item, exactly the quantity the request asks for. */
  lemma {:induction false} RequestedIsConsumed(catalog: map<ItemId, Item>, entries: seq<Entry>,
                                               priced: seq<PricedItem>, k: ItemId)
    requires |priced| == |entries|
    requires forall i :: 0 <= i < |entries| ==> PriceEntry(catalog, entries[i]) == Ok(priced[i])
    ensures RequestedQty(entries, k) == ConsumedQty(priced, k)
    decreases |entries|
  {
    if entries != [] {
      var n := |entries| - 1;
      RequestedIsConsumed(catalog, entries[..n], priced[..n], k);
    }
  }

  /** Lines written for priced items give back exactly what those items took. */
  lemma {:induction false} NewLinesRestoreConsumed(billId: BillId, priced: seq<PricedItem>, now: Time, k: ItemId)
    ensures RestoredQty(NewLines(billId, priced, now), k) == ConsumedQty(priced, k)
    decreases |priced|
  {
    if priced != [] {
      var n := |priced| - 1;
      NewLinesRestoreConsumed(billId, priced[..n], now, k);
      assert NewLines(billId, priced, now)[..n] == NewLines(billId, priced[..n], now);
    }
  }

  /** The bill total is the sum of the totals stored on its new lines. */
  lemma {:induction false} TotalOfLines(billId: BillId, priced: seq<PricedItem>, now: Time)
    ensures LineTotals(NewLines(billId, priced, now)) == TotalOf(priced)
    decreases |priced|
  {
    if priced != [] {
      var n := |priced| - 1;
      TotalOfLines(billId, priced[..n], now);
      assert NewLines(billId, priced, now)[..n] == NewLines(billId, priced[..n], now);
    }
  }

  /** The request built from some stored lines asks again for exactly what they hold. */
  function AsEntries(lines: seq<Line>): (r: seq<Entry>)
    ensures |r| == |lines|
    ensures forall i :: 0 <= i < |lines| ==> r[i] == Entry(lines[i].itemId, Some(lines[i].quantity), Some(lines[i].unit))
  {
    seq(|lines|, i requires 0 <= i < |lines| => Entry(lines[i].itemId, Some(lines[i].quantity), Some(lines[i].unit)))
  }

  lemma {:induction false} AsEntriesRequestRestored(lines: seq<Line>, k: ItemId)
    ensures RequestedQty(AsEntries(lines), k) == RestoredQty(lines, k)
    decreases |lines|
  {
    if lines != [] {
      var n := |lines| - 1;
      AsEntriesRequestRestored(lines[..n], k);
      assert AsEntries(lines)[..n] == AsEntries(lines[..n]);
    }
  }

  // ---------------------------------------------------------------------------------------
  // Lemmas about the line table

  /** Selecting and deleting a bill's lines both work line by line over a concatenation. */
  lemma LinesOfAppend(a: seq<Line>, b: seq<Line>, id: BillId)
    ensures LinesOf(a + b, id) == LinesOf(a, id) + LinesOf(b, id)
    ensures WithoutBill(a + b, id) == WithoutBill(a, id) + WithoutBill(b, id)
  {
    SelectAppend(a, b, id);
    DropAppend(a, b, id);
  }

  lemma {:induction false} SelectAppend(a: seq<Line>, b: seq<Line>, id: BillId)
    ensures LinesOf(a + b, id) == LinesOf(a, id) + LinesOf(b, id)
    decreases |b|
  {
    if b == [] {
      assert a + b == a;
    } else {
      var n := |b| - 1;
      SelectAppend(a, b[..n], id);
      var ab := a + b;
      assert ab[..|ab| - 1] == a + b[..n] && ab[|ab| - 1] == b[n];
    }
  }

  lemma {:induction false} DropAppend(a: seq<Line>, b: seq<Line>, id: BillId)
    ensures WithoutBill(a + b, id) == WithoutBill(a, id) + WithoutBill(b, id)
    decreases |b|
  {
    if b == [] {
      assert a + b == a;
    } else {
      var n := |b| - 1;
      DropAppend(a, b[..n], id);
      var ab := a + b;
      assert ab[..|ab| - 1] == a + b[..n] && ab[|ab| - 1] == b[n];
    }
  }

  /** A bill id no line mentions selects nothing and deletes nothing. */
  lemma {:induction false} LinesOfAbsent(lines: seq<Line>, id: BillId)
    requires forall i :: 0 <= i < |lines| ==> lines[i].billId != id
    ensures LinesOf(lines, id) == [] && WithoutBill(lines, id) == lines
    decreases |lines|
  {
    if lines != [] {
      LinesOfAbsent(lines[..|lines| - 1], id);
    }
  }

  /** The lines written for one bill are all the lines of that bill and nothing else. */
  lemma {:induction false} LinesOfNew(billId: BillId, priced: seq<PricedItem>, now: Time)
    ensures LinesOf(NewLines(billId, priced, now), billId) == NewLines(billId, priced, now)
    ensures WithoutBill(NewLines(billId, priced, now), billId) == []
    decreases |priced|
  {
    if priced != [] {
      var n := |priced| - 1;
      LinesOfNew(billId, priced[..n], now);
      assert NewLines(billId, priced, now)[..n] == NewLines(billId, priced[..n], now);
    }
  }

  /** Deleting a bill's lines keeps every line of the other bills, in order, and none of its own. */
  lemma {:induction false} WithoutBillSelects(lines: seq<Line>, id: BillId, other: BillId)
    ensures LinesOf(WithoutBill(lines, id), id) == []
    ensures other != id ==> LinesOf(WithoutBill(lines, id), other) == LinesOf(lines, other)
    decreases |lines|
  {
    if lines != [] {
      var n := |lines| - 1;
      WithoutBillSelects(lines[..n], id, other);
      var last := if lines[n].billId != id then [lines[n]] else [];
      LinesOfAppend(WithoutBill(lines[..n], id), last, id);
      LinesOfAppend(WithoutBill(lines[..n], id), last, other);
      assert LinesOf(last, id) == [] by {
        if last != [] { assert last[..0] == []; }
      }
      if other != id {
        assert last != [] ==> last[..0] == [];
      }
    }
  }

  lemma {:induction false} LinesOfBelong(lines: seq<Line>, id: BillId)
    ensures forall l :: l in LinesOf(lines, id) ==> l in lines && l.billId == id
    ensures forall l :: l in WithoutBill(lines, id) ==> l in lines && l.billId != id
    decreases |lines|
  {
    if lines != [] {
      LinesOfBelong(lines[..|lines| - 1], id);
    }
  }

  // ---------------------------------------------------------------------------------------
  // Reads

  /** The `LEFT JOIN items`: the current name and image of the line's item, if it still exists. */
  function Hydrate(items: map<ItemId, Item>, l: Line): LineView {
    if l.itemId.Some? && l.itemId.value in items then
      LineView(l.itemId, Some(items[l.itemId.value].name), items[l.itemId.value].image, l.quantity, l.unit, l.total)
    else
      LineView(l.itemId, None, None, l.quantity, l.unit, l.total)
  }

  /** `fetchBillWithItems` followed by `serializeBill`. */
  function FetchBill(t: Tables, id: BillId): (r: Option<BillView>)
    ensures r.Some? <==> id in t.bills
    ensures r.Some? ==> var b := t.bills[id]; var ls := LinesOf(t.lines, id);
      && r.value.id == id && r.value.date == b.date && r.value.total == b.total
      && r.value.final == b.final && r.value.createdAt == b.createdAt
      && |r.value.lines| == |ls|
      && forall i :: 0 <= i < |ls| ==>
           (&& r.value.lines[i].itemId == ls[i].itemId
            && r.value.lines[i].quantity == ls[i].quantity && r.value.lines[i].unit == ls[i].unit
            && r.value.lines[i].total == ls[i].total
            && var present := ls[i].itemId.Some? && ls[i].itemId.value in t.items;
               && r.value.lines[i].name == (if present then Some(t.items[ls[i].itemId.value].name) else None)
               && r.value.lines[i].image == (if present then t.items[ls[i].itemId.value].image else None))
  {
    if id !in t.bills then None
    else
      var b := t.bills[id];
      var ls := LinesOf(t.lines, id);
      Some(BillView(id, b.date, b.total, b.final, b.createdAt,
                    seq(|ls|, i requires 0 <= i < |ls| => Hydrate(t.items, ls[i]))))
  }

  /** Membership in the day set a filter admits. */
  predicate Matches(f: Filter, d: Day) {
    match f
    case OnDate(day) => d == day
    case Between(s, e) => s <= d <= e
    case From(s) => s <= d
    case Until(e) => d <= e
    case Everything => true
  }

  /** The `if` chain of `GET /`: an exact date wins, otherwise each given bound applies. */
  function SelectFilter(date: Option<Day>, start: Option<Day>, end: Option<Day>): (f: Filter)
    ensures forall d :: Matches(f, d) <==>
      if date.Some? then d == date.value
      else (start.None? || start.value <= d) && (end.None? || d <= end.value)
  {
    if date.Some? then OnDate(date.value)
    else if start.Some? && end.Some? then Between(start.value, end.value)
    else if start.Some? then From(start.value)
    else if end.Some? then Until(end.value)
    else Everything
  }

  /** `GET /`: the matching bills, newest first, each with its lines. */
  method ListBills(db: Database, date: Option<Day>, start: Option<Day>, end: Option<Day>) returns (r: seq<BillView>)
    ensures forall i :: 0 <= i < |r| ==> r[i].id in db.bills && Matches(SelectFilter(date, start, end), db.bills[r[i].id].date)
                                         && FetchBill(db.State(), r[i].id) == Some(r[i])
    ensures forall id :: id in db.bills && Matches(SelectFilter(date, start, end), db.bills[id].date) ==>
                           exists i :: 0 <= i < |r| && r[i].id == id
    ensures forall i, j :: 0 <= i < j < |r| ==> r[i].id != r[j].id && r[i].createdAt >= r[j].createdAt
  {
    var t := db.State();
    var f := SelectFilter(date, start, end);
    var selected := set id | id in t.bills && Matches(f, t.bills[id].date);
    var created := map id | id in t.bills :: t.bills[id].createdAt;
    var order := Ordering.NewestFirst(selected, created);
    r := [];
    for i := 0 to |order|
      invariant |r| == i
      invariant forall k :: 0 <= k < i ==> FetchBill(t, order[k]) == Some(r[k]) && r[k].id == order[k]
    {
      assert order[i] in selected;
      var view := FetchBill(t, order[i]);
      r := r + [view.value];
    }
    forall i | 0 <= i < |r|
      ensures r[i].id in t.bills && Matches(f, t.bills[r[i].id].date)
    {
      assert order[i] in selected;
    }
    forall id | id in t.bills && Matches(f, t.bills[id].date)
      ensures exists i :: 0 <= i < |r| && r[i].id == id
    {
      assert id in selected;
      var i :| 0 <= i < |order| && order[i] == id;
      assert r[i].id == id;
    }
  }

  // ---------------------------------------------------------------------------------------
  // The transactions, as functions of the tables

  /** POST `/`: the tables after COMMIT, or the error that rolled the transaction back. */
  function CreateTx(t: Tables, req: BillRequest, billId: BillId, now: Time): Result<Tables, Error> {
    if !RequestValid(req) then Err(MissingBillFields)
    else match PriceAll(t.items, req.items.value)
      case Err(e) => Err(e)
      case Ok(priced) =>
        var total := TotalOf(priced);
        Ok(Tables(Consumed(t.items, priced, now),
                  t.bills[billId := Bill(req.billDate.value, total, req.finalPrice.GetOr(total), now)],
                  t.lines + NewLines(billId, priced, now)))
  }

  /** PUT `/:id`. */
  function ReplaceTx(t: Tables, id: BillId, req: BillRequest, now: Time): Result<Tables, Error> {
    if !RequestValid(req) then Err(MissingBillFields)
    else if id !in t.bills then Err(BillNotFound)
    else
      var restored := Restored(t.items, LinesOf(t.lines, id), now);
      match PriceAll(restored, req.items.value)
      case Err(e) => Err(e)
      case Ok(priced) =>
        var total := TotalOf(priced);
        Ok(Tables(Consumed(restored, priced, now),
                  t.bills[id := t.bills[id].(date := req.billDate.value, total := total,
                                             final := req.finalPrice.GetOr(total))],
                  WithoutBill(t.lines, id) + NewLines(id, priced, now)))
  }

  /** DELETE `/:id`. */
  function DeleteTx(t: Tables, id: BillId, now: Time): Result<Tables, Error> {
    if id !in t.bills then Err(BillNotFound)
    else Ok(Tables(Restored(t.items, LinesOf(t.lines, id), now), t.bills - {id}, WithoutBill(t.lines, id)))
  }

  // ---------------------------------------------------------------------------------------
  // What the transactions do

  /** Create fails exactly on a bad body or a line that does not price; a failure writes nothing. */
  lemma CreateOutcome(t: Tables, req: BillRequest, billId: BillId, now: Time)
    ensures !RequestValid(req) ==> CreateTx(t, req, billId, now) == Err(MissingBillFields)
    ensures RequestValid(req) ==>
      (CreateTx(t, req, billId, now).Ok? <==>
         forall i :: 0 <= i < |req.items.value| ==> PriceEntry(t.items, req.items.value[i]).Ok?)
    ensures RequestValid(req) && CreateTx(t, req, billId, now).Err? ==>
      PriceAll(t.items, req.items.value) == Err(CreateTx(t, req, billId, now).error)
  {
  }

  /**
   * A successful create adds one bill whose total is the sum of its new lines' totals and whose
   * final price is `finalPrice ?? total`, appends one line per requested line, and lowers each
   * item's stock by exactly the quantity requested of it.
   */
  lemma {:induction false} CreateEffect(t: Tables, req: BillRequest, billId: BillId, now: Time)
    requires CreateTx(t, req, billId, now).Ok?
    ensures var t' := CreateTx(t, req, billId, now).value; var entries := req.items.value;
      && t'.bills.Keys == t.bills.Keys + {billId}
      && (forall b :: b in t.bills && b != billId ==> t'.bills[b] == t.bills[b])
      && t'.bills[billId].date == req.billDate.value && t'.bills[billId].createdAt == now
      && |t'.lines| == |t.lines| + |entries| && t'.lines[..|t.lines|] == t.lines
      && (forall i :: 0 <= i < |entries| ==>
            var l := t'.lines[|t.lines| + i];
            l.billId == billId && l.itemId.Some? && l.createdAt == now
            && PriceEntry(t.items, entries[i]) == Ok(PricedItem(l.itemId.value, l.quantity, l.unit, l.total)))
      && t'.bills[billId].total == LineTotals(t'.lines[|t.lines|..])
      && t'.bills[billId].final == req.finalPrice.GetOr(t'.bills[billId].total)
      && t'.items.Keys == t.items.Keys
      && (forall k :: k in t.items ==> t'.items[k].stock == t.items[k].stock - RequestedQty(entries, k)
                                       && SameExceptStock(t'.items[k], t.items[k]))
  {
    var priced := PriceAll(t.items, req.items.value).value;
    var t' := CreateTx(t, req, billId, now).value;
    ConsumedStock(t.items, priced, now);
    TotalOfLines(billId, priced, now);
    assert t'.lines[|t.lines|..] == NewLines(billId, priced, now);
    forall k | k in t.items
      ensures t'.items[k].stock == t.items[k].stock - RequestedQty(req.items.value, k)
    {
      RequestedIsConsumed(t.items, req.items.value, priced, k);
    }
  }

  /**
   * PUT fails with missing-fields on a bad body; on an existing bill it succeeds exactly when
   * every new line prices against the stock as restored from the bill's old lines.
   */
  lemma ReplaceOutcome(t: Tables, id: BillId, req: BillRequest, now: Time)
    ensures !RequestValid(req) ==> ReplaceTx(t, id, req, now) == Err(MissingBillFields)
    ensures RequestValid(req) && id in t.bills ==>
      (ReplaceTx(t, id, req, now).Ok? <==>
         forall i :: 0 <= i < |req.items.value| ==>
           PriceEntry(Restored(t.items, LinesOf(t.lines, id), now), req.items.value[i]).Ok?)
    ensures RequestValid(req) && id in t.bills && ReplaceTx(t, id, req, now).Err? ==>
      PriceAll(Restored(t.items, LinesOf(t.lines, id), now), req.items.value) == Err(ReplaceTx(t, id, req, now).error)
  {
  }

  /** Replacing a bill that does not exist fails with not-found (after the body check). */
  lemma ReplaceUnknown(t: Tables, id: BillId, req: BillRequest, now: Time)
    requires RequestValid(req) && id !in t.bills
    ensures ReplaceTx(t, id, req, now) == Err(BillNotFound)
  {
  }

  /** The lines PUT writes: `items` priced against the stock as restored from the old lines. */
  function ReplacementLines(t: Tables, id: BillId, req: BillRequest, now: Time): seq<Line>
    requires ReplaceTx(t, id, req, now).Ok?
  {
    NewLines(id, PriceAll(Restored(t.items, LinesOf(t.lines, id), now), req.items.value).value, now)
  }

  /**
   * After a successful replace the bill's lines are exactly the new ones, one per requested
   * line in order, each priced against the restored stock; other bills' lines are untouched.
   */
  lemma {:induction false} ReplaceLines(t: Tables, id: BillId, req: BillRequest, now: Time)
    requires ReplaceTx(t, id, req, now).Ok?
    ensures var t' := ReplaceTx(t, id, req, now).value; var added := ReplacementLines(t, id, req, now);
      && LinesOf(t'.lines, id) == added
      && |added| == |req.items.value|
      && (forall i :: 0 <= i < |added| ==>
            (&& added[i].billId == id && added[i].itemId.Some?
             && PriceEntry(Restored(t.items, LinesOf(t.lines, id), now), req.items.value[i])
                == Ok(PricedItem(added[i].itemId.value, added[i].quantity, added[i].unit, added[i].total))))
      && (forall b :: b != id ==> LinesOf(t'.lines, b) == LinesOf(t.lines, b))
  {
    var restored := Restored(t.items, LinesOf(t.lines, id), now);
    var priced := PriceAll(restored, req.items.value).value;
    var t' := ReplaceTx(t, id, req, now).value;
    var kept := WithoutBill(t.lines, id);
    var added := NewLines(id, priced, now);
    NewLinesPriced(restored, req.items.value, id, now);
    assert t'.lines == kept + added;
    OwnLinesReplaced(t.lines, id, priced, now);
    forall b | b != id
      ensures LinesOf(t'.lines, b) == LinesOf(t.lines, b)
    {
      SwapKeepsOtherBills(t.lines, id, added, b);
    }
  }

  /** Swapping a bill's lines for freshly priced ones leaves that bill with exactly the new lines. */
  lemma OwnLinesReplaced(lines: seq<Line>, id: BillId, priced: seq<PricedItem>, now: Time)
    ensures LinesOf(WithoutBill(lines, id) + NewLines(id, priced, now), id) == NewLines(id, priced, now)
  {
    LinesOfNew(id, priced, now);
    LinesOfAppend(WithoutBill(lines, id), NewLines(id, priced, now), id);
    WithoutBillSelects(lines, id, id);
  }

  /** The lines written for a priced request: one per requested line, each its priced line. */
  lemma NewLinesPriced(catalog: map<ItemId, Item>, entries: seq<Entry>, billId: BillId, now: Time)
    requires PriceAll(catalog, entries).Ok?
    ensures var added := NewLines(billId, PriceAll(catalog, entries).value, now);
      && |added| == |entries|
      && forall i :: 0 <= i < |added| ==>
           (&& added[i].billId == billId && added[i].itemId.Some? && added[i].createdAt == now
            && PriceEntry(catalog, entries[i])
               == Ok(PricedItem(added[i].itemId.value, added[i].quantity, added[i].unit, added[i].total)))
  {
  }

  /** Swapping one bill's lines for lines of that same bill leaves every other bill's lines alone. */
  lemma SwapKeepsOtherBills(lines: seq<Line>, id: BillId, added: seq<Line>, b: BillId)
    requires b != id && forall i :: 0 <= i < |added| ==> added[i].billId == id
    ensures LinesOf(WithoutBill(lines, id) + added, b) == LinesOf(lines, b)
  {
    LinesOfAppend(WithoutBill(lines, id), added, b);
    WithoutBillSelects(lines, id, b);
    LinesOfAbsent(added, b);
  }

  /**
   * A successful replace keeps the bill's id and creation time and rewrites its date, total
   * and final price from the new lines; other bills are untouched.
   */
  lemma {:induction false} ReplaceBill(t: Tables, id: BillId, req: BillRequest, now: Time)
    requires ReplaceTx(t, id, req, now).Ok?
    ensures var t' := ReplaceTx(t, id, req, now).value;
      && id in t.bills
      && t'.bills.Keys == t.bills.Keys
      && (forall b :: b in t.bills && b != id ==> t'.bills[b] == t.bills[b])
      && t'.bills[id].date == req.billDate.value && t'.bills[id].createdAt == t.bills[id].createdAt
      && t'.bills[id].total == LineTotals(LinesOf(t'.lines, id))
      && t'.bills[id].final == req.finalPrice.GetOr(t'.bills[id].total)
  {
    var priced := PriceAll(Restored(t.items, LinesOf(t.lines, id), now), req.items.value).value;
    var t' := ReplaceTx(t, id, req, now).value;
    assert t'.lines == WithoutBill(t.lines, id) + NewLines(id, priced, now);
    OwnLinesReplaced(t.lines, id, priced, now);
    TotalOfLines(id, priced, now);
  }

  /**
   * A successful replace changes each item's stock by what the bill's old lines held minus
   * what the new request asks for.
   */
  lemma {:induction false} ReplaceStock(t: Tables, id: BillId, req: BillRequest, now: Time)
    requires ReplaceTx(t, id, req, now).Ok?
    ensures var t' := ReplaceTx(t, id, req, now).value; var prev := LinesOf(t.lines, id);
      && t'.items.Keys == t.items.Keys
      && (forall k :: k in t.items ==>
            t'.items[k].stock == t.items[k].stock + RestoredQty(prev, k) - RequestedQty(req.items.value, k)
            && SameExceptStock(t'.items[k], t.items[k]))
  {
    var prev := LinesOf(t.lines, id);
    var restored := Restored(t.items, prev, now);
    var priced := PriceAll(restored, req.items.value).value;
    RestoredStock(t.items, prev, now);
    ConsumedStock(restored, priced, now);
    forall k | k in t.items
      ensures RequestedQty(req.items.value, k) == ConsumedQty(priced, k)
    {
      RequestedIsConsumed(restored, req.items.value, priced, k);
    }
  }

  /** Replacing a bill by the very lines it holds leaves every item's stock where it was. */
  lemma {:induction false} ReplaceSameLinesKeepsStock(t: Tables, id: BillId, req: BillRequest, now: Time)
    requires req.items == Some(AsEntries(LinesOf(t.lines, id)))
    requires ReplaceTx(t, id, req, now).Ok?
    ensures var t' := ReplaceTx(t, id, req, now).value;
      t'.items.Keys == t.items.Keys && forall k :: k in t.items ==> t'.items[k].stock == t.items[k].stock
  {
    ReplaceStock(t, id, req, now);
    forall k | k in t.items {
      AsEntriesRequestRestored(LinesOf(t.lines, id), k);
    }
  }

  /** A delete of an unknown bill fails with not-found; otherwise the bill and all its lines go. */
  lemma {:induction false} DeleteEffect(t: Tables, id: BillId, now: Time)
    ensures id !in t.bills ==> DeleteTx(t, id, now) == Err(BillNotFound)
    ensures id in t.bills ==> DeleteTx(t, id, now).Ok?
    ensures id in t.bills ==>
      var t' := DeleteTx(t, id, now).value; var prev := LinesOf(t.lines, id);
      && t'.bills.Keys == t.bills.Keys - {id}
      && (forall b :: b in t'.bills ==> t'.bills[b] == t.bills[b])
      && LinesOf(t'.lines, id) == []
      && (forall b :: b != id ==> LinesOf(t'.lines, b) == LinesOf(t.lines, b))
      && t'.items.Keys == t.items.Keys
      && (forall k :: k in t.items ==> t'.items[k].stock == t.items[k].stock + RestoredQty(prev, k)
                                       && SameExceptStock(t'.items[k], t.items[k]))
  {
    if id in t.bills {
      RestoredStock(t.items, LinesOf(t.lines, id), now);
      forall b ensures b != id ==> LinesOf(WithoutBill(t.lines, id), b) == LinesOf(t.lines, b) {
        WithoutBillSelects(t.lines, id, b);
      }
      WithoutBillSelects(t.lines, id, id);
    }
  }

  /** Each transaction keeps every line attached to an existing bill. */
  lemma {:induction false} TransactionsKeepLinesHaveBills(t: Tables, id: BillId, req: BillRequest, now: Time)
    requires LinesHaveBills(t)
    ensures CreateTx(t, req, id, now).Ok? ==> LinesHaveBills(CreateTx(t, req, id, now).value)
    ensures ReplaceTx(t, id, req, now).Ok? ==> LinesHaveBills(ReplaceTx(t, id, req, now).value)
    ensures DeleteTx(t, id, now).Ok? ==> LinesHaveBills(DeleteTx(t, id, now).value)
  {
    LinesOfBelong(t.lines, id);
    if ReplaceTx(t, id, req, now).Ok? {
      var t' := ReplaceTx(t, id, req, now).value;
      forall i | 0 <= i < |t'.lines| ensures t'.lines[i].billId in t'.bills {
        if i < |WithoutBill(t.lines, id)| {
          assert t'.lines[i] in WithoutBill(t.lines, id);
        }
      }
    }
    if DeleteTx(t, id, now).Ok? {
      var t' := DeleteTx(t, id, now).value;
      forall i | 0 <= i < |t'.lines| ensures t'.lines[i].billId in t'.bills {
        assert t'.lines[i] in WithoutBill(t.lines, id);
      }
    }
  }

  /** Appending the lines of a bill no existing line belongs to: selecting or deleting them undoes it. */
  lemma AppendNewBillLines(lines: seq<Line>, billId: BillId, priced: seq<PricedItem>, now: Time)
    requires forall i :: 0 <= i < |lines| ==> lines[i].billId != billId
    ensures LinesOf(lines + NewLines(billId, priced, now), billId) == NewLines(billId, priced, now)
    ensures WithoutBill(lines + NewLines(billId, priced, now), billId) == lines
  {
    LinesOfAbsent(lines, billId);
    LinesOfNew(billId, priced, now);
    LinesOfAppend(lines, NewLines(billId, priced, now), billId);
  }

  /** Restoring the lines written for some priced items gives back every unit they took. */
  lemma {:induction false} RestoreUndoesConsume(items: map<ItemId, Item>, billId: BillId, priced: seq<PricedItem>,
                                                now: Time, later: Time)
    ensures var after := Restored(Consumed(items, priced, now), NewLines(billId, priced, now), later);
      after.Keys == items.Keys && forall k :: k in items ==> after[k].stock == items[k].stock
  {
    var consumed := Consumed(items, priced, now);
    ConsumedStock(items, priced, now);
    RestoredStock(consumed, NewLines(billId, priced, now), later);
    forall k | k in items
      ensures Restored(consumed, NewLines(billId, priced, now), later)[k].stock == items[k].stock
    {
      NewLinesRestoreConsumed(billId, priced, now, k);
    }
  }

  /**
   * Deleting a bill right after creating it gives back the bills and lines as they were and
   * every item's stock as it was.
   */
  lemma {:induction false} CreateThenDeleteRestores(t: Tables, req: BillRequest, billId: BillId, now: Time, later: Time)
    requires LinesHaveBills(t) && billId !in t.bills
    requires CreateTx(t, req, billId, now).Ok?
    ensures var t1 := CreateTx(t, req, billId, now).value;
      DeleteTx(t1, billId, later).Ok? &&
      var t2 := DeleteTx(t1, billId, later).value;
      && t2.bills == t.bills && t2.lines == t.lines && t2.items.Keys == t.items.Keys
      && forall k :: k in t.items ==> t2.items[k].stock == t.items[k].stock
  {
    var priced := PriceAll(t.items, req.items.value).value;
    var t1 := CreateTx(t, req, billId, now).value;
    var added := NewLines(billId, priced, now);
    assert t1.lines == t.lines + added;
    assert t1.items == Consumed(t.items, priced, now);
    forall i | 0 <= i < |t.lines| ensures t.lines[i].billId != billId { }
    AppendNewBillLines(t.lines, billId, priced, now);
    assert t1.bills - {billId} == t.bills;
    RestoreUndoesConsume(t.items, billId, priced, now, later);
  }

  /** With each item named at most once in the request, a create cannot drive stock below zero. */
  lemma {:induction false} CreateKeepsStockNonNegative(t: Tables, req: BillRequest, billId: BillId, now: Time)
    requires forall k :: k in t.items ==> t.items[k].stock >= 0
    requires RequestValid(req)
    requires forall i, j :: 0 <= i < j < |req.items.value| ==> req.items.value[i].itemId != req.items.value[j].itemId
    requires CreateTx(t, req, billId, now).Ok?
    ensures var t' := CreateTx(t, req, billId, now).value;
      forall k :: k in t'.items ==> t'.items[k].stock >= 0
  {
    var entries := req.items.value;
    CreateEffect(t, req, billId, now);
    forall k | k in t.items ensures RequestedQty(entries, k) <= t.items[k].stock {
      RequestedOfDistinct(entries, k);
      if i :| 0 <= i < |entries| && entries[i].itemId == Some(k) && RequestedQty(entries, k) == entries[i].quantity.GetOr(0) {
        assert PriceEntry(t.items, entries[i]).Ok?;
      }
    }
  }

  /** With distinct ids, the requested quantity of an item is that of its one line, or zero. */
  lemma {:induction false} RequestedOfDistinct(entries: seq<Entry>, k: ItemId)
    requires forall i, j :: 0 <= i < j < |entries| ==> entries[i].itemId != entries[j].itemId
    ensures (RequestedQty(entries, k) == 0 && forall i :: 0 <= i < |entries| ==> entries[i].itemId != Some(k))
         || exists i :: 0 <= i < |entries| && entries[i].itemId == Some(k) && RequestedQty(entries, k) == entries[i].quantity.GetOr(0)
    decreases |entries|
  {
    if entries != [] {
      var n := |entries| - 1;
      RequestedOfDistinct(entries[..n], k);
      if entries[n].itemId == Some(k) {
        assert forall i :: 0 <= i < n ==> entries[..n][i].itemId != Some(k);
      } else if i :| 0 <= i < n && entries[..n][i].itemId == Some(k) && RequestedQty(entries[..n], k) == entries[..n][i].quantity.GetOr(0) {
        assert entries[i].itemId == Some(k);
      }
    }
  }

  /**
   * Two lines of 3 for an item with stock 5 are both accepted, because each is checked against
   * the stock before any decrement: the create succeeds and leaves the stock at -1.
   */
  lemma RepeatedLinesCheckedAgainstSameStock()
    ensures var t := Tables(map["A" := Item("Tea", 1850, 5, None, 0, 0)], map[], []);
            var e := Entry(Some("A"), Some(3), None);
            var r := CreateTx(t, BillRequest(Some(1), Some([e, e]), None), "B", 1);
      r.Ok? && "A" in r.value.items && r.value.items["A"].stock == -1
      && "B" in r.value.bills && r.value.bills["B"].total == 11100
  {
    var items := map["A" := Item("Tea", 1850, 5, None, 0, 0)];
    var e := Entry(Some("A"), Some(3), None);
    var p := PricedItem("A", 3, 1850, 5550);
    assert PriceEntry(items, e) == Ok(p);
    var priced := PriceAll(items, [e, e]);
    assert priced.value[0] == p && priced.value[1] == p;
    assert priced.value == [p, p];
    assert [p, p][..1] == [p] && [p][..0] == [];
    var once := Consumed(items, [p], 1);
    assert once == AddStock(Consumed(items, [p][..0], 1), "A", -3, 1);
    assert Consumed(items, [p, p], 1) == AddStock(once, "A", -3, 1);
    assert TotalOf([p, p]) == TotalOf([p]) + 5550;
    assert TotalOf([p]) == TotalOf([]) + 5550;
  }

  // ---------------------------------------------------------------------------------------
  // The route handlers

  /** The loop of PUT and DELETE that gives back the stock held by a bill's previous lines. */
  method RestoreStock(db: Database, previous: seq<Line>, now: Time)
    modifies db
    ensures db.items == Restored(old(db.items), previous, now)
    ensures db.bills == old(db.bills) && db.lines == old(db.lines)
  {
    for i := 0 to |previous|
      invariant db.items == Restored(old(db.items), previous[..i], now)
      invariant db.bills == old(db.bills) && db.lines == old(db.lines)
    {
      assert previous[..i + 1][..i] == previous[..i];
      if previous[i].itemId.Some? {
        db.items := AddStock(db.items, previous[i].itemId.value, previous[i].quantity, now);
      }
    }
    assert previous[..|previous|] == previous;
  }

  /** The loop of POST and PUT that inserts each priced line and takes its quantity from stock. */
  method WriteLines(db: Database, billId: BillId, priced: seq<PricedItem>, now: Time)
    modifies db
    ensures db.items == Consumed(old(db.items), priced, now)
    ensures db.lines == old(db.lines) + NewLines(billId, priced, now)
    ensures db.bills == old(db.bills)
  {
    for i := 0 to |priced|
      invariant db.items == Consumed(old(db.items), priced[..i], now)
      invariant db.lines == old(db.lines) + NewLines(billId, priced[..i], now)
      invariant db.bills == old(db.bills)
    {
      assert priced[..i + 1][..i] == priced[..i];
      db.lines := db.lines + [ToLine(billId, priced[i], now)];
      db.items := AddStock(db.items, priced[i].itemId, -priced[i].quantity, now);
    }
    assert priced[..|priced|] == priced;
  }

  /** POST `/`. */
  method Create(db: Database, req: BillRequest, billId: BillId, now: Time) returns (r: Result<BillView, Error>)
    requires billId !in db.bills  // uuid() yields an unused id ...
    requires forall i :: 0 <= i < |db.lines| ==> db.lines[i].billId != billId  // ... that no line names
    modifies db
    ensures match CreateTx(old(db.State()), req, billId, now)
      case Ok(t) => db.State() == t && r.Ok? && FetchBill(t, billId) == Some(r.value)
      case Err(e) => db.State() == old(db.State()) && r == Err(e)
  {
    if !RequestValid(req) {
      return Err(MissingBillFields);
    }
    var priced := BuildPricedItems(db.items, req.items.value);
    if priced.Err? {
      return Err(priced.error);  // ROLLBACK: nothing was written yet
    }
    var total := TotalOf(priced.value);
    var final := req.finalPrice.GetOr(total);
    db.bills := db.bills[billId := Bill(req.billDate.value, total, final, now)];
    WriteLines(db, billId, priced.value, now);
    // COMMIT, then read the bill back
    var view := FetchBill(db.State(), billId);
    return Ok(view.value);
  }

  /** PUT `/:id`. */
  method Replace(db: Database, id: BillId, req: BillRequest, now: Time) returns (r: Result<BillView, Error>)
    modifies db
    ensures match ReplaceTx(old(db.State()), id, req, now)
      case Ok(t) => db.State() == t && r.Ok? && FetchBill(t, id) == Some(r.value)
      case Err(e) => db.State() == old(db.State()) && r == Err(e)
  {
    if !RequestValid(req) {
      return Err(MissingBillFields);
    }
    // BEGIN
    var items0, lines0 := db.items, db.lines;
    if id !in db.bills {
      return Err(BillNotFound);  // ROLLBACK
    }
    RestoreStock(db, LinesOf(db.lines, id), now);
    db.lines := WithoutBill(db.lines, id);
    var priced := BuildPricedItems(db.items, req.items.value);
    if priced.Err? {
      db.items, db.lines := items0, lines0;  // ROLLBACK
      return Err(priced.error);
    }
    var total := TotalOf(priced.value);
    var final := req.finalPrice.GetOr(total);
    db.bills := db.bills[id := db.bills[id].(date := req.billDate.value, total := total, final := final)];
    WriteLines(db, id, priced.value, now);
    // COMMIT, then read the bill back
    var view := FetchBill(db.State(), id);
    return Ok(view.value);
  }

  /** DELETE `/:id`. */
  method Delete(db: Database, id: BillId, now: Time) returns (r: Result<(), Error>)
    modifies db
    ensures match DeleteTx(old(db.State()), id, now)
      case Ok(t) => db.State() == t && r == Ok(())
      case Err(e) => db.State() == old(db.State()) && r == Err(e)
  {
    // BEGIN
    if id !in db.bills {
      return Err(BillNotFound);  // ROLLBACK
    }
    RestoreStock(db, LinesOf(db.lines, id), now);
    db.lines := WithoutBill(db.lines, id);
    db.bills := db.bills - {id};
    return Ok(());
  }
}
