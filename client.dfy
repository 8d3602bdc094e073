/**
 * The records the web client holds (`Item` and `Bill` of the client's type declarations,
 * reduced to the fields the client logic reads) and the revenue sum shared by the bill list
 * and the dashboard.
 */
module Client {
  import opened Store
  import opened Seqs

  /** A catalog item as the client receives it. */
  datatype ClientItem = ClientItem(id: ItemId, name: string, price: int, stock: int)

  /** A bill as the client receives it; `billDate` is the day of its `bill_date`. */
  datatype ClientBill = ClientBill(id: BillId, billDate: Day, totalPrice: int, finalPrice: int)

  function ItemKey(i: ClientItem): ItemId { i.id }

  function BillKey(b: ClientBill): BillId { b.id }

  /** `bills.reduce((sum, bill) => sum + bill.final_price, 0)`. */
  function Revenue(bills: seq<ClientBill>): int {
    if |bills| == 0 then 0 else Revenue(bills[..|bills| - 1]) + bills[|bills| - 1].finalPrice
  }

  /** With no negative final price the revenue is not negative, and it is at least each bill's. */
  lemma {:induction false} RevenueBounds(bills: seq<ClientBill>)
    requires forall i :: 0 <= i < |bills| ==> bills[i].finalPrice >= 0
    ensures Revenue(bills) >= 0
    ensures forall i :: 0 <= i < |bills| ==> Revenue(bills) >= bills[i].finalPrice
  {
    if |bills| > 0 {
      RevenueBounds(bills[..|bills| - 1]);
    }
  }

  /** Revenue adds up over concatenated lists. */
  lemma {:induction false} RevenueAppend(a: seq<ClientBill>, b: seq<ClientBill>)
    ensures Revenue(a + b) == Revenue(a) + Revenue(b)
    decreases |b|
  {
    if |b| == 0 {
      assert a + b == a;
    } else {
      assert (a + b)[..|a + b| - 1] == a + b[..|b| - 1];
      RevenueAppend(a, b[..|b| - 1]);
    }
  }

  /** The revenue of the bills passing one of two exclusive tests is the two revenues added. */
  lemma {:induction false} RevenueSplit(s: seq<ClientBill>, p: ClientBill -> bool, q: ClientBill -> bool,
                                        either: ClientBill -> bool)
    requires forall x :: either(x) == (p(x) || q(x))
    requires forall x :: !(p(x) && q(x))
    ensures Revenue(Keep(s, either)) == Revenue(Keep(s, p)) + Revenue(Keep(s, q))
  {
    if |s| > 0 {
      var init, last := s[..|s| - 1], s[|s| - 1];
      RevenueSplit(init, p, q, either);
      RevenueAppend(Keep(init, either), if either(last) then [last] else []);
      RevenueAppend(Keep(init, p), if p(last) then [last] else []);
      RevenueAppend(Keep(init, q), if q(last) then [last] else []);
    }
  }
}
