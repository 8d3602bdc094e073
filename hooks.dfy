/**
 * The list-state updates of the `useBills` and `useItems` hooks: after the server answers, the
 * created record is put in front, an updated record replaces the entries with its id, and a
 * deleted id is filtered out. The API calls around them are not modelled.
 */
module Hooks {
  import opened Seqs
  import opened Client

  /** `[created, ...prev]`. */
  function Prepend<T>(created: T, prev: seq<T>): (r: seq<T>)
    ensures |r| == |prev| + 1 && r[0] == created && r[1..] == prev
  {
    [created] + prev
  }

  /** `prev.map((x) => (x.id === id ? updated : x))`. */
  function ReplaceById<T>(prev: seq<T>, id: string, updated: T, key: T -> string): (r: seq<T>)
    ensures |r| == |prev|
    ensures forall i :: 0 <= i < |prev| ==> r[i] == if key(prev[i]) == id then updated else prev[i]
  {
    if |prev| == 0 then []
    else
      var last := prev[|prev| - 1];
      ReplaceById(prev[..|prev| - 1], id, updated, key) + [if key(last) == id then updated else last]
  }

  /** `prev.filter((x) => x.id !== id)`. */
  function RemoveById<T(!new)>(prev: seq<T>, id: string, key: T -> string): (r: seq<T>)
  {
    Keep(prev, (x: T) => key(x) != id)
  }

  /** The entries of `prev` carrying `id`. */
  function WithId<T(!new)>(prev: seq<T>, id: string, key: T -> string): seq<T> {
    Keep(prev, (x: T) => key(x) == id)
  }

  /** Replacing an id that is not in the list changes nothing. */
  lemma ReplaceAbsent<T>(prev: seq<T>, id: string, updated: T, key: T -> string)
    requires forall i :: 0 <= i < |prev| ==> key(prev[i]) != id
    ensures ReplaceById(prev, id, updated, key) == prev
  {
  }

  /** A replacement that keeps the id can be repeated without further effect. */
  lemma ReplaceIdempotent<T>(prev: seq<T>, id: string, updated: T, key: T -> string)
    requires key(updated) == id
    ensures var once := ReplaceById(prev, id, updated, key); ReplaceById(once, id, updated, key) == once
  {
  }

  /** A replacement leaves the entries of every other id where they were. */
  lemma {:induction false} ReplaceKeepsOthers<T(!new)>(prev: seq<T>, id: string, updated: T, key: T -> string)
    requires key(updated) == id
    ensures RemoveById(ReplaceById(prev, id, updated, key), id, key) == RemoveById(prev, id, key)
  {
    if |prev| > 0 {
      var init := prev[..|prev| - 1];
      var last := prev[|prev| - 1];
      var r := ReplaceById(prev, id, updated, key);
      ReplaceKeepsOthers(init, id, updated, key);
      assert r == ReplaceById(init, id, updated, key) + [if key(last) == id then updated else last];
      KeepAppend(ReplaceById(init, id, updated, key), [if key(last) == id then updated else last],
                 (x: T) => key(x) != id);
      assert prev == init + [last];
      KeepAppend(init, [last], (x: T) => key(x) != id);
    }
  }

  /** What remains after removal: the entries whose id differs from the removed one. */
  lemma RemoveMembers<T(!new)>(prev: seq<T>, id: string, key: T -> string)
    ensures forall x :: x in RemoveById(prev, id, key) <==> x in prev && key(x) != id
    ensures forall x :: x in WithId(prev, id, key) <==> x in prev && key(x) == id
  {
    KeepMembers(prev, (x: T) => key(x) != id);
    KeepMembers(prev, (x: T) => key(x) == id);
  }

  /** Removal takes out exactly the entries with the id and keeps the rest in their order. */
  lemma RemoveAppend<T(!new)>(a: seq<T>, b: seq<T>, id: string, key: T -> string)
    ensures RemoveById(a + b, id, key) == RemoveById(a, id, key) + RemoveById(b, id, key)
    ensures RemoveById([], id, key) == []
    ensures forall x :: RemoveById([x], id, key) == if key(x) == id then [] else [x]
  {
    KeepAppend(a, b, (x: T) => key(x) != id);
    forall x ensures RemoveById([x], id, key) == if key(x) == id then [] else [x] {
      assert [x][..0] == [];
    }
  }

  /** Removing an id that is not in the list changes nothing. */
  lemma RemoveAbsent<T(!new)>(prev: seq<T>, id: string, key: T -> string)
    requires forall i :: 0 <= i < |prev| ==> key(prev[i]) != id
    ensures RemoveById(prev, id, key) == prev
  {
    KeepAll(prev, (x: T) => key(x) != id);
  }

  /** One step of `RemoveById` and `WithId` on a list ending in `last`. */
  lemma Snoc<T(!new)>(init: seq<T>, last: T, id: string, key: T -> string)
    ensures RemoveById(init + [last], id, key) == RemoveById(init, id, key) + if key(last) != id then [last] else []
    ensures WithId(init + [last], id, key) == WithId(init, id, key) + if key(last) == id then [last] else []
  {
    assert (init + [last])[..|init|] == init;
  }

  /** Items are prepended after creation: the new item leads and the old list follows. */
  lemma AddItemPrepends(prev: seq<ClientItem>, created: ClientItem)
    requires forall i :: 0 <= i < |prev| ==> prev[i].id != created.id
    ensures RemoveById(Prepend(created, prev), created.id, ItemKey) == prev
    ensures WithId(Prepend(created, prev), created.id, ItemKey) == [created]
  {
    RemoveAppend([created], prev, created.id, ItemKey);
    RemoveAbsent(prev, created.id, ItemKey);
    WithIdFront(created, prev, created.id, ItemKey);
  }

  /** The entries with an id, of a list led by one carrying it and followed by none that do. */
  lemma {:induction false} WithIdFront<T(!new)>(first: T, rest: seq<T>, id: string, key: T -> string)
    requires key(first) == id
    requires forall i :: 0 <= i < |rest| ==> key(rest[i]) != id
    ensures WithId([first] + rest, id, key) == [first]
  {
    if |rest| == 0 {
      Snoc([], first, id, key);
    } else {
      var init := rest[..|rest| - 1];
      WithIdFront(first, init, id, key);
      assert [first] + rest == ([first] + init) + [rest[|rest| - 1]];
      Snoc([first] + init, rest[|rest| - 1], id, key);
    }
  }

  /** `totalRevenue` after `addBill` grows by the created bill's final price. */
  lemma AddBillRevenue(prev: seq<ClientBill>, created: ClientBill)
    ensures Revenue(Prepend(created, prev)) == created.finalPrice + Revenue(prev)
  {
    RevenueAppend([created], prev);
    assert [created][..0] == [];
  }

  /**
   * `totalRevenue` after `editBill`: every bill with the id now counts with the updated final
   * price, and every other bill as before.
   */
  lemma {:induction false} EditBillRevenue(prev: seq<ClientBill>, id: string, updated: ClientBill)
    ensures Revenue(ReplaceById(prev, id, updated, BillKey)) + Revenue(WithId(prev, id, BillKey))
            == Revenue(prev) + |WithId(prev, id, BillKey)| * updated.finalPrice
  {
    if |prev| > 0 {
      var init := prev[..|prev| - 1];
      var last := prev[|prev| - 1];
      assert prev == init + [last];
      EditBillRevenue(init, id, updated);
      EditBillRevenueStep(init, last, id, updated);
      var n, m := |WithId(init, id, BillKey)|, |WithId(prev, id, BillKey)|;
      var f := updated.finalPrice;
      if last.id == id {
        MulSucc(n, f);
        assert m * f == n * f + f;
      } else {
        assert m * f == n * f;
      }
    }
  }

  lemma MulSucc(n: int, f: int)
    ensures (n + 1) * f == n * f + f
  {
  }

  /** The step of `EditBillRevenue` for one more bill at the end. */
  lemma EditBillRevenueStep(init: seq<ClientBill>, last: ClientBill, id: string, updated: ClientBill)
    ensures var f := updated.finalPrice;
      && Revenue(ReplaceById(init + [last], id, updated, BillKey))
         == Revenue(ReplaceById(init, id, updated, BillKey)) + (if last.id == id then f else last.finalPrice)
      && Revenue(WithId(init + [last], id, BillKey))
         == Revenue(WithId(init, id, BillKey)) + (if last.id == id then last.finalPrice else 0)
      && |WithId(init + [last], id, BillKey)| == |WithId(init, id, BillKey)| + (if last.id == id then 1 else 0)
      && Revenue(init + [last]) == Revenue(init) + last.finalPrice
  {
    var prev := init + [last];
    assert prev[..|prev| - 1] == init;
    Snoc(init, last, id, BillKey);
    var replaced := [if last.id == id then updated else last];
    assert ReplaceById(prev, id, updated, BillKey) == ReplaceById(init, id, updated, BillKey) + replaced;
    RevenueAppend(ReplaceById(init, id, updated, BillKey), replaced);
    RevenueAppend(WithId(init, id, BillKey), if last.id == id then [last] else []);
    assert [last][..0] == [] && replaced[..0] == [];
  }

  /** `totalRevenue` after `removeBill` loses exactly the final prices of the removed bills. */
  lemma {:induction false} RemoveBillRevenue(prev: seq<ClientBill>, id: string)
    ensures Revenue(RemoveById(prev, id, BillKey)) == Revenue(prev) - Revenue(WithId(prev, id, BillKey))
  {
    if |prev| > 0 {
      var init := prev[..|prev| - 1];
      var last := prev[|prev| - 1];
      RemoveBillRevenue(init, id);
      assert prev == init + [last];
      Snoc(init, last, id, BillKey);
      var kept := if BillKey(last) != id then [last] else [];
      var dropped := if BillKey(last) == id then [last] else [];
      RevenueAppend(RemoveById(init, id, BillKey), kept);
      RevenueAppend(WithId(init, id, BillKey), dropped);
      assert Revenue([last]) == last.finalPrice by {
        assert [last][..0] == [];
      }
    }
  }
}
