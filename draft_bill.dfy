/**
 * The draft bill of the bill editor: a list of (item, quantity) entries that the user grows,
 * adjusts and shrinks, its subtotal and final total, the request it is saved as, and the
 * search over the catalog that offers items to add.
 */
module DraftBill {
  import opened Common
  import opened Store
  import opened Seqs
  import opened Client
  import Hooks
  import Bills

  /** One line of the draft; `item` is the catalog record as it was when first added. */
  datatype DraftEntry = DraftEntry(item: ClientItem, quantity: int)

  function EntryKey(e: DraftEntry): ItemId { e.item.id }

  predicate Contains(draft: seq<DraftEntry>, id: ItemId) {
    exists i :: 0 <= i < |draft| && draft[i].item.id == id
  }

  predicate UniqueIds(draft: seq<DraftEntry>) {
    forall i, j :: 0 <= i < j < |draft| ==> draft[i].item.id != draft[j].item.id
  }

  /** What the editor's operations keep: one entry per item, each with a quantity of at least 1. */
  predicate WellFormed(draft: seq<DraftEntry>) {
    UniqueIds(draft) && forall i :: 0 <= i < |draft| ==> draft[i].quantity >= 1
  }

  /** Every entry for `id` gets one more unit. */
  function Bump(draft: seq<DraftEntry>, id: ItemId): (r: seq<DraftEntry>)
    ensures |r| == |draft|
    ensures forall i :: 0 <= i < |draft| ==>
      r[i] == if draft[i].item.id == id then draft[i].(quantity := draft[i].quantity + 1) else draft[i]
  {
    if |draft| == 0 then []
    else
      var last := draft[|draft| - 1];
      Bump(draft[..|draft| - 1], id) + [if last.item.id == id then last.(quantity := last.quantity + 1) else last]
  }

  /** Every entry for `id` gets quantity `q`. */
  function SetQuantity(draft: seq<DraftEntry>, id: ItemId, q: int): (r: seq<DraftEntry>)
    ensures |r| == |draft|
    ensures forall i :: 0 <= i < |draft| ==>
      r[i] == if draft[i].item.id == id then draft[i].(quantity := q) else draft[i]
  {
    if |draft| == 0 then []
    else
      var last := draft[|draft| - 1];
      SetQuantity(draft[..|draft| - 1], id, q) + [if last.item.id == id then last.(quantity := q) else last]
  }

  /** `addItem`: one more unit of an item already in the draft, else a new entry at the end. */
  function AddItem(draft: seq<DraftEntry>, item: ClientItem): seq<DraftEntry> {
    if Contains(draft, item.id) then Bump(draft, item.id) else draft + [DraftEntry(item, 1)]
  }

  /** `updateQuantity`: set the quantity, at least 1, then drop entries whose quantity is not positive. */
  function UpdateQuantity(draft: seq<DraftEntry>, id: ItemId, q: int): seq<DraftEntry> {
    Keep(SetQuantity(draft, id, Max(1, q)), (e: DraftEntry) => e.quantity > 0)
  }

  /** `removeItem`. */
  function RemoveItem(draft: seq<DraftEntry>, id: ItemId): seq<DraftEntry> {
    Hooks.RemoveById(draft, id, EntryKey)
  }

  /** `subtotal`: the sum of quantity times the entry's own price. */
  function Subtotal(draft: seq<DraftEntry>): int {
    if |draft| == 0 then 0
    else Subtotal(draft[..|draft| - 1]) + draft[|draft| - 1].quantity * draft[|draft| - 1].item.price
  }

  /** `finalTotal`: the typed amount when the field is not empty, else the subtotal. */
  function FinalTotal(input: string, parse: string -> int, subtotal: int): int {
    if input != "" then parse(input) else subtotal
  }

  /** The entries of the save request, one per draft entry, priced at the draft's prices. */
  function PayloadEntries(draft: seq<DraftEntry>): (r: seq<Bills.Entry>)
    ensures |r| == |draft|
  {
    seq(|draft|, i requires 0 <= i < |draft| =>
      Bills.Entry(Some(draft[i].item.id), Some(draft[i].quantity), Some(draft[i].item.price)))
  }

  /** `handleSave`: nothing to send for an empty draft, else the request for the bill's day. */
  function SavePayload(draft: seq<DraftEntry>, billDate: Day, input: string, parse: string -> int)
    : Option<Bills.BillRequest>
  {
    if |draft| == 0 then None
    else Some(Bills.BillRequest(Some(billDate), Some(PayloadEntries(draft)),
                                Some(FinalTotal(input, parse, Subtotal(draft)))))
  }

  // ---------------------------------------------------------------------------------------
  // Adding

  /** Adding an item already present raises its quantity by one; nothing else moves. */
  lemma AddExisting(draft: seq<DraftEntry>, item: ClientItem, k: nat)
    requires k < |draft| && draft[k].item.id == item.id
    ensures var r := AddItem(draft, item);
      && |r| == |draft|
      && r[k] == DraftEntry(draft[k].item, draft[k].quantity + 1)
      && forall i :: 0 <= i < |draft| && draft[i].item.id != item.id ==> r[i] == draft[i]
  {
  }

  /**
   * Adding an item not yet present keeps every earlier entry where it was and gives the item
   * exactly one entry, the last, with quantity 1.
   */
  lemma AddNew(draft: seq<DraftEntry>, item: ClientItem)
    requires !Contains(draft, item.id)
    ensures var r := AddItem(draft, item);
      && |r| == |draft| + 1 && r[..|draft|] == draft
      && Contains(r, item.id)
      && forall i :: 0 <= i < |r| && r[i].item.id == item.id ==> i == |draft| && r[i] == DraftEntry(item, 1)
  {
    assert AddItem(draft, item)[|draft|].item.id == item.id;
  }

  /** Adding keeps one entry per item and every quantity at least 1. */
  lemma AddKeepsWellFormed(draft: seq<DraftEntry>, item: ClientItem)
    requires WellFormed(draft)
    ensures WellFormed(AddItem(draft, item))
    ensures Contains(AddItem(draft, item), item.id)
  {
    var r := AddItem(draft, item);
    if !Contains(draft, item.id) {
      assert r[|draft|].item.id == item.id;
    } else {
      var k :| 0 <= k < |draft| && draft[k].item.id == item.id;
      assert r[k].item.id == item.id;
    }
  }

  /** The sum of the prices of the entries for `id`. */
  function PriceOf(draft: seq<DraftEntry>, id: ItemId): int {
    if |draft| == 0 then 0
    else PriceOf(draft[..|draft| - 1], id) + if draft[|draft| - 1].item.id == id then draft[|draft| - 1].item.price else 0
  }

  lemma {:induction false} SubtotalBump(draft: seq<DraftEntry>, id: ItemId)
    ensures Subtotal(Bump(draft, id)) == Subtotal(draft) + PriceOf(draft, id)
  {
    if |draft| > 0 {
      var init := draft[..|draft| - 1];
      SubtotalBump(init, id);
      assert Bump(draft, id)[..|draft| - 1] == Bump(init, id);
      var last := draft[|draft| - 1];
      if last.item.id == id {
        assert (last.quantity + 1) * last.item.price == last.quantity * last.item.price + last.item.price;
      }
    }
  }

  lemma {:induction false} PriceOfUnique(draft: seq<DraftEntry>, id: ItemId, k: nat)
    requires UniqueIds(draft) && k < |draft| && draft[k].item.id == id
    ensures PriceOf(draft, id) == draft[k].item.price
  {
    var init := draft[..|draft| - 1];
    if k == |draft| - 1 {
      PriceOfAbsent(init, id);
    } else {
      PriceOfUnique(init, id, k);
    }
  }

  lemma {:induction false} PriceOfAbsent(draft: seq<DraftEntry>, id: ItemId)
    requires !Contains(draft, id)
    ensures PriceOf(draft, id) == 0
  {
    if |draft| > 0 {
      var init := draft[..|draft| - 1];
      assert forall i :: 0 <= i < |init| ==> init[i] == draft[i];
      PriceOfAbsent(init, id);
    }
  }

  /**
   * Adding grows the subtotal by one unit price: the passed item's price for a new entry, and
   * for an item already present the price stored when it was first added.
   */
  lemma SubtotalAfterAdd(draft: seq<DraftEntry>, item: ClientItem)
    requires UniqueIds(draft)
    ensures !Contains(draft, item.id) ==> Subtotal(AddItem(draft, item)) == Subtotal(draft) + item.price
    ensures forall k :: 0 <= k < |draft| && draft[k].item.id == item.id ==>
      Subtotal(AddItem(draft, item)) == Subtotal(draft) + draft[k].item.price
  {
    if !Contains(draft, item.id) {
      var r := draft + [DraftEntry(item, 1)];
      assert r[..|draft|] == draft;
    } else {
      SubtotalBump(draft, item.id);
      forall k | 0 <= k < |draft| && draft[k].item.id == item.id
        ensures Subtotal(AddItem(draft, item)) == Subtotal(draft) + draft[k].item.price
      {
        PriceOfUnique(draft, item.id, k);
      }
    }
  }

  // ---------------------------------------------------------------------------------------
  // Changing a quantity

  /**
   * The entry for `id` gets quantity max(1, q), every other entry is unchanged, and in a
   * well-formed draft the following filter drops nothing.
   */
  lemma UpdateQuantityEffect(draft: seq<DraftEntry>, id: ItemId, q: int)
    requires WellFormed(draft)
    ensures var r := UpdateQuantity(draft, id, q);
      && |r| == |draft| && WellFormed(r)
      && forall i :: 0 <= i < |draft| ==>
           r[i] == if draft[i].item.id == id then draft[i].(quantity := Max(1, q)) else draft[i]
  {
    var edited := SetQuantity(draft, id, Max(1, q));
    KeepAll(edited, (e: DraftEntry) => e.quantity > 0);
  }

  /** Whatever the draft, the edited entry is never the one the filter drops. */
  lemma UpdateQuantityKeepsEdited(draft: seq<DraftEntry>, id: ItemId, q: int)
    ensures forall i :: 0 <= i < |draft| && draft[i].item.id == id ==>
      draft[i].(quantity := Max(1, q)) in UpdateQuantity(draft, id, q)
  {
    var edited := SetQuantity(draft, id, Max(1, q));
    KeepMembers(edited, (e: DraftEntry) => e.quantity > 0);
    forall i | 0 <= i < |draft| && draft[i].item.id == id
      ensures draft[i].(quantity := Max(1, q)) in UpdateQuantity(draft, id, q)
    {
      assert edited[i] == draft[i].(quantity := Max(1, q));
    }
  }

  // ---------------------------------------------------------------------------------------
  // Removing

  /** Removal drops exactly the entries for `id`, keeps the rest in order, and keeps the draft well formed. */
  lemma RemoveItemEffect(draft: seq<DraftEntry>, id: ItemId)
    ensures forall e :: e in RemoveItem(draft, id) <==> e in draft && e.item.id != id
    ensures !Contains(RemoveItem(draft, id), id)
    ensures forall a, b :: draft == a + b ==> RemoveItem(draft, id) == RemoveItem(a, id) + RemoveItem(b, id)
    ensures WellFormed(draft) ==> WellFormed(RemoveItem(draft, id))
  {
    Hooks.RemoveMembers(draft, id, EntryKey);
    forall a, b | draft == a + b
      ensures RemoveItem(draft, id) == RemoveItem(a, id) + RemoveItem(b, id)
    {
      Hooks.RemoveAppend(a, b, id, EntryKey);
    }
    if WellFormed(draft) {
      RemoveKeepsWellFormed(draft, id);
    }
  }

  lemma {:induction false} RemoveKeepsWellFormed(draft: seq<DraftEntry>, id: ItemId)
    requires WellFormed(draft)
    ensures WellFormed(RemoveItem(draft, id))
  {
    if |draft| > 0 {
      var init, last := draft[..|draft| - 1], draft[|draft| - 1];
      assert draft == init + [last];
      RemoveKeepsWellFormed(init, id);
      Hooks.Snoc(init, last, id, EntryKey);
      Hooks.RemoveMembers(init, id, EntryKey);
      var r0 := RemoveItem(init, id);
      if last.item.id != id {
        forall i | 0 <= i < |r0|
          ensures r0[i].item.id != last.item.id
        {
          assert r0[i] in r0;
          var j :| 0 <= j < |init| && init[j] == r0[i];
          assert draft[j] == init[j];
        }
      }
    }
  }

  // ---------------------------------------------------------------------------------------
  // Saving

  /** Saving an empty draft sends nothing; otherwise the request lists the entries in order. */
  lemma SavePayloadShape(draft: seq<DraftEntry>, billDate: Day, input: string, parse: string -> int)
    ensures SavePayload(draft, billDate, input, parse).None? <==> draft == []
    ensures draft != [] ==>
      var req := SavePayload(draft, billDate, input, parse).value;
      && req.billDate == Some(billDate)
      && req.items == Some(PayloadEntries(draft))
      && req.finalPrice == Some(if input != "" then parse(input) else Subtotal(draft))
      && Bills.RequestValid(req)
      && forall i :: 0 <= i < |draft| ==>
           req.items.value[i] == Bills.Entry(Some(draft[i].item.id), Some(draft[i].quantity), Some(draft[i].item.price))
  {
  }

  /**
   * The server prices a saved draft at the draft's own prices: when every item is still in
   * stock for its quantity, pricing succeeds and the bill total is the draft's subtotal.
   */
  lemma SavedDraftPricesToSubtotal(draft: seq<DraftEntry>, catalog: map<ItemId, Item>)
    requires WellFormed(draft)
    requires forall i :: 0 <= i < |draft| ==>
      var id := draft[i].item.id; id != "" && id in catalog && draft[i].quantity <= catalog[id].stock
    ensures Bills.PriceAll(catalog, PayloadEntries(draft)).Ok?
    ensures Bills.TotalOf(Bills.PriceAll(catalog, PayloadEntries(draft)).value) == Subtotal(draft)
  {
    var entries := PayloadEntries(draft);
    assert forall i :: 0 <= i < |entries| ==> Bills.PriceEntry(catalog, entries[i]).Ok?;
    var priced := Bills.PriceAll(catalog, entries).value;
    PricedTotal(draft, priced);
  }

  lemma {:induction false} PricedTotal(draft: seq<DraftEntry>, priced: seq<Bills.PricedItem>)
    requires |priced| == |draft|
    requires forall i :: 0 <= i < |draft| ==> priced[i].total == draft[i].item.price * draft[i].quantity
    ensures Bills.TotalOf(priced) == Subtotal(draft)
  {
    if |draft| > 0 {
      PricedTotal(draft[..|draft| - 1], priced[..|priced| - 1]);
    }
  }

  // ---------------------------------------------------------------------------------------
  // Searching the catalog

  /** `toLowerCase` on the ASCII letters. */
  function Lower(s: string): (r: string)
    ensures |r| == |s|
  {
    seq(|s|, i requires 0 <= i < |s| => if 'A' <= s[i] <= 'Z' then (s[i] as int + 32) as char else s[i])
  }

  /** `t` occurs in `s` starting at `k`. */
  predicate OccursAt(s: string, t: string, k: int) {
    0 <= k && k + |t| <= |s| && s[k..k + |t|] == t
  }

  /** `s.includes(t)`. */
  predicate Includes(s: string, t: string) {
    exists k :: 0 <= k <= |s| - |t| && OccursAt(s, t, k)
  }

  /** `filteredItems`: the items whose lower-cased name contains the lower-cased search term. */
  function Filtered(items: seq<ClientItem>, search: string): seq<ClientItem> {
    Keep(items, (it: ClientItem) => Includes(Lower(it.name), Lower(search)))
  }

  /** `visibleItems`: the first six matches. */
  function Visible(items: seq<ClientItem>, search: string): seq<ClientItem> {
    var f := Filtered(items, search);
    if |f| <= 6 then f else f[..6]
  }

  /** The matches are the items whose name contains the term, and they keep the catalog's order. */
  lemma FilteredEffect(items: seq<ClientItem>, search: string)
    ensures forall it :: it in Filtered(items, search) <==> it in items && Includes(Lower(it.name), Lower(search))
    ensures forall a, b :: items == a + b ==> Filtered(items, search) == Filtered(a, search) + Filtered(b, search)
  {
    KeepMembers(items, (it: ClientItem) => Includes(Lower(it.name), Lower(search)));
    forall a, b | items == a + b
      ensures Filtered(items, search) == Filtered(a, search) + Filtered(b, search)
    {
      KeepAppend(a, b, (it: ClientItem) => Includes(Lower(it.name), Lower(search)));
    }
  }

  /** An empty search matches every item. */
  lemma FilteredEmptySearch(items: seq<ClientItem>)
    ensures Filtered(items, "") == items
  {
    forall i | 0 <= i < |items|
      ensures Includes(Lower(items[i].name), Lower(""))
    {
      assert OccursAt(Lower(items[i].name), Lower(""), 0);
    }
    KeepAll(items, (it: ClientItem) => Includes(Lower(it.name), Lower("")));
  }

  /** Lower-casing twice is lower-casing once. */
  lemma LowerIdem(s: string)
    ensures Lower(Lower(s)) == Lower(s)
  {
  }

  /**
   * The search ignores the case of ASCII letters: two terms that lower-case alike find the same
   * items, and every term finds what its lower-cased form finds.
   */
  lemma SearchIgnoresCase(items: seq<ClientItem>, search: string, other: string)
    ensures Lower(search) == Lower(other) ==> Filtered(items, search) == Filtered(items, other)
    ensures Filtered(items, search) == Filtered(items, Lower(search))
  {
    LowerIdem(search);
  }

  /**
   * At most six items are shown, each one a match; fewer than six only when every match is
   * shown; and a shown item comes before every match that is not shown.
   */
  lemma VisibleEffect(items: seq<ClientItem>, search: string)
    ensures var v := Visible(items, search);
      && |v| <= 6
      && (forall it :: it in v ==> it in items && Includes(Lower(it.name), Lower(search)))
      && (|v| < 6 ==> v == Filtered(items, search))
      && Filtered(items, search)[..|v|] == v
  {
    FilteredEffect(items, search);
    var f := Filtered(items, search);
    var v := Visible(items, search);
    assert forall it :: it in v ==> it in f;
  }
}
