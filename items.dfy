/**
 * The backend `/items` routes: listing the catalog, creating an item, updating it by merging
 * the supplied fields into the stored row, and deleting it. Image compression is a parameter.
 */
module Items {
  import opened Common
  import opened Store
  import Ordering

  /** The body of POST and PUT; a `None` field was `null` or left out. */
  datatype ItemRequest = ItemRequest(name: Option<string>, price: Option<int>, stock: Option<int>,
                                     imageBase64: Option<string>)

  /** A row as the routes return it. */
  datatype ItemRow = ItemRow(id: ItemId, item: Item)

  /** `compressBase64Image`: gives the image to store, or `None` when it fails. */
  type Compressor = string -> Option<Image>

  /** JavaScript truthiness of `imageBase64`. */
  predicate HasImage(req: ItemRequest) {
    req.imageBase64.Some? && req.imageBase64.value != ""
  }

  /** The required-field check of POST: `!name || price == null || stock == null`. */
  predicate CreateValid(req: ItemRequest) {
    req.name.Some? && req.name.value != "" && req.price.Some? && req.stock.Some?
  }

  /** The image to store: the compressed upload when there is one, else `fallback`. */
  function StoredImage(req: ItemRequest, compress: Compressor, fallback: Option<Image>): Result<Option<Image>, Error> {
    if !HasImage(req) then Ok(fallback)
    else match compress(req.imageBase64.value)
      case None => Err(CompressionFailed)
      case Some(img) => Ok(Some(img))
  }

  /** POST `/items`: the row to insert, or why nothing is inserted. */
  function NewItem(req: ItemRequest, compress: Compressor, now: Time): Result<Item, Error> {
    if !CreateValid(req) then Err(MissingItemFields)
    else match StoredImage(req, compress, None)
      case Err(e) => Err(e)
      case Ok(img) => Ok(Item(req.name.value, req.price.value, req.stock.value, img, now, now))
  }

  /** PUT `/items/:id`: each field is the supplied one, or the stored one when it is `null`. */
  function MergedItem(existing: Item, req: ItemRequest, compress: Compressor, now: Time): Result<Item, Error> {
    match StoredImage(req, compress, existing.image)
    case Err(e) => Err(e)
    case Ok(img) =>
      Ok(Item(req.name.GetOr(existing.name), req.price.GetOr(existing.price), req.stock.GetOr(existing.stock),
              img, existing.createdAt, now))
  }

  /** POST `/items` on the catalog. */
  function CreateItemTx(items: map<ItemId, Item>, req: ItemRequest, id: ItemId, compress: Compressor, now: Time)
    : Result<map<ItemId, Item>, Error>
  {
    match NewItem(req, compress, now)
    case Err(e) => Err(e)
    case Ok(item) => Ok(items[id := item])
  }

  /** PUT `/items/:id` on the catalog. */
  function UpdateItemTx(items: map<ItemId, Item>, id: ItemId, req: ItemRequest, compress: Compressor, now: Time)
    : Result<map<ItemId, Item>, Error>
  {
    if id !in items then Err(ItemNotFound)
    else match MergedItem(items[id], req, compress, now)
      case Err(e) => Err(e)
      case Ok(item) => Ok(items[id := item])
  }

  // ---------------------------------------------------------------------------------------
  // What the routes promise

  /**
   * POST refuses exactly a missing or empty name and a missing price or stock (a zero price or
   * stock is accepted); otherwise it stores the given fields and, when one was sent, the
   * compressed image. A failed compression stores nothing.
   */
  lemma CreateItemOutcome(items: map<ItemId, Item>, req: ItemRequest, id: ItemId, compress: Compressor, now: Time)
    ensures !CreateValid(req) <==> CreateItemTx(items, req, id, compress, now) == Err(MissingItemFields)
    ensures CreateValid(req) && !HasImage(req) ==> CreateItemTx(items, req, id, compress, now).Ok?
    ensures CreateValid(req) && HasImage(req) ==>
      (CreateItemTx(items, req, id, compress, now) == Err(CompressionFailed) <==> compress(req.imageBase64.value).None?)
    ensures CreateItemTx(items, req, id, compress, now).Ok? ==>
      var m := CreateItemTx(items, req, id, compress, now).value;
      && m.Keys == items.Keys + {id}
      && (forall k :: k in items && k != id ==> m[k] == items[k])
      && m[id].name == req.name.value && m[id].price == req.price.value && m[id].stock == req.stock.value
      && (m[id].image.Some? <==> HasImage(req))
      && (HasImage(req) ==> m[id].image == compress(req.imageBase64.value))
      && m[id].createdAt == now && m[id].updatedAt == now
  {
  }

  /** Zero is a price and a stock like any other. */
  lemma CreateItemAcceptsZero(items: map<ItemId, Item>, id: ItemId, compress: Compressor, now: Time)
    ensures CreateItemTx(items, ItemRequest(Some("Water"), Some(0), Some(0), None), id, compress, now)
            == Ok(items[id := Item("Water", 0, 0, None, now, now)])
  {
  }

  /**
   * PUT fails with not-found on an unknown id; otherwise each field is the supplied value or the
   * stored one, the image is kept unless a new one is sent, and no other item changes.
   */
  lemma UpdateItemOutcome(items: map<ItemId, Item>, id: ItemId, req: ItemRequest, compress: Compressor, now: Time)
    ensures id !in items ==> UpdateItemTx(items, id, req, compress, now) == Err(ItemNotFound)
    ensures id in items && !HasImage(req) ==> UpdateItemTx(items, id, req, compress, now).Ok?
    ensures id in items && HasImage(req) ==>
      (UpdateItemTx(items, id, req, compress, now) == Err(CompressionFailed) <==> compress(req.imageBase64.value).None?)
    ensures UpdateItemTx(items, id, req, compress, now).Ok? ==>
      var m := UpdateItemTx(items, id, req, compress, now).value; var prior := items[id];
      && id in items && m.Keys == items.Keys
      && (forall k :: k in items && k != id ==> m[k] == items[k])
      && m[id].name == (if req.name.Some? then req.name.value else prior.name)
      && m[id].price == (if req.price.Some? then req.price.value else prior.price)
      && m[id].stock == (if req.stock.Some? then req.stock.value else prior.stock)
      && (!HasImage(req) ==> m[id].image == prior.image)
      && (HasImage(req) ==> m[id].image == compress(req.imageBase64.value))
      && m[id].createdAt == prior.createdAt && m[id].updatedAt == now
  {
  }

  /** Sending the same PUT twice leaves the item as one PUT does, apart from the update time. */
  lemma UpdateItemIdempotent(items: map<ItemId, Item>, id: ItemId, req: ItemRequest, compress: Compressor,
                             now: Time, later: Time)
    requires UpdateItemTx(items, id, req, compress, now).Ok?
    ensures var once := UpdateItemTx(items, id, req, compress, now).value;
      UpdateItemTx(once, id, req, compress, later) == Ok(once[id := once[id].(updatedAt := later)])
  {
    var once := UpdateItemTx(items, id, req, compress, now).value;
    var twice := MergedItem(once[id], req, compress, later);
    assert twice == Ok(once[id].(updatedAt := later));
  }

  /** A PUT with no fields only touches the update time. */
  lemma UpdateItemEmpty(items: map<ItemId, Item>, id: ItemId, compress: Compressor, now: Time)
    requires id in items
    ensures UpdateItemTx(items, id, ItemRequest(None, None, None, None), compress, now)
            == Ok(items[id := items[id].(updatedAt := now)])
  {
  }

  /** `??` keeps only null fields: a PUT can store the empty name that POST refuses. */
  lemma UpdateItemStoresEmptyName(items: map<ItemId, Item>, id: ItemId, compress: Compressor, now: Time)
    requires id in items
    ensures !CreateValid(ItemRequest(Some(""), Some(100), Some(1), None))
    ensures var r := UpdateItemTx(items, id, ItemRequest(Some(""), None, None, None), compress, now);
      r.Ok? && r.value[id].name == ""
  {
  }

  // ---------------------------------------------------------------------------------------
  // The route handlers

  /** GET `/items`: every item once, newest first. */
  method ListItems(db: Database) returns (r: seq<ItemRow>)
    ensures forall i :: 0 <= i < |r| ==> r[i].id in db.items && db.items[r[i].id] == r[i].item
    ensures forall id :: id in db.items ==> exists i :: 0 <= i < |r| && r[i].id == id
    ensures forall i, j :: 0 <= i < j < |r| ==> r[i].id != r[j].id && r[i].item.createdAt >= r[j].item.createdAt
  {
    var items := db.items;
    var created := map id | id in items :: items[id].createdAt;
    var order := Ordering.NewestFirst(items.Keys, created);
    r := [];
    for i := 0 to |order|
      invariant |r| == i
      invariant forall k :: 0 <= k < i ==> r[k] == ItemRow(order[k], items[order[k]])
    {
      r := r + [ItemRow(order[i], items[order[i]])];
    }
    forall id | id in items
      ensures exists i :: 0 <= i < |r| && r[i].id == id
    {
      var i :| 0 <= i < |order| && order[i] == id;
      assert r[i].id == id;
    }
  }

  /** POST `/items`. */
  method CreateItem(db: Database, req: ItemRequest, id: ItemId, compress: Compressor, now: Time)
    returns (r: Result<ItemRow, Error>)
    requires id !in db.items  // uuid() yields an unused id ...
    requires forall i :: 0 <= i < |db.lines| ==> db.lines[i].itemId != Some(id)  // ... that no line names
    modifies db
    ensures db.bills == old(db.bills) && db.lines == old(db.lines)
    ensures match CreateItemTx(old(db.items), req, id, compress, now)
      case Ok(m) => db.items == m && r == Ok(ItemRow(id, m[id]))
      case Err(e) => db.items == old(db.items) && r == Err(e)
  {
    if !CreateValid(req) {
      return Err(MissingItemFields);
    }
    var image := StoredImage(req, compress, None);
    if image.Err? {
      return Err(image.error);
    }
    db.items := db.items[id := Item(req.name.value, req.price.value, req.stock.value, image.value, now, now)];
    return Ok(ItemRow(id, db.items[id]));
  }

  /** PUT `/items/:id`. */
  method UpdateItem(db: Database, id: ItemId, req: ItemRequest, compress: Compressor, now: Time)
    returns (r: Result<ItemRow, Error>)
    modifies db
    ensures db.bills == old(db.bills) && db.lines == old(db.lines)
    ensures match UpdateItemTx(old(db.items), id, req, compress, now)
      case Ok(m) => db.items == m && r == Ok(ItemRow(id, m[id]))
      case Err(e) => db.items == old(db.items) && r == Err(e)
  {
    if id !in db.items {
      return Err(ItemNotFound);
    }
    var existing := db.items[id];
    var image := StoredImage(req, compress, existing.image);
    if image.Err? {
      return Err(image.error);
    }
    db.items := db.items[id := Item(req.name.GetOr(existing.name), req.price.GetOr(existing.price),
                                    req.stock.GetOr(existing.stock), image.value, existing.createdAt, now)];
    return Ok(ItemRow(id, db.items[id]));
  }

  /** DELETE `/items/:id`: removes the row if there is one; never an error. */
  method DeleteItem(db: Database, id: ItemId)
    modifies db
    ensures db.items == old(db.items) - {id}
    ensures id !in old(db.items) ==> db.items == old(db.items)
    ensures db.bills == old(db.bills) && db.lines == old(db.lines)
  {
    db.items := db.items - {id};
  }
}
