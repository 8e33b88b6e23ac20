/**
  The family-scoped facade for item mutations (`ItemOperationsService`). It validates the family
  binding, builds new item values with clamped stock, writes them through the store and turns
  every store failure into one of a few fixed messages.
*/
module ItemOperations {
  import opened Common
  import opened Stock
  import opened Storage
  import opened ItemErrors

  /** What `processBarcodeSubmit` reports: the item it wrote back, or that a new item is needed. */
  datatype BarcodeOutcome = Updated(item: Item) | NewItemNeeded(barcode: string)

  /** The retry loop gives up at once on a validation error. */
  predicate Retriable(e: Thrown)
  {
    !(e.Error? && Contains(e.message, "Invalid familyID"))
  }

  /** The error one `fetchItems` call throws, or None when it returns items. */
  function FetchFailure(familyID: Option<string>, reply: FetchReply): (r: Option<Thrown>)
    ensures !FetchableID(familyID) ==> r == Some(Error(InvalidFetchMessage(familyID))) && !Retriable(r.value)
    ensures FetchableID(familyID) ==> (r.Some? <==> reply.ReadRejected?)
    ensures FetchableID(familyID) && reply.ReadRejected? ==> r == Some(FetchError(reply.thrown))
  {
    if !FetchableID(familyID) then
      ValidationErrorPassesThrough(familyID);
      Some(FetchError(Error(InvalidFetchMessage(familyID))))
    else if reply.ReadRejected? then Some(FetchError(reply.thrown))
    else None
  }

  /** What a successful `fetchItems` returns: nothing for a non-array reply, else the family's items. */
  ghost predicate FetchedFrom(items: seq<Item>, reply: FetchReply, doc: Document)
  {
    && (reply.NotAList? ==> items == [])
    && (reply.Listed? ==> IsListing(items, doc))
  }

  /** The number of attempts `fetchItemsWithRetry` makes when its caller gives none. */
  const DefaultMaxRetries := 3

  function Pow2(k: nat): (r: nat)
    ensures r >= 1
  {
    if k == 0 then 1 else 2 * Pow2(k - 1)
  }

  /** The wait after failed attempt `attempt`: 1s, 2s, 4s, ... */
  function Backoff(attempt: nat): int
    requires attempt >= 1
  {
    Pow2(attempt - 1) * 1000
  }

  /** The waits after attempts 1..n. */
  function Backoffs(n: nat): seq<int>
  {
    seq(n, i requires 0 <= i < n => Backoff(i + 1))
  }

  /** The waits start at one second and double each time. */
  lemma BackoffsDouble(n: nat)
    ensures |Backoffs(n)| == n
    ensures n > 0 ==> Backoffs(n)[0] == 1000
    ensures forall i :: 0 <= i < n - 1 ==> Backoffs(n)[i + 1] == 2 * Backoffs(n)[i]
  {
  }

  // ---------------------------------------------------------------------------
  // Item values
  // ---------------------------------------------------------------------------

  /** `existingItems.find(item => item.barcode === barcode)`, as the index of the first match. */
  function FirstMatch(items: seq<Item>, barcode: string): (r: Option<nat>)
    ensures r.Some? ==> r.value < |items| && items[r.value].barcode == barcode
    ensures r.Some? ==> forall j :: 0 <= j < r.value ==> items[j].barcode != barcode
    ensures r.None? ==> forall j :: 0 <= j < |items| ==> items[j].barcode != barcode
  {
    if items == [] then None
    else if items[0].barcode == barcode then Some(0)
    else match FirstMatch(items[1..], barcode)
      case None => None
      case Some(i) => Some(i + 1)
  }

  /** `{ ...item, amountInStock: Math.min(20, item.amountInStock + 1) }` */
  function Bumped(item: Item): (r: Item)
    ensures r.(amountInStock := item.amountInStock) == item
    ensures r.amountInStock <= MaxStock
    ensures InRange(item.amountInStock) ==> InRange(r.amountInStock)
    ensures item.amountInStock < MaxStock ==> r.amountInStock == item.amountInStock + 1
    ensures item.amountInStock >= MaxStock ==> r.amountInStock == MaxStock
  {
    item.(amountInStock := Incremented(item.amountInStock))
  }

  /** `{ ...item, amountInStock: Math.max(0, item.amountInStock - 1) }` */
  function Lowered(item: Item): (r: Item)
    ensures r.(amountInStock := item.amountInStock) == item
    ensures r.amountInStock >= 0
    ensures InRange(item.amountInStock) ==> InRange(r.amountInStock)
    ensures item.amountInStock > 0 ==> r.amountInStock == item.amountInStock - 1
    ensures item.amountInStock <= 0 ==> r.amountInStock == 0
  {
    item.(amountInStock := Decremented(item.amountInStock))
  }

  /** Below the maximum a decrease undoes an increase, and above zero the other way round. */
  lemma StockChangesUndoEachOther(item: Item)
    ensures 0 <= item.amountInStock < MaxStock ==> Lowered(Bumped(item)) == item
    ensures 0 < item.amountInStock <= MaxStock ==> Bumped(Lowered(item)) == item
  {
    AdjustmentsUndoEachOther(item.amountInStock);
  }

  /** `{ ...existingItem, barcode, name, icon, category, brand }` */
  function Edited(existing: Item, barcode: string, name: string, icon: string, category: string, brand: string): (r: Item)
    ensures r.id == existing.id && r.amountInStock == existing.amountInStock
    ensures r.barcode == barcode && r.name == name && r.icon == icon && r.category == category && r.brand == brand
  {
    existing.(barcode := barcode, name := name, icon := icon, category := category, brand := brand)
  }

  /** Editing back to the old descriptive fields restores the item; the last edit wins. */
  lemma EditRoundTrip(x: Item, barcode: string, name: string, icon: string, category: string, brand: string)
    ensures Edited(Edited(x, barcode, name, icon, category, brand), x.barcode, x.name, x.icon, x.category, x.brand) == x
    ensures Edited(x, x.barcode, x.name, x.icon, x.category, x.brand) == x
  {
  }

  /** The scan decision of `processBarcodeSubmit`: the first item with that exact barcode, one higher, or a request for a new item. */
  function BarcodeDecision(items: seq<Item>, barcode: string): (r: BarcodeOutcome)
    ensures r.NewItemNeeded? <==> forall j :: 0 <= j < |items| ==> items[j].barcode != barcode
    ensures r.NewItemNeeded? ==> r.barcode == barcode
    ensures r.Updated? ==> exists j :: 0 <= j < |items| && items[j].barcode == barcode && r.item == Bumped(items[j])
                                     && forall k :: 0 <= k < j ==> items[k].barcode != barcode
  {
    match FirstMatch(items, barcode)
    case None => NewItemNeeded(barcode)
    case Some(j) => Updated(Bumped(items[j]))
  }

  /** A write reaches the store when the family key is usable and the call is delivered. */
  predicate WriteLands(familyID: Option<string>, transport: Transport)
  {
    DocumentKey(familyID).Some? && transport.Delivered?
  }

  class ItemOperationsService {
    const store: ItemStore
    var familyID: Option<string>

    constructor (store: ItemStore, familyID: Option<string>)
      ensures this.store == store && this.familyID == familyID
    {
      this.store := store;
      this.familyID := familyID;
    }

    /** `fetchItems`: validate the binding, read the family's items, map failures to fixed messages. */
    method FetchItems(reply: FetchReply) returns (r: Result<seq<Item>, Thrown>)
      ensures FetchFailure(familyID, reply).Some? ==> r == Failure(FetchFailure(familyID, reply).value)
      ensures FetchFailure(familyID, reply).None? ==>
        r.Success? && FetchedFrom(r.value, reply, DocumentOf(store.documents, familyID.value))
    {
      if !FetchableID(familyID) {
        return Failure(FetchError(Error(InvalidFetchMessage(familyID))));
      }
      var got := store.FetchAll(familyID, reply);
      match got
      case Failure(t) =>
        r := Failure(FetchError(t));
      case Success(Malformed) =>
        r := Success([]);
      case Success(Items(items)) =>
        r := Success(items);
    }

    /**
      `fetchItemsWithRetry`: at most `maxRetries` calls of `fetchItems`, attempt k answered by
      `reply(k)`; gives up at once on a validation error and records the waits between attempts.
    */
    method FetchItemsWithRetry(maxRetries: int, reply: nat -> FetchReply)
      returns (r: Result<seq<Item>, Thrown>, attempts: nat, delays: seq<int>)
      ensures maxRetries < 1 ==> attempts == 0 && r == Failure(NotAnError) && delays == []
      ensures maxRetries >= 1 ==> 1 <= attempts <= maxRetries && delays == Backoffs(attempts - 1)
      ensures forall k :: 1 <= k < attempts ==>
        FetchFailure(familyID, reply(k)).Some? && Retriable(FetchFailure(familyID, reply(k)).value)
      ensures attempts >= 1 && r.Success? ==>
        FetchFailure(familyID, reply(attempts)).None?
        && FetchedFrom(r.value, reply(attempts), DocumentOf(store.documents, familyID.value))
      ensures attempts >= 1 && r.Failure? ==>
        FetchFailure(familyID, reply(attempts)) == Some(r.error)
        && (attempts == maxRetries || !Retriable(r.error))
      ensures !FetchableID(familyID) ==> attempts <= 1
    {
      var lastError: Option<Thrown> := None;
      var attempt := 1;
      attempts, delays := 0, [];
      while attempt <= maxRetries
        invariant 1 <= attempt && attempts == attempt - 1
        invariant maxRetries < 1 ==> attempt == 1
        invariant maxRetries >= 1 ==> attempt <= maxRetries + 1
        invariant forall k :: 1 <= k < attempt ==>
          FetchFailure(familyID, reply(k)).Some? && Retriable(FetchFailure(familyID, reply(k)).value)
        invariant attempt == 1 ==> lastError.None? && delays == []
        invariant attempt > 1 ==> lastError == FetchFailure(familyID, reply(attempt - 1))
        invariant attempt <= maxRetries ==> delays == Backoffs(attempt - 1)
        invariant attempt > maxRetries && attempt > 1 ==> delays == Backoffs(attempt - 2)
        decreases maxRetries - attempt
      {
        var result := FetchItems(reply(attempt));
        attempts := attempt;
        if result.Success? {
          return result, attempts, delays;
        }
        lastError := Some(result.error);
        if !Retriable(result.error) {
          return Failure(result.error), attempts, delays;
        }
        if attempt < maxRetries {
          delays := delays + [Backoff(attempt)];
        }
        attempt := attempt + 1;
      }
      r := Failure(if lastError.Some? then lastError.value else NotAnError);
    }

    /** `processBarcodeSubmit`: bump and write back the first item with the barcode, or ask for a new item. */
    method ProcessBarcodeSubmit(barcode: string, existingItems: seq<Item>, transport: Transport)
      returns (r: Result<BarcodeOutcome, Thrown>)
      modifies store
      ensures BarcodeDecision(existingItems, barcode).NewItemNeeded? ==>
        r == Success(NewItemNeeded(barcode)) && store.documents == old(store.documents)
      ensures BarcodeDecision(existingItems, barcode).Updated? && WriteLands(familyID, transport) ==>
        r == Success(BarcodeDecision(existingItems, barcode))
        && store.documents == Upserted(old(store.documents), familyID.value, BarcodeDecision(existingItems, barcode).item)
      ensures BarcodeDecision(existingItems, barcode).Updated? && !WriteLands(familyID, transport) ==>
        r == Failure(Error(BarcodeFailedMessage)) && store.documents == old(store.documents)
    {
      var found := FirstMatch(existingItems, barcode);
      if found.Some? {
        var updatedItem := Bumped(existingItems[found.value]);
        var written := store.Upsert(familyID, updatedItem, transport);
        if written.Failure? {
          return Failure(Error(BarcodeFailedMessage));
        }
        r := Success(Updated(updatedItem));
      } else {
        r := Success(NewItemNeeded(barcode));
      }
    }

    /**
      `addNewItem`: a new item with the given fields, the id `freshID` and a stock of exactly 1.
      The id comes from a generator that is not part of this model; when it is unused in the
      family, the family grows by exactly that item and every earlier item stays.
    */
    method AddNewItem(barcode: string, name: string, icon: string, category: string, brand: string,
                      freshID: string, transport: Transport)
      returns (r: Result<Item, Thrown>)
      modifies store
      ensures !WritableID(familyID) ==> r == Failure(Error(AddFailedMessage)) && store.documents == old(store.documents)
      ensures WritableID(familyID) && transport.Delivered? ==>
        r == Success(Item(freshID, barcode, name, icon, category, brand, 1))
        && store.documents == Upserted(old(store.documents), familyID.value, r.value)
      ensures WritableID(familyID) && transport.Delivered? && freshID !in DocumentOf(old(store.documents), familyID.value) ==>
        var before := DocumentOf(old(store.documents), familyID.value);
        var after := DocumentOf(store.documents, familyID.value);
        |after| == |before| + 1 && (forall k :: k in before ==> k in after && after[k] == before[k])
      ensures WritableID(familyID) && transport.Rejected? ==>
        r == Failure(Error(AddFailedMessage)) && store.documents == old(store.documents)
    {
      if !WritableID(familyID) {
        return Failure(Error(AddFailedMessage));
      }
      var newItem := Item(freshID, barcode, name, icon, category, brand, 1);
      var written := store.Upsert(familyID, newItem, transport);
      if written.Failure? {
        return Failure(Error(AddFailedMessage));
      }
      r := Success(newItem);
    }

    /** `updateItem`: replace barcode and descriptive fields, keep id and stock. */
    method UpdateItem(existing: Item, barcode: string, name: string, icon: string, category: string, brand: string,
                      transport: Transport)
      returns (r: Result<Item, Thrown>)
      modifies store
      ensures WriteLands(familyID, transport) ==>
        r == Success(Edited(existing, barcode, name, icon, category, brand))
        && store.documents == Upserted(old(store.documents), familyID.value, r.value)
      ensures !WriteLands(familyID, transport) ==>
        r == Failure(Error(UpdateFailedMessage)) && store.documents == old(store.documents)
    {
      var updatedItem := Edited(existing, barcode, name, icon, category, brand);
      var written := store.Upsert(familyID, updatedItem, transport);
      if written.Failure? {
        return Failure(Error(UpdateFailedMessage));
      }
      r := Success(updatedItem);
    }

    /** `increaseItemStock`: the same item one higher, clamped at 20, written back. */
    method IncreaseItemStock(item: Item, transport: Transport) returns (r: Result<Item, Thrown>)
      modifies store
      ensures WriteLands(familyID, transport) ==>
        r == Success(Bumped(item)) && store.documents == Upserted(old(store.documents), familyID.value, Bumped(item))
      ensures !WriteLands(familyID, transport) ==>
        r == Failure(Error(QuantityFailedMessage)) && store.documents == old(store.documents)
    {
      var updatedItem := Bumped(item);
      var written := store.Upsert(familyID, updatedItem, transport);
      if written.Failure? {
        return Failure(Error(QuantityFailedMessage));
      }
      r := Success(updatedItem);
    }

    /** `decreaseItemStock`: the same item one lower, clamped at 0, written back. */
    method DecreaseItemStock(item: Item, transport: Transport) returns (r: Result<Item, Thrown>)
      modifies store
      ensures WriteLands(familyID, transport) ==>
        r == Success(Lowered(item)) && store.documents == Upserted(old(store.documents), familyID.value, Lowered(item))
      ensures !WriteLands(familyID, transport) ==>
        r == Failure(Error(QuantityFailedMessage)) && store.documents == old(store.documents)
    {
      var updatedItem := Lowered(item);
      var written := store.Upsert(familyID, updatedItem, transport);
      if written.Failure? {
        return Failure(Error(QuantityFailedMessage));
      }
      r := Success(updatedItem);
    }

    /** `removeItem`: delete the item from the family document. */
    method RemoveItem(itemID: string, transport: Transport) returns (r: Result<(), Thrown>)
      modifies store
      ensures WriteLands(familyID, transport) ==>
        r == Success(()) && store.documents == Deleted(old(store.documents), familyID.value, itemID)
      ensures !WriteLands(familyID, transport) ==>
        r == Failure(Error(RemoveFailedMessage)) && store.documents == old(store.documents)
    {
      var deleted := store.Delete(familyID, itemID, transport);
      if deleted.Failure? {
        return Failure(Error(RemoveFailedMessage));
      }
      r := Success(());
    }

    /** `updateFamilyID`: point every later call at another family. */
    method UpdateFamilyID(newFamilyID: string)
      modifies this
      ensures familyID == Some(newFamilyID)
    {
      familyID := Some(newFamilyID);
    }
  }
}
