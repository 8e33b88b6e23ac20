/**
  The family item repository the item service calls (addItemToFamily, updateItemInFamily,
  deleteItemFromFamily, getFamilyItems). Its code is not part of this model; it is modelled
  as one document per family, a map from item id to item, that each call reads or writes.
  Whether a call reaches the store is an input (`Transport`, `FetchReply`).
*/
module Storage {
  import opened Common

  /** An inventory item as the item service builds it: the fields of the `Item` type plus `id`, `category` and `brand`. */
  datatype Item = Item(
    id: string,
    barcode: string,
    name: string,
    icon: string,
    category: string,
    brand: string,
    amountInStock: int)

  /** What a failing call throws: an `Error` with its message, or a value that is not an `Error` (such as `undefined`). */
  datatype Thrown = Error(message: string) | NotAnError

  /** How one write or delete call ends. */
  datatype Transport = Delivered | Rejected(thrown: Thrown)

  /** How one `getFamilyItems` call ends: the stored items, a value that is not an array, or a rejection. */
  datatype FetchReply = Listed | NotAList | ReadRejected(thrown: Thrown)

  /** What a read hands back when it does not fail. */
  datatype Fetched = Items(items: seq<Item>) | Malformed

  type Document = map<string, Item>

  const InvalidPathMessage := "Invalid document reference"

  /** The document key a call addresses; the store refuses an empty or non-string family id. */
  function DocumentKey(familyID: Option<string>): (r: Option<string>)
    ensures r.Some? <==> familyID.Some? && familyID.value != ""
    ensures r.Some? ==> r.value == familyID.value
  {
    if familyID.Some? && familyID.value != "" then familyID else None
  }

  /** The document of a family; a family never written to reads as empty. */
  function DocumentOf(documents: map<string, Document>, key: string): Document
  {
    if key in documents then documents[key] else map[]
  }

  /** The store after writing `item` under its id in the family's document (created if absent). */
  function Upserted(documents: map<string, Document>, key: string, item: Item): (r: map<string, Document>)
    ensures r.Keys == documents.Keys + {key}
    ensures DocumentOf(r, key) == DocumentOf(documents, key)[item.id := item]
    ensures forall f :: f in documents && f != key ==> r[f] == documents[f]
  {
    documents[key := DocumentOf(documents, key)[item.id := item]]
  }

  /** The store after deleting an item; a family without a document is left without one. */
  function Deleted(documents: map<string, Document>, key: string, itemID: string): (r: map<string, Document>)
    ensures key !in documents ==> r == documents
    ensures key in documents ==> r == documents[key := documents[key] - {itemID}]
  {
    if key in documents then documents[key := documents[key] - {itemID}] else documents
  }

  /** Every item is stored under its own id. */
  ghost predicate KeyedById(documents: map<string, Document>)
  {
    forall f, k :: f in documents && k in documents[f] ==> documents[f][k].id == k
  }

  /** Writing the same item twice leaves the store as writing it once. */
  lemma UpsertIsIdempotent(documents: map<string, Document>, key: string, item: Item)
    ensures Upserted(Upserted(documents, key, item), key, item) == Upserted(documents, key, item)
  {
    var once := Upserted(documents, key, item);
    assert DocumentOf(once, key)[item.id := item] == DocumentOf(once, key);
    assert once[key := DocumentOf(once, key)] == once;
  }

  /** An upsert and a delete keep every item stored under its own id. */
  lemma WritesKeepKeys(documents: map<string, Document>, key: string, item: Item, itemID: string)
    requires KeyedById(documents)
    ensures KeyedById(Upserted(documents, key, item))
    ensures KeyedById(Deleted(documents, key, itemID))
  {
  }

  /** Writing a new item grows its family by one; deleting it again restores the family. */
  lemma {:induction false} UpsertThenDeleteRestores(documents: map<string, Document>, key: string, item: Item)
    requires key in documents && item.id !in documents[key]
    ensures |DocumentOf(Upserted(documents, key, item), key)| == |documents[key]| + 1
    ensures Deleted(Upserted(documents, key, item), key, item.id) == documents
  {
    var d := documents[key];
    assert DocumentOf(Upserted(documents, key, item), key).Keys == d.Keys + {item.id};
    assert d[item.id := item] - {item.id} == d;
  }

  /** The keys outside `pending` whose stored item is `x`. */
  ghost function KeysHolding(doc: Document, pending: set<string>, x: Item): set<string>
  {
    set k | k in doc && k !in pending && doc[k] == x
  }

  /**
    `items` has one entry per key of the document: every item appears exactly as often as keys
    hold it, so it holds every stored item and nothing else, in some order.
  */
  ghost predicate IsListing(items: seq<Item>, doc: Document)
  {
    && |items| == |doc|
    && (forall i :: 0 <= i < |items| ==> items[i] in doc.Values)
    && (forall k :: k in doc ==> doc[k] in items)
    && (forall x :: multiset(items)[x] == |KeysHolding(doc, {}, x)|)
  }

  /** Taking key `k` out of `pending` adds it to the keys holding its own item, and only to those. */
  lemma KeysHoldingStep(doc: Document, pending: set<string>, k: string, x: Item)
    requires k in pending && k in doc
    ensures |KeysHolding(doc, pending - {k}, x)| == |KeysHolding(doc, pending, x)| + (if doc[k] == x then 1 else 0)
  {
    if doc[k] == x {
      assert KeysHolding(doc, pending - {k}, x) == KeysHolding(doc, pending, x) + {k};
    } else {
      assert KeysHolding(doc, pending - {k}, x) == KeysHolding(doc, pending, x);
    }
  }

  /** In a document that keeps every item under its own id, a listing holds each stored item exactly once. */
  lemma ListingHoldsEachOnce(items: seq<Item>, doc: Document, k: string)
    requires forall j :: j in doc ==> doc[j].id == j
    requires IsListing(items, doc) && k in doc
    ensures multiset(items)[doc[k]] == 1
  {
    assert KeysHolding(doc, {}, doc[k]) == {k};
  }

  class ItemStore {
    /** familyID -> (item id -> item) */
    var documents: map<string, Document>

    constructor (documents: map<string, Document>)
      ensures this.documents == documents
    {
      this.documents := documents;
    }

    /** addItemToFamily and updateItemInFamily: write one item field of the family document. */
    method Upsert(familyID: Option<string>, item: Item, transport: Transport) returns (r: Result<(), Thrown>)
      modifies this
      ensures DocumentKey(familyID).None? ==> r == Failure(Error(InvalidPathMessage)) && documents == old(documents)
      ensures DocumentKey(familyID).Some? && transport.Rejected? ==> r == Failure(transport.thrown) && documents == old(documents)
      ensures DocumentKey(familyID).Some? && transport.Delivered? ==>
        r == Success(()) && documents == Upserted(old(documents), familyID.value, item)
    {
      var key := DocumentKey(familyID);
      if key.None? {
        return Failure(Error(InvalidPathMessage));
      }
      if transport.Rejected? {
        return Failure(transport.thrown);
      }
      documents := Upserted(documents, key.value, item);
      r := Success(());
    }

    /** deleteItemFromFamily: read the family document, drop one key, write the document back. */
    method Delete(familyID: Option<string>, itemID: string, transport: Transport) returns (r: Result<(), Thrown>)
      modifies this
      ensures DocumentKey(familyID).None? ==> r == Failure(Error(InvalidPathMessage)) && documents == old(documents)
      ensures DocumentKey(familyID).Some? && transport.Rejected? ==> r == Failure(transport.thrown) && documents == old(documents)
      ensures DocumentKey(familyID).Some? && transport.Delivered? ==>
        r == Success(()) && documents == Deleted(old(documents), familyID.value, itemID)
    {
      var key := DocumentKey(familyID);
      if key.None? {
        return Failure(Error(InvalidPathMessage));
      }
      if transport.Rejected? {
        return Failure(transport.thrown);
      }
      documents := Deleted(documents, key.value, itemID);
      r := Success(());
    }

    /** getFamilyItems: the items of the family document in the order the store lists them. */
    method FetchAll(familyID: Option<string>, reply: FetchReply) returns (r: Result<Fetched, Thrown>)
      ensures DocumentKey(familyID).None? ==> r == Failure(Error(InvalidPathMessage))
      ensures DocumentKey(familyID).Some? ==> match reply
        case ReadRejected(t) => r == Failure(t)
        case NotAList => r == Success(Malformed)
        case Listed => r.Success? && r.value.Items? && IsListing(r.value.items, DocumentOf(documents, familyID.value))
    {
      var key := DocumentKey(familyID);
      if key.None? {
        return Failure(Error(InvalidPathMessage));
      }
      match reply
      case ReadRejected(t) =>
        r := Failure(t);
      case NotAList =>
        r := Success(Malformed);
      case Listed =>
        var doc := DocumentOf(documents, key.value);
        var items: seq<Item> := [];
        var remaining := doc.Keys;
        forall x
          ensures |KeysHolding(doc, remaining, x)| == 0
        {
          assert KeysHolding(doc, remaining, x) == {};
        }
        while remaining != {}
          invariant remaining <= doc.Keys
          invariant |items| + |remaining| == |doc|
          invariant forall i :: 0 <= i < |items| ==> items[i] in doc.Values
          invariant forall k :: k in doc && k !in remaining ==> doc[k] in items
          invariant forall x :: multiset(items)[x] == |KeysHolding(doc, remaining, x)|
          decreases |remaining|
        {
          var k :| k in remaining;
          forall x
            ensures multiset(items + [doc[k]])[x] == |KeysHolding(doc, remaining - {k}, x)|
          {
            KeysHoldingStep(doc, remaining, k, x);
          }
          items := items + [doc[k]];
          remaining := remaining - {k};
        }
        r := Success(Items(items));
    }
  }
}
