/**
  The purely local inventory screen (`App`): a list of items keyed by barcode, the add dialog
  that a scan of an unknown barcode opens, the remove dialog, and the visible list computed
  from a search term and a stock filter. Nothing here reaches the store.
*/
module LocalInventory {
  import opened Common
  import opened Stock

  /** An item as the local screen keeps it: no id, category or brand. */
  datatype Item = Item(barcode: string, name: string, icon: string, amountInStock: int)

  /** The stock filter of the search bar: `'all'`, `'inStock'` or `'outOfStock'`. */
  datatype Filter = All | InStock | OutOfStock

  /** `items.find(item => item.barcode === barcode)` finds something. */
  predicate Known(items: seq<Item>, barcode: string)
  {
    exists i | 0 <= i < |items| :: items[i].barcode == barcode
  }

  /** Every stock count lies in 0..20. */
  predicate AllInRange(items: seq<Item>)
  {
    forall i :: 0 <= i < |items| ==> InRange(items[i].amountInStock)
  }

  /** `s` is `t` with some entries deleted, the rest kept in order. */
  ghost predicate IsSublist(s: seq<Item>, t: seq<Item>)
    decreases |t|
  {
    s == [] || (t != [] && ((s[0] == t[0] && IsSublist(s[1..], t[1..])) || IsSublist(s, t[1..])))
  }

  /**
    `items.map(item => item.barcode === barcode ? { ...item, amountInStock: adjust(...) } : item)`:
    the stock of every item with that barcode goes through `adjust`, every other item stays.
  */
  function Adjusted(items: seq<Item>, barcode: string, adjust: int -> int): (r: seq<Item>)
    ensures |r| == |items|
    ensures forall i :: 0 <= i < |items| && items[i].barcode != barcode ==> r[i] == items[i]
    ensures forall i :: 0 <= i < |items| && items[i].barcode == barcode ==>
      r[i].(amountInStock := items[i].amountInStock) == items[i]
      && r[i].amountInStock == adjust(items[i].amountInStock)
  {
    if items == [] then []
    else
      var head := if items[0].barcode == barcode then items[0].(amountInStock := adjust(items[0].amountInStock)) else items[0];
      [head] + Adjusted(items[1..], barcode, adjust)
  }

  /** `increaseAmount`'s list: matching items one higher, clamped at 20. */
  function Increased(items: seq<Item>, barcode: string): seq<Item>
  {
    Adjusted(items, barcode, Incremented)
  }

  /** `decreaseAmount`'s list: matching items one lower, clamped at 0. */
  function Decreased(items: seq<Item>, barcode: string): seq<Item>
  {
    Adjusted(items, barcode, Decremented)
  }

  /** `items.filter(p)`: the items satisfying `p`, in their order. */
  function Keep(items: seq<Item>, p: Item -> bool): (r: seq<Item>)
    ensures IsSublist(r, items)
    ensures forall x :: x in r <==> x in items && p(x)
    ensures forall x :: multiset(r)[x] == if p(x) then multiset(items)[x] else 0
  {
    if items == [] then []
    else
      assert items == [items[0]] + items[1..];
      if p(items[0]) then [items[0]] + Keep(items[1..], p)
      else Keep(items[1..], p)
  }

  /** A filter that every item passes keeps the whole list. */
  lemma {:induction false} KeepEverything(items: seq<Item>, p: Item -> bool)
    requires forall i :: 0 <= i < |items| ==> p(items[i])
    ensures Keep(items, p) == items
  {
    if items != [] {
      assert p(items[0]);
      KeepEverything(items[1..], p);
      assert [items[0]] + items[1..] == items;
    }
  }

  /** `confirmRemoveItem`'s list: every item with that barcode removed, the others in order. */
  function Without(items: seq<Item>, barcode: string): (r: seq<Item>)
    ensures IsSublist(r, items)
    ensures forall x :: x in r <==> x in items && x.barcode != barcode
    ensures forall x :: multiset(r)[x] == if x.barcode != barcode then multiset(items)[x] else 0
  {
    Keep(items, (x: Item) => x.barcode != barcode)
  }

  /** The search half of `filteredItems`: the name, ASCII-lower-cased, or the barcode holds the term. */
  predicate MatchesSearch(item: Item, searchTerm: string)
  {
    Contains(Lower(item.name), Lower(searchTerm)) || Contains(item.barcode, searchTerm)
  }

  /** The stock half of `filteredItems`. */
  predicate MatchesFilter(item: Item, filter: Filter)
  {
    match filter
    case All => true
    case InStock => item.amountInStock > 0
    case OutOfStock => item.amountInStock == 0
  }

  /** `filteredItems`: the items matching both the search term and the stock filter, in list order. */
  function Filtered(items: seq<Item>, searchTerm: string, filter: Filter): (r: seq<Item>)
    ensures IsSublist(r, items)
    ensures forall x :: x in r <==> x in items && MatchesSearch(x, searchTerm) && MatchesFilter(x, filter)
    ensures forall x :: multiset(r)[x] == if MatchesSearch(x, searchTerm) && MatchesFilter(x, filter) then multiset(items)[x] else 0
  {
    Keep(items, (x: Item) => MatchesSearch(x, searchTerm) && MatchesFilter(x, filter))
  }

  /** With no search term and filter `'all'` the whole list is visible. */
  lemma {:induction false} EmptySearchShowsEverything(items: seq<Item>)
    ensures Filtered(items, "", All) == items
  {
    forall i | 0 <= i < |items|
      ensures MatchesSearch(items[i], "")
    {
      EmptyIsContained(Lower(items[i].name));
    }
    KeepEverything(items, (x: Item) => MatchesSearch(x, "") && MatchesFilter(x, All));
  }

  /** For items with a non-negative stock, `'inStock'` and `'outOfStock'` split the search result between them. */
  lemma StockFiltersSplit(items: seq<Item>, searchTerm: string, x: Item)
    requires x in items && MatchesSearch(x, searchTerm) && x.amountInStock >= 0
    ensures x in Filtered(items, searchTerm, InStock) <==> x !in Filtered(items, searchTerm, OutOfStock)
  {
  }

  /** Increases and decreases keep every stock within 0..20 and leave the length alone. */
  lemma AdjustmentsKeepRange(items: seq<Item>, barcode: string)
    requires AllInRange(items)
    ensures AllInRange(Increased(items, barcode)) && AllInRange(Decreased(items, barcode))
    ensures |Increased(items, barcode)| == |Decreased(items, barcode)| == |items|
  {
  }

  /** An unknown barcode leaves the list as it is. */
  lemma {:induction false} UnknownBarcodeChangesNothing(items: seq<Item>, barcode: string)
    requires !Known(items, barcode)
    ensures Increased(items, barcode) == items && Decreased(items, barcode) == items
  {
    assert forall i :: 0 <= i < |items| ==> items[i].barcode != barcode;
  }

  /** When every matching item is below 20, a decrease undoes an increase. */
  lemma {:induction false} DecreaseUndoesIncrease(items: seq<Item>, barcode: string)
    requires forall i :: 0 <= i < |items| && items[i].barcode == barcode ==> 0 <= items[i].amountInStock < MaxStock
    ensures Decreased(Increased(items, barcode), barcode) == items
  {
    var up := Increased(items, barcode);
    var back := Decreased(up, barcode);
    forall i | 0 <= i < |items|
      ensures back[i] == items[i]
    {
      assert up[i].barcode == items[i].barcode;
    }
  }

  /** Removing a barcode twice is removing it once. */
  lemma {:induction false} RemovalIsIdempotent(items: seq<Item>, barcode: string)
    ensures Without(Without(items, barcode), barcode) == Without(items, barcode)
  {
    var once := Without(items, barcode);
    assert forall i :: 0 <= i < |once| ==> once[i] in once;
    KeepEverything(once, (x: Item) => x.barcode != barcode);
  }

  /** The item `handleAddNewItem` appends makes its barcode known, so a second scan increases it. */
  lemma {:induction false} AddedBarcodeIsKnown(items: seq<Item>, barcode: string, name: string, icon: string)
    ensures Known(items + [Item(barcode, name, icon, 1)], barcode)
    ensures Increased(items + [Item(barcode, name, icon, 1)], barcode)[|items|].amountInStock == 2
  {
    var added := items + [Item(barcode, name, icon, 1)];
    assert added[|items|].barcode == barcode;
  }

  class InventoryApp {
    var items: seq<Item>
    var showAddDialog: bool
    var pendingBarcode: string
    var searchTerm: string
    var filter: Filter
    /** The barcode awaiting removal confirmation, or null. */
    var showRemoveDialog: Option<string>

    constructor ()
      ensures items == [] && !showAddDialog && pendingBarcode == ""
      ensures searchTerm == "" && filter == All && showRemoveDialog.None?
    {
      items := [];
      showAddDialog := false;
      pendingBarcode := "";
      searchTerm := "";
      filter := All;
      showRemoveDialog := None;
    }

    /** `handleBarcodeSubmit`: increase a known barcode, or open the add dialog for an unknown one. */
    method HandleBarcodeSubmit(barcode: string)
      modifies this
      ensures Known(old(items), barcode) ==>
        items == Increased(old(items), barcode)
        && pendingBarcode == old(pendingBarcode) && showAddDialog == old(showAddDialog)
      ensures !Known(old(items), barcode) ==>
        items == old(items) && pendingBarcode == barcode && showAddDialog
      ensures searchTerm == old(searchTerm) && filter == old(filter) && showRemoveDialog == old(showRemoveDialog)
    {
      if Known(items, barcode) {
        items := Increased(items, barcode);
      } else {
        pendingBarcode := barcode;
        showAddDialog := true;
      }
    }

    /** `handleAddNewItem`: append one item for the pending barcode with stock 1, then close the dialog. */
    method HandleAddNewItem(name: string, icon: string)
      modifies this
      ensures items == old(items) + [Item(old(pendingBarcode), name, icon, 1)]
      ensures !showAddDialog && pendingBarcode == ""
      ensures searchTerm == old(searchTerm) && filter == old(filter) && showRemoveDialog == old(showRemoveDialog)
    {
      var newItem := Item(pendingBarcode, name, icon, 1);
      items := items + [newItem];
      showAddDialog := false;
      pendingBarcode := "";
    }

    /** `handleCloseAddDialog`: close the dialog and forget the pending barcode. */
    method HandleCloseAddDialog()
      modifies this
      ensures !showAddDialog && pendingBarcode == ""
      ensures items == old(items) && searchTerm == old(searchTerm) && filter == old(filter)
      ensures showRemoveDialog == old(showRemoveDialog)
    {
      showAddDialog := false;
      pendingBarcode := "";
    }

    /** `increaseAmount`. */
    method IncreaseAmount(barcode: string)
      modifies this
      ensures items == Increased(old(items), barcode)
      ensures showAddDialog == old(showAddDialog) && pendingBarcode == old(pendingBarcode)
      ensures searchTerm == old(searchTerm) && filter == old(filter) && showRemoveDialog == old(showRemoveDialog)
    {
      items := Increased(items, barcode);
    }

    /** `decreaseAmount`. */
    method DecreaseAmount(barcode: string)
      modifies this
      ensures items == Decreased(old(items), barcode)
      ensures showAddDialog == old(showAddDialog) && pendingBarcode == old(pendingBarcode)
      ensures searchTerm == old(searchTerm) && filter == old(filter) && showRemoveDialog == old(showRemoveDialog)
    {
      items := Decreased(items, barcode);
    }

    /** `handleRemoveItem`: only record which barcode awaits confirmation. */
    method HandleRemoveItem(barcode: string)
      modifies this
      ensures showRemoveDialog == Some(barcode)
      ensures items == old(items) && showAddDialog == old(showAddDialog) && pendingBarcode == old(pendingBarcode)
      ensures searchTerm == old(searchTerm) && filter == old(filter)
    {
      showRemoveDialog := Some(barcode);
    }

    /** `confirmRemoveItem`: with a pending (non-empty) barcode, drop its items and close the dialog; else nothing. */
    method ConfirmRemoveItem()
      modifies this
      ensures old(showRemoveDialog).Some? && old(showRemoveDialog).value != "" ==>
        items == Without(old(items), old(showRemoveDialog).value) && showRemoveDialog.None?
      ensures !(old(showRemoveDialog).Some? && old(showRemoveDialog).value != "") ==>
        items == old(items) && showRemoveDialog == old(showRemoveDialog)
      ensures showAddDialog == old(showAddDialog) && pendingBarcode == old(pendingBarcode)
      ensures searchTerm == old(searchTerm) && filter == old(filter)
    {
      if showRemoveDialog.Some? && showRemoveDialog.value != "" {
        items := Without(items, showRemoveDialog.value);
        showRemoveDialog := None;
      }
    }

    /** The remove dialog's close handler. */
    method CloseRemoveDialog()
      modifies this
      ensures showRemoveDialog.None?
      ensures items == old(items) && showAddDialog == old(showAddDialog) && pendingBarcode == old(pendingBarcode)
      ensures searchTerm == old(searchTerm) && filter == old(filter)
    {
      showRemoveDialog := None;
    }

    /** The search bar's `setSearchTerm`. */
    method SetSearchTerm(term: string)
      modifies this
      ensures searchTerm == term
      ensures items == old(items) && showAddDialog == old(showAddDialog) && pendingBarcode == old(pendingBarcode)
      ensures filter == old(filter) && showRemoveDialog == old(showRemoveDialog)
    {
      searchTerm := term;
    }

    /** The search bar's `setFilter`. */
    method SetFilter(f: Filter)
      modifies this
      ensures filter == f
      ensures items == old(items) && showAddDialog == old(showAddDialog) && pendingBarcode == old(pendingBarcode)
      ensures searchTerm == old(searchTerm) && showRemoveDialog == old(showRemoveDialog)
    {
      filter := f;
    }

    /** `filteredItems`: the visible list for the current search term and filter. */
    function FilteredItems(): (r: seq<Item>)
      reads this
      ensures IsSublist(r, items)
      ensures forall x :: x in r <==> x in items && MatchesSearch(x, searchTerm) && MatchesFilter(x, filter)
      ensures forall x :: multiset(r)[x] == if MatchesSearch(x, searchTerm) && MatchesFilter(x, filter) then multiset(items)[x] else 0
    {
      Filtered(items, searchTerm, filter)
    }
  }
}
