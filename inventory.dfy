/** The fixed inventory catalog and the exact-name lookup the waste-log form performs on it. */
module Inventory {
  import opened Wrappers

  /** Display-only stock tag of a catalog item. */
  datatype StockLevel = High | Medium | Low

  /** A catalog entry; `cost` is the unit cost in cents (every cost in the catalog has two decimals). */
  datatype CatalogItem = CatalogItem(name: string, cost: nat, stock: StockLevel)

  predicate NamesDistinct(items: seq<CatalogItem>)
  {
    forall i, j :: 0 <= i < j < |items| ==> items[i].name != items[j].name
  }

  predicate CostsPositive(items: seq<CatalogItem>)
  {
    forall i :: 0 <= i < |items| ==> items[i].cost > 0
  }

  /** `INVENTORY_ITEMS`: seven items, each with a non-zero cost, a non-empty name and a name no other item shares. */
  function InventoryItems(): (items: seq<CatalogItem>)
    ensures |items| == 7
    ensures CostsPositive(items)
    ensures forall i :: 0 <= i < |items| ==> items[i].name != ""
    ensures NamesDistinct(items)
  {
    [ CatalogItem("Banana", 25, High),
      CatalogItem("Apple", 35, Medium),
      CatalogItem("Lettuce", 150, Low),
      CatalogItem("Coffee Grounds", 10, High),
      CatalogItem("Burger Patty", 85, Medium),
      CatalogItem("Milk (Gallon)", 320, Low),
      CatalogItem("Bread Loaf", 210, High) ]
  }

  /** Position `k` holds the first item whose name is exactly `name`. */
  predicate FirstMatch(items: seq<CatalogItem>, name: string, k: int)
  {
    0 <= k < |items| && items[k].name == name &&
    forall j :: 0 <= j < k ==> items[j].name != name
  }

  /** The catalog lookup by name: case-sensitive exact match, the first hit wins. */
  function Find(items: seq<CatalogItem>, name: string): (r: Option<CatalogItem>)
    ensures r.None? <==> forall i :: 0 <= i < |items| ==> items[i].name != name
    ensures r.Some? ==> exists k :: FirstMatch(items, name, k) && items[k] == r.value
  {
    if items == [] then None
    else if items[0].name == name then
      assert FirstMatch(items, name, 0);
      Some(items[0])
    else
      var rest := Find(items[1..], name);
      assert forall k :: FirstMatch(items[1..], name, k) ==> FirstMatch(items, name, k + 1);
      rest
  }

  /**
   * The unit cost `handleSearch` snapshots into the form: the cost of the first
   * item named exactly `name`, or 0 when no item has that name.
   */
  function CostOf(items: seq<CatalogItem>, name: string): (c: nat)
    ensures forall k :: FirstMatch(items, name, k) ==> c == items[k].cost
    ensures (forall i :: 0 <= i < |items| ==> items[i].name != name) ==> c == 0
  {
    match Find(items, name)
    case Some(item) => FirstMatchUnique(items, name); item.cost
    case None => 0
  }

  lemma FirstMatchUnique(items: seq<CatalogItem>, name: string)
    ensures forall k, l :: FirstMatch(items, name, k) && FirstMatch(items, name, l) ==> k == l
  {
  }

  /**
   * Because every catalog cost is non-zero, a cost of 0 means exactly that the
   * name is not in the catalog.
   */
  lemma {:induction false} CostZeroIffUnknown(name: string)
    ensures CostOf(InventoryItems(), name) == 0 <==> Find(InventoryItems(), name).None?
  {
    var items := InventoryItems();
    if Find(items, name).Some? {
      var k :| FirstMatch(items, name, k) && items[k] == Find(items, name).value;
      assert items[k].cost > 0;
    }
  }

  /** Every name the catalog knows is non-empty. */
  lemma {:induction false} KnownNameNonEmpty(name: string)
    ensures Find(InventoryItems(), name).Some? ==> name != ""
  {
    var items := InventoryItems();
    if Find(items, name).Some? {
      var k :| FirstMatch(items, name, k) && items[k] == Find(items, name).value;
      assert items[k].name != "";
    }
  }
}
