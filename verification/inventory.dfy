/** The `check_inventory` tool the model may call: a catalogue lookup that ignores letter case. */
module Inventory {
  import opened Text

  /** `inventory_db`: units in stock per lower-case product key. */
  const Catalog: map<string, int> := map["laptop" := 50, "mouse" := 120, "keyboard" := 30, "monitor" := 0]

  const Available := "Available"
  const OutOfStock := "Out of Stock"
  const NotFoundInCatalog := "Not Found in Catalog"

  /** The dictionary the tool returns: `product`, `quantity` and `status`. */
  datatype StockReport = StockReport(product: string, quantity: int, status: string)

  /** `key` is the catalogue entry that `productName` names, in whatever letter case. */
  predicate Names(key: string, productName: string) {
    key in Catalog && EqualsIgnoreCase(key, productName)
  }

  /** Every catalogue key is written in lower case, so lowering the query is enough to find it. */
  lemma CatalogKeysLowerCase()
    ensures forall k :: k in Catalog ==> Lower(k) == k
  {
    forall k | k in Catalog
      ensures Lower(k) == k
    {
      assert k == "laptop" || k == "mouse" || k == "keyboard" || k == "monitor";
      LowerOfLowerCase(k);
    }
  }

  /** The lowered query is a key exactly when some key names the query, and then it is that key. */
  lemma LookupByLowering(productName: string)
    ensures forall k :: Names(k, productName) <==> k in Catalog && k == Lower(productName)
  {
    CatalogKeysLowerCase();
    forall k | k in Catalog
      ensures EqualsIgnoreCase(k, productName) <==> k == Lower(productName)
    {
      LowerEqualIff(k, productName);
    }
  }

  function CheckInventory(productName: string): (r: StockReport)
    ensures r.product == productName
    ensures forall k :: Names(k, productName) ==> r.quantity == Catalog[k]
    ensures (forall k :: !Names(k, productName)) <==> r.status == NotFoundInCatalog
    ensures (forall k :: !Names(k, productName)) ==> r.quantity == 0
    ensures r.status == Available <==> r.quantity > 0
    ensures r.status == OutOfStock <==> (exists k :: Names(k, productName)) && r.quantity <= 0
  {
    LookupByLowering(productName);
    var key := Lower(productName);
    if key in Catalog then
      var qty := Catalog[key];
      assert Names(key, productName);
      StockReport(productName, qty, if qty > 0 then Available else OutOfStock)
    else
      StockReport(productName, 0, NotFoundInCatalog)
  }

  /** Queries that differ only in letter case get the same quantity and status. */
  lemma CaseInsensitive(a: string, b: string)
    requires EqualsIgnoreCase(a, b)
    ensures CheckInventory(a).quantity == CheckInventory(b).quantity
    ensures CheckInventory(a).status == CheckInventory(b).status
  {
    LowerEqualIff(a, b);
  }

  /** "Monitor" is catalogued with no units, so it is out of stock rather than missing. */
  lemma MonitorOutOfStock()
    ensures CheckInventory("Monitor") == StockReport("Monitor", 0, OutOfStock)
  {
    assert Names("monitor", "Monitor");
  }

  /** "MOUSE" finds the 120 mice, and the report echoes the query as typed. */
  lemma MouseAvailable()
    ensures CheckInventory("MOUSE") == StockReport("MOUSE", 120, Available)
  {
    assert Names("mouse", "MOUSE");
  }
}
