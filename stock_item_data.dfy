/**
 * Stock item data (quantity and salability of a SKU on a stock) as fixed by the data providers of the
 * integration tests InventoryConfiguration/Test/Integration/GetStockItemData/MinQtyTest and ManageConfigTest.
 * The engine computing the index is not part of this model; the index is an input, and the salability
 * rule is the one the tabulated rows determine.
 */
module StockItemData {
  import opened Wrappers

  /** The configuration the tests set: `manage_stock` and `min_qty` of `cataloginventory/item_options`. */
  datatype StockItemConfig = StockItemConfig(manageStock: bool, minQty: real)

  /** The QUANTITY and IS_SALABLE columns of an index row. */
  datatype ItemData = ItemData(quantity: real, isSalable: bool)

  /** The quantity of each SKU linked to each stock, keyed by (sku, stockId). */
  type StockIndex = map<(string, int), real>

  /** Salable when stock is not managed; otherwise only above the minimum quantity. */
  predicate IsSalable(quantity: real, config: StockItemConfig)
  {
    !config.manageStock || quantity > config.minQty
  }

  /** `GetStockItemDataInterface::execute($sku, $stockId)`: no data for a SKU not linked to the stock; the raw
      quantity with its salable flag otherwise. */
  function GetStockItemData(index: StockIndex, sku: string, stockId: int, config: StockItemConfig)
    : (r: Option<ItemData>)
    ensures r.Some? <==> (sku, stockId) in index
    ensures r.Some? ==> r.value.quantity == index[(sku, stockId)]
  {
    if (sku, stockId) in index then
      Some(ItemData(index[(sku, stockId)], IsSalable(index[(sku, stockId)], config)))
    else None
  }

  /** `$stockItemData[QUANTITY] ?? null` and `$stockItemData[IS_SALABLE] ?? null`. */
  function ObservedQty(d: Option<ItemData>): Option<real>
  {
    if d.Some? then Some(d.value.quantity) else None
  }

  function ObservedIsSalable(d: Option<ItemData>): Option<bool>
  {
    if d.Some? then Some(d.value.isSalable) else None
  }

  /** The SKUs the tests iterate over, in order. */
  const Skus: seq<string> := ["SKU-1", "SKU-2", "SKU-3"]

  /** The index the fixtures produce, as the expected quantities show it: stock 10 links SKU-1 (8.5) and
      SKU-3 (0), stock 20 links SKU-2 (5), stock 30 links all three. */
  const FixtureIndex: StockIndex := map[
    ("SKU-1", 10) := 8.5, ("SKU-3", 10) := 0.0,
    ("SKU-2", 20) := 5.0,
    ("SKU-1", 30) := 8.5, ("SKU-2", 30) := 5.0, ("SKU-3", 30) := 0.0]

  /** A data-provider row: stock id, expected quantities and expected salable flags per SKU (1 is true,
      0 false, null absent). */
  datatype ProviderRow = ProviderRow(stockId: int, expectedQty: seq<Option<real>>, expectedIsSalable: seq<Option<bool>>)

  /** `MinQtyTest::executeWithMinQtyDataProvider`, run with min_qty 5 and stock managed. */
  const MinQtyRows: seq<ProviderRow> := [
    ProviderRow(10, [Some(8.5), None, Some(0.0)], [Some(true), None, Some(false)]),
    ProviderRow(20, [None, Some(5.0), None], [None, Some(false), None]),
    ProviderRow(30, [Some(8.5), Some(5.0), Some(0.0)], [Some(true), Some(false), Some(false)])]

  /** `MinQtyTest::executeWithManageStockFalseAndMinQty`, run with min_qty 5 and manage_stock 0. */
  const ManageStockFalseAndMinQtyRows: seq<ProviderRow> := [
    ProviderRow(10, [Some(8.5), None, Some(0.0)], [Some(true), None, Some(true)]),
    ProviderRow(20, [None, Some(5.0), None], [None, Some(true), None]),
    ProviderRow(30, [Some(8.5), Some(5.0), Some(0.0)], [Some(true), Some(true), Some(true)])]

  /** `ManageConfigTest::executeWithManageStockFalseDataProvider`, run with manage_stock 0 and the default
      min_qty of 0. */
  const ManageStockFalseRows: seq<ProviderRow> := [
    ProviderRow(10, [Some(8.5), None, Some(0.0)], [Some(true), None, Some(true)]),
    ProviderRow(20, [None, Some(5.0), None], [None, Some(true), None]),
    ProviderRow(30, [Some(8.5), Some(5.0), Some(0.0)], [Some(true), Some(true), Some(true)])]

  /** The assertions of the test loop, for one row. */
  predicate RowHolds(row: ProviderRow, index: StockIndex, config: StockItemConfig)
  {
    |row.expectedQty| == |Skus| && |row.expectedIsSalable| == |Skus| &&
    forall key :: 0 <= key < |Skus| ==>
      var data := GetStockItemData(index, Skus[key], row.stockId, config);
      ObservedQty(data) == row.expectedQty[key] && ObservedIsSalable(data) == row.expectedIsSalable[key]
  }

  /** The fixture index by stock: which SKUs each stock links and with what quantity. */
  lemma FixtureByStock()
    ensures ("SKU-1", 10) in FixtureIndex && FixtureIndex[("SKU-1", 10)] == 8.5
    ensures ("SKU-2", 10) !in FixtureIndex
    ensures ("SKU-3", 10) in FixtureIndex && FixtureIndex[("SKU-3", 10)] == 0.0
    ensures ("SKU-1", 20) !in FixtureIndex
    ensures ("SKU-2", 20) in FixtureIndex && FixtureIndex[("SKU-2", 20)] == 5.0
    ensures ("SKU-3", 20) !in FixtureIndex
    ensures ("SKU-1", 30) in FixtureIndex && FixtureIndex[("SKU-1", 30)] == 8.5
    ensures ("SKU-2", 30) in FixtureIndex && FixtureIndex[("SKU-2", 30)] == 5.0
    ensures ("SKU-3", 30) in FixtureIndex && FixtureIndex[("SKU-3", 30)] == 0.0
  {
  }

  /** The assertions of the test loop for one row, checked SKU by SKU. */
  lemma RowHoldsBySku(row: ProviderRow, config: StockItemConfig)
    requires |row.expectedQty| == 3 && |row.expectedIsSalable| == 3
    requires row.stockId in {10, 20, 30}
    requires forall key :: 0 <= key < 3 ==>
      var data := GetStockItemData(FixtureIndex, Skus[key], row.stockId, config);
      ObservedQty(data) == row.expectedQty[key] && ObservedIsSalable(data) == row.expectedIsSalable[key]
    ensures RowHolds(row, FixtureIndex, config)
  {
  }

  /** Every row of `executeWithMinQtyDataProvider` holds with min_qty 5 and stock managed. */
  lemma MinQtyTableHolds()
    ensures forall i :: 0 <= i < |MinQtyRows| ==> RowHolds(MinQtyRows[i], FixtureIndex, StockItemConfig(true, 5.0))
  {
    var config := StockItemConfig(true, 5.0);
    FixtureByStock();
    assert Skus[0] == "SKU-1" && Skus[1] == "SKU-2" && Skus[2] == "SKU-3";
    RowHoldsBySku(MinQtyRows[0], config);
    RowHoldsBySku(MinQtyRows[1], config);
    RowHoldsBySku(MinQtyRows[2], config);
  }

  /** Every row of `executeWithManageStockFalseAndMinQty` holds with min_qty 5 and stock not managed. */
  lemma ManageStockFalseAndMinQtyTableHolds()
    ensures forall i :: 0 <= i < |ManageStockFalseAndMinQtyRows| ==>
      RowHolds(ManageStockFalseAndMinQtyRows[i], FixtureIndex, StockItemConfig(false, 5.0))
  {
    var config := StockItemConfig(false, 5.0);
    FixtureByStock();
    assert Skus[0] == "SKU-1" && Skus[1] == "SKU-2" && Skus[2] == "SKU-3";
    RowHoldsBySku(ManageStockFalseAndMinQtyRows[0], config);
    RowHoldsBySku(ManageStockFalseAndMinQtyRows[1], config);
    RowHoldsBySku(ManageStockFalseAndMinQtyRows[2], config);
  }

  /** Every row of `executeWithManageStockFalseDataProvider` holds with stock not managed. */
  lemma ManageStockFalseTableHolds()
    ensures forall i :: 0 <= i < |ManageStockFalseRows| ==>
      RowHolds(ManageStockFalseRows[i], FixtureIndex, StockItemConfig(false, 0.0))
  {
    var config := StockItemConfig(false, 0.0);
    FixtureByStock();
    assert Skus[0] == "SKU-1" && Skus[1] == "SKU-2" && Skus[2] == "SKU-3";
    RowHoldsBySku(ManageStockFalseRows[0], config);
    RowHoldsBySku(ManageStockFalseRows[1], config);
    RowHoldsBySku(ManageStockFalseRows[2], config);
  }

  /** Turning manage-stock off changes only the salable flags, which all become true: which SKUs are present
      and their quantities stay the same. */
  lemma ManageStockOffOnlyChangesFlags(index: StockIndex, sku: string, stockId: int, minQty: real)
    ensures var on := GetStockItemData(index, sku, stockId, StockItemConfig(true, minQty));
      var off := GetStockItemData(index, sku, stockId, StockItemConfig(false, minQty));
      on.Some? == off.Some? && ObservedQty(on) == ObservedQty(off) && (off.Some? ==> off.value.isSalable)
  {
  }

  /** Presence is per (sku, stock): SKU-2 has no data on stock 10 but has data on stock 20, whatever the
      configuration. */
  lemma PresenceIsPerStock(config: StockItemConfig)
    ensures GetStockItemData(FixtureIndex, "SKU-2", 10, config) == None
    ensures GetStockItemData(FixtureIndex, "SKU-2", 20, config).Some?
  {
  }
}
