# Multi-source inventory: deduction, reservations, stock data and source selection

A Dafny model of the inventory mutation and lookup logic of the Magento multi-source inventory modules.
It covers eleven pieces:

- `SourceDeduction` (`SourceDeductionService::execute`): deducting shipped quantities from one source,
  all-or-nothing with respect to the quantity check, followed by one save and one reservation placement.
- `BackItemQty` (`ProcessBackItemQtyPlugin::aroundBackItemQty`) and `Reservations`: returning items to stock
  by appending a positive reservation to an append-only ledger.
- `StockItemData` (`MinQtyTest`, `ManageConfigTest`): the salability rule as the data providers fix it, and
  each tabulated row.
- `ShipmentSources` (`CollectSourcesForShipmentItems::aroundCreate`): one single-item source-selection request
  per shipment item, and its result copied onto the item.
- `GeoNameLookup` (`GetGeoNameDataByAddressRequest::execute`): postcode, then city, then region, then an error.
- `GeocodeCache` (`GetLatLngRequestFromAddress::execute`): geocoding memoised per instance.
- `ApiKey` (`GetApiKey::execute`): `trim` and PHP falsiness.
- `InStockFilter` (`AddIsInStockFilterToCollection`): the inner join on SKU with `quantity > 0`.
- `LowStock` (`Lowstock\Collection`): the product-type guard, the is-qty type selection and the notify
  threshold rule.
- `IndexerInvalidation` (`ReindexAfterAssignSourcesToStockPlugin::afterExecute`): valid becomes invalid.
- `Wrappers` and `Php` hold `Option`/`Result`/`Outcome` and PHP string truthiness.

Code that changes state in place is modelled with classes and methods:

- the inventory store and its effect log;
- the reservation ledger;
- the shipment;
- the geocoder with its `latLngCache`;
- the low-stock collection;
- the indexer.

Repositories, resolvers, the selection service, the HTTP endpoint and configuration values are parameters
(functions or values supplied by the caller). Pure code is modelled as functions with lemmas.
Quantities are `real`, read as exact decimals.

## Model

| member | source | states |
|---|---|---|
| SourceDeduction.Execute | app/code/Magento/InventoryShipping/Model/SourceDeduction/SourceDeductionService.php:82-127 | The stock id is resolved once from the sales channel and used for every item. If the item loop (`Plan`) fails, the outcome is the failure and neither the store nor the effect log changes. Otherwise, the store becomes the staged items saved over the old store; exactly one save followed by exactly one reservation placement (with the request's sales channel and sales event) is logged. The outcome is a failure iff some non-skipped item asks for more than its source holds. For a request with distinct SKUs, each non-skipped item is persisted with its quantity lowered by exactly qty. The store stays well keyed, so deductions can follow one another. |
| SourceDeduction.Plan | app/code/Magento/InventoryShipping/Model/SourceDeduction/SourceDeductionService.php:93-121 | The foreach loop as a function of the request prefix: skip, stage, or throw at the first shortfall. Its meaning is stated by `PlanFailsIffShortfall`, `PlanPrefixFailure` and `PlanStagesDeductibleItems`. |
| SourceDeduction.PlanFailsIffShortfall | app/code/Magento/InventoryShipping/Model/SourceDeduction/SourceDeductionService.php:101-119 | The loop throws exactly when some item that has a stock-managed configuration and a source item at this source has quantity − qty < 0. |
| SourceDeduction.PlanPrefixFailure | app/code/Magento/InventoryShipping/Model/SourceDeduction/SourceDeductionService.php:93-121 | A throw on an earlier item ends the whole batch: a failing prefix makes the whole request fail. |
| SourceDeduction.PlanStagesDeductibleItems | app/code/Magento/InventoryShipping/Model/SourceDeduction/SourceDeductionService.php:101-114 | On success, the staged source items and the items to sell correspond one to one, in request order, to the items that are not skipped. They have the same SKU and qty, the staged quantity is exactly the stored quantity minus qty (0 allowed, never negative), and the rest of the source item is unchanged. |
| SourceDeduction.DeductibleItemsMembership | app/code/Magento/InventoryShipping/Model/SourceDeduction/SourceDeductionService.php:96-107 | An item is deducted iff it is a request item with a stock-managed configuration and a source item at this source: items without configuration, unmanaged or without a source item are skipped. |
| SourceDeduction.ApplySaveFrame | app/code/Magento/InventoryShipping/Model/SourceDeduction/SourceDeductionService.php:122 | Saving a list of source items leaves every stored item whose key none of them carries as it was. |
| SourceDeduction.ApplySave | app/code/Magento/InventoryShipping/Model/SourceDeduction/SourceDeductionService.php:122 | The save as a function: each staged item is written under its (source code, sku) key, in order. Its meaning is stated by `ApplySaveFrame`, `ApplySaveWrites` and `ApplySaveKeepsWellKeyed`. |
| SourceDeduction.ApplySaveWrites | app/code/Magento/InventoryShipping/Model/SourceDeduction/SourceDeductionService.php:122 | A saved item that no later saved item overrides is what the store holds under its key afterwards. |
| SourceDeduction.ApplySaveKeepsWellKeyed | app/code/Magento/InventoryShipping/Model/SourceDeduction/SourceDeductionService.php:122 | Saving keeps every stored item under its own (source code, sku) key. |
| SourceDeduction.DeductibleItemsDistinct | app/code/Magento/InventoryShipping/Model/SourceDeduction/SourceDeductionService.php:93-114 | The deducted items of a request with distinct SKUs have distinct SKUs. |
| SourceDeduction.DeductionWritesQuantities | app/code/Magento/InventoryShipping/Model/SourceDeduction/SourceDeductionService.php:106-122 | After a successful deduction of a request with distinct SKUs, the store keeps the same keys. Each non-skipped item's source item is the old one with quantity old − qty, and a skipped item's source item is unchanged. |
| SourceDeduction.DeductionPersistsQuantities | app/code/Magento/InventoryShipping/Model/SourceDeduction/SourceDeductionService.php:108-122 | The same for all items of the request at once: every non-skipped item is persisted with quantity old − qty. |
| SourceDeduction.DeductionLeavesOtherItems | app/code/Magento/InventoryShipping/Model/SourceDeduction/SourceDeductionService.php:106-122 | A successful deduction changes no source item of another source and no source item whose SKU the request does not name. |
| SourceDeduction.Inventory.SaveSourceItems | app/code/Magento/InventoryShipping/Model/SourceDeduction/SourceDeductionService.php:122 | The save writes each item over the stored one with its (source code, sku) key and is logged once. |
| SourceDeduction.Inventory.PlaceReservationsForSalesEvent | app/code/Magento/InventoryShipping/Model/SourceDeduction/SourceDeductionService.php:124-126 | Placing reservations leaves the store alone and is logged once with the items to sell, the sales channel and the sales event. |
| BackItemQty.AroundBackItemQty | app/code/Magento/InventorySales/Plugin/CatalogInventory/StockManagement/ProcessBackItemQtyPlugin.php:86-105 | A null scope id fails with "$scopeId is required" and appends nothing. Otherwise the result is true. When source-item management is allowed for the product's type, the ledger gains exactly the one reservation (product SKU, +qty, stock of the website) after its old entries; otherwise the ledger is unchanged. |
| BackItemQty.ReturnRaisesBalance | app/code/Magento/InventorySales/Plugin/CatalogInventory/StockManagement/ProcessBackItemQtyPlugin.php:93-101 | After a returned item is appended, its (sku, stock) balance rises by exactly qty and every other pair's balance is unchanged. |
| Reservations.ReservationLedger.Append | app/code/Magento/InventorySales/Plugin/CatalogInventory/StockManagement/ProcessBackItemQtyPlugin.php:101 | Appending keeps the old entries and adds the batch after them. |
| Reservations.BalanceOfConcat | app/code/Magento/InventorySales/Plugin/CatalogInventory/StockManagement/ProcessBackItemQtyPlugin.php:101 | The balance of a ledger with a batch appended is the old balance plus the batch's balance. |
| Reservations.BalanceIgnoresOrder | app/code/Magento/InventorySales/Plugin/CatalogInventory/StockManagement/ProcessBackItemQtyPlugin.php:101 | Two ledgers holding the same reservations in any order have the same balance for every (sku, stock). |
| StockItemData.GetStockItemData | app/code/Magento/InventoryConfiguration/Test/Integration/GetStockItemData/MinQtyTest.php:56-58 | Data exists iff the SKU is linked to the stock, and its quantity is then the raw index quantity, not reduced by min_qty. |
| StockItemData.IsSalable | app/code/Magento/InventoryConfiguration/Test/Integration/GetStockItemData/MinQtyTest.php:65-110 | The salability rule the data providers fix: always salable when stock is not managed, otherwise salable iff quantity > min_qty. The three table lemmas show it agrees with every tabulated row. |
| StockItemData.MinQtyTableHolds | app/code/Magento/InventoryConfiguration/Test/Integration/GetStockItemData/MinQtyTest.php:53-72 | With min_qty 5 and stock managed, all three rows of `executeWithMinQtyDataProvider` hold for each SKU: 8.5 is salable, 5 and 0 are not, and an unlinked SKU has null quantity and null flag. |
| StockItemData.ManageStockFalseAndMinQtyTableHolds | app/code/Magento/InventoryConfiguration/Test/Integration/GetStockItemData/MinQtyTest.php:91-110 | With min_qty 5 and manage_stock 0, every row of `executeWithManageStockFalseAndMinQty` holds. Every linked SKU is salable, including 0 and 5. |
| StockItemData.ManageStockFalseTableHolds | app/code/Magento/InventoryConfiguration/Test/Integration/GetStockItemData/ManageConfigTest.php:48-67 | With manage_stock 0, every row of `executeWithManageStockFalseDataProvider` holds. Quantity 0 and the positive quantities are salable, unlinked SKUs stay null, and stock 30 reports every SKU. |
| StockItemData.ManageStockOffOnlyChangesFlags | app/code/Magento/InventoryConfiguration/Test/Integration/GetStockItemData/MinQtyTest.php:65-110 | Turning manage-stock off keeps presence and quantities and only sets every flag to salable. |
| StockItemData.PresenceIsPerStock | app/code/Magento/InventoryConfiguration/Test/Integration/GetStockItemData/ManageConfigTest.php:63-64 | SKU-2 is absent on stock 10 and present on stock 20, whatever the configuration. |
| ShipmentSources.AroundCreate | app/code/Magento/InventoryShipping/Plugin/Sales/CollectSourcesForShipmentItems.php:87-133 | A new shipment is created from `proceed`, and returned unchanged when `items` is empty. Otherwise it has the same items, each with `sources` set to the selection for that item on the stock of the order's website and all other fields kept. |
| ShipmentSources.CollectItemSources | app/code/Magento/InventoryShipping/Plugin/Sales/CollectSourcesForShipmentItems.php:120-127 | The sources list has the selection result's length and order, each entry being that result entry's (sourceCode, qtyToDeduct). |
| ShipmentSources.SelectionRequestCarriesOneItem | app/code/Magento/InventoryShipping/Plugin/Sales/CollectSourcesForShipmentItems.php:105-115 | Each selection request carries the given stock and exactly one item with the shipment item's qty. Its SKU is the item's own when truthy, otherwise the SKU of its product. |
| GeoNameLookup.FetchRow | app/code/Magento/InventorySourceSelection/Model/ResourceModel/GetGeoNameDataByAddressRequest.php:46-51 | A fetched row is in the table and meets the criterion, and nothing is fetched iff no row meets it. |
| GeoNameLookup.GetGeoNameData | app/code/Magento/InventorySourceSelection/Model/ResourceModel/GetGeoNameDataByAddressRequest.php:41-73 | A returned row is a row of the table (the lookup only reads it). |
| GeoNameLookup.PostcodeStageWins | app/code/Magento/InventorySourceSelection/Model/ResourceModel/GetGeoNameDataByAddressRequest.php:46-51 | If some row has the address's country code and postcode, a row with both is returned. |
| GeoNameLookup.CityStageIsSecond | app/code/Magento/InventorySourceSelection/Model/ResourceModel/GetGeoNameDataByAddressRequest.php:52-58 | When no row matched country and postcode but one has the city, a row with that city is returned. |
| GeoNameLookup.RegionStageIsLast | app/code/Magento/InventorySourceSelection/Model/ResourceModel/GetGeoNameDataByAddressRequest.php:60-66 | When both earlier stages found nothing, the lookup succeeds iff some row has the region, and then returns such a row. |
| GeoNameLookup.UnknownGeonameIff | app/code/Magento/InventorySourceSelection/Model/ResourceModel/GetGeoNameDataByAddressRequest.php:68-70 | The lookup fails, with the address in the error, iff no stage matches any row. |
| GeoNameLookup.ResultMeetsItsStage | app/code/Magento/InventorySourceSelection/Model/ResourceModel/GetGeoNameDataByAddressRequest.php:46-72 | A returned row satisfies the criterion of the stage that produced it, every earlier stage having matched nothing. |
| GeoNameLookup.CityStageIgnoresCountry | app/code/Magento/InventorySourceSelection/Model/ResourceModel/GetGeoNameDataByAddressRequest.php:52-58 | The city stage does not filter on country: a row of another country with the same city is returned. |
| GeocodeCache.Decode | app/code/Magento/InventorySourceSelection/Model/DistanceProvider/GoogleMap/GetLatLngRequestFromAddress.php:93-103 | HTTP status other than 200 gives "Unable to connect"; a body status other than OK gives "Unable to geocode" with the address; success iff status 200, body OK and a first result, whose location is returned. |
| GeocodeCache.GetLatLngRequestFromAddress.Execute | app/code/Magento/InventorySourceSelection/Model/DistanceProvider/GoogleMap/GetLatLngRequestFromAddress.php:82-111 | A cache hit returns the cached value without a request or an API-key read. A miss without a usable key fails before any request. Otherwise, exactly one request to the geocoding endpoint URL carrying the key and the address string is sent, and its decoded answer is the result. On success the cache gains exactly that entry; on failure it is unchanged. Cached entries are never overwritten or removed. |
| GeocodeCache.GetLatLngRequestFromAddress.RequestLocation | app/code/Magento/InventorySourceSelection/Model/DistanceProvider/GoogleMap/GetLatLngRequestFromAddress.php:87-107 | One request to the geocoding endpoint URL with the key and the address is logged, its decoded answer is returned, and only a success is cached, under the address string. |
| GeocodeCache.RepeatedAddressIsServedFromCache | app/code/Magento/InventorySourceSelection/Model/DistanceProvider/GoogleMap/GetLatLngRequestFromAddress.php:84-110 | Two calls whose address strings are equal share one cache entry. After a first success, the second call returns the same coordinates, and over both calls the requests sent are none when the first call was a hit, and exactly the first call's one request (the endpoint, the key and the address string) when it was a miss, so the second call sends none. After a failed first call nothing is promised: nothing was cached, so the second call misses again and is free to retry with its own request. |
| ApiKey.TrimLeft | app/code/Magento/InventorySourceSelection/Model/DistanceProvider/GoogleMap/GetApiKey.php:45 | The result is a suffix of the input with only trim characters removed, and it does not start with one. |
| ApiKey.TrimRight | app/code/Magento/InventorySourceSelection/Model/DistanceProvider/GoogleMap/GetApiKey.php:45 | The result is a prefix of the input with only trim characters removed, and it does not end with one. |
| ApiKey.TrimBounds | app/code/Magento/InventorySourceSelection/Model/DistanceProvider/GoogleMap/GetApiKey.php:45 | `trim` returns the slice between a prefix and a suffix made of trim characters, neither starting nor ending with one. |
| ApiKey.TrimEmptyIff | app/code/Magento/InventorySourceSelection/Model/DistanceProvider/GoogleMap/GetApiKey.php:45-46 | Trimming gives "" iff the value consists of trim characters only. |
| ApiKey.GetApiKey | app/code/Magento/InventorySourceSelection/Model/DistanceProvider/GoogleMap/GetApiKey.php:43-51 | `execute` as a function: trim the configured value (null reads as "") and reject a falsy result. Its meaning is stated by `ApiKeyAccepted` and `ApiKeyRejectedIff`. |
| ApiKey.ApiKeyAccepted | app/code/Magento/InventorySourceSelection/Model/DistanceProvider/GoogleMap/GetApiKey.php:45-50 | A returned key is the configured value with surrounding whitespace removed: a non-empty slice, not "0", with no whitespace at either end. |
| ApiKey.ApiKeyRejectedIff | app/code/Magento/InventorySourceSelection/Model/DistanceProvider/GoogleMap/GetApiKey.php:45-48 | "Google API key is not defined" is raised iff the value is missing, whitespace only, or trims to "0". |
| ApiKey.ApiKeyZeroExample | app/code/Magento/InventorySourceSelection/Model/DistanceProvider/GoogleMap/GetApiKey.php:46 | A configured " 0 " and a missing value are both rejected. |
| InStockFilter.JoinInStock | app/code/Magento/InventoryCatalog/Model/ResourceModel/AddIsInStockFilterToCollection.php:41-45 | A product remains iff it is in the collection, its SKU has a row in the stock's index table, and that row's quantity is > 0; the join and filter never add rows. |
| InStockFilter.AddIsInStockFilterToCollection | app/code/Magento/InventoryCatalog/Model/ResourceModel/AddIsInStockFilterToCollection.php:37-46 | The index table is the one that `indexOf` resolves for the stock id alone. A product remains iff it is in the collection, its SKU has an index row and that row's quantity is > 0. The result is a subsequence of the collection. |
| InStockFilter.InStockIsSubsequence | app/code/Magento/InventoryCatalog/Model/ResourceModel/AddIsInStockFilterToCollection.php:41-45 | The result is a subsequence of the collection: order kept, nothing added. |
| InStockFilter.InStockIgnoresSalableFlag | app/code/Magento/InventoryCatalog/Model/ResourceModel/AddIsInStockFilterToCollection.php:45 | Index tables that agree on SKUs and quantities give the same result whatever their is-salable column says. |
| InStockFilter.InStockTestsQuantityNotSalable | app/code/Magento/InventoryCatalog/Model/ResourceModel/AddIsInStockFilterToCollection.php:41-45 | A salable row with quantity 0 drops the product, an unsalable row with quantity 3 keeps it, and no row drops it. |
| LowStock.LowStockCollection.FilterByProductType | app/code/Magento/InventoryLowStockNotification/Model/ResourceModel/Product/Lowstock/Collection.php:147-155 | A string or an array adds the type-id condition and returns the collection itself. Any other value fails with "The product type filter specified is incorrect." and adds nothing. |
| LowStock.LowStockCollection.FilterByIsQtyProductTypes | app/code/Magento/InventoryLowStockNotification/Model/ResourceModel/Product/Lowstock/Collection.php:162-167 | Adds exactly the condition "type id among the is-qty types" and returns the collection itself. |
| LowStock.LowStockCollection.UseNotifyStockQtyFilter | app/code/Magento/InventoryLowStockNotification/Model/ResourceModel/Product/Lowstock/Collection.php:174-192 | Adds the notify-quantity condition with the global notify qty cast to int and returns the collection itself. |
| LowStock.LowStockCollection.Load | app/code/Magento/InventoryLowStockNotification/Model/ResourceModel/Product/Lowstock/Collection.php:123-189 | A row is loaded iff it is a source-item row satisfying every condition the filter methods have added. |
| LowStock.SelectRows | app/code/Magento/InventoryLowStockNotification/Model/ResourceModel/Product/Lowstock/Collection.php:123-189 | A row is loaded iff it is a source-item row meeting every added condition; the SELECT never returns more rows than the table holds. |
| LowStock.LowStockIff | app/code/Magento/InventoryLowStockNotification/Model/ResourceModel/Product/Lowstock/Collection.php:123-189 | Under the notify filter, an item is kept iff its quantity is strictly below its own notify qty, matched on SKU and source code. When it has no configuration row or a NULL one, the threshold is the integer part of the global notify qty instead: the left join keeps it. |
| LowStock.IsQtyTypesIff | app/code/Magento/InventoryLowStockNotification/Model/ResourceModel/Product/Lowstock/Collection.php:164 | Under the is-qty filter, a row remains iff its type id has a truthy is-qty flag. |
| LowStock.TruncateToInt | app/code/Magento/InventoryLowStockNotification/Model/ResourceModel/Product/Lowstock/Collection.php:183 | `(int)` truncates toward zero: the result lies within one of the argument, on the side of zero. |
| LowStock.TruncatedDefaultExample | app/code/Magento/InventoryLowStockNotification/Model/ResourceModel/Product/Lowstock/Collection.php:181-189 | With a global notify qty of 1.9, an unconfigured item at quantity 1 is not reported, one at 0.5 is, and an item configured at 1.5 with quantity 1 is. |
| IndexerInvalidation.AfterExecute | app/code/Magento/InventoryIndexer/Plugin/InventoryApi/AssignSourcesToStock/ReindexAfterAssignSourcesToStockPlugin.php:37-43 | The inventory indexer ends not valid. A valid one is invalidated exactly once; any other is left in its state without an `invalidate` call. No other indexer is touched. |
| IndexerInvalidation.Indexer.Invalidate | app/code/Magento/InventoryIndexer/Plugin/InventoryApi/AssignSourcesToStock/ReindexAfterAssignSourcesToStockPlugin.php:41 | `invalidate()` leaves the indexer invalid and counts one call. |
| IndexerInvalidation.StatusAfterHook | app/code/Magento/InventoryIndexer/Plugin/InventoryApi/AssignSourcesToStock/ReindexAfterAssignSourcesToStockPlugin.php:40-42 | A valid indexer ends invalid, a non-valid state is kept, and the state after the hook is never valid. |
| IndexerInvalidation.HookIsIdempotent | app/code/Magento/InventoryIndexer/Plugin/InventoryApi/AssignSourcesToStock/ReindexAfterAssignSourcesToStockPlugin.php:40-42 | Running the hook twice leaves the same state as running it once. |

## Left out

- HTTP, URL query building and JSON decoding in `GetLatLngRequestFromAddress`: the endpoint is a function from
  the query (key, address) to a decoded response (HTTP status, body status, results).
  The endpoint URL is kept as a constant only.
- Coordinates are opaque `real` values; the `(float)` casts of lat/lng are not modelled.
- A response with status "OK" and no results: the PHP code indexes `results[0]` and fails with a notice.
  The model returns a distinct error, `NoResultLocation`, and leaves the cache unchanged.
- SQL mechanics are modelled by their observable result: joins, `getSelect()`, `addFieldToFilter` and
  `addFilterToMap` aliases. The low-stock collection keeps the list of conditions added, and `Load` filters a
  table by them. The product-name EAV join of the low-stock collection (its lines 76-110) is not modelled.
- The `LIMIT 1` queries without `ORDER BY` of the geoname lookup may return any matching row; `FetchRow` returns
  the first in table order, and the lemmas about the lookup only use "some matching row".
- The `(float)` and `(int)` casts of quantities in the deduction service and the back-item plugin are not
  modelled (quantities are treated as exact). The `(int)` cast of the global notify quantity is modelled
  (`TruncateToInt`).
- Duplicate SKUs in one deduction request: whether `GetSourceItemBySourceCodeAndSku` returns the already
  staged object is not visible. The model reads the persisted item each time, and the save applies staged
  items in order, later ones winning.
- Only the `manage_stock` flag of the stock-item configuration is read, and only the quantity of a source item
  is changed; the status and the other fields are carried unchanged.
- Exceptions thrown by the stock resolver, the product repository, the SKU lookup, the stock-item
  configuration lookup (`GetStockItemConfigurationInterface::execute`), the save itself or the reservation
  placement (`PlaceReservationsForSalesEventInterface::execute`) are not modelled: these collaborators are
  total functions here. In particular, a placement failure after the save, which in the service leaves the
  deducted quantities saved with no reservation (there is no transaction around the two), is not modelled.
- The configuration path of the Google API key is not modelled: `ApiKey.GetApiKey` takes the value that the
  configuration holds at that path.
- The salability engine and the index it builds are not part of this model. `StockItemData.FixtureIndex` is
  the index the test fixtures produce, as the expected quantities show it, and `IsSalable` is the rule that
  the tabulated rows determine.
- The source-selection algorithm is an uninterpreted function, and the default algorithm code is a
  parameter. The `$tracks` argument of `aroundCreate` is not modelled, because the plugin only passes it on to
  `proceed`.
- ShipmentSources.AroundCreate: the shipment items are values in a sequence, not shared objects, so aliasing
  between an item and other references to it is not modelled.
- BackItemQty.AroundBackItemQty: the wrapped `$proceed` has no parameter at all, since the plugin never calls it.
- `InventoryIndexer::INDEXER_ID` is taken as "inventory"; `InventoryIndexer` itself is not part of this model.
  IndexerInvalidation.AfterExecute requires the registry to hold that indexer; the registry's own failure for
  an unknown id is not modelled.
- SQL string comparisons are modelled as exact string equality: the geoname stages (`country_code`, `postcode`,
  `city`, `region`), the in-stock join on `sku`, and the low-stock configuration join on `sku` and `source_code`.
  A case-insensitive or trailing-space-insensitive database collation, under which "berlin" matches "Berlin",
  is not modelled.
- LowStock.LowStockCollection.FilterByProductType: the array argument is modelled only as a list of type ids
  that a row's type id must be among. Three things are not modelled:
  - keyed condition arrays such as `['neq' => 'simple']`, which `addFieldToFilter` reads as other operators;
  - the framework's handling of an empty array, which `filterByIsQtyProductTypes` passes when no type has the
    is-qty flag; the model then selects no rows;
  - the product join that supplies `type_id` (the collection's lines 76-90, a left join). The model assumes
    every source-item row carries its product's type id.
- SourceDeduction.DeductionWritesQuantities and the matching clause of SourceDeduction.Execute promise the
  persisted quantities only for requests whose SKUs are distinct. With a repeated SKU, the later staged copy is
  saved last and wins (see the duplicate-SKU line above).
- Concurrency and atomicity under simultaneous requests: the code has no locking or transactions.
- Translation of error messages: errors are datatype constructors named after their messages.
