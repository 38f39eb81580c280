/**
 * Returning items to stock through the reservation ledger instead of the legacy stock item
 * (InventorySales, Plugin/CatalogInventory/StockManagement/ProcessBackItemQtyPlugin).
 * The plugin replaces `StockManagement::backItemQty` entirely: the wrapped method is never called, so the
 * model has no parameter for it. Product lookup, type check, stock resolution and SKU lookup are functions
 * supplied by the caller.
 */
module BackItemQty {
  import opened Wrappers
  import opened Reservations

  datatype BackItemQtyError = ScopeIdRequired  // '$scopeId is required'

  /** `aroundBackItemQty($subject, $proceed, $productId, $qty, $scopeId)`. `scopeId` is the website id. */
  method AroundBackItemQty(
    ledger: ReservationLedger,
    productId: int,
    qty: real,
    scopeId: Option<int>,
    typeIdOf: int -> string,
    isSourceItemsManagementAllowed: string -> bool,
    stockIdOfWebsite: int -> int,
    skuOf: int -> string)
    returns (r: Result<bool, BackItemQtyError>)
    modifies ledger
    ensures scopeId.None? ==> r == Failure(ScopeIdRequired) && ledger.entries == old(ledger.entries)
    ensures scopeId.Some? ==> r == Success(true)
    ensures scopeId.Some? && isSourceItemsManagementAllowed(typeIdOf(productId)) ==>
      ledger.entries == old(ledger.entries) + [Reservation(skuOf(productId), qty, stockIdOfWebsite(scopeId.value))]
    ensures scopeId.Some? && !isSourceItemsManagementAllowed(typeIdOf(productId)) ==>
      ledger.entries == old(ledger.entries)
  {
    if scopeId.None? {
      return Failure(ScopeIdRequired);
    }
    var typeId := typeIdOf(productId);
    if isSourceItemsManagementAllowed(typeId) {
      var stockId := stockIdOfWebsite(scopeId.value);
      var productSku := skuOf(productId);
      var reservation := Reservation(productSku, qty, stockId);
      ledger.Append([reservation]);
    }
    r := Success(true);
  }

  /** Returning `qty` of a SKU raises that SKU's balance on that stock by exactly `qty` and leaves the balance
      of every other (sku, stock) pair as it was. */
  lemma ReturnRaisesBalance(entries: seq<Reservation>, returned: Reservation, sku: string, stockId: int)
    ensures Balance(entries + [returned], sku, stockId) ==
      Balance(entries, sku, stockId) + (if sku == returned.sku && stockId == returned.stockId then returned.quantity else 0.0)
  {
    BalanceOfConcat(entries, [returned], sku, stockId);
    assert [returned][1..] == [];
  }
}
