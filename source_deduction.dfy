/**
 * Deducting shipped quantities from one source and placing the matching reservations
 * (InventoryShipping, Model/SourceDeduction/SourceDeductionService).
 *
 * The persisted source items live in `Inventory.sourceItems`. The service loads each item, lowers the
 * quantity of its loaded copy and stages it; only after every request item has been checked does it save
 * the staged copies and place reservations, so a failing item leaves the store and the reservations as
 * they were. The stock resolver and the stock-item configuration are functions supplied by the caller.
 */
module SourceDeduction {
  import opened Wrappers

  type Sku = string
  type SourceCode = string
  type SourceItemKey = (SourceCode, Sku)

  datatype SalesChannel = SalesChannel(channelType: string, code: string)
  datatype SalesEvent = SalesEvent(eventType: string, objectType: string, objectId: string)

  /** A request item: the SKU and the quantity to deduct. */
  datatype ItemToDeduct = ItemToDeduct(sku: Sku, qty: real)

  datatype SourceDeductionRequest = SourceDeductionRequest(
    sourceCode: SourceCode, items: seq<ItemToDeduct>, salesChannel: SalesChannel, salesEvent: SalesEvent)

  /** The part of the stock-item configuration the service reads. */
  datatype StockItemConfiguration = StockItemConfiguration(manageStock: bool)

  datatype SourceItemStatus = OutOfStock | InStock

  datatype SourceItem = SourceItem(sourceCode: SourceCode, sku: Sku, quantity: real, status: SourceItemStatus)

  datatype ItemToSell = ItemToSell(sku: Sku, qty: real)

  datatype DeductionError = NotAllProductsAvailable  // 'Not all of your products are available in the requested quantity.'

  /** The calls the service makes on its two writing collaborators, in order. */
  datatype Effect =
    | SavedSourceItems(sourceItems: seq<SourceItem>)
    | PlacedReservations(itemsToSell: seq<ItemToSell>, salesChannel: SalesChannel, salesEvent: SalesEvent)

  /** The staged source items and the items to sell collected by the loop. */
  datatype Staging = Staging(sourceItems: seq<SourceItem>, itemsToSell: seq<ItemToSell>)

  type SourceItemStore = map<SourceItemKey, SourceItem>

  /** The store's primary key is (source code, sku). */
  predicate WellKeyed(store: SourceItemStore)
  {
    forall key :: key in store ==> store[key].sourceCode == key.0 && store[key].sku == key.1
  }

  /** `GetSourceItemBySourceCodeAndSku`: the persisted source item, or null. */
  function GetSourceItem(store: SourceItemStore, sourceCode: SourceCode, sku: Sku): Option<SourceItem>
  {
    if (sourceCode, sku) in store then Some(store[(sourceCode, sku)]) else None
  }

  /** An item the loop does not skip: its configuration exists and manages stock, and the source holds it. */
  predicate Deductible(
    item: ItemToDeduct, sourceCode: SourceCode, stockId: int,
    configOf: (Sku, int) -> Option<StockItemConfiguration>, store: SourceItemStore)
  {
    var config := configOf(item.sku, stockId);
    config.Some? && config.value.manageStock && (sourceCode, item.sku) in store
  }

  /** A deductible item whose source quantity is below the quantity requested. */
  predicate Shortfall(
    item: ItemToDeduct, sourceCode: SourceCode, stockId: int,
    configOf: (Sku, int) -> Option<StockItemConfiguration>, store: SourceItemStore)
  {
    Deductible(item, sourceCode, stockId, configOf, store) &&
    store[(sourceCode, item.sku)].quantity - item.qty < 0.0
  }

  /** One iteration of the loop on the staging collected so far. */
  function Step(
    staging: Staging, item: ItemToDeduct, sourceCode: SourceCode, stockId: int,
    configOf: (Sku, int) -> Option<StockItemConfiguration>, store: SourceItemStore)
    : Result<Staging, DeductionError>
  {
    var config := configOf(item.sku, stockId);
    if config.None? || !config.value.manageStock then Success(staging)
    else
      match GetSourceItem(store, sourceCode, item.sku)
      case None => Success(staging)
      case Some(sourceItem) =>
        if sourceItem.quantity - item.qty >= 0.0 then
          Success(Staging(
            staging.sourceItems + [sourceItem.(quantity := sourceItem.quantity - item.qty)],
            staging.itemsToSell + [ItemToSell(item.sku, item.qty)]))
        else Failure(NotAllProductsAvailable)
  }

  /** The loop over `items` in request order, stopping at the first failure. */
  function Plan(
    items: seq<ItemToDeduct>, sourceCode: SourceCode, stockId: int,
    configOf: (Sku, int) -> Option<StockItemConfiguration>, store: SourceItemStore)
    : Result<Staging, DeductionError>
    decreases |items|
  {
    if items == [] then Success(Staging([], []))
    else
      match Plan(items[..|items| - 1], sourceCode, stockId, configOf, store)
      case Failure(e) => Failure(e)
      case Success(staging) => Step(staging, items[|items| - 1], sourceCode, stockId, configOf, store)
  }

  /** The request items the loop deducts, in request order. */
  function DeductibleItems(
    items: seq<ItemToDeduct>, sourceCode: SourceCode, stockId: int,
    configOf: (Sku, int) -> Option<StockItemConfiguration>, store: SourceItemStore)
    : seq<ItemToDeduct>
    decreases |items|
  {
    if items == [] then []
    else
      var rest := DeductibleItems(items[..|items| - 1], sourceCode, stockId, configOf, store);
      if Deductible(items[|items| - 1], sourceCode, stockId, configOf, store) then rest + [items[|items| - 1]]
      else rest
  }

  /** `SourceItemsSaveInterface::execute`: each item overwrites the stored item with its key, in order. */
  function ApplySave(store: SourceItemStore, items: seq<SourceItem>): SourceItemStore
    decreases |items|
  {
    if items == [] then store
    else ApplySave(store[(items[0].sourceCode, items[0].sku) := items[0]], items[1..])
  }

  /** A failure of a prefix of the request is a failure of the whole request. */
  lemma {:induction false} PlanPrefixFailure(
    items: seq<ItemToDeduct>, j: nat, sourceCode: SourceCode, stockId: int,
    configOf: (Sku, int) -> Option<StockItemConfiguration>, store: SourceItemStore)
    requires j <= |items|
    requires Plan(items[..j], sourceCode, stockId, configOf, store).Failure?
    ensures Plan(items, sourceCode, stockId, configOf, store).Failure?
    decreases |items|
  {
    if j == |items| {
      assert items[..j] == items;
    } else {
      var front := items[..|items| - 1];
      assert front[..j] == items[..j];
      PlanPrefixFailure(front, j, sourceCode, stockId, configOf, store);
    }
  }

  /** The deduction fails exactly when some item that is not skipped asks for more than its source holds. */
  lemma {:induction false} PlanFailsIffShortfall(
    items: seq<ItemToDeduct>, sourceCode: SourceCode, stockId: int,
    configOf: (Sku, int) -> Option<StockItemConfiguration>, store: SourceItemStore)
    ensures Plan(items, sourceCode, stockId, configOf, store).Failure? <==>
      exists k :: 0 <= k < |items| && Shortfall(items[k], sourceCode, stockId, configOf, store)
    decreases |items|
  {
    if items != [] {
      var n := |items| - 1;
      var front := items[..n];
      PlanFailsIffShortfall(front, sourceCode, stockId, configOf, store);
      assert forall k :: 0 <= k < n ==> front[k] == items[k];
      if exists k :: 0 <= k < |items| && Shortfall(items[k], sourceCode, stockId, configOf, store) {
        var k :| 0 <= k < |items| && Shortfall(items[k], sourceCode, stockId, configOf, store);
        if k < n {
          assert Shortfall(front[k], sourceCode, stockId, configOf, store);
        }
      }
    }
  }

  /** On success the staged source items and the items to sell match the deductible request items one to one,
      in request order: same SKU and quantity, the staged quantity being the stored one minus the quantity
      (possibly exactly 0, never below), all else of the source item unchanged. */
  lemma {:induction false} PlanStagesDeductibleItems(
    items: seq<ItemToDeduct>, sourceCode: SourceCode, stockId: int,
    configOf: (Sku, int) -> Option<StockItemConfiguration>, store: SourceItemStore)
    requires Plan(items, sourceCode, stockId, configOf, store).Success?
    ensures var staging := Plan(items, sourceCode, stockId, configOf, store).value;
      var deducted := DeductibleItems(items, sourceCode, stockId, configOf, store);
      |staging.sourceItems| == |deducted| && |staging.itemsToSell| == |deducted| &&
      forall k :: 0 <= k < |deducted| ==>
        (sourceCode, deducted[k].sku) in store &&
        staging.itemsToSell[k] == ItemToSell(deducted[k].sku, deducted[k].qty) &&
        staging.sourceItems[k] == store[(sourceCode, deducted[k].sku)].(
          quantity := store[(sourceCode, deducted[k].sku)].quantity - deducted[k].qty) &&
        staging.sourceItems[k].quantity >= 0.0
    decreases |items|
  {
    if items != [] {
      var n := |items| - 1;
      var front := items[..n];
      assert Plan(front, sourceCode, stockId, configOf, store).Success?;
      PlanStagesDeductibleItems(front, sourceCode, stockId, configOf, store);
    }
  }

  /** An item is deducted exactly when it is a request item that is not skipped. */
  lemma {:induction false} DeductibleItemsMembership(
    items: seq<ItemToDeduct>, sourceCode: SourceCode, stockId: int,
    configOf: (Sku, int) -> Option<StockItemConfiguration>, store: SourceItemStore, item: ItemToDeduct)
    ensures item in DeductibleItems(items, sourceCode, stockId, configOf, store) <==>
      item in items && Deductible(item, sourceCode, stockId, configOf, store)
    decreases |items|
  {
    if items != [] {
      var n := |items| - 1;
      DeductibleItemsMembership(items[..n], sourceCode, stockId, configOf, store, item);
      assert items == items[..n] + [items[n]];
    }
  }

  /** Saving changes only the stored items whose keys the saved items carry. */
  lemma {:induction false} ApplySaveFrame(store: SourceItemStore, items: seq<SourceItem>, key: SourceItemKey)
    requires forall k :: 0 <= k < |items| ==> (items[k].sourceCode, items[k].sku) != key
    ensures key in ApplySave(store, items) <==> key in store
    ensures key in store ==> ApplySave(store, items)[key] == store[key]
    decreases |items|
  {
    if items != [] {
      ApplySaveFrame(store[(items[0].sourceCode, items[0].sku) := items[0]], items[1..], key);
    }
  }

  /** Saving keeps the store well keyed: each item is written under its own (source code, sku). */
  lemma {:induction false} ApplySaveKeepsWellKeyed(store: SourceItemStore, items: seq<SourceItem>)
    requires WellKeyed(store)
    ensures WellKeyed(ApplySave(store, items))
    decreases |items|
  {
    if items != [] {
      var next := store[(items[0].sourceCode, items[0].sku) := items[0]];
      assert WellKeyed(next);
      ApplySaveKeepsWellKeyed(next, items[1..]);
    }
  }

  /** Saving writes each item: an item whose key no later item carries is what the store holds under that key. */
  lemma {:induction false} ApplySaveWrites(store: SourceItemStore, items: seq<SourceItem>, k: nat)
    requires k < |items|
    requires forall j :: k < j < |items| ==>
      (items[j].sourceCode, items[j].sku) != (items[k].sourceCode, items[k].sku)
    ensures (items[k].sourceCode, items[k].sku) in ApplySave(store, items)
    ensures ApplySave(store, items)[(items[k].sourceCode, items[k].sku)] == items[k]
    decreases |items|
  {
    var next := store[(items[0].sourceCode, items[0].sku) := items[0]];
    if k == 0 {
      ApplySaveFrame(next, items[1..], (items[0].sourceCode, items[0].sku));
    } else {
      ApplySaveWrites(next, items[1..], k - 1);
    }
  }

  /** No two request items name the same SKU. */
  predicate DistinctSkus(items: seq<ItemToDeduct>)
  {
    forall i, j :: 0 <= i < j < |items| ==> items[i].sku != items[j].sku
  }

  /** The deducted items of a request with distinct SKUs have distinct SKUs too. */
  lemma {:induction false} DeductibleItemsDistinct(
    items: seq<ItemToDeduct>, sourceCode: SourceCode, stockId: int,
    configOf: (Sku, int) -> Option<StockItemConfiguration>, store: SourceItemStore)
    requires DistinctSkus(items)
    ensures DistinctSkus(DeductibleItems(items, sourceCode, stockId, configOf, store))
    decreases |items|
  {
    if items != [] {
      var n := |items| - 1;
      var front := items[..n];
      assert DistinctSkus(front);
      DeductibleItemsDistinct(front, sourceCode, stockId, configOf, store);
      var rest := DeductibleItems(front, sourceCode, stockId, configOf, store);
      forall k | 0 <= k < |rest| ensures rest[k].sku != items[n].sku {
        DeductibleItemsMembership(front, sourceCode, stockId, configOf, store, rest[k]);
        var i :| 0 <= i < |front| && front[i] == rest[k];
        assert items[i] == rest[k];
      }
    }
  }

  /** After a successful deduction of a request with distinct SKUs, the store holds, for every item that is not
      skipped, its source item with the quantity lowered by exactly the quantity asked for; a skipped item's
      source item, if any, is as it was. */
  lemma DeductionWritesQuantities(
    items: seq<ItemToDeduct>, sourceCode: SourceCode, stockId: int,
    configOf: (Sku, int) -> Option<StockItemConfiguration>, store: SourceItemStore, k: nat)
    requires WellKeyed(store) && DistinctSkus(items) && k < |items|
    requires Plan(items, sourceCode, stockId, configOf, store).Success?
    ensures var saved := ApplySave(store, Plan(items, sourceCode, stockId, configOf, store).value.sourceItems);
      var key := (sourceCode, items[k].sku);
      (key in saved <==> key in store) &&
      (Deductible(items[k], sourceCode, stockId, configOf, store) ==>
        saved[key] == store[key].(quantity := store[key].quantity - items[k].qty)) &&
      (!Deductible(items[k], sourceCode, stockId, configOf, store) && key in store ==> saved[key] == store[key])
  {
    var staged := Plan(items, sourceCode, stockId, configOf, store).value.sourceItems;
    var deducted := DeductibleItems(items, sourceCode, stockId, configOf, store);
    var key := (sourceCode, items[k].sku);
    PlanStagesDeductibleItems(items, sourceCode, stockId, configOf, store);
    DeductibleItemsDistinct(items, sourceCode, stockId, configOf, store);
    assert forall j :: 0 <= j < |staged| ==> (staged[j].sourceCode, staged[j].sku) == (sourceCode, deducted[j].sku);
    DeductibleItemsMembership(items, sourceCode, stockId, configOf, store, items[k]);
    if Deductible(items[k], sourceCode, stockId, configOf, store) {
      var m :| 0 <= m < |deducted| && deducted[m] == items[k];
      ApplySaveWrites(store, staged, m);
    } else {
      forall j | 0 <= j < |staged| ensures (staged[j].sourceCode, staged[j].sku) != key {
        DeductibleItemsMembership(items, sourceCode, stockId, configOf, store, deducted[j]);
        var i :| 0 <= i < |items| && items[i] == deducted[j];
        assert i != k;
      }
      ApplySaveFrame(store, staged, key);
    }
  }

  /** Every item of `items` that is not skipped is held in `after` with the quantity it has in `before` lowered
      by the quantity asked for. */
  ghost predicate PersistedDeductions(
    items: seq<ItemToDeduct>, sourceCode: SourceCode, stockId: int,
    configOf: (Sku, int) -> Option<StockItemConfiguration>, before: SourceItemStore, after: SourceItemStore)
  {
    forall k :: 0 <= k < |items| && Deductible(items[k], sourceCode, stockId, configOf, before) ==>
      (sourceCode, items[k].sku) in after &&
      after[(sourceCode, items[k].sku)].quantity == before[(sourceCode, items[k].sku)].quantity - items[k].qty
  }

  /** The persisted result of a successful deduction of a request with distinct SKUs: every item that is not
      skipped is lowered by exactly its quantity. */
  lemma DeductionPersistsQuantities(
    items: seq<ItemToDeduct>, sourceCode: SourceCode, stockId: int,
    configOf: (Sku, int) -> Option<StockItemConfiguration>, store: SourceItemStore)
    requires WellKeyed(store) && DistinctSkus(items)
    requires Plan(items, sourceCode, stockId, configOf, store).Success?
    ensures PersistedDeductions(items, sourceCode, stockId, configOf, store,
      ApplySave(store, Plan(items, sourceCode, stockId, configOf, store).value.sourceItems))
  {
    forall k | 0 <= k < |items| {
      DeductionWritesQuantities(items, sourceCode, stockId, configOf, store, k);
    }
  }

  /** A successful deduction changes no source item of another source, nor any item whose SKU the request
      does not name. */
  lemma DeductionLeavesOtherItems(
    items: seq<ItemToDeduct>, sourceCode: SourceCode, stockId: int,
    configOf: (Sku, int) -> Option<StockItemConfiguration>, store: SourceItemStore, key: SourceItemKey)
    requires WellKeyed(store)
    requires Plan(items, sourceCode, stockId, configOf, store).Success?
    requires key.0 != sourceCode || forall k :: 0 <= k < |items| ==> items[k].sku != key.1
    ensures var saved := ApplySave(store, Plan(items, sourceCode, stockId, configOf, store).value.sourceItems);
      (key in saved <==> key in store) && (key in store ==> saved[key] == store[key])
  {
    var staged := Plan(items, sourceCode, stockId, configOf, store).value.sourceItems;
    var deducted := DeductibleItems(items, sourceCode, stockId, configOf, store);
    PlanStagesDeductibleItems(items, sourceCode, stockId, configOf, store);
    forall k | 0 <= k < |staged| ensures (staged[k].sourceCode, staged[k].sku) != key {
      DeductibleItemsMembership(items, sourceCode, stockId, configOf, store, deducted[k]);
      assert deducted[k] in items;
    }
    ApplySaveFrame(store, staged, key);
  }

  /** The persisted world the service acts on: source items and the calls made on the writing collaborators. */
  class Inventory {
    var sourceItems: SourceItemStore
    var effects: seq<Effect>

    ghost predicate Valid()
      reads this
    {
      WellKeyed(sourceItems)
    }

    constructor (sourceItems: SourceItemStore)
      requires WellKeyed(sourceItems)
      ensures Valid() && this.sourceItems == sourceItems && effects == []
    {
      this.sourceItems := sourceItems;
      effects := [];
    }

    /** `SourceItemsSaveInterface::execute`. */
    method SaveSourceItems(items: seq<SourceItem>)
      requires Valid()
      modifies this
      ensures Valid()
      ensures sourceItems == ApplySave(old(sourceItems), items)
      ensures effects == old(effects) + [SavedSourceItems(items)]
    {
      ApplySaveKeepsWellKeyed(sourceItems, items);
      sourceItems := ApplySave(sourceItems, items);
      effects := effects + [SavedSourceItems(items)];
    }

    /** `PlaceReservationsForSalesEventInterface::execute`. */
    method PlaceReservationsForSalesEvent(itemsToSell: seq<ItemToSell>, salesChannel: SalesChannel, salesEvent: SalesEvent)
      modifies this
      ensures sourceItems == old(sourceItems)
      ensures effects == old(effects) + [PlacedReservations(itemsToSell, salesChannel, salesEvent)]
    {
      effects := effects + [PlacedReservations(itemsToSell, salesChannel, salesEvent)];
    }
  }

  /** `SourceDeductionService::execute($sourceDeductionRequest)`. The stock id is resolved once from the
      request's sales channel. On success the staged items are saved once and then reservations are placed
      once; on failure nothing is saved and nothing is placed. */
  method Execute(
    inventory: Inventory,
    request: SourceDeductionRequest,
    stockResolver: (string, string) -> int,
    configOf: (Sku, int) -> Option<StockItemConfiguration>)
    returns (outcome: Outcome<DeductionError>)
    requires inventory.Valid()
    modifies inventory
    ensures inventory.Valid()
    ensures var stockId := stockResolver(request.salesChannel.channelType, request.salesChannel.code);
      match Plan(request.items, request.sourceCode, stockId, configOf, old(inventory.sourceItems))
      case Failure(e) =>
        outcome == Fail(e) &&
        inventory.sourceItems == old(inventory.sourceItems) && inventory.effects == old(inventory.effects)
      case Success(staging) =>
        outcome == Pass &&
        inventory.sourceItems == ApplySave(old(inventory.sourceItems), staging.sourceItems) &&
        inventory.effects == old(inventory.effects) + [
          SavedSourceItems(staging.sourceItems),
          PlacedReservations(staging.itemsToSell, request.salesChannel, request.salesEvent)]
    ensures var stockId := stockResolver(request.salesChannel.channelType, request.salesChannel.code);
      outcome.Fail? <==>
        exists k :: 0 <= k < |request.items| &&
          Shortfall(request.items[k], request.sourceCode, stockId, configOf, old(inventory.sourceItems))
    // With distinct SKUs, each item that is not skipped is persisted with its quantity lowered by qty.
    ensures var stockId := stockResolver(request.salesChannel.channelType, request.salesChannel.code);
      outcome.Pass? && DistinctSkus(request.items) ==>
        PersistedDeductions(request.items, request.sourceCode, stockId, configOf,
          old(inventory.sourceItems), inventory.sourceItems)
  {
    var sourceCode := request.sourceCode;
    var salesChannel := request.salesChannel;
    var stockId := stockResolver(salesChannel.channelType, salesChannel.code);
    ghost var store := inventory.sourceItems;
    PlanFailsIffShortfall(request.items, sourceCode, stockId, configOf, store);
    var sourceItemToSave: seq<SourceItem> := [];
    var itemsToSell: seq<ItemToSell> := [];
    var i := 0;
    while i < |request.items|
      invariant 0 <= i <= |request.items|
      invariant inventory.sourceItems == store && inventory.effects == old(inventory.effects)
      invariant Plan(request.items[..i], sourceCode, stockId, configOf, store) ==
        Success(Staging(sourceItemToSave, itemsToSell))
    {
      var item := request.items[i];
      assert request.items[..i + 1][..i] == request.items[..i];
      var stockItemConfiguration := configOf(item.sku, stockId);
      if stockItemConfiguration.Some? && stockItemConfiguration.value.manageStock {
        var sourceItem := GetSourceItem(inventory.sourceItems, sourceCode, item.sku);
        if sourceItem.Some? {
          if sourceItem.value.quantity - item.qty >= 0.0 {
            var updated := sourceItem.value.(quantity := sourceItem.value.quantity - item.qty);
            sourceItemToSave := sourceItemToSave + [updated];
            itemsToSell := itemsToSell + [ItemToSell(item.sku, item.qty)];
          } else {
            PlanPrefixFailure(request.items, i + 1, sourceCode, stockId, configOf, store);
            assert Plan(request.items, sourceCode, stockId, configOf, store).error.NotAllProductsAvailable?;
            return Fail(NotAllProductsAvailable);
          }
        }
      }
      i := i + 1;
    }
    assert request.items[..i] == request.items;
    inventory.SaveSourceItems(sourceItemToSave);
    var salesEvent := request.salesEvent;
    inventory.PlaceReservationsForSalesEvent(itemsToSell, salesChannel, salesEvent);
    outcome := Pass;
    if DistinctSkus(request.items) {
      DeductionPersistsQuantities(request.items, sourceCode, stockId, configOf, store);
    }
  }
}
