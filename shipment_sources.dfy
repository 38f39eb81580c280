/**
 * Attaching selected sources to the items of a new shipment
 * (InventoryShipping, Plugin/Sales/CollectSourcesForShipmentItems).
 * The wrapped shipment factory, the stock resolver, the SKU lookup and the source-selection service are
 * functions supplied by the caller.
 */
module ShipmentSources {
  import opened Wrappers
  import opened Php

  datatype ItemRequest = ItemRequest(sku: string, qty: real)
  datatype InventoryRequest = InventoryRequest(stockId: int, items: seq<ItemRequest>)

  datatype SourceSelectionItem = SourceSelectionItem(sourceCode: string, sku: string, qtyToDeduct: real, qtyAvailable: real)
  datatype SourceSelectionResult = SourceSelectionResult(sourceSelectionItems: seq<SourceSelectionItem>, isShippable: bool)

  /** An entry of an item's `sources`: the `sourceCode` and `qtyToDeduct` pair. */
  datatype ItemSource = ItemSource(sourceCode: string, qtyToDeduct: real)

  /** A shipment item; `sku` may be null or empty, `sources` is null until set. */
  datatype ShipmentItem = ShipmentItem(sku: Option<string>, productId: int, qty: real, sources: Option<seq<ItemSource>>)

  /** The order, reduced to the website of its store. */
  datatype Order = Order(websiteId: int)

  /** The shipment the factory creates; the plugin updates its items in place. */
  class Shipment {
    var items: seq<ShipmentItem>

    constructor (items: seq<ShipmentItem>)
      ensures this.items == items
    {
      this.items := items;
    }
  }

  /** `$item->getSku() ?: getSkusByProductIds([$productId])[$productId]`. */
  function ItemSku(item: ShipmentItem, skuOfProduct: int -> string): string
  {
    if Truthy(item.sku) then item.sku.value else skuOfProduct(item.productId)
  }

  /** The selection request for one shipment item: the stock and that item alone. */
  function SelectionRequest(item: ShipmentItem, stockId: int, skuOfProduct: int -> string): InventoryRequest
  {
    InventoryRequest(stockId, [ItemRequest(ItemSku(item, skuOfProduct), item.qty)])
  }

  /** The sources a selection result gives an item: its entries in order, each reduced to its code and the
      quantity to deduct. */
  function ToItemSources(selected: seq<SourceSelectionItem>): (r: seq<ItemSource>)
  {
    seq(|selected|, k requires 0 <= k < |selected| => ItemSource(selected[k].sourceCode, selected[k].qtyToDeduct))
  }

  /** What the plugin sets as `sources` of one item. */
  function SourcesFor(
    item: ShipmentItem, stockId: int, skuOfProduct: int -> string,
    select: (InventoryRequest, string) -> SourceSelectionResult, algorithmCode: string): seq<ItemSource>
  {
    ToItemSources(select(SelectionRequest(item, stockId, skuOfProduct), algorithmCode).sourceSelectionItems)
  }

  /** The inner loop: one `(sourceCode, qtyToDeduct)` pair per selection entry, same length and order. */
  method CollectItemSources(result: SourceSelectionResult) returns (sources: seq<ItemSource>)
    ensures |sources| == |result.sourceSelectionItems|
    ensures forall k :: 0 <= k < |sources| ==>
      sources[k].sourceCode == result.sourceSelectionItems[k].sourceCode &&
      sources[k].qtyToDeduct == result.sourceSelectionItems[k].qtyToDeduct
  {
    sources := [];
    var i := 0;
    while i < |result.sourceSelectionItems|
      invariant 0 <= i <= |result.sourceSelectionItems|
      invariant |sources| == i
      invariant forall k :: 0 <= k < i ==>
        sources[k] == ItemSource(result.sourceSelectionItems[k].sourceCode, result.sourceSelectionItems[k].qtyToDeduct)
    {
      var data := result.sourceSelectionItems[i];
      sources := sources + [ItemSource(data.sourceCode, data.qtyToDeduct)];
      i := i + 1;
    }
  }

  /** `aroundCreate($subject, $proceed, $order, $items, $tracks)`. `items` maps order item ids to quantities.
      The shipment `proceed` created is returned; when `items` is not empty, each of its items gets the
      sources selected for it on the stock of the order's website, the other fields staying as they were. */
  method AroundCreate(
    order: Order,
    items: map<int, real>,
    proceed: (Order, map<int, real>) -> seq<ShipmentItem>,
    stockIdOfWebsite: int -> int,
    skuOfProduct: int -> string,
    select: (InventoryRequest, string) -> SourceSelectionResult,
    algorithmCode: string)
    returns (shipment: Shipment)
    ensures fresh(shipment)
    ensures |items| == 0 ==> shipment.items == proceed(order, items)
    ensures |shipment.items| == |proceed(order, items)|
    ensures |items| != 0 ==> forall k :: 0 <= k < |shipment.items| ==>
      var created := proceed(order, items)[k];
      shipment.items[k] == created.(sources :=
        Some(SourcesFor(created, stockIdOfWebsite(order.websiteId), skuOfProduct, select, algorithmCode)))
  {
    shipment := new Shipment(proceed(order, items));
    if |items| == 0 {
      return;
    }
    var stockId := stockIdOfWebsite(order.websiteId);
    ghost var created := shipment.items;
    var i := 0;
    while i < |shipment.items|
      invariant 0 <= i <= |shipment.items| == |created|
      invariant forall k :: 0 <= k < i ==>
        shipment.items[k] == created[k].(sources := Some(SourcesFor(created[k], stockId, skuOfProduct, select, algorithmCode)))
      invariant forall k :: i <= k < |created| ==> shipment.items[k] == created[k]
    {
      var item := shipment.items[i];
      var inventoryRequest := SelectionRequest(item, stockId, skuOfProduct);
      var sourceSelectionResult := select(inventoryRequest, algorithmCode);
      var shippingItemSources := CollectItemSources(sourceSelectionResult);
      assert shippingItemSources == ToItemSources(sourceSelectionResult.sourceSelectionItems);
      shipment.items := shipment.items[i := item.(sources := Some(shippingItemSources))];
      i := i + 1;
    }
  }

  /** Each selection request carries the stock of the order's website and exactly one item, with that shipment
      item's quantity and its own SKU when truthy, the SKU of its product otherwise. */
  lemma SelectionRequestCarriesOneItem(item: ShipmentItem, stockId: int, skuOfProduct: int -> string)
    ensures var request := SelectionRequest(item, stockId, skuOfProduct);
      request.stockId == stockId && |request.items| == 1 && request.items[0].qty == item.qty &&
      (item.sku.Some? && item.sku.value != "" && item.sku.value != "0" ==> request.items[0].sku == item.sku.value) &&
      (item.sku.None? || item.sku.value == "" || item.sku.value == "0" ==>
        request.items[0].sku == skuOfProduct(item.productId))
  {
  }
}
