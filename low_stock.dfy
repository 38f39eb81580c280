/**
 * The low-stock report's source-item collection
 * (InventoryLowStockNotification, ResourceModel/Product/Lowstock/Collection).
 * The collection's SELECT is modelled as the list of conditions its filter methods have added; what the
 * collection loads is the source-item rows that satisfy all of them.
 */
module LowStock {
  import opened Wrappers

  /** A source-item row as the report sees it: the source item with the type id of its product, which the
      collection's product join supplies. */
  datatype SourceItemRow = SourceItemRow(sku: string, sourceCode: string, quantity: real, typeId: string)

  /** The PHP value passed as `$typeFilter`, whose type the method inspects at run time. A string is taken as
      one type id and a PHP array as a list of type ids, a row matching when its type id is one of them. */
  datatype TypeFilterArg = StringFilter(typeId: string) | ArrayFilter(typeIds: set<string>) | OtherValue

  /** A WHERE condition added to the collection. */
  datatype Condition =
    | TypeIdIn(typeIds: set<string>)       // addFieldToFilter('type_id', ...)
    | QuantityBelowNotify(defaultNotifyQty: int)  // quantity < IFNULL(notify_stock_qty, default)

  datatype FilterError = IncorrectProductTypeFilter  // 'The product type filter specified is incorrect.'

  /** The source-item configuration table: `notify_stock_qty` per (sku, source_code), possibly NULL. */
  type SourceItemConfigurations = map<(string, string), Option<real>>

  /** PHP's `(int)` cast of a float: truncation toward zero. */
  function TruncateToInt(x: real): (n: int)
    ensures x >= 0.0 ==> n as real <= x < n as real + 1.0
    ensures x < 0.0 ==> n as real - 1.0 < x <= n as real
  {
    if x >= 0.0 then x.Floor else -((-x).Floor)
  }

  /** The left join on both sku and source code: an item without a configuration row reads NULL. */
  function ItemNotifyQty(configurations: SourceItemConfigurations, row: SourceItemRow): Option<real>
  {
    if (row.sku, row.sourceCode) in configurations then configurations[(row.sku, row.sourceCode)] else None
  }

  /** `IFNULL(notify_stock_qty, default)`. */
  function NotifyThreshold(itemNotifyQty: Option<real>, defaultNotifyQty: int): real
  {
    match itemNotifyQty
    case Some(q) => q
    case None => defaultNotifyQty as real
  }

  predicate Holds(c: Condition, row: SourceItemRow, configurations: SourceItemConfigurations)
  {
    match c
    case TypeIdIn(typeIds) => row.typeId in typeIds
    case QuantityBelowNotify(d) => row.quantity < NotifyThreshold(ItemNotifyQty(configurations, row), d)
  }

  predicate HoldsAll(conditions: seq<Condition>, row: SourceItemRow, configurations: SourceItemConfigurations)
  {
    forall k :: 0 <= k < |conditions| ==> Holds(conditions[k], row, configurations)
  }

  /** The rows a SELECT with these conditions returns, in table order. */
  function SelectRows(rows: seq<SourceItemRow>, conditions: seq<Condition>, configurations: SourceItemConfigurations)
    : (r: seq<SourceItemRow>)
    ensures |r| <= |rows|
    // A row is returned exactly when it is a row of the table that satisfies every condition.
    ensures forall row :: row in r <==> row in rows && HoldsAll(conditions, row, configurations)
  {
    if rows == [] then []
    else
      assert rows == [rows[0]] + rows[1..];
      var rest := SelectRows(rows[1..], conditions, configurations);
      if HoldsAll(conditions, rows[0], configurations) then [rows[0]] + rest else rest
  }

  /** The type ids whose is-qty flag is truthy: `array_keys(array_filter($isQtyTypeIds))`. */
  function QtyTypeIds(isQtyTypeIds: map<string, bool>): set<string>
  {
    set t | t in isQtyTypeIds && isQtyTypeIds[t]
  }

  /** Under the notify-qty filter an item is low on stock exactly when its quantity is below its own notify
      quantity, or below the integer part of the global notify quantity when it has none (no configuration
      row, or a NULL one). */
  lemma LowStockIff(
    rows: seq<SourceItemRow>, configurations: SourceItemConfigurations, globalNotifyQty: real, row: SourceItemRow)
    ensures row in SelectRows(rows, [QuantityBelowNotify(TruncateToInt(globalNotifyQty))], configurations) <==>
      row in rows &&
      (if (row.sku, row.sourceCode) in configurations && configurations[(row.sku, row.sourceCode)].Some?
       then row.quantity < configurations[(row.sku, row.sourceCode)].value
       else row.quantity < TruncateToInt(globalNotifyQty) as real)
  {
    var c := QuantityBelowNotify(TruncateToInt(globalNotifyQty));
    assert HoldsAll([c], row, configurations) <==> Holds(c, row, configurations) by {
      assert [c][0] == c;
    }
  }

  /** Under the is-qty filter exactly the rows whose product type has a truthy is-qty flag remain. */
  lemma IsQtyTypesIff(
    rows: seq<SourceItemRow>, configurations: SourceItemConfigurations, isQtyTypeIds: map<string, bool>,
    row: SourceItemRow)
    ensures row in SelectRows(rows, [TypeIdIn(QtyTypeIds(isQtyTypeIds))], configurations) <==>
      row in rows && row.typeId in isQtyTypeIds && isQtyTypeIds[row.typeId]
  {
    var c := TypeIdIn(QtyTypeIds(isQtyTypeIds));
    assert HoldsAll([c], row, configurations) <==> Holds(c, row, configurations) by {
      assert [c][0] == c;
    }
  }

  /** The global default is truncated, not rounded: with a global notify quantity of 1.9 an item without
      configuration at quantity 1 is not reported, one at 0.5 is; a configured 1.5 applies as it is. */
  lemma TruncatedDefaultExample()
    ensures var plain := SourceItemRow("SKU-1", "default", 1.0, "simple");
      var low := SourceItemRow("SKU-2", "default", 0.5, "simple");
      var configured := SourceItemRow("SKU-3", "eu-1", 1.0, "simple");
      var configurations := map[("SKU-3", "eu-1") := Some(1.5)];
      SelectRows([plain, low, configured], [QuantityBelowNotify(TruncateToInt(1.9))], configurations) ==
        [low, configured]
  {
    var plain := SourceItemRow("SKU-1", "default", 1.0, "simple");
    var low := SourceItemRow("SKU-2", "default", 0.5, "simple");
    var configured := SourceItemRow("SKU-3", "eu-1", 1.0, "simple");
    var configurations := map[("SKU-3", "eu-1") := Some(1.5)];
    var cs := [QuantityBelowNotify(TruncateToInt(1.9))];
    assert TruncateToInt(1.9) == 1;
    assert !HoldsAll(cs, plain, configurations) by {
      assert cs[0] == QuantityBelowNotify(1);
    }
    assert HoldsAll(cs, low, configurations);
    assert HoldsAll(cs, configured, configurations);
    var rows := [plain, low, configured];
    assert rows[1..] == [low, configured] && rows[1..][1..] == [configured] && rows[1..][1..][1..] == [];
    assert SelectRows([configured], cs, configurations) == [configured];
    assert SelectRows([low, configured], cs, configurations) == [low, configured];
  }

  class LowStockCollection {
    /** The conditions added to the collection's SELECT, in the order they were added. */
    var conditions: seq<Condition>

    constructor ()
      ensures conditions == []
    {
      conditions := [];
    }

    /** What loading the collection returns for the given source-item table and configuration table. */
    function Load(rows: seq<SourceItemRow>, configurations: SourceItemConfigurations): (r: seq<SourceItemRow>)
      reads this
      ensures forall row :: row in r <==> row in rows && HoldsAll(conditions, row, configurations)
    {
      SelectRows(rows, conditions, configurations)
    }

    /** `filterByProductType($typeFilter)`: a string or an array adds a type-id condition and returns the
        collection itself; any other value throws and adds nothing. */
    method FilterByProductType(typeFilter: TypeFilterArg) returns (r: Result<LowStockCollection, FilterError>)
      modifies this
      ensures typeFilter.OtherValue? ==>
        r == Failure(IncorrectProductTypeFilter) && conditions == old(conditions)
      ensures typeFilter.StringFilter? ==>
        r == Success(this) && conditions == old(conditions) + [TypeIdIn({typeFilter.typeId})]
      ensures typeFilter.ArrayFilter? ==>
        r == Success(this) && conditions == old(conditions) + [TypeIdIn(typeFilter.typeIds)]
    {
      if typeFilter.OtherValue? {
        return Failure(IncorrectProductTypeFilter);
      }
      var typeIds := if typeFilter.StringFilter? then {typeFilter.typeId} else typeFilter.typeIds;
      conditions := conditions + [TypeIdIn(typeIds)];
      r := Success(this);
    }

    /** `filterByIsQtyProductTypes()`: filter by the type ids whose is-qty flag is set. */
    method FilterByIsQtyProductTypes(isQtyTypeIds: map<string, bool>) returns (r: LowStockCollection)
      modifies this
      ensures r == this
      ensures conditions == old(conditions) + [TypeIdIn(QtyTypeIds(isQtyTypeIds))]
    {
      var filtered := FilterByProductType(ArrayFilter(QtyTypeIds(isQtyTypeIds)));
      r := this;
    }

    /** `useNotifyStockQtyFilter()`: join the configuration table and keep items below their notify quantity,
        the global notify quantity cast to int being the fallback. */
    method UseNotifyStockQtyFilter(globalNotifyQty: real) returns (r: LowStockCollection)
      modifies this
      ensures r == this
      ensures conditions == old(conditions) + [QuantityBelowNotify(TruncateToInt(globalNotifyQty))]
    {
      conditions := conditions + [QuantityBelowNotify(TruncateToInt(globalNotifyQty))];
      r := this;
    }
  }
}
