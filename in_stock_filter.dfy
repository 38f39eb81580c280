/**
 * The multi-stock "is in stock" filter on a product collection
 * (InventoryCatalog, ResourceModel/AddIsInStockFilterToCollection).
 * The inner join with the stock's index table followed by `quantity > 0` is modelled as a filter over the
 * collection's rows.
 */
module InStockFilter {

  /** A row of the product collection (`e`). */
  datatype Product = Product(entityId: int, sku: string)

  /** A row of a stock index table, without its SKU. */
  datatype IndexEntry = IndexEntry(quantity: real, isSalable: bool)

  /** A stock index table keyed by SKU, its primary key: at most one row per SKU. */
  type StockIndex = map<string, IndexEntry>

  /** The join condition `e.sku = stock_status_index.sku` together with the filter `quantity > 0`. */
  predicate InStock(p: Product, index: StockIndex)
  {
    p.sku in index && index[p.sku].quantity > 0.0
  }

  /** The rows of `collection` that survive the join and the filter, in collection order. */
  function JoinInStock(collection: seq<Product>, index: StockIndex): (r: seq<Product>)
    ensures |r| <= |collection|
    // A product remains exactly when it is in the collection, its SKU has an index row, and that row's
    // quantity is above 0.
    ensures forall p :: p in r <==> p in collection && InStock(p, index)
  {
    if collection == [] then []
    else
      assert collection == [collection[0]] + collection[1..];
      (if InStock(collection[0], index) then [collection[0]] else []) + JoinInStock(collection[1..], index)
  }

  /** `addIsInStockFilterToCollection($collection, $stockId)`: the index table is the one `indexOf` resolves for
      the stock id, and nothing else selects it. */
  function AddIsInStockFilterToCollection(
    collection: seq<Product>, stockId: int, indexOf: int -> StockIndex): (r: seq<Product>)
    ensures forall p :: p in r <==> p in collection && InStock(p, indexOf(stockId))
    ensures IsSubsequence(r, collection)
  {
    InStockIsSubsequence(collection, indexOf(stockId));
    JoinInStock(collection, indexOf(stockId))
  }

  /** `sub` is `full` with some elements removed and the rest kept in order. */
  predicate IsSubsequence<T(==)>(sub: seq<T>, full: seq<T>)
    decreases |full|
  {
    sub == [] ||
    (full != [] &&
     ((sub[0] == full[0] && IsSubsequence(sub[1..], full[1..])) || IsSubsequence(sub, full[1..])))
  }

  /** The filter only removes rows: the result is a subsequence of the collection, order preserved. */
  lemma {:induction false} InStockIsSubsequence(collection: seq<Product>, index: StockIndex)
    ensures IsSubsequence(JoinInStock(collection, index), collection)
  {
    if collection != [] {
      InStockIsSubsequence(collection[1..], index);
      var rest := JoinInStock(collection[1..], index);
      if InStock(collection[0], index) {
        assert ([collection[0]] + rest)[1..] == rest;
      } else {
        assert [] + rest == rest;
      }
    }
  }

  /** The filter reads the quantity column only: two index tables with the same SKUs and quantities give the
      same result, whatever their is-salable columns say. */
  lemma {:induction false} InStockIgnoresSalableFlag(collection: seq<Product>, a: StockIndex, b: StockIndex)
    requires a.Keys == b.Keys
    requires forall sku :: sku in a ==> a[sku].quantity == b[sku].quantity
    ensures JoinInStock(collection, a) == JoinInStock(collection, b)
  {
    if collection != [] {
      InStockIgnoresSalableFlag(collection[1..], a, b);
    }
  }

  /** A product whose index row says salable but whose quantity is 0 is removed; one with quantity 3 and
      not salable stays. */
  lemma InStockTestsQuantityNotSalable()
    ensures var p := Product(1, "SKU-1");
      JoinInStock([p], map["SKU-1" := IndexEntry(0.0, true)]) == [] &&
      JoinInStock([p], map["SKU-1" := IndexEntry(3.0, false)]) == [p] &&
      JoinInStock([p], map[]) == []
  {
  }
}
