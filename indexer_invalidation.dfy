/**
 * Invalidating the inventory indexer after sources are assigned to a stock
 * (InventoryIndexer, Plugin/InventoryApi/AssignSourcesToStock/ReindexAfterAssignSourcesToStockPlugin).
 */
module IndexerInvalidation {

  /** `InventoryIndexer::INDEXER_ID`. */
  const InventoryIndexerId := "inventory"

  /** The states of an indexer; `isValid()` holds in the first only. */
  datatype IndexerStatus = Valid | Invalid | Working

  /** The state the hook leaves an indexer in: a valid indexer becomes invalid, any other keeps its state. */
  function StatusAfterHook(s: IndexerStatus): (r: IndexerStatus)
    ensures r != Valid
    ensures s == Valid ==> r == Invalid
    ensures s != Valid ==> r == s
  {
    if s == Valid then Invalid else s
  }

  /** Running the hook again changes nothing. */
  lemma HookIsIdempotent(s: IndexerStatus)
    ensures StatusAfterHook(StatusAfterHook(s)) == StatusAfterHook(s)
  {
  }

  class Indexer {
    const indexerId: string
    var status: IndexerStatus
    /** How many times `invalidate()` has been called on this indexer. */
    var invalidations: nat

    constructor (id: string, initial: IndexerStatus)
      ensures indexerId == id && status == initial && invalidations == 0
    {
      indexerId := id;
      status := initial;
      invalidations := 0;
    }

    predicate IsValid()
      reads this
    {
      status == Valid
    }

    method Invalidate()
      modifies this
      ensures status == Invalid && invalidations == old(invalidations) + 1
    {
      status := Invalid;
      invalidations := invalidations + 1;
    }
  }

  /** The indexer registry: indexer objects by id. */
  class IndexerRegistry {
    var indexers: map<string, Indexer>

    constructor (indexers: map<string, Indexer>)
      ensures this.indexers == indexers
    {
      this.indexers := indexers;
    }
  }

  /** `afterExecute`: fetch the inventory indexer and invalidate it if it is valid. Only that indexer may
      change. The inventory indexer is declared by its module, so the registry always holds it. */
  method AfterExecute(registry: IndexerRegistry)
    requires InventoryIndexerId in registry.indexers
    modifies registry.indexers[InventoryIndexerId]
    ensures var indexer := registry.indexers[InventoryIndexerId];
      indexer.status == StatusAfterHook(old(indexer.status)) &&
      indexer.invalidations == old(indexer.invalidations) + (if old(indexer.status) == Valid then 1 else 0)
  {
    var indexer := registry.indexers[InventoryIndexerId];
    if indexer.IsValid() {
      indexer.Invalidate();
    }
  }
}
