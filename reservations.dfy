/**
 * The reservation ledger: an append-only list of signed quantity deltas per (sku, stock)
 * (InventoryReservationsApi `AppendReservationsInterface`). A negative quantity takes stock away from
 * what can be sold, a positive one gives it back.
 */
module Reservations {

  datatype Reservation = Reservation(sku: string, quantity: real, stockId: int)

  /** What one reservation contributes to the balance of (sku, stockId). */
  function Delta(r: Reservation, sku: string, stockId: int): real
  {
    if r.sku == sku && r.stockId == stockId then r.quantity else 0.0
  }

  /** The sum of the quantities of the reservations for (sku, stockId). */
  function Balance(entries: seq<Reservation>, sku: string, stockId: int): real
  {
    if entries == [] then 0.0 else Delta(entries[0], sku, stockId) + Balance(entries[1..], sku, stockId)
  }

  /** Appending a batch adds the batch's balance. */
  lemma {:induction false} BalanceOfConcat(a: seq<Reservation>, b: seq<Reservation>, sku: string, stockId: int)
    ensures Balance(a + b, sku, stockId) == Balance(a, sku, stockId) + Balance(b, sku, stockId)
  {
    if a == [] {
      assert a + b == b;
    } else {
      assert (a + b)[1..] == a[1..] + b;
      BalanceOfConcat(a[1..], b, sku, stockId);
    }
  }

  /** Taking one reservation out of a list takes its delta out of the balance. */
  lemma BalanceRemoveAt(b: seq<Reservation>, j: nat, sku: string, stockId: int)
    requires j < |b|
    ensures Balance(b, sku, stockId) == Delta(b[j], sku, stockId) + Balance(b[..j] + b[j + 1..], sku, stockId)
  {
    assert b == (b[..j] + [b[j]]) + b[j + 1..];
    BalanceOfConcat(b[..j] + [b[j]], b[j + 1..], sku, stockId);
    BalanceOfConcat(b[..j], [b[j]], sku, stockId);
    BalanceOfConcat(b[..j], b[j + 1..], sku, stockId);
    assert Balance([b[j]], sku, stockId) == Delta(b[j], sku, stockId) by {
      assert [b[j]][1..] == [];
    }
  }

  lemma MultisetRemoveAt<T>(b: seq<T>, j: nat)
    requires j < |b|
    ensures multiset(b[..j] + b[j + 1..]) == multiset(b) - multiset{b[j]}
  {
    assert b == b[..j] + [b[j]] + b[j + 1..];
  }

  /** The first element of `a` occurs in any permutation `b` of `a`, and removing both leaves permutations. */
  lemma MatchHead<T>(a: seq<T>, b: seq<T>) returns (j: nat)
    requires a != [] && multiset(a) == multiset(b)
    ensures j < |b| && b[j] == a[0]
    ensures multiset(a[1..]) == multiset(b[..j] + b[j + 1..])
  {
    assert a == [a[0]] + a[1..];
    assert multiset(a) == multiset{a[0]} + multiset(a[1..]);
    assert a[0] in multiset(b);
    j :| 0 <= j < |b| && b[j] == a[0];
    MultisetRemoveAt(b, j);
  }

  /** The balance does not depend on the order in which reservations were appended. */
  lemma {:induction false} BalanceIgnoresOrder(a: seq<Reservation>, b: seq<Reservation>, sku: string, stockId: int)
    requires multiset(a) == multiset(b)
    ensures Balance(a, sku, stockId) == Balance(b, sku, stockId)
    decreases |a|
  {
    if a == [] {
      assert |multiset(b)| == 0;
    } else {
      var j := MatchHead(a, b);
      BalanceIgnoresOrder(a[1..], b[..j] + b[j + 1..], sku, stockId);
      BalanceRemoveAt(b, j, sku, stockId);
    }
  }

  class ReservationLedger {
    /** Every reservation ever appended, oldest first. */
    var entries: seq<Reservation>

    constructor ()
      ensures entries == []
    {
      entries := [];
    }

    /** `AppendReservationsInterface::execute`: the only way the ledger changes. */
    method Append(reservations: seq<Reservation>)
      modifies this
      ensures entries == old(entries) + reservations
    {
      entries := entries + reservations;
    }
  }
}
