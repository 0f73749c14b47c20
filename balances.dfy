/** The balance ledger: a map from principal to amount in which a missing
    entry reads as zero, its total, and the one transfer the marketplace
    performs on it (debit the buyer, then credit the seller). */
module Balances {

  type Principal = string

  /** The entry for `who`; an absent entry reads as 0. Used for balances
      and, in `Marketplace`, for the units ordered per listing. */
  function Balance<K>(b: map<K, int>, who: K): (r: int)
    ensures who !in b ==> r == 0
    ensures who in b ==> r == b[who]
  {
    if who in b then b[who] else 0
  }

  /** The sum of all balances in the ledger. */
  ghost function Total(b: map<Principal, int>): int
    decreases |b|
  {
    if b == map[] then 0
    else
      var k :| k in b;
      b[k] + Total(b - {k})
  }

  /** Total can be split at any entry, not only at the one it picks. */
  lemma {:induction false} TotalRemove(b: map<Principal, int>, k: Principal)
    requires k in b
    ensures Total(b) == b[k] + Total(b - {k})
    decreases |b|
  {
    var j :| j in b && Total(b) == b[j] + Total(b - {j});
    if j != k {
      assert k in b - {j};
      TotalRemove(b - {j}, k);
      assert j in b - {k};
      TotalRemove(b - {k}, j);
      assert b - {j} - {k} == b - {k} - {j};
    }
  }

  /** Overwriting one entry changes the total by the difference. */
  lemma TotalUpdate(b: map<Principal, int>, k: Principal, v: int)
    ensures Total(b[k := v]) == Total(b) - Balance(b, k) + v
  {
    var b' := b[k := v];
    TotalRemove(b', k);
    if k in b {
      assert b' - {k} == b - {k};
      TotalRemove(b, k);
    } else {
      assert b' - {k} == b;
    }
  }

  /** The balance move of a successful order: `amount` is first debited from
      `from`, then credited to `to` (read after the debit, so a principal
      paying itself ends where it started). */
  function Pay(b: map<Principal, int>, from: Principal, to: Principal, amount: int): (r: map<Principal, int>)
    ensures from != to ==> Balance(r, from) == Balance(b, from) - amount
    ensures from != to ==> Balance(r, to) == Balance(b, to) + amount
    ensures from == to ==> Balance(r, from) == Balance(b, from)
    ensures forall p :: p != from && p != to ==> Balance(r, p) == Balance(b, p)
    ensures r.Keys == b.Keys + {from, to}
    ensures Total(r) == Total(b)
  {
    var debited := b[from := Balance(b, from) - amount];
    var r := debited[to := Balance(debited, to) + amount];
    TotalUpdate(b, from, Balance(b, from) - amount);
    TotalUpdate(debited, to, Balance(debited, to) + amount);
    r
  }

  ghost predicate NonNegative(b: map<Principal, int>)
  {
    forall p :: p in b ==> b[p] >= 0
  }

  /** A payment the payer can cover, of a non-negative amount, keeps every
      balance non-negative. */
  lemma PayKeepsNonNegative(b: map<Principal, int>, from: Principal, to: Principal, amount: int)
    requires NonNegative(b)
    requires 0 <= amount <= Balance(b, from)
    ensures NonNegative(Pay(b, from, to, amount))
  {
  }
}
