/**
 * The points ledger: an append-only log of signed transactions, newest
 * first. The balance is never stored; it is the sum of the log, and the
 * per-category totals are sums over the transactions of each category.
 */
module Points {

  import opened Entities

  /** The `reduce` that sums the amounts of a log. */
  function Total(txs: seq<PointTransaction>): int
  {
    if txs == [] then 0 else txs[0].amount + Total(txs[1..])
  }

  /**
   * Every transaction records as its balance the sum of itself and all
   * older transactions (the ones after it in newest-first order).
   */
  ghost predicate LedgerConsistent(txs: seq<PointTransaction>) {
    forall i :: 0 <= i < |txs| ==> txs[i].balance == Total(txs[i..])
  }

  /**
   * Prepending a transaction whose balance is the prior total plus its
   * amount keeps the ledger consistent, and the new head's balance is the
   * new total.
   */
  lemma {:induction false} PrependKeepsLedgerConsistent(tx: PointTransaction, txs: seq<PointTransaction>)
    requires LedgerConsistent(txs)
    requires tx.balance == Total(txs) + tx.amount
    ensures LedgerConsistent([tx] + txs)
    ensures Total([tx] + txs) == tx.balance
  {
    var log := [tx] + txs;
    assert log[1..] == txs;
    forall i | 1 <= i < |log|
      ensures log[i].balance == Total(log[i..])
    {
      assert log[i..] == txs[i - 1..];
    }
  }

  /** The sum of two logs laid end to end is the sum of their sums. */
  lemma {:induction false} TotalAppend(a: seq<PointTransaction>, b: seq<PointTransaction>)
    ensures Total(a + b) == Total(a) + Total(b)
  {
    if a == [] {
      assert a + b == b;
    } else {
      assert (a + b)[1..] == a[1..] + b;
      TotalAppend(a[1..], b);
    }
  }

  /** The transaction `addPoints` records on top of `txs`: its balance is the prior total plus its amount. */
  function NextTransaction(id: string, userId: string, amount: int, source: string, sourceId: Option<string>,
                           category: Option<string>, description: Option<string>, now: Timestamp,
                           txs: seq<PointTransaction>): PointTransaction
  {
    PointTransaction(id, userId, amount, source, sourceId, category, description, Total(txs) + amount, now)
  }

  /**
   * Recording a transaction keeps a consistent ledger consistent, and the
   * new total is the old total plus the amount.
   */
  lemma NextTransactionKeepsLedger(id: string, userId: string, amount: int, source: string, sourceId: Option<string>,
                                   category: Option<string>, description: Option<string>, now: Timestamp,
                                   txs: seq<PointTransaction>)
    requires LedgerConsistent(txs)
    ensures var tx := NextTransaction(id, userId, amount, source, sourceId, category, description, now, txs);
      && LedgerConsistent([tx] + txs)
      && Total([tx] + txs) == Total(txs) + amount
  {
    var tx := NextTransaction(id, userId, amount, source, sourceId, category, description, now, txs);
    PrependKeepsLedgerConsistent(tx, txs);
  }

  /** A transaction counts towards category `c` when its category is truthy and equals `c`. */
  predicate InCategory(t: PointTransaction, c: string) {
    TruthyString(t.category) && t.category.value == c
  }

  /** One step of the `forEach` that accumulates the per-category totals. */
  function AddToCategory(m: map<string, int>, t: PointTransaction): map<string, int>
  {
    if TruthyString(t.category) then
      var c := t.category.value;
      m[c := (if c in m then m[c] else 0) + t.amount]
    else m
  }

  /** The per-category totals after visiting the log from oldest position 0 onwards. */
  function CategoryTotals(txs: seq<PointTransaction>): map<string, int>
  {
    if txs == [] then map[] else AddToCategory(CategoryTotals(txs[..|txs| - 1]), txs[|txs| - 1])
  }

  /** The sum of the amounts of the transactions in category `c`. */
  function CategorySum(txs: seq<PointTransaction>, c: string): int
  {
    if txs == [] then 0
    else CategorySum(txs[..|txs| - 1], c) + (if InCategory(txs[|txs| - 1], c) then txs[|txs| - 1].amount else 0)
  }

  /**
   * The per-category totals hold exactly the categories that occur in the
   * log, each mapped to the sum of that category's amounts.
   */
  lemma {:induction false} CategoryTotalsMeaning(txs: seq<PointTransaction>, c: string)
    ensures c in CategoryTotals(txs) <==> exists i :: 0 <= i < |txs| && InCategory(txs[i], c)
    ensures c in CategoryTotals(txs) ==> CategoryTotals(txs)[c] == CategorySum(txs, c)
  {
    if txs != [] {
      var init := txs[..|txs| - 1];
      CategoryTotalsMeaning(init, c);
      if c !in CategoryTotals(init) {
        CategorySumOutside(init, c);
      }
      forall i | 0 <= i < |init| ensures init[i] == txs[i] { }
      if exists i :: 0 <= i < |txs| && InCategory(txs[i], c) {
        var i :| 0 <= i < |txs| && InCategory(txs[i], c);
        if i < |init| {
          assert InCategory(init[i], c);
        }
      }
    }
  }

  /** A category that no transaction carries sums to zero. */
  lemma {:induction false} CategorySumOutside(txs: seq<PointTransaction>, c: string)
    requires forall i :: 0 <= i < |txs| ==> !InCategory(txs[i], c)
    ensures CategorySum(txs, c) == 0
  {
    if txs != [] {
      var init := txs[..|txs| - 1];
      forall i | 0 <= i < |init| ensures !InCategory(init[i], c) {
        assert init[i] == txs[i];
      }
      CategorySumOutside(init, c);
    }
  }

  /** The balance the repository derives from a log when it is read. */
  function BalanceOf(userId: string, txs: seq<PointTransaction>, now: Timestamp): PointBalance
  {
    PointBalance(userId, Total(txs), CategoryTotals(txs), if txs == [] then now else txs[0].createdDate)
  }
}
