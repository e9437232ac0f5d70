/**
 * The transaction records of the ledger and the sums that the running totals
 * of the finance manager must equal.
 *
 * The source represents a record as an `Income` or an `Expense` object; here
 * that choice is the `kind` tag of one datatype.
 */
module Transactions {

  datatype Kind = Income | Expense

  /** A record as created by the finance manager. The timestamp is the
      creation time, kept as opaque text. */
  datatype Transaction = Transaction(
    kind: Kind,
    description: string,
    amount: real,
    category: string,
    timestamp: string)

  /** The menu code of a transaction type: 1 is income, every other code is an
      expense. */
  function KindOf(typeCode: int): (k: Kind)
    ensures k == Income <==> typeCode == 1
  {
    if typeCode == 1 then Income else Expense
  }

  /** What one record adds to the total of `kind`. */
  function Contribution(kind: Kind, t: Transaction): real
  {
    if t.kind == kind then t.amount else 0.0
  }

  /** The sum of the amounts of the records of `kind`, computed from scratch. */
  function SumOf(kind: Kind, txs: seq<Transaction>): real
  {
    if txs == [] then 0.0
    else SumOf(kind, txs[..|txs| - 1]) + Contribution(kind, txs[|txs| - 1])
  }

  /** Every record carries a positive amount. */
  predicate AllPositive(txs: seq<Transaction>)
  {
    forall i :: 0 <= i < |txs| ==> txs[i].amount > 0.0
  }

  /** Appending a record adds its amount to its own kind's sum only. */
  lemma SumOfAppend(kind: Kind, txs: seq<Transaction>, t: Transaction)
    ensures SumOf(kind, txs + [t]) == SumOf(kind, txs) + Contribution(kind, t)
  {
    assert (txs + [t])[..|txs + [t]| - 1] == txs;
  }

  /** The sum over a concatenation is the sum of the sums. */
  lemma {:induction false} SumOfConcat(kind: Kind, a: seq<Transaction>, b: seq<Transaction>)
    ensures SumOf(kind, a + b) == SumOf(kind, a) + SumOf(kind, b)
  {
    if b == [] {
      assert a + b == a;
    } else {
      var init := b[..|b| - 1];
      assert (a + b)[..|a + b| - 1] == a + init;
      assert (a + b)[|a + b| - 1] == b[|b| - 1];
      SumOfConcat(kind, a, init);
    }
  }

  /** Removing the record at index `i` takes its amount off its own kind's sum
      only: the step-by-step update on delete agrees with a recomputation. */
  lemma {:induction false} SumOfRemoveAt(kind: Kind, txs: seq<Transaction>, i: nat)
    requires i < |txs|
    ensures SumOf(kind, txs[..i] + txs[i + 1..]) == SumOf(kind, txs) - Contribution(kind, txs[i])
  {
    assert txs == (txs[..i] + [txs[i]]) + txs[i + 1..];
    SumOfConcat(kind, txs[..i] + [txs[i]], txs[i + 1..]);
    SumOfAppend(kind, txs[..i], txs[i]);
    SumOfConcat(kind, txs[..i], txs[i + 1..]);
  }

  /** With positive amounts no sum is negative, and a sum is zero only when no
      record of that kind is present. */
  lemma {:induction false} SumOfNonNegative(kind: Kind, txs: seq<Transaction>)
    requires AllPositive(txs)
    ensures SumOf(kind, txs) >= 0.0
    ensures SumOf(kind, txs) == 0.0 <==> forall i :: 0 <= i < |txs| ==> txs[i].kind != kind
  {
    if txs != [] {
      var init := txs[..|txs| - 1];
      assert AllPositive(init) by {
        forall i | 0 <= i < |init| ensures init[i].amount > 0.0 {
          assert init[i] == txs[i];
        }
      }
      SumOfNonNegative(kind, init);
      if SumOf(kind, txs) == 0.0 {
        forall i | 0 <= i < |txs| ensures txs[i].kind != kind {
          if i < |init| { assert init[i] == txs[i]; }
        }
      }
    }
  }
}
