/** The two running totals of the loader: every record adds its amount to the entries
    total when its type is "positive", and to the expenses total otherwise. */
module Totals {
  import opened Transactions

  function EntriesTotal(records: seq<Record>): int
  {
    if records == [] then 0
    else
      var last := records[|records| - 1];
      EntriesTotal(records[..|records| - 1]) + (if last.kind == Positive then last.amount else 0)
  }

  function ExpensesTotal(records: seq<Record>): int
  {
    if records == [] then 0
    else
      var last := records[|records| - 1];
      ExpensesTotal(records[..|records| - 1]) + (if last.kind == Positive then 0 else last.amount)
  }

  /** Every amount lands in exactly one of the two totals. */
  lemma {:induction false} EveryAmountCountedOnce(records: seq<Record>)
    ensures EntriesTotal(records) + ExpensesTotal(records) == AmountSum(records)
  {
    if records != [] {
      EveryAmountCountedOnce(records[..|records| - 1]);
    }
  }

  /** The entries total is the sum of the "positive" records and nothing else. */
  lemma {:induction false} EntriesAreSumOfPositive(records: seq<Record>)
    ensures EntriesTotal(records) == AmountSum(Filter(records, Positive))
  {
    if records != [] {
      var init, last := records[..|records| - 1], records[|records| - 1];
      EntriesAreSumOfPositive(init);
      if last.kind == Positive {
        var p := Filter(init, Positive);
        assert (p + [last])[..|p + [last]| - 1] == p;
      }
    }
  }

  /** Whatever the types, the expenses total is every amount that is not a "positive" one. */
  lemma ExpensesAreRestOfAmounts(records: seq<Record>)
    ensures ExpensesTotal(records) == AmountSum(records) - AmountSum(Filter(records, Positive))
  {
    EveryAmountCountedOnce(records);
    EntriesAreSumOfPositive(records);
  }

  /** When every record is typed "positive" or "negative", the expenses total is the sum of
      the "negative" records. */
  lemma {:induction false} ExpensesOfWellTyped(records: seq<Record>)
    requires forall i :: 0 <= i < |records| ==> records[i].kind == Positive || records[i].kind == Negative
    ensures ExpensesTotal(records) == AmountSum(Filter(records, Negative))
  {
    if records != [] {
      var init, last := records[..|records| - 1], records[|records| - 1];
      ExpensesOfWellTyped(init);
      if last.kind == Negative {
        var n := Filter(init, Negative);
        assert (n + [last])[..|n + [last]| - 1] == n;
      }
    }
  }

  /** The totals of a concatenation are the sums of the parts' totals. */
  lemma {:induction false} TotalsAppend(a: seq<Record>, b: seq<Record>)
    ensures EntriesTotal(a + b) == EntriesTotal(a) + EntriesTotal(b)
    ensures ExpensesTotal(a + b) == ExpensesTotal(a) + ExpensesTotal(b)
  {
    if b == [] {
      assert a + b == a;
    } else {
      var init := b[..|b| - 1];
      TotalsAppend(a, init);
      assert (a + b)[..|a + b| - 1] == a + init;
    }
  }

  /** Reordering the stored records never changes either total. */
  lemma {:induction false} TotalsIgnoreOrder(a: seq<Record>, b: seq<Record>)
    requires multiset(a) == multiset(b)
    ensures EntriesTotal(a) == EntriesTotal(b)
    ensures ExpensesTotal(a) == ExpensesTotal(b)
  {
    if a != [] {
      var init, last := a[..|a| - 1], a[|a| - 1];
      assert a == init + [last];
      assert last in multiset(b);
      var j :| 0 <= j < |b| && b[j] == last;
      var rest := b[..j] + b[j + 1..];
      assert b == b[..j] + [last] + b[j + 1..];
      assert multiset(b) == multiset(b[..j]) + multiset([last]) + multiset(b[j + 1..]);
      assert multiset(a) == multiset(init) + multiset([last]);
      assert multiset(rest) == multiset(b[..j]) + multiset(b[j + 1..]);
      assert multiset(init) == multiset(a) - multiset([last]);
      assert multiset(rest) == multiset(b) - multiset([last]);
      TotalsIgnoreOrder(init, rest);
      TotalsAppend(b[..j], [last]);
      TotalsAppend(b[..j] + [last], b[j + 1..]);
      TotalsAppend(b[..j], b[j + 1..]);
      assert [last][..0] == [];
    }
  }
}
