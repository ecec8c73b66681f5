/** `getLastTransactionsDate`: the label of the most recent record of one type, or the
    sentinel `0` when there is none. */
module LastDate {
  import opened Transactions

  /** The function returns the number `0` or a string; the two cases are kept apart here. */
  datatype Latest = Zero | Date(text: string)

  /** Record `i` is of the given kind and no record of that kind is dated later. */
  predicate IsLatest(records: seq<Record>, kind: string, i: int)
  {
    && 0 <= i < |records|
    && records[i].kind == kind
    && forall j :: 0 <= j < |records| && records[j].kind == kind ==> records[j].date <= records[i].date
  }

  /** The timestamps of the records, in order. */
  function Dates(records: seq<Record>): seq<int>
  {
    seq(|records|, i requires 0 <= i < |records| => records[i].date)
  }

  /** `Math.max` over a non-empty list. */
  function Max(xs: seq<int>): (m: int)
    requires |xs| > 0
    ensures m in xs
    ensures forall i :: 0 <= i < |xs| ==> xs[i] <= m
  {
    if |xs| == 1 then xs[0]
    else
      var m' := Max(xs[..|xs| - 1]);
      if xs[|xs| - 1] > m' then xs[|xs| - 1] else m'
  }

  function LastTransactionDate(records: seq<Record>, kind: string, loc: Locale): (r: Latest)
    ensures r.Zero? <==> !HasKind(records, kind)
    ensures r.Date? ==>
      exists i :: IsLatest(records, kind, i) && r.text == DateLabel(loc, records[i].date)
  {
    var matching := Filter(records, kind);
    if |matching| == 0 then Zero
    else
      var latest := Max(Dates(matching));
      assert exists i :: IsLatest(records, kind, i) && latest == records[i].date by {
        var k :| 0 <= k < |matching| && matching[k].date == latest;
        assert matching[k] in records;
        var i :| 0 <= i < |records| && records[i] == matching[k];
        forall j | 0 <= j < |records| && records[j].kind == kind
          ensures records[j].date <= latest
        {
          assert records[j] in matching;
          var l :| 0 <= l < |matching| && matching[l] == records[j];
          assert Dates(matching)[l] == records[j].date;
        }
        assert IsLatest(records, kind, i);
      }
      Date(DateLabel(loc, latest))
  }

  /** Two latest records that each occur in the other's collection carry the same date. */
  lemma LatestDatesAgree(a: seq<Record>, b: seq<Record>, kind: string, i: int, j: int)
    requires IsLatest(a, kind, i) && IsLatest(b, kind, j)
    requires a[i] in b && b[j] in a
    ensures a[i].date == b[j].date
  {
  }

  /** Two collections with the same records of a kind get the same result for that kind,
      whatever their order and whatever records of other kinds they hold. */
  lemma SameMatchesSameLastDate(a: seq<Record>, b: seq<Record>, kind: string, loc: Locale)
    requires forall r :: r in a && r.kind == kind <==> r in b && r.kind == kind
    ensures LastTransactionDate(a, kind, loc) == LastTransactionDate(b, kind, loc)
  {
    var ra, rb := LastTransactionDate(a, kind, loc), LastTransactionDate(b, kind, loc);
    if ra.Date? {
      var i :| IsLatest(a, kind, i) && ra.text == DateLabel(loc, a[i].date);
      assert a[i] in b;
      var i' :| 0 <= i' < |b| && b[i'] == a[i];
      assert HasKind(b, kind);
      var j :| IsLatest(b, kind, j) && rb.text == DateLabel(loc, b[j].date);
      assert b[j] in a;
      LatestDatesAgree(a, b, kind, i, j);
    }
  }

  /** The input order never changes the result. */
  lemma LastDateIgnoresOrder(a: seq<Record>, b: seq<Record>, kind: string, loc: Locale)
    requires multiset(a) == multiset(b)
    ensures LastTransactionDate(a, kind, loc) == LastTransactionDate(b, kind, loc)
  {
    forall r ensures r in a <==> r in b {
      assert r in a <==> r in multiset(a);
      assert r in b <==> r in multiset(b);
    }
    SameMatchesSameLastDate(a, b, kind, loc);
  }

  /** Records of other kinds never change the result. */
  lemma LastDateIgnoresOtherKinds(records: seq<Record>, others: seq<Record>, kind: string, loc: Locale)
    requires forall i :: 0 <= i < |others| ==> others[i].kind != kind
    ensures LastTransactionDate(records + others, kind, loc) == LastTransactionDate(records, kind, loc)
  {
    forall r | r in others ensures r.kind != kind {
      var i :| 0 <= i < |others| && others[i] == r;
    }
    SameMatchesSameLastDate(records + others, records, kind, loc);
  }
}
