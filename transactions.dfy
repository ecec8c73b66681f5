/** The data the dashboard works on: the stored transaction records, the records
    reshaped for display, and the locale-dependent formatting the screen uses. */
module Transactions {

  datatype Option<+T> = None | Some(value: T)

  /** One stored transaction, after parsing. `amount` is in cents, `date` a timestamp.
      `kind` is the record's `type` field, kept as free text: storage is not validated. */
  datatype Record = Record(
    id: string,
    name: string,
    amount: int,
    kind: string,
    category: string,
    date: int)

  /** A record reshaped for the transaction list: amount and date are display text. */
  datatype DisplayRecord = DisplayRecord(
    id: string,
    name: string,
    amount: string,
    kind: string,
    category: string,
    date: string)

  /** The pt-BR formatting the screen relies on, as given functions of the raw values:
      `currency` is the BRL currency text of an amount, `shortDate` the dd/mm/yy text of a
      timestamp, `dayOfMonth` and `monthName` the day and the long month name of a timestamp. */
  datatype Locale = Locale(
    currency: int -> string,
    shortDate: int -> string,
    dayOfMonth: int -> nat,
    monthName: int -> string)

  const Positive: string := "positive"
  const Negative: string := "negative"

  predicate HasKind(records: seq<Record>, kind: string)
  {
    exists i :: 0 <= i < |records| && records[i].kind == kind
  }

  /** The records of one kind, in their original order (`collection.filter(...)`). */
  function Filter(records: seq<Record>, kind: string): (matching: seq<Record>)
    ensures forall r :: r in matching <==> r in records && r.kind == kind
    ensures |matching| == 0 <==> !HasKind(records, kind)
  {
    if records == [] then []
    else
      var init, last := records[..|records| - 1], records[|records| - 1];
      assert records == init + [last];
      var rest := Filter(init, kind);
      if last.kind == kind then rest + [last] else rest
  }

  /** Filtering keeps every record of the kind as many times as it occurs, and drops the rest. */
  lemma {:induction false} FilterCounts(records: seq<Record>, kind: string)
    ensures forall r :: multiset(Filter(records, kind))[r] == if r.kind == kind then multiset(records)[r] else 0
  {
    if records != [] {
      var init, last := records[..|records| - 1], records[|records| - 1];
      assert records == init + [last];
      FilterCounts(init, kind);
      assert multiset(records) == multiset(init) + multiset{last};
    }
  }

  /** Filtering one more record appends it exactly when it has the kind. */
  lemma FilterSnoc(records: seq<Record>, r: Record, kind: string)
    ensures Filter(records + [r], kind) == if r.kind == kind then Filter(records, kind) + [r] else Filter(records, kind)
  {
    assert (records + [r])[..|records|] == records;
  }

  /** Filtering a concatenation filters each part and keeps them in order. */
  lemma {:induction false} FilterAppend(a: seq<Record>, b: seq<Record>, kind: string)
    ensures Filter(a + b, kind) == Filter(a, kind) + Filter(b, kind)
  {
    if b == [] {
      assert a + b == a;
    } else {
      var init, last := b[..|b| - 1], b[|b| - 1];
      assert b == init + [last];
      assert a + b == (a + init) + [last];
      FilterAppend(a, init, kind);
      FilterSnoc(a + init, last, kind);
      FilterSnoc(init, last, kind);
    }
  }

  /** The sum of all amounts, in order. */
  function AmountSum(records: seq<Record>): int
  {
    if records == [] then 0
    else AmountSum(records[..|records| - 1]) + records[|records| - 1].amount
  }

  function DigitChar(d: nat): (c: char)
    requires d < 10
    ensures '0' <= c <= '9' && c as int - '0' as int == d
  {
    ('0' as int + d) as char
  }

  predicate IsDigits(s: string)
  {
    forall i :: 0 <= i < |s| ==> '0' <= s[i] <= '9'
  }

  /** The decimal text of a number, as a template literal renders it: no sign, no padding. */
  function Decimal(n: nat): (s: string)
    ensures |s| >= 1 && IsDigits(s)
    ensures s[0] == '0' ==> n == 0
  {
    if n < 10 then [DigitChar(n)] else Decimal(n / 10) + [DigitChar(n % 10)]
  }

  /** The number a string of decimal digits denotes. */
  function DecimalValue(s: string): nat
    requires IsDigits(s)
  {
    if s == [] then 0
    else DecimalValue(s[..|s| - 1]) * 10 + (s[|s| - 1] as int - '0' as int)
  }

  lemma {:induction false} DecimalRoundTrip(n: nat)
    ensures DecimalValue(Decimal(n)) == n
  {
    if n >= 10 {
      DecimalRoundTrip(n / 10);
      var s := Decimal(n);
      assert s[..|s| - 1] == Decimal(n / 10);
    }
  }

  /** The label for a timestamp: "<day> de <month name>". */
  function DateLabel(loc: Locale, t: int): string
  {
    Decimal(loc.dayOfMonth(t)) + " de " + loc.monthName(t)
  }
}
