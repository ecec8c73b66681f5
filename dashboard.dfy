/** The dashboard screen's loader: one pass that sums and reshapes the stored records,
    the three summary cards, and the screen state that a load replaces. */
module DashboardScreen {
  import opened Transactions
  import opened Totals
  import opened LastDate

  const NoTransaction: string := "Nenhuma transação"
  const EntriesPrefix: string := "Última entrada dia "
  const ExpensesPrefix: string := "Última saída dia "
  const IntervalPrefix: string := "01 a "

  /** One summary card: formatted amount and last-transaction label. */
  datatype Highlight = Highlight(amount: string, lastTransaction: string)

  datatype HighlightData = HighlightData(entries: Highlight, expensives: Highlight, total: Highlight)

  /** `response ? JSON.parse(response) : []`: an absent stored value is an empty collection. */
  function Parsed(stored: Option<seq<Record>>): seq<Record>
  {
    match stored
    case None => []
    case Some(records) => records
  }

  /** `formatted` is `records` reshaped for display: same length and order, the same id,
      name, type and category, with amount and date replaced by their formatted text. */
  predicate Displays(formatted: seq<DisplayRecord>, records: seq<Record>, loc: Locale)
  {
    && |formatted| == |records|
    && forall i :: 0 <= i < |records| ==>
         && formatted[i].id == records[i].id
         && formatted[i].name == records[i].name
         && formatted[i].kind == records[i].kind
         && formatted[i].category == records[i].category
         && formatted[i].amount == loc.currency(records[i].amount)
         && formatted[i].date == loc.shortDate(records[i].date)
  }

  /** The label of a card: the sentinel when there is no date, else the prefixed date. */
  function CardLabel(prefix: string, last: Latest): string
  {
    match last
    case Zero => NoTransaction
    case Date(text) => prefix + text
  }

  /** A prefix that does not start like the sentinel can never produce it. */
  lemma CardLabelIsSentinelOnlyWithoutDate(prefix: string, last: Latest)
    requires prefix != [] && prefix[0] != NoTransaction[0]
    ensures CardLabel(prefix, last) == NoTransaction <==> last.Zero?
  {
  }

  /** The object literal the loader stores as the highlight data. */
  function MakeHighlight(entriesTotal: int, expensesTotal: int, lastEntries: Latest,
                         lastExpenses: Latest, loc: Locale): HighlightData
  {
    HighlightData(
      Highlight(loc.currency(entriesTotal), CardLabel(EntriesPrefix, lastEntries)),
      Highlight(loc.currency(expensesTotal), CardLabel(ExpensesPrefix, lastExpenses)),
      Highlight(loc.currency(entriesTotal - expensesTotal), CardLabel(IntervalPrefix, lastExpenses)))
  }

  /** The highlight data a load of `records` produces. */
  function HighlightOf(records: seq<Record>, loc: Locale): (h: HighlightData)
    ensures h.entries.amount == loc.currency(EntriesTotal(records))
    ensures h.expensives.amount == loc.currency(ExpensesTotal(records))
    ensures h.total.amount == loc.currency(EntriesTotal(records) - ExpensesTotal(records))
    ensures h.entries.lastTransaction == NoTransaction <==> !HasKind(records, Positive)
    ensures h.expensives.lastTransaction == NoTransaction <==> !HasKind(records, Negative)
    ensures h.total.lastTransaction == NoTransaction <==> !HasKind(records, Negative)
    ensures HasKind(records, Positive) ==>
      exists i :: IsLatest(records, Positive, i)
        && h.entries.lastTransaction == EntriesPrefix + DateLabel(loc, records[i].date)
    ensures HasKind(records, Negative) ==>
      exists i :: IsLatest(records, Negative, i)
        && h.expensives.lastTransaction == ExpensesPrefix + DateLabel(loc, records[i].date)
        && h.total.lastTransaction == IntervalPrefix + DateLabel(loc, records[i].date)
  {
    var lastEntries := LastTransactionDate(records, Positive, loc);
    var lastExpenses := LastTransactionDate(records, Negative, loc);
    CardLabelIsSentinelOnlyWithoutDate(EntriesPrefix, lastEntries);
    CardLabelIsSentinelOnlyWithoutDate(ExpensesPrefix, lastExpenses);
    CardLabelIsSentinelOnlyWithoutDate(IntervalPrefix, lastExpenses);
    MakeHighlight(EntriesTotal(records), ExpensesTotal(records), lastEntries, lastExpenses, loc)
  }

  /** The pass of `loadTransaction` over the stored records: it adds each amount to the
      entries or the expenses total and reshapes each record for display. */
  method Summarize(records: seq<Record>, loc: Locale)
    returns (formatted: seq<DisplayRecord>, entriesTotal: int, expensesTotal: int)
    ensures Displays(formatted, records, loc)
    ensures entriesTotal == EntriesTotal(records)
    ensures expensesTotal == ExpensesTotal(records)
  {
    entriesTotal, expensesTotal := 0, 0;
    formatted := [];
    var i := 0;
    while i < |records|
      invariant 0 <= i <= |records|
      invariant Displays(formatted, records[..i], loc)
      invariant entriesTotal == EntriesTotal(records[..i])
      invariant expensesTotal == ExpensesTotal(records[..i])
    {
      var item := records[i];
      if item.kind == Positive {
        entriesTotal := entriesTotal + item.amount;
      } else {
        expensesTotal := expensesTotal + item.amount;
      }
      var amount := loc.currency(item.amount);
      var date := loc.shortDate(item.date);
      formatted := formatted + [DisplayRecord(item.id, item.name, amount, item.kind, item.category, date)];
      assert records[..i + 1][..i] == records[..i];
      i := i + 1;
    }
    assert records[..i] == records;
  }

  /** The dashboard screen's state. */
  class Dashboard {
    var isLoading: bool
    var transactions: seq<DisplayRecord>
    /** `None` stands for the empty object the screen starts with. */
    var highlightData: Option<HighlightData>

    constructor ()
      ensures isLoading && transactions == [] && highlightData == None
    {
      isLoading := true;
      transactions := [];
      highlightData := None;
    }

    /** `loadTransaction`, given the value read from storage: it replaces both collections
        wholesale and leaves the loading state. */
    method LoadTransaction(stored: Option<seq<Record>>, loc: Locale)
      modifies this
      ensures !isLoading
      ensures Displays(transactions, Parsed(stored), loc)
      ensures highlightData == Some(HighlightOf(Parsed(stored), loc))
    {
      var records := Parsed(stored);
      var formatted, entriesTotal, expensesTotal := Summarize(records, loc);
      transactions := formatted;
      var lastEntries := LastTransactionDate(records, Positive, loc);
      var lastExpenses := LastTransactionDate(records, Negative, loc);
      highlightData := Some(MakeHighlight(entriesTotal, expensesTotal, lastEntries, lastExpenses, loc));
      isLoading := false;
    }
  }

  /** The display list is fully determined by the records, so loading twice from unchanged
      storage yields the same list. */
  lemma DisplaysIsUnique(f: seq<DisplayRecord>, g: seq<DisplayRecord>, records: seq<Record>, loc: Locale)
    requires Displays(f, records, loc) && Displays(g, records, loc)
    ensures f == g
  {
  }

  /** Two loads of the same stored value leave the screen in the same state: the method
      returns the state after the first load and after the second. */
  method ReloadIsIdempotent(stored: Option<seq<Record>>, loc: Locale)
    returns (first: seq<DisplayRecord>, second: seq<DisplayRecord>,
             firstHighlight: Option<HighlightData>, secondHighlight: Option<HighlightData>)
    ensures first == second && firstHighlight == secondHighlight
    ensures Displays(second, Parsed(stored), loc)
  {
    var screen := new Dashboard();
    screen.LoadTransaction(stored, loc);
    first, firstHighlight := screen.transactions, screen.highlightData;
    screen.LoadTransaction(stored, loc);
    second, secondHighlight := screen.transactions, screen.highlightData;
    DisplaysIsUnique(first, second, Parsed(stored), loc);
  }

  /** An absent stored value: no rows, zero totals, and the sentinel on all three cards. */
  lemma AbsentStorageIsEmpty(loc: Locale)
    ensures EntriesTotal(Parsed(None)) == 0 && ExpensesTotal(Parsed(None)) == 0
    ensures HighlightOf(Parsed(None), loc) ==
      HighlightData(
        Highlight(loc.currency(0), NoTransaction),
        Highlight(loc.currency(0), NoTransaction),
        Highlight(loc.currency(0), NoTransaction))
  {
  }

  /** A record whose type is neither "positive" nor "negative" adds to the expenses total
      and changes nothing else: not the entries total, not either last date. */
  lemma UnknownKindCountsAsExpense(records: seq<Record>, r: Record, loc: Locale)
    requires r.kind != Positive && r.kind != Negative
    ensures ExpensesTotal(records + [r]) == ExpensesTotal(records) + r.amount
    ensures EntriesTotal(records + [r]) == EntriesTotal(records)
    ensures LastTransactionDate(records + [r], Negative, loc) == LastTransactionDate(records, Negative, loc)
    ensures LastTransactionDate(records + [r], Positive, loc) == LastTransactionDate(records, Positive, loc)
  {
  }

  /** With only income records, the expense card shows the sentinel and the total card's
      amount is the whole income. */
  lemma OnlyIncome(records: seq<Record>, loc: Locale)
    requires forall i :: 0 <= i < |records| ==> records[i].kind == Positive
    ensures HighlightOf(records, loc).expensives.lastTransaction == NoTransaction
    ensures HighlightOf(records, loc).total.lastTransaction == NoTransaction
    ensures HighlightOf(records, loc).total.amount == loc.currency(AmountSum(records))
  {
    EveryAmountCountedOnce(records);
    ExpensesOfWellTyped(records);
    assert Filter(records, Negative) == [];
  }
}
