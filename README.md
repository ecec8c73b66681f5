# GoFinances dashboard loader, modelled in Dafny

This project models the loader of the GoFinances dashboard screen
(`src/screens/Dashboard/index.tsx`). The loader reads the user's stored transaction
records. In one pass it adds every amount to an income ("entries") total or to an
expense ("expensives") total, and reshapes every record into a display record. Then
it builds three summary cards: entries, expenses and net total. Each card has a
formatted amount and a "last transaction" label. `getLastTransactionsDate` supplies
the label: it is the sentinel `0` when no record has the requested type, and
otherwise `"<day> de <month>"` of the latest timestamp among the records of that type.

Files:

- `transactions.dfy` (module `Transactions`): the stored record, the display record,
  the pt-BR formatting functions as a `Locale` value, filtering by type, the sum of
  amounts, and the decimal text of the day of the month.
- `totals.dfy` (module `Totals`): the two running totals as functions, and the
  lemmas about how they split the amounts.
- `last_date.dfy` (module `LastDate`): `getLastTransactionsDate`, with its sentinel
  and its independence from order and from records of other types.
- `dashboard.dfy` (module `DashboardScreen`): the loop of `loadTransaction`
  (`Summarize`), the summary cards, and the screen state as a class `Dashboard`
  whose `LoadTransaction` replaces the transaction list and the highlight data and
  clears `isLoading`.

Modelling choices:

- Amounts are exact integers (cents). Dates are integer timestamps.
- A record's `type` is the free-text field `kind`. `getLastTransactionsDate` declares
  `type: 'positive' | 'negative'` (line 54), but stored records are never validated. The
  code adds every record whose type is not `"positive"` to the expenses total, while the
  last-expense date looks only at `"negative"` records. The model keeps both behaviours;
  `UnknownKindCountsAsExpense` and `ExpensesAreRestOfAmounts` state the consequence.
- Currency text, `dd/mm/yy` text, day of month and month name depend on the locale and
  time zone. They are the function fields of a `Locale` value that the caller supplies.
  The rendering of the day number inside the label (a template literal) is modelled
  concretely by `Decimal`.
- The storage read and the JSON parse are replaced by a parameter
  `stored: Option<seq<Record>>`. `None` is an absent value, which the code treats as `[]`.
- `getLastTransactionsDate` returns either the number `0` or a string. This is the
  datatype `Latest = Zero | Date(text)`.
- The screen starts with the highlight data `{}`. This is `None` in
  `Dashboard.highlightData`.

## Model

| member | source | states |
|---|---|---|
| `Transactions.Filter` | src/screens/Dashboard/index.tsx:56-57 | a record is in the result iff it is in the input and has the requested type; the result is empty iff no record has that type |
| `Transactions.FilterCounts` | src/screens/Dashboard/index.tsx:56-57 | each record of the requested type occurs in the result as many times as in the input, and records of other types not at all |
| `Transactions.FilterSnoc` | src/screens/Dashboard/index.tsx:56-57 | filtering one more record appends it at the end exactly when it has the requested type |
| `Transactions.FilterAppend` | src/screens/Dashboard/index.tsx:56-57 | filtering a concatenation gives the filtered parts in the same order, so the filter keeps the input order |
| `Transactions.Decimal` | src/screens/Dashboard/index.tsx:67 | the day number renders as a non-empty string of decimal digits with no leading zero |
| `Transactions.DecimalRoundTrip` | src/screens/Dashboard/index.tsx:67 | reading the rendered day number back gives the number itself |
| `LastDate.Max` | src/screens/Dashboard/index.tsx:63-65 | `Math.max` over the matching timestamps returns one of them, and none of them is larger |
| `LastDate.LastTransactionDate` | src/screens/Dashboard/index.tsx:52-68 | returns the sentinel `0` exactly when no record has the type; otherwise returns the "day de month" label of a record of that type that no other record of that type post-dates |
| `LastDate.SameMatchesSameLastDate` | src/screens/Dashboard/index.tsx:56-67 | the result depends only on which records have the requested type: order and records of other types do not matter |
| `LastDate.LastDateIgnoresOrder` | src/screens/Dashboard/index.tsx:63-67 | any reordering of the records gives the same label |
| `LastDate.LastDateIgnoresOtherKinds` | src/screens/Dashboard/index.tsx:56-57 | appending records of other types never changes the label |
| `Totals.EveryAmountCountedOnce` | src/screens/Dashboard/index.tsx:81-85 | entries total plus expenses total is the sum of all amounts: each amount is counted in exactly one total |
| `Totals.EntriesAreSumOfPositive` | src/screens/Dashboard/index.tsx:81-82 | the entries total is the sum of the amounts of the `"positive"` records |
| `Totals.ExpensesAreRestOfAmounts` | src/screens/Dashboard/index.tsx:81-85 | whatever the types, the expenses total is the sum of all amounts minus the sum of the `"positive"` amounts |
| `Totals.ExpensesOfWellTyped` | src/screens/Dashboard/index.tsx:83-85 | when every type is `"positive"` or `"negative"`, the expenses total is the sum of the `"negative"` amounts |
| `Totals.TotalsAppend` | src/screens/Dashboard/index.tsx:75-85 | the totals of a concatenation are the sums of the totals of its parts |
| `Totals.TotalsIgnoreOrder` | src/screens/Dashboard/index.tsx:75-85 | any reordering of the records leaves both totals unchanged |
| `DashboardScreen.Summarize` | src/screens/Dashboard/index.tsx:75-107 | the loop's totals equal the entries and expenses totals of all records; its list has the input's length and order, keeps id, name, type and category, and replaces amount and date with their formatted text |
| `DashboardScreen.CardLabelIsSentinelOnlyWithoutDate` | src/screens/Dashboard/index.tsx:113-134 | a card label is `'Nenhuma transação'` iff the last date is `0`, for any prefix that does not start like the sentinel |
| `DashboardScreen.HighlightOf` | src/screens/Dashboard/index.tsx:111-143 | card amounts are the currency text of entries, expenses and entries minus expenses; the entries label is the sentinel iff there is no `"positive"` record, else `"Última entrada dia "` and the latest income date's label; the expenses and total labels are the sentinel iff there is no `"negative"` record, else `"Última saída dia "` and `"01 a "` followed by the latest expense date's label |
| `DashboardScreen.Dashboard.constructor` | src/screens/Dashboard/index.tsx:44-46 | the screen starts loading, with an empty list and no highlight data |
| `DashboardScreen.Dashboard.LoadTransaction` | src/screens/Dashboard/index.tsx:70-145 | a load replaces the list with the display records of the stored records (none when the value is absent), replaces the highlight data with `HighlightOf` of them, and ends loading |
| `DashboardScreen.DisplaysIsUnique` | src/screens/Dashboard/index.tsx:78-107 | two display lists that both reshape the same records are equal: the list is a function of the records |
| `DashboardScreen.ReloadIsIdempotent` | src/screens/Dashboard/index.tsx:70-145 | two loads of the same stored value leave the same transaction list and the same highlight data |
| `DashboardScreen.AbsentStorageIsEmpty` | src/screens/Dashboard/index.tsx:73-76 | an absent stored value gives zero totals, the currency text of 0 on all three cards, and the sentinel on all three labels |
| `DashboardScreen.UnknownKindCountsAsExpense` | src/screens/Dashboard/index.tsx:81-85 | a record typed neither `"positive"` nor `"negative"` adds its amount to the expenses total, and changes neither the entries total nor either last date |
| `DashboardScreen.OnlyIncome` | src/screens/Dashboard/index.tsx:111-143 | with only income records the expenses and total labels are the sentinel and the total amount is the whole income |

## Left out

- The storage key `@gofinances:transactions_user:<id>`, `AsyncStorage.getItem` and `JSON.parse` (lines 71-73) are I/O and foreign parsing. The model takes the parsed records, or `None` for an absent value.
- `Number(item.amount)` on a text amount and floating-point accumulation (lines 82-87) are not modelled. Amounts are exact integers, so rounding and `NaN` propagation are not covered.
- `new Date(...)`, `getTime`, `getDate`, `toLocaleString` and `Intl.DateTimeFormat` (lines 63-67, 88-97, 119-140) are locale, time-zone and date-library calls. They are the caller-supplied `Locale` functions over integer timestamps and amounts. `Invalid Date` and `Math.max` returning `NaN` are not represented.
- The `useEffect` and `useFocusEffect` triggers (lines 147-153) are left out, along with overlapping asynchronous loads where the last write wins. These are lifecycle and concurrency. The model treats one load as one atomic call.
- The JSX rendering, `useTheme`, `useAuth`, `signOut`, `HighlightCard` and `TransactionCard` (lines 155-213) are UI and external collaborators.
