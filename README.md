# Expense tracker core, modelled in Dafny

This project models the client-side logic of a small personal-finance web
application. A signed-in user records transactions. Each transaction is an
expense or an income and has an amount, a description, a category and a date.
The application shows:

- overall totals, this month's totals and transaction counts;
- a month-by-month history that can be filtered by type or category, sorted by
  date or amount, and grouped by calendar day with a signed total per day;
- a choice between two currencies: US dollars use two decimals, Pakistani
  rupees use whole numbers.

The modules follow the program's components:

| module | models |
|---|---|
| `Wrappers` | `Option` |
| `Seqs` | duplicate-free sequences, `filter`, `Array.from(new Set(...))` |
| `Calendar` | calendar dates, an order-preserving time line, month windows, `yyyy-MM-dd` day keys |
| `Numbers` | `toFixed(2)`, `Number#toString`, `parseInt`, `parseFloat` on amounts held as whole hundredths |
| `Currency` | the currency table, the selector's hints, amount rendering |
| `Records` | the transaction record, the form's draft record, the category list |
| `StableSort` | `Array.prototype.sort` with a descending comparator, as a stable insertion sort |
| `Stats` | the statistics cards |
| `History` | the transaction history view, including the `MonthWindow` class for the month navigation |
| `Form` | the add-transaction form, as the `ExpenseForm` class |
| `App` | the application shell, as the `Session` class: cached list, currency, load and save flags |

Modelling choices:

- **Amounts** are integers counting hundredths. `toFixed(2)`, `toString()`,
  `parseInt` and `parseFloat` are modelled on such values for plain decimal
  text: an optional sign, digits, and an optional point with digits. Exponent
  form, hexadecimal prefixes and the full set of JavaScript white space are
  outside that grammar (see "Left out").
- **Dates** are calendar dates with a time of day. `Timestamp` stands in for
  `getTime()`: it orders dates the same way but does not count real
  milliseconds.
- **The store** (database calls, authentication) is represented by the outcome
  of each awaited call. That outcome is passed to the method as a parameter.
- **"Today"** is also a parameter wherever the source calls `new Date()`.

Three behaviours of the code worth knowing:

- Amounts are never checked to be non-negative. A negative amount is accepted
  and flows through the totals. The bound `MonthlyAtMostTotal` therefore
  requires non-negative amounts explicitly.
- The rupee hint says amounts "will be rounded to whole numbers", but nothing
  rounds them. On entry, `parseInt` truncates: "12.7" is stored as 12 and
  "12.50" as 12. `Form.CoercionPolicy` and `Form.TwelveFifty` state this. On
  display, whole-number currencies use `toString()`, so a fractional amount
  stored earlier under dollars shows its fraction (`Rs 12.5`).
  `Currency.Render` and `Currency.RenderShape` state this.
- If loading the transactions succeeds and loading the preferences fails, the
  code has already replaced the cached list but does not set the
  "loaded" flags. `App.Session.LoadUserData` keeps this behaviour.

## Model

| member | source | states |
|---|---|---|
| Calendar.Timestamp | src/components/ExpenseList.tsx:62 | models `getTime()` of a transaction date; its order is stated by `Calendar.TimestampOrder` |
| Calendar.StartOfMonth | src/components/ExpenseList.tsx:45 | models `startOfMonth`: the first day of the month at midnight |
| Calendar.EndOfMonth | src/components/ExpenseList.tsx:46 | models `endOfMonth`: the last millisecond of the month's last day |
| Calendar.InMonthWindow | src/components/ExpenseList.tsx:50 | models the test `date >= monthStart && date <= monthEnd`; `Calendar.InMonthWindowIff` states what it selects |
| Calendar.DayOf | src/components/ExpenseList.tsx:69 | models the `yyyy-MM-dd` day key of a date |
| Calendar.DayOrdinal | src/components/ExpenseList.tsx:78 | models `new Date(key).getTime()` on a day key; `Calendar.DayOrdinalInjective` and `Calendar.DayOfMonotone` state its order |
| Calendar.TimestampOrder | src/components/ExpenseList.tsx:60-65 | comparing two dates' times orders them chronologically (year, month, day, time of day); equal times mean equal dates |
| Calendar.InMonthWindowIff | src/components/ExpenseList.tsx:45-51 | a date lies between the start and the end of a month exactly when it has that year and month |
| Calendar.DayOrdinalInjective | src/components/ExpenseList.tsx:77-79 | two day keys parse to the same time only when they are the same day |
| Calendar.DayOfMonotone | src/components/ExpenseList.tsx:60-79 | a date that is not later than another has a day key that is not later either |
| Calendar.MonthIndexOrder | src/components/ExpenseList.tsx:113-131 | months are ordered by year and then by month; equal positions mean equal months |
| Numbers.ToFixed2 | src/components/ExpenseStats.tsx:48 | models `amount.toFixed(2)`; its shape and read-back are stated by `Numbers.ToFixed2Shape` and `Numbers.ParseFloatToFixed2` |
| Numbers.ToJsString | src/components/ExpenseStats.tsx:49 | models `amount.toString()`; stated by `Numbers.ToJsStringPoint` and `Numbers.ParseFloatToJsString` |
| Numbers.ParseInt | src/components/ExpenseForm.tsx:78 | models `parseInt(amount)`; stated by `Numbers.ParseIntToFixed2` and `Numbers.ParseIntDropsFraction` |
| Numbers.ParseFloat | src/components/ExpenseForm.tsx:78 | models `parseFloat(amount)`; stated by `Numbers.ParseFloatKeepsFraction` and the read-back lemmas |
| Numbers.NatDigitsValue | src/components/ExpenseStats.tsx:46-51 | the decimal digits printed for a whole number read back as that number |
| Numbers.LeadingDigitsSpec | src/components/ExpenseForm.tsx:78 | the digits the parsers read are a prefix of the text, and the next character, if any, is not a digit |
| Numbers.ToFixed2Shape | src/components/ExpenseStats.tsx:47-48 | `toFixed(2)` prints exactly one point, followed by exactly two digits |
| Numbers.ToJsStringPoint | src/components/ExpenseStats.tsx:49 | `toString()` prints a point exactly when the amount is not a whole number of units |
| Numbers.ParseFloatToFixed2 | src/components/ExpenseStats.tsx:46-51 | `parseFloat` of a `toFixed(2)` text gives back the amount, negative ones included |
| Numbers.ParseFloatToJsString | src/components/ExpenseStats.tsx:46-51 | `parseFloat` of a `toString()` text gives back the amount |
| Numbers.ParseIntToFixed2 | src/components/ExpenseForm.tsx:78 | `parseInt` of a `toFixed(2)` text gives the whole units, truncated toward zero |
| Numbers.ParseIntDropsFraction | src/components/ExpenseForm.tsx:78 | `parseInt("a.f")` is the value of `a` and ignores the fraction |
| Numbers.ParseFloatKeepsFraction | src/components/ExpenseForm.tsx:78 | `parseFloat("a.f")` is the value of `a` plus the first two fraction digits as hundredths |
| Currency.Currencies | src/components/CurrencySelector.tsx:18-21 | each code's entry carries that code, and only the dollar entry allows decimals |
| Currency.SelectionIsConsistent | src/components/CurrencySelector.tsx:38-42 | picking a code hands over that code's table entry, whose symbol is `$` for dollars and `Rs ` for rupees |
| Currency.Hints | src/components/CurrencySelector.tsx:52-55 | exactly one hint line is shown: the rupee hint exactly for PKR, the decimal hint exactly for USD |
| Currency.Render | src/components/ExpenseStats.tsx:47-49 | models the `hasDecimals ? toFixed(2) : toString()` choice; stated by `Currency.RenderRoundTrip` and `Currency.RenderShape` |
| Currency.RenderRoundTrip | src/components/ExpenseStats.tsx:46-51 | a displayed number reads back as the amount, under both currencies |
| Currency.RenderShape | src/components/ExpenseList.tsx:89-92 | with decimals, a point and two digits end the text; without, a point shows exactly for a fractional amount |
| Records.CategoryOptionsShape | src/components/ExpenseForm.tsx:46-57 | the form offers ten distinct categories, including "Income" and "Other" |
| Seqs.Filter | src/components/ExpenseStats.tsx:12 | `filter` keeps exactly the elements satisfying the predicate and never grows the list |
| Seqs.FilterConcat | src/components/ExpenseStats.tsx:11-17 | filtering two lists laid end to end is filtering each and laying the results end to end |
| Seqs.Distinct | src/components/ExpenseList.tsx:133-135 | `new Set` then `Array.from` yields a duplicate-free list with the same members |
| StableSort.Sort | src/components/ExpenseList.tsx:60-65 | the result is a permutation of the input, in non-increasing key order |
| StableSort.SortStable | src/components/ExpenseList.tsx:60-65 | elements with equal keys keep their input order |
| StableSort.SortNoDuplicates | src/components/ExpenseList.tsx:77-79 | sorting duplicate-free keys yields the same keys, still without duplicates |
| Stats.TotalIncome | src/components/ExpenseStats.tsx:11-13 | models `totalIncome`; stated by `Stats.TotalsConcat`, `Stats.TotalsOfOne` and `Stats.TotalsOfEmpty` |
| Stats.TotalExpenses | src/components/ExpenseStats.tsx:15-17 | models `totalExpenses`; stated by the same lemmas |
| Stats.Balance | src/components/ExpenseStats.tsx:19 | models `balance`; stated by `Stats.TotalsConcat` and `Stats.BalanceDisplay` |
| Stats.MonthlyExpenses | src/components/ExpenseStats.tsx:24-33 | models `monthlyExpenses`; stated by `Stats.MonthlyAreTotalsOfMonth` and `Stats.MonthlyAtMostTotal` |
| Stats.MonthlyIncome | src/components/ExpenseStats.tsx:35-44 | models `monthlyIncome`; stated by the same lemmas |
| Stats.ExpenseCount | src/components/ExpenseStats.tsx:114 | models the expense count; stated by `Stats.CountsPartition` |
| Stats.IncomeCount | src/components/ExpenseStats.tsx:115 | models the income count; stated by `Stats.CountsPartition` |
| Stats.FormatCurrency | src/components/ExpenseStats.tsx:46-51 | models `formatCurrency`; stated by `Stats.FormatCurrencyShape` |
| Stats.BalanceCaption | src/components/ExpenseStats.tsx:71 | models the balance caption; stated by `Stats.BalanceDisplay` |
| Stats.OfType | src/components/ExpenseStats.tsx:11-17 | keeps exactly the entries of the given type |
| Stats.SumAmountsConcat | src/components/ExpenseStats.tsx:13 | the amount sum over a split list is the sum of the parts' sums |
| Stats.TotalsConcat | src/components/ExpenseStats.tsx:11-19 | total income, total expenses and balance are additive over concatenation |
| Stats.TotalsOfOne | src/components/ExpenseStats.tsx:11-17 | a single entry counts only towards the total of its own type |
| Stats.TotalsOfEmpty | src/components/ExpenseStats.tsx:11-19 | with no transactions every total and the balance are zero |
| Stats.CountsPartition | src/components/ExpenseStats.tsx:112-115 | the expense count plus the income count is the number of transactions |
| Stats.MonthOf | src/components/ExpenseStats.tsx:21-44 | keeps exactly the entries dated in the month and year of today |
| Stats.MonthOfTypeIsFilteredType | src/components/ExpenseStats.tsx:24-44 | the type-and-month filter equals the month filter followed by the type filter |
| Stats.MonthlyAreTotalsOfMonth | src/components/ExpenseStats.tsx:24-44 | this month's income and expenses are the ordinary totals of this month's entries |
| Stats.MonthlyAtMostTotal | src/components/ExpenseStats.tsx:24-44 | with non-negative amounts, this month's income and expenses never exceed the overall ones |
| Stats.BalanceColor | src/components/ExpenseStats.tsx:53-57 | success colour exactly for a positive balance, expense colour exactly for a negative one, neutral exactly for zero |
| Stats.BalanceDisplay | src/components/ExpenseStats.tsx:67-71 | success colour exactly when income exceeds expenses; expense colour exactly when it falls short and the caption says "Negative balance" |
| Stats.FormatCurrencyShape | src/components/ExpenseStats.tsx:46-51 | the symbol comes first, and the rest reads back as the amount |
| History.MonthlyEntries | src/components/ExpenseList.tsx:45-51 | keeps exactly the entries whose date has the window's year and month |
| History.WindowAgreesWithStats | src/components/ExpenseList.tsx:48-51 | at the current month the history window selects the same entries, in the same order, as the statistics' "this month" |
| History.PreviousMonth | src/components/ExpenseList.tsx:113-117 | the previous month sits exactly one position earlier on the month line, January rolling back to December |
| History.NextMonth | src/components/ExpenseList.tsx:119-123 | the next month sits exactly one position later, December rolling over to January |
| History.NavigationRoundTrip | src/components/ExpenseList.tsx:113-123 | back then forward, or forward then back, restores the window |
| History.MonthWindow.IsCurrentMonth | src/components/ExpenseList.tsx:125-131 | models `isCurrentMonth`; used by `History.MonthWindow.PressNext` |
| History.MonthWindow.constructor | src/components/ExpenseList.tsx:42 | the window opens on today's month |
| History.MonthWindow.GoToPreviousMonth | src/components/ExpenseList.tsx:113-117 | the window moves to the previous month |
| History.MonthWindow.GoToNextMonth | src/components/ExpenseList.tsx:119-123 | the window moves to the next month |
| History.MonthWindow.PressNext | src/components/ExpenseList.tsx:189-196 | at the current month the disabled button changes nothing; otherwise the window moves on; a window not after today stays not after today |
| History.Matches | src/components/ExpenseList.tsx:54-59 | models the filter callback; stated by `History.FilterSelectors` |
| History.ApplyFilter | src/components/ExpenseList.tsx:53-59 | keeps exactly the entries matching the filter value |
| History.FilterSelectors | src/components/ExpenseList.tsx:54-59 | "all" keeps everything; "expense" and "income" select by type; any other value selects by category |
| History.SortEntries | src/components/ExpenseList.tsx:60-65 | models the `.sort` call; stated by `History.SortEntriesSpec` |
| History.SortEntriesSpec | src/components/ExpenseList.tsx:60-65 | the sorted list is a permutation, newest first (or largest amount first), with equal keys in input order |
| History.DateSortKeepsDaysTogether | src/components/ExpenseList.tsx:60-75 | after the newest-first sort, an entry lying between two entries of one day is of that day too, so each day's entries form one run |
| History.OnDay | src/components/ExpenseList.tsx:68-75 | a day's group holds exactly the entries with that day key |
| History.OnDayAppend | src/components/ExpenseList.tsx:73 | pushing an entry extends only its own day's group |
| History.GroupStep | src/components/ExpenseList.tsx:69-74 | one reduce step keeps the invariant: keys first-met order without duplicates, one group per day present, each group equal to that day's entries |
| History.StepOrder | src/components/ExpenseList.tsx:69-71 | a day met for the first time is added once to the keys, so the keys stay duplicate-free and match the groups |
| History.StepGroups | src/components/ExpenseList.tsx:69-72 | after one push, the groups are non-empty exactly for the days present, and each holds that day's entries |
| History.GroupedNothing | src/components/ExpenseList.tsx:68-75 | the grouping has no keys exactly when the list is empty |
| History.GroupByDay | src/components/ExpenseList.tsx:68-75 | keys without duplicates, exactly the days present, each group equal to that day's entries in list order, no keys exactly for an empty list |
| History.SortDateKeys | src/components/ExpenseList.tsx:77-79 | models `sortedDateKeys`; stated by `History.SortDateKeysSpec` |
| History.SortDateKeysSpec | src/components/ExpenseList.tsx:77-79 | the sorted keys are the same keys, in strictly descending day order |
| History.GroupsPartition | src/components/ExpenseList.tsx:68-79 | the groups laid end to end in key order hold each entry exactly as often as the list does |
| History.SortedGrouping | src/components/ExpenseList.tsx:68-79 | the sorted day keys index the groups, descend strictly and partition the list |
| History.DailyTotal | src/components/ExpenseList.tsx:99-103 | models the signed reduce; stated by `History.DailyTotalIsNet` |
| History.GetDailyTotal | src/components/ExpenseList.tsx:98-111 | models `getDailyTotal`; stated by `History.DailySummaryIsNet` and `History.TotalLabelShape` |
| History.DailyTotalIsNet | src/components/ExpenseList.tsx:98-103 | a day's signed total is its income minus its expenses |
| History.TotalLabelShape | src/components/ExpenseList.tsx:104-110 | positive exactly for a non-negative total; `+` exactly when positive and `-` otherwise; then the symbol; then the size of the total |
| History.DailySummaryIsNet | src/components/ExpenseList.tsx:98-111 | the day header labels the day's balance |
| History.SignedLabel | src/components/ExpenseList.tsx:93-95 | a signed label is its sign, then the symbol, then text that reads back as the amount |
| History.FormatAmount | src/components/ExpenseList.tsx:89-96 | models `formatAmount`; stated by `History.FormatAmountShape` |
| History.FormatAmountShape | src/components/ExpenseList.tsx:89-96 | `-` exactly for an expense and `+` exactly for income, then the symbol, then the amount |
| History.Categories | src/components/ExpenseList.tsx:133-135 | the filter's category options are duplicate-free and are exactly the categories used in the month |
| History.CategoryNamesSpec | src/components/ExpenseList.tsx:134 | a name is listed exactly when some entry of the month has that category |
| History.BuildHistory | src/components/ExpenseList.tsx:44-79 | the empty-state message shows exactly when nothing matches, and the day keys and groups obey the grouping and ordering laws above |
| Form.MissingInformation | src/components/ExpenseForm.tsx:69 | models the missing-field test; used by `Form.ExpenseForm.HandleSubmit` |
| Form.CoerceAmount | src/components/ExpenseForm.tsx:78 | models the amount coercion; stated by `Form.CoercionPolicy` and `Form.TwelveFifty` |
| Form.CoercionPolicy | src/components/ExpenseForm.tsx:78 | on `a.f`, the dollar form keeps the hundredths and the rupee form drops the fraction |
| Form.TwelveFifty | src/components/ExpenseForm.tsx:78 | "12.50" is submitted as 12.50 dollars but as 12 rupees |
| Form.ExpenseForm.constructor | src/components/ExpenseForm.tsx:60-64 | the fields start empty, the type as "expense" and the date as now |
| Form.ExpenseForm.HandleSubmit | src/components/ExpenseForm.tsx:66-91 | a missing field rejects the submit and changes nothing; otherwise amount, description and category reset while the type and date stay, and the draft handed over carries the coerced amount and the other fields, or `NotANumber` stands for it when the amount does not parse |
| App.InitialCurrencyIsUsd | src/App.tsx:26-30 | the initial currency is the dollar table entry |
| App.RemoveId | src/App.tsx:127 | keeps exactly the entries with another identifier |
| App.RemoveIdConcat | src/App.tsx:127 | removal works piece by piece, so the remaining entries keep their order |
| App.RemoveAbsentId | src/App.tsx:127 | deleting an identifier nobody has leaves the list unchanged |
| App.RemoveIdIdempotent | src/App.tsx:127 | deleting the same identifier twice is deleting it once |
| App.AddThenDelete | src/App.tsx:103-127 | adding an entry with a fresh identifier and then deleting it restores the list |
| App.PrependTotals | src/App.tsx:108 | a prepended entry raises the total of its own type by its amount and leaves the other total alone |
| App.Session.constructor | src/App.tsx:24-33 | empty list, dollar currency, not yet loaded, initial-load flag set |
| App.Session.ShouldLoad | src/App.tsx:37 | models the load effect's guard; used by `App.Session.LoadUserData` |
| App.Session.SaveScheduled | src/App.tsx:85 | models the save effect's guard; used by `App.Session.LoadUserData` and `App.Session.ChangeCurrency` |
| App.Session.LoadUserData | src/App.tsx:36-81 | runs only for a signed-in user not yet loaded; a fetched list replaces the cache; a stored preference replaces the currency; both flags flip only when both calls succeed, and the save guard opens then |
| App.Session.ChangeCurrency | src/App.tsx:84-101 | the picked table entry becomes the currency; a save is scheduled exactly when the save guard holds |
| App.Session.AddExpense | src/App.tsx:103-122 | without a user the store is not called; a stored entry goes to the front; a failure changes nothing |
| App.Session.DeleteExpense | src/App.tsx:124-138 | after a successful delete every entry with that identifier leaves the cache; a failure changes nothing |

## Left out

- Rendering, styling, icons and toast notifications: they show state and change none of it.
- The database layer (`src/utils/database.ts`) and the local-storage migration are not part of this model. Each awaited store call is represented by its outcome. Migration is taken to return normally, since it swallows its own errors.
- Authentication (`useAuth`) is not part of this model. The session's user is a constructor parameter.
- `Header.tsx` and `vite.config.ts` are not part of this model.
- Asynchrony and React scheduling are left out:
  - the 300 ms debounce of the save, and the order in which effects run;
  - the `loading` flag and its spinner;
  - the load is one atomic step in the model.
- App.Session.ChangeCurrency: schedules a save whenever the guard holds. React skips the re-render, and so the save, when the selector hands back the very object already held. Object identity is not modelled.
- History.PreviousMonth and History.NextMonth: the model's month line treats every integer year alike and has no end. JavaScript's `new Date(y, m, 1)` at src/components/ExpenseList.tsx:115 and :121 differs in two ways:
  - It reads years 0 to 99 as 1900 to 1999. Going back from December of year 99 lands in November 1999; the model gives November of year 99. Going forward from December of year 99 (reached by going back from January of year 100) lands in January 2000, so the round trip that `History.NavigationRoundTrip` proves does not hold there in the source.
  - It returns an invalid date beyond about 271,821 years from 1970, where the model keeps counting months.
- Time zones, `toISOString` and `parseISO` are left out: a date is the local calendar date it denotes. `toLocaleDateString` and the `MMMM yyyy` heading are display only.
- Calendar.Timestamp: orders dates as `getTime()` does but is not the epoch millisecond count. Calendar.DayOrdinal plays the same part for day keys.
- Floating point is left out. Amounts are whole hundredths, so values finer than a hundredth and their rounding in `toFixed` are not modelled.
- Numbers.ParseInt: no radix is passed at src/components/ExpenseForm.tsx:78, so JavaScript reads a `0x` or `0X` prefix as hexadecimal (`parseInt("0x10")` is 16). The model reads decimal digits only and gives 0 there. It also skips only space, tab, line feed and carriage return as leading white space.
- Numbers.ToFixed2 and Numbers.ToJsString: JavaScript prints exponent form (`1e+21`) for magnitudes of 10^21 and more. The model always prints plain digits.
- Numbers.ParseFloat: reads only sign, digits, point and digits. Digits after the hundredths are dropped. Exponents, `Infinity` and the full set of JavaScript white space are not modelled; only space, tab, line feed and carriage return are skipped.
- Form.ExpenseForm.HandleSubmit: when the amount does not parse (for example `parseInt(".5")` under rupees), the source hands over a record with amount `NaN` and then resets the form. The model resets the form the same way but returns `NotANumber` in place of that record, because `NaN` is not an amount here.
- The form's per-field change handlers are plain assignments to the fields and are not modelled separately.

## Findings

None.
