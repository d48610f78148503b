/**
 * The transaction history: the month window, the type/category filter, the
 * sort, the grouping by calendar day, the per-day totals, the amount labels
 * and the category options of the filter.
 */
module History {
  import opened Wrappers
  import opened Seqs
  import opened Calendar
  import opened Numbers
  import opened Currency
  import opened Records
  import opened StableSort
  import opened Stats

  // ---------------------------------------------------------------- month window

  /** `monthlyExpenses`: the entries between the start and the end of the window's month. */
  function MonthlyEntries(s: seq<Expense>, y: int, m: Month): (r: seq<Expense>)
    ensures forall e :: e in r <==> e in s && e.date.year == y && e.date.month == m
  {
    if s == [] then []
    else
      InMonthWindowIff(s[0].date, y, m);
      (if InMonthWindow(s[0].date, y, m) then [s[0]] else []) + MonthlyEntries(s[1..], y, m)
  }

  /** At the current month the history window holds exactly what the statistics count as "this month". */
  lemma {:induction false} WindowAgreesWithStats(s: seq<Expense>, today: CalendarDate)
    ensures MonthlyEntries(s, today.year, today.month) == MonthOf(s, today)
  {
    if s != [] {
      InMonthWindowIff(s[0].date, today.year, today.month);
      WindowAgreesWithStats(s[1..], today);
    }
  }

  /** `new Date(year, month - 1 - 1, 1)`: one month back, January rolling over to December. */
  function PreviousMonth(y: int, m: Month): (r: (int, Month))
    ensures MonthIndex(r.0, r.1) == MonthIndex(y, m) - 1
  {
    if m == 1 then (y - 1, 12) else (y, m - 1)
  }

  /** `new Date(year, month - 1 + 1, 1)`: one month forward, December rolling over to January. */
  function NextMonth(y: int, m: Month): (r: (int, Month))
    ensures MonthIndex(r.0, r.1) == MonthIndex(y, m) + 1
  {
    if m == 12 then (y + 1, 1) else (y, m + 1)
  }

  /** Going back then forward, or forward then back, restores the window. */
  lemma NavigationRoundTrip(y: int, m: Month)
    ensures var p := PreviousMonth(y, m); NextMonth(p.0, p.1) == (y, m)
    ensures var n := NextMonth(y, m); PreviousMonth(n.0, n.1) == (y, m)
  {
    var p, n := PreviousMonth(y, m), NextMonth(y, m);
    MonthIndexOrder(NextMonth(p.0, p.1).0, NextMonth(p.0, p.1).1, y, m);
    MonthIndexOrder(PreviousMonth(n.0, n.1).0, PreviousMonth(n.0, n.1).1, y, m);
  }

  /** The `currentMonth` state of the history view: only its year and month matter. */
  class MonthWindow {
    var year: int
    var month: Month

    /** The window opens on the month of `today` (`useState(new Date())`). */
    constructor (today: CalendarDate)
      ensures year == today.year && month == today.month
    {
      year := today.year;
      month := today.month;
    }

    /** `isCurrentMonth`: same month and same year as `today`. */
    predicate IsCurrentMonth(today: CalendarDate)
      reads this
    {
      month == today.month && year == today.year
    }

    /** The window does not lie after `today`'s month. */
    predicate NotAfter(today: CalendarDate)
      reads this
    {
      MonthIndex(year, month) <= MonthIndex(today.year, today.month)
    }

    method GoToPreviousMonth()
      modifies this
      ensures (year, month) == PreviousMonth(old(year), old(month))
    {
      var p := PreviousMonth(year, month);
      year, month := p.0, p.1;
    }

    method GoToNextMonth()
      modifies this
      ensures (year, month) == NextMonth(old(year), old(month))
    {
      var n := NextMonth(year, month);
      year, month := n.0, n.1;
    }

    /** A click on "next": the button is disabled while `IsCurrentMonth(today)` holds. */
    method PressNext(today: CalendarDate)
      modifies this
      ensures old(IsCurrentMonth(today)) ==> year == old(year) && month == old(month)
      ensures !old(IsCurrentMonth(today)) ==> (year, month) == NextMonth(old(year), old(month))
      ensures old(NotAfter(today)) ==> NotAfter(today)
    {
      MonthIndexOrder(year, month, today.year, today.month);
      if !IsCurrentMonth(today) {
        GoToNextMonth();
      }
    }
  }

  // ---------------------------------------------------------------- filter and sort

  /** The filter selector: `"all"`, `"expense"`, `"income"`, or a category name. */
  predicate Matches(filter: string, e: Expense) {
    if filter == "all" then true
    else if filter == "expense" then e.kind == ExpenseType
    else if filter == "income" then e.kind == IncomeType
    else e.category == filter
  }

  function ApplyFilter(s: seq<Expense>, filter: string): (r: seq<Expense>)
    ensures forall e :: e in r <==> e in s && Matches(filter, e)
  {
    if s == [] then [] else (if Matches(filter, s[0]) then [s[0]] else []) + ApplyFilter(s[1..], filter)
  }

  /** What each selector keeps: everything, one type, or one category, always in the input order. */
  lemma {:induction false} FilterSelectors(s: seq<Expense>, filter: string)
    ensures filter == "all" ==> ApplyFilter(s, filter) == s
    ensures filter == "expense" ==> ApplyFilter(s, filter) == OfType(s, ExpenseType)
    ensures filter == "income" ==> ApplyFilter(s, filter) == OfType(s, IncomeType)
    ensures filter !in {"all", "expense", "income"} ==>
      ApplyFilter(s, filter) == Filter(s, (e: Expense) => e.category == filter)
  {
    if s != [] {
      FilterSelectors(s[1..], filter);
      assert s == [s[0]] + s[1..];
    }
  }

  datatype SortBy = ByDate | ByAmount

  /** The comparator's key: the date's time stamp, or the amount. */
  function SortKey(sortBy: SortBy): Expense -> int {
    if sortBy == ByDate then (e: Expense) => Timestamp(e.date) else (e: Expense) => e.amount
  }

  function SortEntries(s: seq<Expense>, sortBy: SortBy): seq<Expense> {
    Sort(s, SortKey(sortBy))
  }

  /**
   * The sorted list is a permutation of its input, newest (or largest) first,
   * and entries with equal keys keep their input order.
   */
  lemma SortEntriesSpec(s: seq<Expense>, sortBy: SortBy)
    ensures var r := SortEntries(s, sortBy);
      && multiset(r) == multiset(s)
      && (sortBy == ByDate ==> forall i, j :: 0 <= i < j < |r| ==> Timestamp(r[i].date) >= Timestamp(r[j].date))
      && (sortBy == ByAmount ==> forall i, j :: 0 <= i < j < |r| ==> r[i].amount >= r[j].amount)
      && forall k :: WithKey(r, SortKey(sortBy), k) == WithKey(s, SortKey(sortBy), k)
  {
    var r := SortEntries(s, sortBy);
    assert SortedDesc(r, SortKey(sortBy));
    forall k ensures WithKey(r, SortKey(sortBy), k) == WithKey(s, SortKey(sortBy), k) {
      SortStable(s, SortKey(sortBy), k);
    }
  }

  /**
   * After the newest-first sort, the entries of one day form one run: an entry
   * between two entries of the same day is of that day too.
   */
  lemma {:induction false} DateSortKeepsDaysTogether(s: seq<Expense>, i: int, j: int, l: int)
    requires var r := SortEntries(s, ByDate); 0 <= i < j < l < |r| && DayOf(r[i].date) == DayOf(r[l].date)
    ensures var r := SortEntries(s, ByDate); DayOf(r[j].date) == DayOf(r[i].date)
  {
    var r := SortEntries(s, ByDate);
    SortEntriesSpec(s, ByDate);
    assert Timestamp(r[j].date) <= Timestamp(r[i].date);
    assert Timestamp(r[l].date) <= Timestamp(r[j].date);
    DayOfMonotone(r[j].date, r[i].date);
    DayOfMonotone(r[l].date, r[j].date);
    DayOrdinalInjective(DayOf(r[j].date), DayOf(r[i].date));
  }

  // ---------------------------------------------------------------- grouping by day

  /** The entries of `s` whose day key is `k`, in their order in `s`. */
  function OnDay(s: seq<Expense>, k: CalendarDay): (r: seq<Expense>)
    ensures forall e :: e in r <==> e in s && DayOf(e.date) == k
  {
    if s == [] then [] else (if DayOf(s[0].date) == k then [s[0]] else []) + OnDay(s[1..], k)
  }

  lemma {:induction false} OnDayAppend(s: seq<Expense>, e: Expense, k: CalendarDay)
    ensures OnDay(s + [e], k) == OnDay(s, k) + (if DayOf(e.date) == k then [e] else [])
  {
    if s == [] {
      assert s + [e] == [e];
      assert [e][1..] == [];
    } else {
      assert (s + [e])[0] == s[0];
      assert (s + [e])[1..] == s[1..] + [e];
      OnDayAppend(s[1..], e, k);
    }
  }

  /** What the grouping has built after reading `prefix`. */
  ghost predicate GroupedAs(prefix: seq<Expense>, groups: map<CalendarDay, seq<Expense>>, order: seq<CalendarDay>) {
    && NoDuplicates(order)
    && (forall k :: k in order <==> k in groups)
    && (forall k :: k in groups <==> OnDay(prefix, k) != [])
    && (forall k :: k in groups ==> groups[k] == OnDay(prefix, k))
  }

  /** The key list of one reduce step: a day met for the first time is appended. */
  lemma StepOrder(order: seq<CalendarDay>, groups: map<CalendarDay, seq<Expense>>, key: CalendarDay, v: seq<Expense>)
    requires NoDuplicates(order) && forall k :: k in order <==> k in groups
    ensures var order' := if key in groups then order else order + [key];
      NoDuplicates(order') && forall k :: k in order' <==> k in groups[key := v]
  {
    if key !in groups {
      AppendFresh(order, key);
    }
  }

  /** The day lists of one reduce step: only the entry's own day grows, by that entry. */
  lemma StepGroups(prefix: seq<Expense>, e: Expense, groups: map<CalendarDay, seq<Expense>>)
    requires forall k :: k in groups <==> OnDay(prefix, k) != []
    requires forall k :: k in groups ==> groups[k] == OnDay(prefix, k)
    ensures var key := DayOf(e.date);
      var groups' := groups[key := (if key in groups then groups[key] else []) + [e]];
      && (forall k :: k in groups' <==> OnDay(prefix + [e], k) != [])
      && (forall k :: k in groups' ==> groups'[k] == OnDay(prefix + [e], k))
  {
    forall k ensures OnDay(prefix + [e], k) == OnDay(prefix, k) + (if DayOf(e.date) == k then [e] else []) {
      OnDayAppend(prefix, e, k);
    }
  }

  /** One step of the reduce: open the day's list if needed, then push the entry. */
  lemma GroupStep(prefix: seq<Expense>, e: Expense, groups: map<CalendarDay, seq<Expense>>, order: seq<CalendarDay>)
    requires GroupedAs(prefix, groups, order)
    ensures var key := DayOf(e.date);
      GroupedAs(prefix + [e],
        groups[key := (if key in groups then groups[key] else []) + [e]],
        if key in groups then order else order + [key])
  {
    var key := DayOf(e.date);
    var groups' := groups[key := (if key in groups then groups[key] else []) + [e]];
    var order' := if key in groups then order else order + [key];
    StepOrder(order, groups, key, groups'[key]);
    StepGroups(prefix, e, groups);
    assert GroupedAs(prefix + [e], groups', order');
  }

  /** `GroupStep` for the entry at position `i` of the list being reduced. */
  lemma GroupStepAt(s: seq<Expense>, i: int, groups: map<CalendarDay, seq<Expense>>, order: seq<CalendarDay>)
    requires 0 <= i < |s| && GroupedAs(s[..i], groups, order)
    ensures var key := DayOf(s[i].date);
      GroupedAs(s[..i + 1],
        groups[key := (if key in groups then groups[key] else []) + [s[i]]],
        if key in groups then order else order + [key])
  {
    assert s[..i + 1] == s[..i] + [s[i]];
    GroupStep(s[..i], s[i], groups, order);
  }

  lemma GroupedNothing(s: seq<Expense>, groups: map<CalendarDay, seq<Expense>>, order: seq<CalendarDay>)
    requires GroupedAs(s, groups, order)
    ensures order == [] <==> s == []
  {
    if s != [] {
      assert s[0] in OnDay(s, DayOf(s[0].date));
      assert DayOf(s[0].date) in order;
    }
    if order != [] {
      assert order[0] in groups;
    }
  }

  /**
   * The `groupedByDate` reduce: one list per day key, filled in list order,
   * and the keys in the order they were first met (`Object.keys`).
   */
  method GroupByDay(sorted: seq<Expense>) returns (groups: map<CalendarDay, seq<Expense>>, order: seq<CalendarDay>)
    ensures NoDuplicates(order)
    ensures forall k :: k in order <==> k in groups
    ensures forall k :: k in groups <==> OnDay(sorted, k) != []
    ensures forall k :: k in groups ==> groups[k] == OnDay(sorted, k)
    ensures order == [] <==> sorted == []
  {
    groups, order := map[], [];
    var i := 0;
    while i < |sorted|
      invariant 0 <= i <= |sorted|
      invariant GroupedAs(sorted[..i], groups, order)
    {
      var e := sorted[i];
      var key := DayOf(e.date);
      var dayList := if key in groups then groups[key] else [];
      var order' := if key in groups then order else order + [key];
      GroupStepAt(sorted, i, groups, order);
      groups, order := groups[key := dayList + [e]], order';
      i := i + 1;
    }
    assert sorted[..i] == sorted;
    assert GroupedAs(sorted, groups, order);
    GroupedNothing(sorted, groups, order);
  }

  /** `sortedDateKeys`: the day keys, newest first. */
  function SortDateKeys(keys: seq<CalendarDay>): seq<CalendarDay> {
    Sort(keys, DayOrdinal)
  }

  /** The sorted keys are the same keys, without duplicates, strictly descending by day. */
  lemma SortDateKeysSpec(keys: seq<CalendarDay>)
    requires NoDuplicates(keys)
    ensures var r := SortDateKeys(keys);
      && |r| == |keys|
      && NoDuplicates(r)
      && (forall k :: k in r <==> k in keys)
      && forall i, j :: 0 <= i < j < |r| ==> DayOrdinal(r[i]) > DayOrdinal(r[j])
  {
    var r := SortDateKeys(keys);
    SortNoDuplicates(keys, DayOrdinal);
    forall i, j | 0 <= i < j < |r| ensures DayOrdinal(r[i]) > DayOrdinal(r[j]) {
      DayOrdinalInjective(r[i], r[j]);
    }
  }

  /** The groups listed in `keys` order, concatenated. */
  function Flatten(keys: seq<CalendarDay>, s: seq<Expense>): seq<Expense> {
    if keys == [] then [] else OnDay(s, keys[0]) + Flatten(keys[1..], s)
  }

  /** The entries whose day key is one of `keys`. */
  function OnDays(s: seq<Expense>, keys: seq<CalendarDay>): seq<Expense> {
    if s == [] then [] else (if DayOf(s[0].date) in keys then [s[0]] else []) + OnDays(s[1..], keys)
  }

  lemma {:induction false} OnDaysSplit(s: seq<Expense>, keys: seq<CalendarDay>)
    requires keys != [] && keys[0] !in keys[1..]
    ensures multiset(OnDays(s, keys)) == multiset(OnDay(s, keys[0])) + multiset(OnDays(s, keys[1..]))
  {
    if s != [] {
      OnDaysSplit(s[1..], keys);
      assert keys == [keys[0]] + keys[1..];
    }
  }

  lemma {:induction false} FlattenIsOnDays(keys: seq<CalendarDay>, s: seq<Expense>)
    requires NoDuplicates(keys)
    ensures multiset(Flatten(keys, s)) == multiset(OnDays(s, keys))
  {
    if keys == [] {
      OnDaysNone(s, keys);
    } else {
      assert NoDuplicates(keys[1..]);
      assert keys[0] !in keys[1..];
      FlattenIsOnDays(keys[1..], s);
      OnDaysSplit(s, keys);
    }
  }

  lemma {:induction false} OnDaysNone(s: seq<Expense>, keys: seq<CalendarDay>)
    requires keys == []
    ensures OnDays(s, keys) == []
  {
    if s != [] { OnDaysNone(s[1..], keys); }
  }

  lemma {:induction false} OnDaysAll(s: seq<Expense>, keys: seq<CalendarDay>)
    requires forall i :: 0 <= i < |s| ==> DayOf(s[i].date) in keys
    ensures OnDays(s, keys) == s
  {
    if s != [] {
      OnDaysAll(s[1..], keys);
      assert s == [s[0]] + s[1..];
    }
  }

  /**
   * Grouping partitions the list: laid end to end, the groups of a
   * duplicate-free key list that covers every entry's day hold each entry
   * exactly as often as the list does.
   */
  lemma GroupsPartition(keys: seq<CalendarDay>, s: seq<Expense>)
    requires NoDuplicates(keys)
    requires forall i :: 0 <= i < |s| ==> DayOf(s[i].date) in keys
    ensures multiset(Flatten(keys, s)) == multiset(s)
  {
    FlattenIsOnDays(keys, s);
    OnDaysAll(s, keys);
  }

  // ---------------------------------------------------------------- totals and labels

  function Signed(e: Expense): int {
    if e.kind == ExpenseType then -e.amount else e.amount
  }

  /** The `getDailyTotal` reduce: expenses subtract, income adds. */
  function DailyTotal(group: seq<Expense>): int {
    if group == [] then 0 else DailyTotal(group[..|group| - 1]) + Signed(group[|group| - 1])
  }

  /** A day's total is its income minus its expenses: the balance of that day. */
  lemma {:induction false} DailyTotalIsNet(group: seq<Expense>)
    ensures DailyTotal(group) == TotalIncome(group) - TotalExpenses(group)
  {
    if group != [] {
      var init, last := group[..|group| - 1], group[|group| - 1];
      assert group == init + [last];
      DailyTotalIsNet(init);
      TotalsConcat(init, [last]);
      TotalsOfOne(last);
    }
  }

  datatype DailySummary = DailySummary(amount: string, isPositive: bool)

  /** `getDailyTotal`: the signed, formatted total and whether it is non-negative. */
  function GetDailyTotal(group: seq<Expense>, info: CurrencyInfo): DailySummary {
    TotalLabel(DailyTotal(group), info)
  }

  function TotalLabel(total: int, info: CurrencyInfo): DailySummary {
    DailySummary((if total >= 0 then "+" else "-") + info.symbol + Render(Magnitude(total), info), total >= 0)
  }

  /** A one-character sign, then the symbol, then a rendered amount that reads back as that amount. */
  lemma SignedLabel(sign: string, cents: int, info: CurrencyInfo)
    requires |sign| == 1
    ensures var t := sign + info.symbol + Render(cents, info);
      && t[0] == sign[0]
      && t[1..1 + |info.symbol|] == info.symbol
      && ParseFloat(t[1 + |info.symbol|..]) == Some(cents)
  {
    var t := sign + info.symbol + Render(cents, info);
    assert t[1..1 + |info.symbol|] == info.symbol;
    assert t[1 + |info.symbol|..] == Render(cents, info);
    RenderRoundTrip(cents, info);
  }

  /**
   * A header label: positive exactly when the total is non-negative, `+`
   * exactly when positive, then the symbol, then a number that reads back as
   * the size of the total.
   */
  lemma TotalLabelShape(total: int, info: CurrencyInfo)
    ensures var d := TotalLabel(total, info);
      && (d.isPositive <==> total >= 0)
      && (d.amount[0] == '+' <==> d.isPositive)
      && (d.amount[0] == '-' <==> !d.isPositive)
      && d.amount[1..1 + |info.symbol|] == info.symbol
      && ParseFloat(d.amount[1 + |info.symbol|..]) == Some(Magnitude(total))
  {
    SignedLabel(if total >= 0 then "+" else "-", Magnitude(total), info);
  }

  /** The day header labels the day's balance: its income minus its expenses. */
  lemma DailySummaryIsNet(group: seq<Expense>, info: CurrencyInfo)
    ensures GetDailyTotal(group, info) == TotalLabel(Balance(group), info)
  {
    var net := DailyTotal(group);
    DailyTotalIsNet(group);
    assert net == Balance(group);
    assert GetDailyTotal(group, info) == TotalLabel(net, info);
  }

  /** `formatAmount`: `-` for an expense, `+` for income, the symbol, then the amount. */
  function FormatAmount(cents: int, kind: EntryType, info: CurrencyInfo): string {
    (if kind == ExpenseType then "-" else "+") + info.symbol + Render(cents, info)
  }

  lemma FormatAmountShape(cents: int, kind: EntryType, info: CurrencyInfo)
    ensures var t := FormatAmount(cents, kind, info);
      && (t[0] == '-' <==> kind == ExpenseType)
      && (t[0] == '+' <==> kind == IncomeType)
      && t[1..1 + |info.symbol|] == info.symbol
      && ParseFloat(t[1 + |info.symbol|..]) == Some(cents)
  {
    SignedLabel(if kind == ExpenseType then "-" else "+", cents, info);
  }

  // ---------------------------------------------------------------- category options

  /** `categories`: the distinct categories of the month's entries. */
  function Categories(monthly: seq<Expense>): (r: seq<string>)
    ensures NoDuplicates(r)
    ensures forall c :: c in r <==> exists i :: 0 <= i < |monthly| && monthly[i].category == c
  {
    CategoryNamesSpec(monthly);
    Distinct(CategoryNames(monthly))
  }

  function CategoryNames(monthly: seq<Expense>): (names: seq<string>)
    ensures |names| == |monthly|
    ensures forall i :: 0 <= i < |monthly| ==> names[i] == monthly[i].category
  {
    seq(|monthly|, i requires 0 <= i < |monthly| => monthly[i].category)
  }

  lemma CategoryNamesSpec(monthly: seq<Expense>)
    ensures forall c :: c in CategoryNames(monthly) <==> exists i :: 0 <= i < |monthly| && monthly[i].category == c
  {
    var names := CategoryNames(monthly);
    forall c ensures c in names <==> exists i :: 0 <= i < |monthly| && monthly[i].category == c {
      if c in names {
        var i :| 0 <= i < |names| && names[i] == c;
        assert monthly[i].category == c;
      }
    }
  }

  // ---------------------------------------------------------------- the whole view

  datatype HistoryView = HistoryView(
    dateKeys: seq<CalendarDay>,
    groups: map<CalendarDay, seq<Expense>>,
    categories: seq<string>,
    showEmpty: bool)

  /** The list the day groups are built from. */
  function Shown(s: seq<Expense>, y: int, m: Month, filter: string, sortBy: SortBy): seq<Expense> {
    SortEntries(ApplyFilter(MonthlyEntries(s, y, m), filter), sortBy)
  }

  /** The day keys of a grouping, newest first, index groups that partition the list. */
  lemma SortedGrouping(shown: seq<Expense>, groups: map<CalendarDay, seq<Expense>>, order: seq<CalendarDay>)
    requires NoDuplicates(order)
    requires forall k :: k in order <==> k in groups
    requires forall k :: k in groups <==> OnDay(shown, k) != []
    ensures var keys := SortDateKeys(order);
      && |keys| == |order|
      && NoDuplicates(keys)
      && (forall k :: k in keys <==> k in groups)
      && (forall i, j :: 0 <= i < j < |keys| ==> DayOrdinal(keys[i]) > DayOrdinal(keys[j]))
      && multiset(Flatten(keys, shown)) == multiset(shown)
  {
    var keys := SortDateKeys(order);
    SortDateKeysSpec(order);
    forall i | 0 <= i < |shown| ensures DayOf(shown[i].date) in keys {
      assert shown[i] in OnDay(shown, DayOf(shown[i].date));
    }
    GroupsPartition(keys, shown);
  }

  /** The transaction history for the window `(y, m)`, a filter and a sort order. */
  method BuildHistory(s: seq<Expense>, y: int, m: Month, filter: string, sortBy: SortBy) returns (v: HistoryView)
    ensures var shown := Shown(s, y, m, filter, sortBy);
      && (v.showEmpty <==> ApplyFilter(MonthlyEntries(s, y, m), filter) == [])
      && NoDuplicates(v.dateKeys)
      && (forall k :: k in v.dateKeys <==> k in v.groups)
      && (forall k :: k in v.groups <==> OnDay(shown, k) != [])
      && (forall k :: k in v.groups ==> v.groups[k] == OnDay(shown, k))
      && (forall i, j :: 0 <= i < j < |v.dateKeys| ==> DayOrdinal(v.dateKeys[i]) > DayOrdinal(v.dateKeys[j]))
      && multiset(Flatten(v.dateKeys, shown)) == multiset(shown)
      && v.categories == Categories(MonthlyEntries(s, y, m))
  {
    var monthly := MonthlyEntries(s, y, m);
    var filtered := ApplyFilter(monthly, filter);
    var shown := SortEntries(filtered, sortBy);
    assert |shown| == |filtered|;
    var groups, order := GroupByDay(shown);
    var keys := SortDateKeys(order);
    SortedGrouping(shown, groups, order);
    v := HistoryView(keys, groups, Categories(monthly), |keys| == 0);
  }
}
