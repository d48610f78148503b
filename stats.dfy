/** The statistics cards: lifetime and current-month totals, balance, counts and their display. */
module Stats {
  import opened Wrappers
  import opened Calendar
  import opened Numbers
  import opened Currency
  import opened Records

  /** `reduce((sum, e) => sum + e.amount, 0)`: a left fold over the amounts. */
  function SumAmounts(s: seq<Expense>): int {
    if s == [] then 0 else SumAmounts(s[..|s| - 1]) + s[|s| - 1].amount
  }

  /** `filter((e) => e.type === t)`. */
  function OfType(s: seq<Expense>, t: EntryType): (r: seq<Expense>)
    ensures |r| <= |s|
    ensures forall e :: e in r <==> e in s && e.kind == t
  {
    if s == [] then [] else (if s[0].kind == t then [s[0]] else []) + OfType(s[1..], t)
  }

  function TotalIncome(s: seq<Expense>): int { SumAmounts(OfType(s, IncomeType)) }

  function TotalExpenses(s: seq<Expense>): int { SumAmounts(OfType(s, ExpenseType)) }

  function Balance(s: seq<Expense>): int { TotalIncome(s) - TotalExpenses(s) }

  /** Whether an entry's month and year equal those of `today`. */
  predicate InMonthOf(e: Expense, today: CalendarDate) {
    e.date.month == today.month && e.date.year == today.year
  }

  /** The entries of type `t` dated in `today`'s month, in order. */
  function MonthOfType(s: seq<Expense>, t: EntryType, today: CalendarDate): (r: seq<Expense>)
    ensures forall e :: e in r <==> e in s && e.kind == t && InMonthOf(e, today)
  {
    if s == [] then []
    else (if s[0].kind == t && InMonthOf(s[0], today) then [s[0]] else []) + MonthOfType(s[1..], t, today)
  }

  function MonthlyExpenses(s: seq<Expense>, today: CalendarDate): int {
    SumAmounts(MonthOfType(s, ExpenseType, today))
  }

  function MonthlyIncome(s: seq<Expense>, today: CalendarDate): int {
    SumAmounts(MonthOfType(s, IncomeType, today))
  }

  function ExpenseCount(s: seq<Expense>): nat { |OfType(s, ExpenseType)| }

  function IncomeCount(s: seq<Expense>): nat { |OfType(s, IncomeType)| }

  /** `formatCurrency`: the symbol followed by the amount under the currency's decimal rule. */
  function FormatCurrency(cents: int, info: CurrencyInfo): string {
    info.symbol + Render(cents, info)
  }

  /** `getBalanceColor`: the colour class of a balance. */
  function BalanceColor(balance: int): (c: string)
    ensures c == "text-success" <==> balance > 0
    ensures c == "text-expense" <==> balance < 0
    ensures c == "text-foreground" <==> balance == 0
  {
    if balance > 0 then "text-success" else if balance < 0 then "text-expense" else "text-foreground"
  }

  /** The caption under the balance. */
  function BalanceCaption(balance: int): string {
    if balance >= 0 then "Positive balance" else "Negative balance"
  }

  lemma {:induction false} SumAmountsConcat(a: seq<Expense>, b: seq<Expense>)
    ensures SumAmounts(a + b) == SumAmounts(a) + SumAmounts(b)
  {
    if b == [] {
      assert a + b == a;
    } else {
      var b' := b[..|b| - 1];
      assert (a + b)[..|a + b| - 1] == a + b';
      assert (a + b)[|a + b| - 1] == b[|b| - 1];
      SumAmountsConcat(a, b');
    }
  }

  lemma {:induction false} OfTypeConcat(a: seq<Expense>, b: seq<Expense>, t: EntryType)
    ensures OfType(a + b, t) == OfType(a, t) + OfType(b, t)
  {
    if a == [] {
      assert a + b == b;
    } else {
      assert (a + b)[0] == a[0];
      assert (a + b)[1..] == a[1..] + b;
      OfTypeConcat(a[1..], b, t);
    }
  }

  /** The totals of a combined collection are the sums of the parts' totals. */
  lemma TotalsConcat(a: seq<Expense>, b: seq<Expense>)
    ensures TotalIncome(a + b) == TotalIncome(a) + TotalIncome(b)
    ensures TotalExpenses(a + b) == TotalExpenses(a) + TotalExpenses(b)
    ensures Balance(a + b) == Balance(a) + Balance(b)
  {
    OfTypeConcat(a, b, IncomeType);
    OfTypeConcat(a, b, ExpenseType);
    SumAmountsConcat(OfType(a, IncomeType), OfType(b, IncomeType));
    SumAmountsConcat(OfType(a, ExpenseType), OfType(b, ExpenseType));
  }

  /** One entry adds its amount to the total of its own type and changes nothing else. */
  lemma TotalsOfOne(e: Expense)
    ensures TotalIncome([e]) == (if e.kind == IncomeType then e.amount else 0)
    ensures TotalExpenses([e]) == (if e.kind == ExpenseType then e.amount else 0)
  {
    assert [e][1..] == [];
    SumOfOne(e);
  }

  lemma SumOfOne(e: Expense)
    ensures SumAmounts([e]) == e.amount
  {
    assert [e][..0] == [];
  }

  /** The empty collection has zero totals and zero counts. */
  lemma TotalsOfEmpty(today: CalendarDate)
    ensures TotalIncome([]) == 0 && TotalExpenses([]) == 0 && Balance([]) == 0
    ensures MonthlyIncome([], today) == 0 && MonthlyExpenses([], today) == 0
    ensures ExpenseCount([]) == 0 && IncomeCount([]) == 0
  {
  }

  /** Every entry is either an expense or an income, so the two counts add up to the length. */
  lemma {:induction false} CountsPartition(s: seq<Expense>)
    ensures ExpenseCount(s) + IncomeCount(s) == |s|
  {
    if s != [] {
      CountsPartition(s[1..]);
    }
  }

  /** A month's subtotal is the lifetime total of the entries dated in that month. */
  lemma {:induction false} MonthOfTypeIsFilteredType(s: seq<Expense>, t: EntryType, today: CalendarDate)
    ensures MonthOfType(s, t, today) == OfType(MonthOf(s, today), t)
  {
    if s != [] {
      MonthOfTypeIsFilteredType(s[1..], t, today);
      var head := if InMonthOf(s[0], today) then [s[0]] else [];
      OfTypeConcat(head, MonthOf(s[1..], today), t);
      assert head != [] ==> head[1..] == [];
    }
  }

  /** The entries dated in `today`'s month. */
  function MonthOf(s: seq<Expense>, today: CalendarDate): (r: seq<Expense>)
    ensures forall e :: e in r <==> e in s && InMonthOf(e, today)
  {
    if s == [] then [] else (if InMonthOf(s[0], today) then [s[0]] else []) + MonthOf(s[1..], today)
  }

  lemma MonthlyAreTotalsOfMonth(s: seq<Expense>, today: CalendarDate)
    ensures MonthlyIncome(s, today) == TotalIncome(MonthOf(s, today))
    ensures MonthlyExpenses(s, today) == TotalExpenses(MonthOf(s, today))
  {
    MonthOfTypeIsFilteredType(s, IncomeType, today);
    MonthOfTypeIsFilteredType(s, ExpenseType, today);
  }

  predicate NonNegativeAmounts(s: seq<Expense>) {
    forall i :: 0 <= i < |s| ==> s[i].amount >= 0
  }

  lemma {:induction false} MonthOfTypeAtMost(s: seq<Expense>, t: EntryType, today: CalendarDate)
    requires NonNegativeAmounts(s)
    ensures SumAmounts(MonthOfType(s, t, today)) <= SumAmounts(OfType(s, t))
  {
    if s != [] {
      assert NonNegativeAmounts(s[1..]);
      MonthOfTypeAtMost(s[1..], t, today);
      var m, o := MonthOfType(s[1..], t, today), OfType(s[1..], t);
      var hm := if s[0].kind == t && InMonthOf(s[0], today) then [s[0]] else [];
      var ho := if s[0].kind == t then [s[0]] else [];
      SumAmountsConcat(hm, m);
      SumAmountsConcat(ho, o);
      SumOfOne(s[0]);
      assert SumAmounts(hm) <= SumAmounts(ho);
    }
  }

  /** With non-negative amounts a monthly subtotal never exceeds its lifetime total. */
  lemma MonthlyAtMostTotal(s: seq<Expense>, today: CalendarDate)
    requires NonNegativeAmounts(s)
    ensures MonthlyIncome(s, today) <= TotalIncome(s)
    ensures MonthlyExpenses(s, today) <= TotalExpenses(s)
  {
    MonthOfTypeAtMost(s, IncomeType, today);
    MonthOfTypeAtMost(s, ExpenseType, today);
  }

  /** The balance card: colour and caption agree with the sign of income minus expenses. */
  lemma BalanceDisplay(s: seq<Expense>)
    ensures BalanceColor(Balance(s)) == "text-success" <==> TotalIncome(s) > TotalExpenses(s)
    ensures BalanceColor(Balance(s)) == "text-expense" <==> TotalIncome(s) < TotalExpenses(s)
    ensures BalanceCaption(Balance(s)) == "Negative balance" <==> BalanceColor(Balance(s)) == "text-expense"
  {
  }

  /** `formatCurrency` is the symbol followed by a number that reads back as the amount. */
  lemma FormatCurrencyShape(cents: int, info: CurrencyInfo)
    ensures var t := FormatCurrency(cents, info);
      && t[..|info.symbol|] == info.symbol
      && ParseFloat(t[|info.symbol|..]) == Some(cents)
  {
    var t := FormatCurrency(cents, info);
    assert t[|info.symbol|..] == Render(cents, info);
    RenderRoundTrip(cents, info);
  }
}
