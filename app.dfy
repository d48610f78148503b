/**
 * The application shell: the cached transaction list, the currency, and the
 * two flags that decide when data is loaded and when the currency is saved.
 * Every call into the store is represented by its outcome, passed in.
 */
module App {
  import opened Wrappers
  import opened Currency
  import opened Records
  import opened Stats

  /** The result of an awaited store call: its value, or a thrown error. */
  datatype StoreResult<T> = Stored(value: T) | StoreError

  const InitialCurrency := CurrencyInfo(USD, "$", true)

  lemma InitialCurrencyIsUsd()
    ensures InitialCurrency == Currencies(USD) && Consistent(InitialCurrency)
  {
  }

  /** `prev.filter((expense) => expense.id !== id)`. */
  function RemoveId(s: seq<Expense>, id: string): (r: seq<Expense>)
    ensures |r| <= |s|
    ensures forall e :: e in r <==> e in s && e.id != id
  {
    if s == [] then [] else (if s[0].id != id then [s[0]] else []) + RemoveId(s[1..], id)
  }

  /** Removal works piece by piece, so the remaining entries keep their order. */
  lemma {:induction false} RemoveIdConcat(a: seq<Expense>, b: seq<Expense>, id: string)
    ensures RemoveId(a + b, id) == RemoveId(a, id) + RemoveId(b, id)
  {
    if a == [] {
      assert a + b == b;
    } else {
      assert (a + b)[0] == a[0];
      assert (a + b)[1..] == a[1..] + b;
      RemoveIdConcat(a[1..], b, id);
    }
  }

  /** Deleting an identifier nobody has leaves the list as it was. */
  lemma {:induction false} RemoveAbsentId(s: seq<Expense>, id: string)
    requires forall i :: 0 <= i < |s| ==> s[i].id != id
    ensures RemoveId(s, id) == s
  {
    if s != [] {
      RemoveAbsentId(s[1..], id);
      assert s == [s[0]] + s[1..];
    }
  }

  /** Adding an entry with a fresh identifier and then deleting that identifier restores the list. */
  lemma AddThenDelete(e: Expense, s: seq<Expense>)
    requires forall i :: 0 <= i < |s| ==> s[i].id != e.id
    ensures RemoveId([e] + s, e.id) == s
  {
    RemoveIdConcat([e], s, e.id);
    assert [e][1..] == [];
    RemoveAbsentId(s, e.id);
  }

  /** A second delete of the same identifier changes nothing. */
  lemma RemoveIdIdempotent(s: seq<Expense>, id: string)
    ensures RemoveId(RemoveId(s, id), id) == RemoveId(s, id)
  {
    var r := RemoveId(s, id);
    assert forall i :: 0 <= i < |r| ==> r[i] in r;
    RemoveAbsentId(r, id);
  }

  /** Prepending an entry adds its amount to the total of its own type. */
  lemma PrependTotals(e: Expense, s: seq<Expense>)
    ensures TotalIncome([e] + s) == TotalIncome(s) + (if e.kind == IncomeType then e.amount else 0)
    ensures TotalExpenses([e] + s) == TotalExpenses(s) + (if e.kind == ExpenseType then e.amount else 0)
  {
    TotalsConcat([e], s);
    TotalsOfOne(e);
  }

  /** The state of the `App` component; `user` is what authentication reports. */
  class Session {
    var user: Option<string>
    var expenses: seq<Expense>
    var currency: CurrencyInfo
    var hasMigrated: bool
    var isInitialCurrencyLoad: bool

    /** Both flags change together, in the one step that completes a load. */
    ghost predicate Valid()
      reads this
    {
      hasMigrated == !isInitialCurrencyLoad
    }

    constructor (user: Option<string>)
      ensures Valid()
      ensures this.user == user && expenses == [] && currency == InitialCurrency
      ensures !hasMigrated && isInitialCurrencyLoad
    {
      this.user := user;
      expenses := [];
      currency := InitialCurrency;
      hasMigrated := false;
      isInitialCurrencyLoad := true;
    }

    /** The load effect's guard: `user && !hasMigrated`. */
    predicate ShouldLoad()
      reads this
    {
      user.Some? && !hasMigrated
    }

    /** The save effect's guard: `user && hasMigrated && !isInitialCurrencyLoad`. */
    predicate SaveScheduled()
      reads this
    {
      user.Some? && hasMigrated && !isInitialCurrencyLoad
    }

    /**
     * `loadUserData`, run by the load effect: `getExpenses` then
     * `getUserPreferences`. A failure stops the sequence where it happens.
     * The result says whether the flags it set make the save effect schedule a save.
     */
    method LoadUserData(fetched: StoreResult<seq<Expense>>, preference: StoreResult<Option<CurrencyInfo>>)
      returns (saveScheduled: bool)
      requires Valid()
      modifies this
      ensures Valid() && user == old(user)
      ensures !old(ShouldLoad()) ==>
        expenses == old(expenses) && currency == old(currency) && hasMigrated == old(hasMigrated) && !saveScheduled
      ensures old(ShouldLoad()) ==>
        && expenses == (if fetched.Stored? then fetched.value else old(expenses))
        && currency == (if fetched.Stored? && preference.Stored? && preference.value.Some?
                        then preference.value.value else old(currency))
        && hasMigrated == (fetched.Stored? && preference.Stored?)
        && saveScheduled == hasMigrated
      ensures saveScheduled ==> SaveScheduled()
      ensures hasMigrated ==> !ShouldLoad()
    {
      saveScheduled := false;
      if !ShouldLoad() {
        return;
      }
      if fetched.StoreError? {
        return;
      }
      expenses := fetched.value;
      if preference.StoreError? {
        return;
      }
      if preference.value.Some? {
        currency := preference.value.value;
      }
      isInitialCurrencyLoad := false;
      hasMigrated := true;
      saveScheduled := SaveScheduled();
    }

    /** The selector's `onCurrencyChange`: the table entry replaces the currency; a save follows when the guard allows. */
    method ChangeCurrency(code: Code) returns (saveScheduled: bool)
      modifies this
      ensures currency == Currencies(code) && Consistent(currency)
      ensures user == old(user) && expenses == old(expenses)
      ensures hasMigrated == old(hasMigrated) && isInitialCurrencyLoad == old(isInitialCurrencyLoad)
      ensures saveScheduled == SaveScheduled()
    {
      currency := Currencies(code);
      saveScheduled := SaveScheduled();
    }

    /**
     * `addExpense`: with a user, the store is asked to save `draft`; a stored entry goes to the front.
     * `stored` is what the store answers. Like the source, the model does not tie the
     * returned entry to the draft: the store assigns the identifier and is trusted for the rest.
     */
    method AddExpense(draft: Draft, stored: StoreResult<Expense>) returns (storeCalled: bool)
      modifies this
      ensures storeCalled == old(user).Some?
      ensures expenses == (if storeCalled && stored.Stored? then [stored.value] + old(expenses) else old(expenses))
      ensures user == old(user) && currency == old(currency)
      ensures hasMigrated == old(hasMigrated) && isInitialCurrencyLoad == old(isInitialCurrencyLoad)
    {
      storeCalled := user.Some?;
      if !storeCalled {
        return;
      }
      if stored.Stored? {
        expenses := [stored.value] + expenses;
      }
    }

    /** `deleteExpense`: after a successful store delete, every entry with that identifier leaves the cache. */
    method DeleteExpense(id: string, outcome: StoreResult<()>)
      modifies this
      ensures expenses == (if outcome.Stored? then RemoveId(old(expenses), id) else old(expenses))
      ensures user == old(user) && currency == old(currency)
      ensures hasMigrated == old(hasMigrated) && isInitialCurrencyLoad == old(isInitialCurrencyLoad)
    {
      if outcome.Stored? {
        expenses := RemoveId(expenses, id);
      }
    }
  }
}
