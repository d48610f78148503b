/** The add-transaction form: required fields, amount coercion and the reset after a submit. */
module Form {
  import opened Wrappers
  import opened Calendar
  import opened Numbers
  import opened Currency
  import opened Records

  /** `!amount || !description || !category`: an empty text is falsy. */
  predicate MissingInformation(amount: string, description: string, category: string) {
    amount == "" || description == "" || category == ""
  }

  /** The submitted amount: `parseFloat` for a currency with decimals, `parseInt` otherwise. */
  function CoerceAmount(text: string, info: CurrencyInfo): Option<int> {
    if info.hasDecimals then ParseFloat(text) else ParseInt(text)
  }

  /** On `a.f`, a decimal currency keeps the hundredths and a whole-number currency drops the fraction. */
  lemma CoercionPolicy(a: string, f: string, info: CurrencyInfo)
    requires IsPlainDecimal(a, f)
    ensures CoerceAmount(a + "." + f, info)
      == Some(if info.hasDecimals then DigitsValue(a) * 100 + FractionCents(f) else DigitsValue(a) * 100)
  {
    if info.hasDecimals { ParseFloatKeepsFraction(a, f); } else { ParseIntDropsFraction(a, f); }
  }

  /** "12.50" is 12.50 dollars but 12 rupees. */
  lemma TwelveFifty()
    ensures CoerceAmount("12.50", Currencies(USD)) == Some(1250)
    ensures CoerceAmount("12.50", Currencies(PKR)) == Some(1200)
  {
    var a, f := "12", "50";
    assert IsPlainDecimal(a, f);
    assert a[..1] == "1";
    assert DigitsValue(a) == 12;
    assert FractionCents(f) == 50;
    assert a + "." + f == "12.50";
    CoercionPolicy(a, f, Currencies(USD));
    CoercionPolicy(a, f, Currencies(PKR));
  }

  /**
   * What a submit does: nothing (a missing field), a reset with no usable amount
   * (the source hands over `NaN`), or one call of `onAddExpense`.
   */
  datatype SubmitOutcome = MissingFields | NotANumber | Submitted(draft: Draft)

  /** The form's state fields. */
  class ExpenseForm {
    var amount: string
    var description: string
    var category: string
    var kind: EntryType
    var date: CalendarDate

    /** Empty texts, type "expense", and the date defaulting to `now` at mount time. */
    constructor (now: CalendarDate)
      ensures amount == "" && description == "" && category == ""
      ensures kind == ExpenseType && date == now
    {
      amount, description, category := "", "", "";
      kind, date := ExpenseType, now;
    }

    /**
     * `handleSubmit`: validate, build the draft, hand it over, reset three fields.
     * An amount that does not parse yields `NotANumber` in place of a draft; the
     * fields are reset all the same.
     */
    method HandleSubmit(info: CurrencyInfo) returns (outcome: SubmitOutcome)
      modifies this
      ensures outcome.MissingFields? <==> old(MissingInformation(amount, description, category))
      ensures outcome.NotANumber? <==>
        !old(MissingInformation(amount, description, category)) && CoerceAmount(old(amount), info) == None
      ensures outcome.MissingFields? ==>
        amount == old(amount) && description == old(description) && category == old(category)
        && kind == old(kind) && date == old(date)
      ensures !outcome.MissingFields? ==>
        amount == "" && description == "" && category == "" && kind == old(kind) && date == old(date)
      ensures outcome.Submitted? ==>
        && CoerceAmount(old(amount), info) == Some(outcome.draft.amount)
        && outcome.draft.description == old(description)
        && outcome.draft.category == old(category)
        && outcome.draft.kind == old(kind)
        && outcome.draft.date == old(date)
    {
      if MissingInformation(amount, description, category) {
        return MissingFields;
      }
      var parsed := CoerceAmount(amount, info);
      outcome := if parsed.None? then NotANumber else Submitted(Draft(parsed.value, description, category, date, kind));
      amount := "";
      description := "";
      category := "";
    }
  }
}
