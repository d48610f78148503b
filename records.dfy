/** The transaction record (`Expense`, income or expense) and the form's fixed category list. */
module Records {
  import opened Calendar
  import opened Seqs

  datatype EntryType = ExpenseType | IncomeType

  /** One transaction; `amount` is in hundredths, `date` is the calendar date its ISO string denotes. */
  datatype Expense = Expense(
    id: string,
    amount: int,
    description: string,
    category: string,
    date: CalendarDate,
    kind: EntryType)

  /** `Omit<Expense, "id">`: what the form submits and the store completes with an identifier. */
  datatype Draft = Draft(
    amount: int,
    description: string,
    category: string,
    date: CalendarDate,
    kind: EntryType)

  const CategoryOptions: seq<string> := [
    "Food & Dining",
    "Transportation",
    "Shopping",
    "Entertainment",
    "Bills & Utilities",
    "Healthcare",
    "Education",
    "Travel",
    "Income",
    "Other"]

  lemma CategoryOptionsShape()
    ensures |CategoryOptions| == 10 && NoDuplicates(CategoryOptions)
    ensures "Income" in CategoryOptions && "Other" in CategoryOptions
  {
  }
}
