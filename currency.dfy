/**
 * The currency policy: the two supported codes, their table entries, the
 * selector that hands a whole entry to the application, and how an amount is
 * rendered under a currency's decimal rule.
 */
module Currency {
  import opened Wrappers
  import opened Numbers

  datatype Code = USD | PKR

  /** `CurrencyInfo`: a code, its display symbol, and whether fractions are allowed. */
  datatype CurrencyInfo = CurrencyInfo(code: Code, symbol: string, hasDecimals: bool)

  /** The `currencies` table, indexed by code. */
  function Currencies(c: Code): (info: CurrencyInfo)
    ensures info.code == c
    ensures info.hasDecimals <==> c == USD
  {
    match c
    case USD => CurrencyInfo(USD, "$", true)
    case PKR => CurrencyInfo(PKR, "Rs ", false)
  }

  /** An entry that agrees with the table. */
  predicate Consistent(info: CurrencyInfo) {
    info == Currencies(info.code)
  }

  /** What the selector passes to `onCurrencyChange` when `code` is picked: always a table entry. */
  lemma SelectionIsConsistent(code: Code)
    ensures Consistent(Currencies(code))
    ensures Currencies(code).hasDecimals <==> code == USD
    ensures Currencies(code).symbol == (if code == USD then "$" else "Rs ")
  {
  }

  const PkrHint := "PKR amounts will be rounded to whole numbers"
  const UsdHint := "USD amounts support decimal values"

  /** The hint lines under the selector: one per matching `code === ...` test. */
  function Hints(info: CurrencyInfo): (lines: seq<string>)
    ensures |lines| == 1
    ensures lines[0] == PkrHint <==> info.code == PKR
    ensures lines[0] == UsdHint <==> info.code == USD
  {
    (if info.code == PKR then [PkrHint] else []) + (if info.code == USD then [UsdHint] else [])
  }

  /** The number part of a displayed amount: `toFixed(2)` with decimals, `toString()` without. */
  function Render(cents: int, info: CurrencyInfo): string {
    if info.hasDecimals then ToFixed2(cents) else ToJsString(cents)
  }

  /** A rendered amount reads back as the same amount, in both styles. */
  lemma RenderRoundTrip(cents: int, info: CurrencyInfo)
    ensures ParseFloat(Render(cents, info)) == Some(cents)
  {
    if info.hasDecimals { ParseFloatToFixed2(cents); } else { ParseFloatToJsString(cents); }
  }

  /**
   * With decimals the text ends in a point and two digits; without, it shows a
   * point only for an amount that is not a whole number of units.
   */
  lemma RenderShape(cents: int, info: CurrencyInfo)
    ensures var t := Render(cents, info);
      info.hasDecimals ==> |t| >= 4 && t[|t| - 3] == '.' && IsDigit(t[|t| - 2]) && IsDigit(t[|t| - 1]) && '.' !in t[..|t| - 3]
    ensures !info.hasDecimals ==> ('.' in Render(cents, info) <==> cents % 100 != 0)
  {
    if info.hasDecimals { ToFixed2Shape(cents); } else { ToJsStringPoint(cents); }
  }
}
