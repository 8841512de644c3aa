/**
 * The entries a household enters (income, expenses, investments, loans,
 * portfolio allocations) and the realized-key list, as the projection
 * engine reads them.
 */
module Records {
  import opened Wrappers
  import opened Decimal
  import opened Calendar

  /**
   * The `type` field of an income, expense or investment entry:
   * 'one-time', 'monthly', missing (or empty), or any other text.
   */
  datatype EntryType = OneTime | Monthly | Untyped | OtherType

  /** An income or expense entry; the sign comes from the list it is in, not from `amount`. */
  datatype Entry = Entry(id: nat, amount: real, date: Date, kind: EntryType)

  /** An investment contribution; `annualReturn` is a percentage, `None` when missing or not a number. */
  datatype Investment = Investment(id: nat, amount: real, date: Date, kind: EntryType, annualReturn: Option<real>)

  /** One ad-hoc repayment of a manual-mode loan. */
  datatype Payout = Payout(date: Date, amount: Option<real>)

  /** How a loan is repaid; `UnknownMode` is any other value of the `mode` field. */
  datatype LoanMode =
    | MonthlyPayouts(endDate: Option<Date>, monthlyPayout: Option<real>)
    | ManualPayouts(payouts: seq<Payout>)
    | UnknownMode

  /**
   * A numeric field of a loan as the form stores it: missing (or null, or
   * `NaN`), a number, the empty text "", or a non-empty text. `parsed` is
   * what `parseFloat` reads from the non-empty text, `None` when it reads
   * `NaN`; `parseFloat("")` is always `NaN`.
   */
  datatype NumberField = Missing | Number(n: real) | EmptyText | Text(parsed: Option<real>)

  /** JavaScript truthiness of the field: missing, 0 and "" are falsy. */
  predicate Truthy(f: NumberField) {
    match f
    case Missing => false
    case Number(n) => n != 0.0
    case EmptyText => false
    case Text(_) => true
  }

  /** `parseFloat(f)`, `None` standing for `NaN`. */
  function ParseFloat(f: NumberField): Option<real> {
    match f
    case Missing => None
    case Number(n) => Some(n)
    case EmptyText => None
    case Text(parsed) => parsed
  }

  /**
   * A loan given or taken. `date` is the older field that stands in for a
   * missing `startDate` when the principal is counted; a falsy
   * `principalAmount` falls back to the older `totalSum`.
   */
  datatype Loan = Loan(
    id: nat,
    startDate: Option<Date>,
    date: Option<Date>,
    principalAmount: NumberField,
    totalSum: NumberField,
    mode: LoanMode)

  /** A lump sum already invested at the start of the horizon. */
  datatype Allocation = Allocation(id: nat, amount: real, description: string, annualReturn: Option<real>)

  /** `parseFloat(x) || 0`: a missing or malformed number counts as zero. */
  function OrZero(x: Option<real>): real {
    if x.Some? then x.value else 0.0
  }

  /** The realized-list key `${id}_${monthKey}`. */
  function RealizedKey(id: nat, monthKey: string): string {
    NatText(id) + "_" + monthKey
  }

  /** An entry is left out of a month's cash flow only in the current month, and only when realized there. */
  predicate Suppressed(isCurrentMonth: bool, realized: seq<string>, id: nat, monthKey: string) {
    isCurrentMonth && RealizedKey(id, monthKey) in realized
  }

  /** Realized keys of different entries for the same month never coincide. */
  lemma RealizedKeyInjective(a: nat, b: nat, monthKey: string)
    ensures RealizedKey(a, monthKey) == RealizedKey(b, monthKey) <==> a == b
  {
    if RealizedKey(a, monthKey) == RealizedKey(b, monthKey) {
      var ka, kb := RealizedKey(a, monthKey), RealizedKey(b, monthKey);
      var n := |ka| - |monthKey| - 1;
      assert ka[..n] == NatText(a) && kb[..n] == NatText(b);
      NatTextInjective(a, b);
    }
  }
}
