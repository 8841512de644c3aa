/**
 * Loan evaluators: the principal that moves in the month a loan starts, and
 * the repayments that fall in a month, for loans given and loans taken alike.
 */
module Loans {
  import opened Wrappers
  import opened Decimal
  import opened Calendar
  import opened Records

  /** `loan.startDate || loan.date`: the date the principal is counted from. */
  function LoanStart(loan: Loan): Option<Date> {
    if loan.startDate.Some? then loan.startDate else loan.date
  }

  /** `parseFloat(loan.principalAmount || loan.totalSum) || 0`. */
  function PrincipalOf(loan: Loan): real {
    OrZero(ParseFloat(if Truthy(loan.principalAmount) then loan.principalAmount else loan.totalSum))
  }

  /**
   * Only a falsy principal (missing, 0 or "") falls back to `totalSum`: a
   * non-empty text is parsed even when it reads as 0 or as `NaN`, and then
   * gives its own value, 0 for `NaN`.
   */
  lemma PrincipalFallback(loan: Loan)
    ensures loan.principalAmount.Number? && loan.principalAmount.n != 0.0 ==> PrincipalOf(loan) == loan.principalAmount.n
    ensures loan.principalAmount.Text? ==> PrincipalOf(loan) == OrZero(loan.principalAmount.parsed)
    ensures !Truthy(loan.principalAmount) ==> PrincipalOf(loan) == OrZero(ParseFloat(loan.totalSum))
  {
  }

  /** The text "0" as principal does not fall back: with a `totalSum` of 500 the principal is 0. */
  lemma ZeroTextPrincipal(loan: Loan)
    requires loan.principalAmount == Text(Some(0.0)) && loan.totalSum == Number(500.0)
    ensures PrincipalOf(loan) == 0.0
    ensures PrincipalOf(loan.(principalAmount := Number(0.0))) == 500.0
  {
  }

  /** What one loan adds to a month's principal movement; the repayment mode plays no part. */
  function LoanPrincipal(loan: Loan, monthKey: string, isCurrentMonth: bool, realized: seq<string>): (r: real)
    ensures r == 0.0 || r == PrincipalOf(loan)
    ensures r != 0.0 ==> DateKeyText(LoanStart(loan)) == monthKey && !Suppressed(isCurrentMonth, realized, loan.id, monthKey)
  {
    if DateKeyText(LoanStart(loan)) == monthKey && !Suppressed(isCurrentMonth, realized, loan.id, monthKey)
    then PrincipalOf(loan)
    else 0.0
  }

  /** The principal movement of a list of loans in a month, summed left to right. */
  function PrincipalTotal(loans: seq<Loan>, monthKey: string, isCurrentMonth: bool, realized: seq<string>): real
    decreases |loans|
  {
    if loans == [] then 0.0
    else PrincipalTotal(loans[..|loans| - 1], monthKey, isCurrentMonth, realized)
         + LoanPrincipal(loans[|loans| - 1], monthKey, isCurrentMonth, realized)
  }

  /** `calculateLoanPrincipals(loans, monthKey, isCurrentMonth, realized)`. */
  method CalculateLoanPrincipals(loans: seq<Loan>, monthKey: string, isCurrentMonth: bool, realized: seq<string>)
    returns (totalPrincipals: real)
    ensures totalPrincipals == PrincipalTotal(loans, monthKey, isCurrentMonth, realized)
  {
    totalPrincipals := 0.0;
    var i := 0;
    while i < |loans|
      invariant 0 <= i <= |loans|
      invariant totalPrincipals == PrincipalTotal(loans[..i], monthKey, isCurrentMonth, realized)
    {
      var loan := loans[i];
      if DateKeyText(LoanStart(loan)) == monthKey {
        if !(isCurrentMonth && RealizedKey(loan.id, monthKey) in realized) {
          totalPrincipals := totalPrincipals + PrincipalOf(loan);
        }
      }
      assert loans[..i + 1][..i] == loans[..i];
      i := i + 1;
    }
    assert loans[..i] == loans;
  }

  /**
   * The key of the first repayment month of a monthly loan: the month after
   * the start, `new Date(year, startMonthIndex + 1, 1)`.
   */
  function FirstPaymentKeyText(startDate: Option<Date>): string {
    if startDate.Some? then GetMonthKey(MonthStart(startDate.value.year, startDate.value.month))
    else InvalidKeyText
  }

  /** `loan.payouts?.some(...)`: some manual payout is dated in the month. */
  predicate HasPayoutIn(payouts: seq<Payout>, monthKey: string) {
    exists p :: p in payouts && GetMonthKey(p.date) == monthKey
  }

  /** The sum of the manual payouts dated in the month, summed left to right; nothing when none is dated there. */
  function PayoutsIn(payouts: seq<Payout>, monthKey: string): (r: real)
    ensures !HasPayoutIn(payouts, monthKey) ==> r == 0.0
    decreases |payouts|
  {
    if payouts == [] then 0.0
    else
      var p := payouts[|payouts| - 1];
      var init := payouts[..|payouts| - 1];
      assert forall q :: q in init ==> q in payouts;
      PayoutsIn(init, monthKey) + (if GetMonthKey(p.date) == monthKey then OrZero(p.amount) else 0.0)
  }

  /**
   * What one loan repays in a month. A monthly loan pays `monthlyPayout` in
   * every month whose key lies between its first payment key and its end key,
   * unless realized in the current month; a manual loan pays its payouts
   * dated in the month, all skipped when the loan is realized in the current
   * month; any other mode pays nothing.
   */
  function LoanPayout(loan: Loan, monthKey: string, isCurrentMonth: bool, realized: seq<string>): (r: real)
    ensures loan.mode.UnknownMode? || Suppressed(isCurrentMonth, realized, loan.id, monthKey) ==> r == 0.0
    ensures loan.mode.ManualPayouts? && !HasPayoutIn(loan.mode.payouts, monthKey) ==> r == 0.0
    ensures loan.mode.MonthlyPayouts? && r != 0.0 ==> !LexLess(monthKey, FirstPaymentKeyText(loan.startDate))
  {
    match loan.mode
    case MonthlyPayouts(endDate, monthlyPayout) =>
      if !LexLess(monthKey, FirstPaymentKeyText(loan.startDate)) && !LexLess(DateKeyText(endDate), monthKey)
         && !Suppressed(isCurrentMonth, realized, loan.id, monthKey)
      then OrZero(monthlyPayout)
      else 0.0
    case ManualPayouts(payouts) =>
      if Suppressed(isCurrentMonth, realized, loan.id, monthKey) then 0.0 else PayoutsIn(payouts, monthKey)
    case UnknownMode => 0.0
  }

  /** The repayments of a list of loans in a month, summed left to right. */
  function PayoutTotal(loans: seq<Loan>, monthKey: string, isCurrentMonth: bool, realized: seq<string>): real
    decreases |loans|
  {
    if loans == [] then 0.0
    else PayoutTotal(loans[..|loans| - 1], monthKey, isCurrentMonth, realized)
         + LoanPayout(loans[|loans| - 1], monthKey, isCurrentMonth, realized)
  }

  /** `calculateLoanPayouts(loans, monthKey, isCurrentMonth, realized)`. */
  method CalculateLoanPayouts(loans: seq<Loan>, monthKey: string, isCurrentMonth: bool, realized: seq<string>)
    returns (totalPayouts: real)
    ensures totalPayouts == PayoutTotal(loans, monthKey, isCurrentMonth, realized)
  {
    totalPayouts := 0.0;
    var i := 0;
    while i < |loans|
      invariant 0 <= i <= |loans|
      invariant totalPayouts == PayoutTotal(loans[..i], monthKey, isCurrentMonth, realized)
    {
      var loan := loans[i];
      var isRealized := isCurrentMonth && RealizedKey(loan.id, monthKey) in realized;
      match loan.mode {
        case MonthlyPayouts(endDate, monthlyPayout) =>
          var firstPaymentMonthKey := FirstPaymentKeyText(loan.startDate);
          var lastPaymentMonthKey := DateKeyText(endDate);
          if !LexLess(monthKey, firstPaymentMonthKey) && !LexLess(lastPaymentMonthKey, monthKey) && !isRealized {
            totalPayouts := totalPayouts + OrZero(monthlyPayout);
          }
        case ManualPayouts(payouts) =>
          if !isRealized {
            totalPayouts := totalPayouts + PayoutsIn(payouts, monthKey);
          }
        case UnknownMode =>
      }
      assert loans[..i + 1][..i] == loans[..i];
      i := i + 1;
    }
    assert loans[..i] == loans;
  }

  /**
   * A loan's principal moves in the month its start date (or, without one,
   * its older `date`) falls in, and in no other month; it is skipped only
   * when that month is the current one and the loan is realized there.
   */
  lemma PrincipalOnlyInStartMonth(loan: Loan, k: MonthKey, isCurrentMonth: bool, realized: seq<string>)
    ensures LoanPrincipal(loan, KeyText(k), isCurrentMonth, realized)
         == if LoanStart(loan).Some? && KeyOf(LoanStart(loan).value) == k
               && !Suppressed(isCurrentMonth, realized, loan.id, KeyText(k))
            then PrincipalOf(loan) else 0.0
  {
    KeyBeforeInvalid(k);
    if LoanStart(loan).Some? {
      KeyTextInjective(k, KeyOf(LoanStart(loan).value));
    }
  }

  /**
   * The repayment window of a monthly loan (four-digit years): from the month
   * after the start month through the end month, both included.
   */
  lemma MonthlyPayoutWindow(loan: Loan, k: MonthKey, isCurrentMonth: bool, realized: seq<string>)
    requires loan.mode.MonthlyPayouts? && loan.startDate.Some? && loan.mode.endDate.Some?
    requires 1000 <= loan.startDate.value.year && Ordinal(KeyOf(loan.startDate.value)) < Ordinal(MonthKey(9999, 12))
    requires 1000 <= loan.mode.endDate.value.year <= 9999 && 1000 <= k.year <= 9999
    ensures LoanPayout(loan, KeyText(k), isCurrentMonth, realized)
         == if Ordinal(KeyOf(loan.startDate.value)) < Ordinal(k) <= Ordinal(KeyOf(loan.mode.endDate.value))
               && !Suppressed(isCurrentMonth, realized, loan.id, KeyText(k))
            then OrZero(loan.mode.monthlyPayout) else 0.0
  {
    var s := loan.startDate.value;
    var first := KeyOf(MonthStart(s.year, s.month));
    KeyOrder(k, first);
    KeyOrder(KeyOf(loan.mode.endDate.value), k);
  }

  /** A monthly loan never repays in its start month, whatever its end date (four-digit years). */
  lemma NoPayoutInStartMonth(loan: Loan, isCurrentMonth: bool, realized: seq<string>)
    requires loan.mode.MonthlyPayouts? && loan.startDate.Some?
    requires 1000 <= loan.startDate.value.year && Ordinal(KeyOf(loan.startDate.value)) < Ordinal(MonthKey(9999, 12))
    ensures LoanPayout(loan, GetMonthKey(loan.startDate.value), isCurrentMonth, realized) == 0.0
  {
    var s := loan.startDate.value;
    KeyOrder(KeyOf(s), KeyOf(MonthStart(s.year, s.month)));
  }

  /**
   * A monthly loan without an end date never stops: the Invalid Date's key
   * sorts after every month, so each month from the one after the start on
   * receives a payment unless it is realized in the current month
   * (four-digit years).
   */
  lemma MissingEndDateNeverStops(loan: Loan, k: MonthKey, isCurrentMonth: bool, realized: seq<string>)
    requires loan.mode.MonthlyPayouts? && loan.mode.endDate.None? && loan.startDate.Some?
    requires 1000 <= loan.startDate.value.year && Ordinal(KeyOf(loan.startDate.value)) < Ordinal(k)
    requires k.year <= 9999
    ensures LoanPayout(loan, KeyText(k), isCurrentMonth, realized)
         == if Suppressed(isCurrentMonth, realized, loan.id, KeyText(k)) then 0.0 else OrZero(loan.mode.monthlyPayout)
  {
    var s := loan.startDate.value;
    KeyOrder(k, KeyOf(MonthStart(s.year, s.month)));
    KeyBeforeInvalid(k);
    LexIrreflexive(InvalidKeyText);
    LexAsymmetric(KeyText(k), InvalidKeyText);
  }

  /** A monthly loan without a start date never repays: no month's key reaches the Invalid Date's key. */
  lemma MissingStartDateNeverPays(loan: Loan, k: MonthKey, isCurrentMonth: bool, realized: seq<string>)
    requires loan.mode.MonthlyPayouts? && loan.startDate.None?
    ensures LoanPayout(loan, KeyText(k), isCurrentMonth, realized) == 0.0
  {
    KeyBeforeInvalid(k);
  }

  /** Manual payouts add up independently: the payouts of two lists together are the sum of each. */
  lemma {:induction false} PayoutsInAppend(a: seq<Payout>, b: seq<Payout>, monthKey: string)
    ensures PayoutsIn(a + b, monthKey) == PayoutsIn(a, monthKey) + PayoutsIn(b, monthKey)
    decreases |b|
  {
    if b == [] {
      assert a + b == a;
    } else {
      var init := b[..|b| - 1];
      assert (a + b)[..|a + b| - 1] == a + init;
      PayoutsInAppend(a, init, monthKey);
    }
  }

  /** A single manual payout counts in the month of its date only. */
  lemma PayoutInItsMonth(p: Payout, k: MonthKey)
    ensures PayoutsIn([p], KeyText(k)) == if KeyOf(p.date) == k then OrZero(p.amount) else 0.0
  {
    assert [p][..0] == [];
    KeyTextInjective(KeyOf(p.date), k);
  }

  /** A loan with an unknown mode repays nothing, wherever it stands in the list. */
  lemma {:induction false} UnknownModeLoanPaysNothing(before: seq<Loan>, loan: Loan, after: seq<Loan>,
                                                       monthKey: string, isCurrentMonth: bool, realized: seq<string>)
    requires loan.mode.UnknownMode?
    ensures PayoutTotal(before + [loan] + after, monthKey, isCurrentMonth, realized)
         == PayoutTotal(before + after, monthKey, isCurrentMonth, realized)
    decreases |after|
  {
    var whole, without := before + [loan] + after, before + after;
    if after == [] {
      assert whole[..|whole| - 1] == before && whole[|whole| - 1] == loan;
      assert without == before;
    } else {
      var init, last := after[..|after| - 1], after[|after| - 1];
      var mid := before + [loan] + init;
      assert whole == mid + [last];
      assert without == (before + init) + [last];
      UnknownModeLoanPaysNothing(before, loan, init, monthKey, isCurrentMonth, realized);
      PayoutTotalSnoc(mid, last, monthKey, isCurrentMonth, realized);
      PayoutTotalSnoc(before + init, last, monthKey, isCurrentMonth, realized);
    }
  }

  lemma PayoutTotalSnoc(loans: seq<Loan>, last: Loan, monthKey: string, isCurrentMonth: bool, realized: seq<string>)
    ensures PayoutTotal(loans + [last], monthKey, isCurrentMonth, realized)
         == PayoutTotal(loans, monthKey, isCurrentMonth, realized) + LoanPayout(last, monthKey, isCurrentMonth, realized)
  {
    assert (loans + [last])[..|loans|] == loans;
  }

  /** A monthly loan of 300 lent on 2025-01-15 and repaid at 100 a month from February to April 2025. */
  const QuarterLoan: Loan :=
    Loan(7, Some(Date(2025, 1, 15)), None, Number(300.0), Missing, MonthlyPayouts(Some(Date(2025, 4, 15)), Some(100.0)))

  /**
   * The principal of `QuarterLoan` moves only in
   * January 2025; its repayments fall in February, March and April 2025 and
   * in no other month.
   */
  lemma QuarterLoanExample(k: MonthKey)
    requires 1000 <= k.year <= 9999
    ensures LoanPrincipal(QuarterLoan, KeyText(k), false, []) == if k == MonthKey(2025, 1) then 300.0 else 0.0
    ensures LoanPayout(QuarterLoan, KeyText(k), false, [])
         == if k == MonthKey(2025, 2) || k == MonthKey(2025, 3) || k == MonthKey(2025, 4) then 100.0 else 0.0
  {
    var loan := QuarterLoan;
    assert LoanStart(loan) == Some(Date(2025, 1, 15));
    assert PrincipalOf(loan) == 300.0;
    PrincipalOnlyInStartMonth(loan, k, false, []);
    MonthlyPayoutWindow(loan, k, false, []);
    assert Ordinal(KeyOf(Date(2025, 1, 15))) == 24300;
    assert Ordinal(KeyOf(Date(2025, 4, 15))) == 24303;
    assert 24300 < Ordinal(k) <= 24303 <==> k == MonthKey(2025, 2) || k == MonthKey(2025, 3) || k == MonthKey(2025, 4);
  }

  /** Outside the current month the realized list plays no part in the principal movement. */
  lemma {:induction false} PrincipalsOutsideCurrentMonth(loans: seq<Loan>, monthKey: string, r1: seq<string>, r2: seq<string>)
    ensures PrincipalTotal(loans, monthKey, false, r1) == PrincipalTotal(loans, monthKey, false, r2)
    decreases |loans|
  {
    if loans != [] {
      PrincipalsOutsideCurrentMonth(loans[..|loans| - 1], monthKey, r1, r2);
    }
  }

  /** Outside the current month the realized list plays no part in the repayments. */
  lemma {:induction false} PayoutsOutsideCurrentMonth(loans: seq<Loan>, monthKey: string, r1: seq<string>, r2: seq<string>)
    ensures PayoutTotal(loans, monthKey, false, r1) == PayoutTotal(loans, monthKey, false, r2)
    decreases |loans|
  {
    if loans != [] {
      PayoutsOutsideCurrentMonth(loans[..|loans| - 1], monthKey, r1, r2);
    }
  }
}
