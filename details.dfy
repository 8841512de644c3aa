/**
 * `getMonthDetails`: the entries and loans the month view lists for one
 * month. The view filters by type and date alone; it does not look at the
 * realized list, and its rules differ from the projection's in a few
 * corners, which the lemmas below pin down.
 */
module Details {
  import opened Wrappers
  import opened Decimal
  import opened Calendar
  import opened Records
  import opened Recurrence
  import opened Loans
  import opened Valuation

  /**
   * The listing rule for income, expense and investment entries: a
   * 'monthly' entry is listed in every month whose key is not before its
   * start key; an entry of any other type, or of none, in the month of its
   * date.
   */
  function ListedIn(kind: EntryType, date: Date, monthKey: string): (r: bool)
    ensures kind != OtherType ==> (r <==> CountsIn(kind, date, monthKey))
    ensures kind == OtherType ==> (r <==> GetMonthKey(date) == monthKey)
  {
    if kind == Monthly then !LexLess(monthKey, GetMonthKey(date)) else GetMonthKey(date) == monthKey
  }

  /** `income.filter(...)` (and the same for expenses): the entries listed in the month, in their order. */
  function MonthEntries(entries: seq<Entry>, monthKey: string): (r: seq<Entry>)
    ensures forall e :: e in r <==> e in entries && ListedIn(e.kind, e.date, monthKey)
    ensures |r| <= |entries|
    decreases |entries|
  {
    if entries == [] then []
    else
      var e := entries[|entries| - 1];
      var init := entries[..|entries| - 1];
      assert entries == init + [e];
      MonthEntries(init, monthKey) + if ListedIn(e.kind, e.date, monthKey) then [e] else []
  }

  function FilterInvestments(investments: seq<Investment>, monthKey: string): (r: seq<Investment>)
    ensures forall inv :: inv in r <==> inv in investments && ListedIn(inv.kind, inv.date, monthKey)
    decreases |investments|
  {
    if investments == [] then []
    else
      var inv := investments[|investments| - 1];
      var init := investments[..|investments| - 1];
      assert investments == init + [inv];
      FilterInvestments(init, monthKey) + if ListedIn(inv.kind, inv.date, monthKey) then [inv] else []
  }

  /** The entry filter keeps every copy of a listed entry and no copy of any other. */
  lemma {:induction false} MonthEntriesCount(entries: seq<Entry>, monthKey: string, x: Entry)
    ensures multiset(MonthEntries(entries, monthKey))[x] == if ListedIn(x.kind, x.date, monthKey) then multiset(entries)[x] else 0
    decreases |entries|
  {
    if entries != [] {
      var init := entries[..|entries| - 1];
      assert entries == init + [entries[|entries| - 1]];
      MonthEntriesCount(init, monthKey, x);
    }
  }

  /** The entry filter keeps the order of the list: it works on each part of a concatenation separately. */
  lemma {:induction false} MonthEntriesAppend(a: seq<Entry>, b: seq<Entry>, monthKey: string)
    ensures MonthEntries(a + b, monthKey) == MonthEntries(a, monthKey) + MonthEntries(b, monthKey)
    decreases |b|
  {
    if b == [] {
      assert a + b == a;
    } else {
      var init, e := b[..|b| - 1], b[|b| - 1];
      assert (a + b)[..|a + b| - 1] == a + init && (a + b)[|a + b| - 1] == e;
      MonthEntriesAppend(a, init, monthKey);
      var tail := if ListedIn(e.kind, e.date, monthKey) then [e] else [];
      assert MonthEntries(a, monthKey) + MonthEntries(init, monthKey) + tail
          == MonthEntries(a, monthKey) + (MonthEntries(init, monthKey) + tail);
    }
  }

  /** The investment filter keeps every copy of a listed investment and no copy of any other. */
  lemma {:induction false} FilterInvestmentsCount(investments: seq<Investment>, monthKey: string, x: Investment)
    ensures multiset(FilterInvestments(investments, monthKey))[x]
         == if ListedIn(x.kind, x.date, monthKey) then multiset(investments)[x] else 0
    decreases |investments|
  {
    if investments != [] {
      var init := investments[..|investments| - 1];
      assert investments == init + [investments[|investments| - 1]];
      FilterInvestmentsCount(init, monthKey, x);
    }
  }

  /** The investment filter keeps the order of the list. */
  lemma {:induction false} FilterInvestmentsAppend(a: seq<Investment>, b: seq<Investment>, monthKey: string)
    ensures FilterInvestments(a + b, monthKey) == FilterInvestments(a, monthKey) + FilterInvestments(b, monthKey)
    decreases |b|
  {
    if b == [] {
      assert a + b == a;
    } else {
      var init, inv := b[..|b| - 1], b[|b| - 1];
      assert (a + b)[..|a + b| - 1] == a + init && (a + b)[|a + b| - 1] == inv;
      FilterInvestmentsAppend(a, init, monthKey);
      var tail := if ListedIn(inv.kind, inv.date, monthKey) then [inv] else [];
      assert FilterInvestments(a, monthKey) + FilterInvestments(init, monthKey) + tail
          == FilterInvestments(a, monthKey) + (FilterInvestments(init, monthKey) + tail);
    }
  }

  /** The investments listed in the month; a missing investment list lists nothing. */
  function MonthInvestments(investments: Option<seq<Investment>>, monthKey: string): (r: seq<Investment>)
    ensures investments.None? ==> r == []
    ensures forall inv :: inv in r <==> investments.Some? && inv in investments.value && ListedIn(inv.kind, inv.date, monthKey)
  {
    if investments.Some? then FilterInvestments(investments.value, monthKey) else []
  }

  /** A loan as the month view lists it: `{ ...loan, isPrincipalMonth }`. */
  datatype LoanListing = LoanListing(loan: Loan, isPrincipalMonth: bool)

  /**
   * Whether, and how, one loan is listed in the month. Only `startDate`
   * counts here (no fallback to `date`). A monthly loan is listed from its
   * start month through its end month, both included; a manual loan in its
   * start month and in every month holding one of its payouts; a loan of
   * any other mode never.
   */
  function ListingOf(loan: Loan, monthKey: string): (r: Option<LoanListing>)
    ensures r.Some? ==> r.value.loan == loan && (r.value.isPrincipalMonth <==> DateKeyText(loan.startDate) == monthKey)
    ensures loan.mode.UnknownMode? ==> r.None?
    ensures loan.mode.MonthlyPayouts? ==>
      (r.Some? <==> !LexLess(monthKey, DateKeyText(loan.startDate)) && !LexLess(DateKeyText(loan.mode.endDate), monthKey))
    ensures loan.mode.ManualPayouts? ==>
      (r.Some? <==> HasPayoutIn(loan.mode.payouts, monthKey) || DateKeyText(loan.startDate) == monthKey)
  {
    var startMonthKey := DateKeyText(loan.startDate);
    var isPrincipalMonth := startMonthKey == monthKey;
    match loan.mode
    case MonthlyPayouts(endDate, _) =>
      if !LexLess(monthKey, startMonthKey) && !LexLess(DateKeyText(endDate), monthKey)
      then Some(LoanListing(loan, isPrincipalMonth)) else None
    case ManualPayouts(payouts) =>
      if HasPayoutIn(payouts, monthKey) || isPrincipalMonth then Some(LoanListing(loan, isPrincipalMonth)) else None
    case UnknownMode => None
  }

  /** The listings of a list of loans, in the order of the loans. */
  function LoanListings(loans: seq<Loan>, monthKey: string): (r: seq<LoanListing>)
    ensures |r| <= |loans|
    ensures forall l :: l in r ==> l.loan in loans && ListingOf(l.loan, monthKey) == Some(l)
    ensures forall loan :: loan in loans && ListingOf(loan, monthKey).Some? ==> ListingOf(loan, monthKey).value in r
    decreases |loans|
  {
    if loans == [] then []
    else
      var loan := loans[|loans| - 1];
      var init := loans[..|loans| - 1];
      assert loans == init + [loan];
      var listing := ListingOf(loan, monthKey);
      LoanListings(init, monthKey) + if listing.Some? then [listing.value] else []
  }

  /** The listings follow the order of the loans: a concatenation is listed part by part. */
  lemma {:induction false} LoanListingsAppend(a: seq<Loan>, b: seq<Loan>, monthKey: string)
    ensures LoanListings(a + b, monthKey) == LoanListings(a, monthKey) + LoanListings(b, monthKey)
    decreases |b|
  {
    if b == [] {
      assert a + b == a;
    } else {
      var init, loan := b[..|b| - 1], b[|b| - 1];
      assert (a + b)[..|a + b| - 1] == a + init && (a + b)[|a + b| - 1] == loan;
      LoanListingsAppend(a, init, monthKey);
      var listing := ListingOf(loan, monthKey);
      var tail := if listing.Some? then [listing.value] else [];
      assert LoanListings(a, monthKey) + LoanListings(init, monthKey) + tail
          == LoanListings(a, monthKey) + (LoanListings(init, monthKey) + tail);
    }
  }

  /**
   * A monthly loan is listed exactly from its start month through its end
   * month (four-digit years): never without a start date, and without an
   * end date in every month from the start on.
   */
  lemma MonthlyListingWindow(loan: Loan, k: MonthKey)
    requires loan.mode.MonthlyPayouts? && 1000 <= k.year <= 9999
    requires loan.startDate.Some? ==> 1000 <= loan.startDate.value.year <= 9999
    requires loan.mode.endDate.Some? ==> 1000 <= loan.mode.endDate.value.year <= 9999
    ensures ListingOf(loan, KeyText(k)).Some?
        <==> loan.startDate.Some? && Ordinal(KeyOf(loan.startDate.value)) <= Ordinal(k)
             && (loan.mode.endDate.None? || Ordinal(k) <= Ordinal(KeyOf(loan.mode.endDate.value)))
  {
    KeyBeforeInvalid(k);
    if loan.startDate.Some? {
      KeyOrder(k, KeyOf(loan.startDate.value));
    }
    if loan.mode.endDate.Some? {
      KeyOrder(KeyOf(loan.mode.endDate.value), k);
    } else {
      LexAsymmetric(KeyText(k), InvalidKeyText);
    }
  }

  /**
   * A manual loan is listed exactly in the months holding one of its
   * payouts and in its start month.
   */
  lemma ManualListingRule(loan: Loan, k: MonthKey)
    requires loan.mode.ManualPayouts?
    ensures ListingOf(loan, KeyText(k)).Some?
        <==> HasPayoutIn(loan.mode.payouts, KeyText(k)) || (loan.startDate.Some? && KeyOf(loan.startDate.value) == k)
  {
    KeyBeforeInvalid(k);
    if loan.startDate.Some? {
      KeyTextInjective(k, KeyOf(loan.startDate.value));
    }
  }

  /** The `loans.forEach(loan => ... push(...))` pass for loans given or loans taken. */
  method ListLoans(loans: seq<Loan>, monthKey: string) returns (listed: seq<LoanListing>)
    ensures listed == LoanListings(loans, monthKey)
  {
    listed := [];
    for i := 0 to |loans|
      invariant listed == LoanListings(loans[..i], monthKey)
    {
      var loan := loans[i];
      var startMonthKey := DateKeyText(loan.startDate);
      var isPrincipalMonth := startMonthKey == monthKey;
      match loan.mode {
        case MonthlyPayouts(endDate, _) =>
          var endMonthKey := DateKeyText(endDate);
          if !LexLess(monthKey, startMonthKey) && !LexLess(endMonthKey, monthKey) {
            listed := listed + [LoanListing(loan, isPrincipalMonth)];
          }
        case ManualPayouts(payouts) =>
          var hasPayoutInMonth := exists p :: p in payouts && GetMonthKey(p.date) == monthKey;
          if hasPayoutInMonth || isPrincipalMonth {
            listed := listed + [LoanListing(loan, isPrincipalMonth)];
          }
        case UnknownMode =>
      }
      assert loans[..i + 1][..i] == loans[..i];
    }
    assert loans[..|loans|] == loans;
  }

  /** What the month view shows. */
  datatype MonthDetails = MonthDetails(
    income: seq<Entry>,
    expenses: seq<Entry>,
    investments: seq<Investment>,
    loansGiven: seq<LoanListing>,
    loansTaken: seq<LoanListing>)

  /** `getMonthDetails(monthKey, income, expenses, loansGiven, loansTaken, investments)`. */
  method GetMonthDetails(monthKey: string, income: seq<Entry>, expenses: seq<Entry>,
                         loansGiven: seq<Loan>, loansTaken: seq<Loan>, investments: Option<seq<Investment>>)
    returns (details: MonthDetails)
    ensures details == MonthDetails(
      MonthEntries(income, monthKey), MonthEntries(expenses, monthKey), MonthInvestments(investments, monthKey),
      LoanListings(loansGiven, monthKey), LoanListings(loansTaken, monthKey))
  {
    var monthIncomes := MonthEntries(income, monthKey);
    var monthExpenses := MonthEntries(expenses, monthKey);
    var monthInvestments := MonthInvestments(investments, monthKey);
    var monthLoansGiven := ListLoans(loansGiven, monthKey);
    var monthLoansTaken := ListLoans(loansTaken, monthKey);
    details := MonthDetails(monthIncomes, monthExpenses, monthInvestments, monthLoansGiven, monthLoansTaken);
  }

  /** The amounts of a list of entries, summed left to right. */
  function EntryAmounts(entries: seq<Entry>): real
    decreases |entries|
  {
    if entries == [] then 0.0 else EntryAmounts(entries[..|entries| - 1]) + entries[|entries| - 1].amount
  }

  lemma EntryAmountsSnoc(entries: seq<Entry>, e: Entry)
    ensures EntryAmounts(entries + [e]) == EntryAmounts(entries) + e.amount
  {
    assert (entries + [e])[..|entries|] == entries;
  }

  /**
   * Away from the current month, and with no entry of an unknown type, the
   * entries the month view lists add up to the month's figure in the
   * projection: both apply the same rule to every entry.
   */
  lemma {:induction false} ListedEntriesAddUp(entries: seq<Entry>, monthKey: string, realized: seq<string>)
    requires forall i :: 0 <= i < |entries| ==> entries[i].kind != OtherType
    ensures EntryAmounts(MonthEntries(entries, monthKey)) == MonthFlow(entries, monthKey, false, realized)
    decreases |entries|
  {
    if entries != [] {
      var init := entries[..|entries| - 1];
      assert forall i :: 0 <= i < |init| ==> init[i] == entries[i];
      ListedEntriesAddUp(init, monthKey, realized);
      ListedEntryStep(entries, monthKey, realized);
    }
  }

  /** Listing one more entry moves the listed amounts as the entry moves the month's figure. */
  lemma ListedEntryStep(entries: seq<Entry>, monthKey: string, realized: seq<string>)
    requires entries != [] && entries[|entries| - 1].kind != OtherType
    ensures EntryAmounts(MonthEntries(entries, monthKey)) - EntryAmounts(MonthEntries(entries[..|entries| - 1], monthKey))
         == MonthFlow(entries, monthKey, false, realized) - MonthFlow(entries[..|entries| - 1], monthKey, false, realized)
  {
    var e := entries[|entries| - 1];
    ListedAmountsSnoc(entries, monthKey);
    MonthFlowSnoc(entries, monthKey, realized);
    assert ListedIn(e.kind, e.date, monthKey) <==> CountsIn(e.kind, e.date, monthKey);
  }

  lemma ListedAmountsSnoc(entries: seq<Entry>, monthKey: string)
    requires entries != []
    ensures var e := entries[|entries| - 1];
      EntryAmounts(MonthEntries(entries, monthKey))
      == EntryAmounts(MonthEntries(entries[..|entries| - 1], monthKey)) + if ListedIn(e.kind, e.date, monthKey) then e.amount else 0.0
  {
    var e, init := entries[|entries| - 1], entries[..|entries| - 1];
    if ListedIn(e.kind, e.date, monthKey) {
      EntryAmountsSnoc(MonthEntries(init, monthKey), e);
    } else {
      assert MonthEntries(init, monthKey) + [] == MonthEntries(init, monthKey);
    }
  }

  lemma MonthFlowSnoc(entries: seq<Entry>, monthKey: string, realized: seq<string>)
    requires entries != []
    ensures var e := entries[|entries| - 1];
      MonthFlow(entries, monthKey, false, realized)
      == MonthFlow(entries[..|entries| - 1], monthKey, false, realized) + if CountsIn(e.kind, e.date, monthKey) then e.amount else 0.0
  {
  }

  /**
   * An entry whose type is neither 'one-time' nor 'monthly' nor missing is
   * listed in the month of its date, yet the projection never counts it.
   */
  lemma OtherTypeListedButNotCounted(e: Entry, realized: seq<string>)
    requires e.kind == OtherType
    ensures e in MonthEntries([e], GetMonthKey(e.date))
    ensures MonthFlow([e], GetMonthKey(e.date), false, realized) == 0.0
  {
    assert [e][..0] == [];
    assert OneTimeTotal([e], GetMonthKey(e.date), false, realized) == 0.0;
    assert MonthlyTotal([e], GetMonthKey(e.date), false, realized) == 0.0;
  }

  /** The amounts of a list of investments, summed left to right. */
  function InvestmentAmounts(investments: seq<Investment>): real
    decreases |investments|
  {
    if investments == [] then 0.0
    else InvestmentAmounts(investments[..|investments| - 1]) + investments[|investments| - 1].amount
  }

  lemma InvestmentAmountsSnoc(investments: seq<Investment>, inv: Investment)
    ensures InvestmentAmounts(investments + [inv]) == InvestmentAmounts(investments) + inv.amount
  {
    assert (investments + [inv])[..|investments|] == investments;
  }

  /**
   * Away from the current month, and with every investment typed 'one-time'
   * or 'monthly', the investments the month view lists add up to the
   * month's `invested` figure.
   */
  lemma {:induction false} ListedInvestmentsAddUp(investments: seq<Investment>, monthKey: string, realized: seq<string>)
    requires forall i :: 0 <= i < |investments| ==> investments[i].kind == OneTime || investments[i].kind == Monthly
    ensures InvestmentAmounts(MonthInvestments(Some(investments), monthKey)) == InvestedTotal(investments, monthKey, false, realized)
    decreases |investments|
  {
    if investments != [] {
      var init := investments[..|investments| - 1];
      assert forall i :: 0 <= i < |init| ==> init[i] == investments[i];
      ListedInvestmentsAddUp(init, monthKey, realized);
      ListedInvestmentStep(investments, monthKey, realized);
    }
  }

  /** Listing one more investment moves the listed amounts as the investment moves `invested`. */
  lemma ListedInvestmentStep(investments: seq<Investment>, monthKey: string, realized: seq<string>)
    requires investments != []
    requires investments[|investments| - 1].kind == OneTime || investments[|investments| - 1].kind == Monthly
    ensures InvestmentAmounts(FilterInvestments(investments, monthKey))
            - InvestmentAmounts(FilterInvestments(investments[..|investments| - 1], monthKey))
         == InvestedTotal(investments, monthKey, false, realized) - InvestedTotal(investments[..|investments| - 1], monthKey, false, realized)
  {
    var inv := investments[|investments| - 1];
    ListedInvestmentAmountsSnoc(investments, monthKey);
    assert InvestedTotal(investments, monthKey, false, realized)
        == InvestedTotal(investments[..|investments| - 1], monthKey, false, realized) + Contribution(inv, monthKey);
    assert ListedIn(inv.kind, inv.date, monthKey) ==> Contribution(inv, monthKey) == inv.amount;
    assert !ListedIn(inv.kind, inv.date, monthKey) ==> Contribution(inv, monthKey) == 0.0;
  }

  lemma ListedInvestmentAmountsSnoc(investments: seq<Investment>, monthKey: string)
    requires investments != []
    ensures var inv := investments[|investments| - 1];
      InvestmentAmounts(FilterInvestments(investments, monthKey))
      == InvestmentAmounts(FilterInvestments(investments[..|investments| - 1], monthKey))
         + if ListedIn(inv.kind, inv.date, monthKey) then inv.amount else 0.0
  {
    var inv, init := investments[|investments| - 1], investments[..|investments| - 1];
    if ListedIn(inv.kind, inv.date, monthKey) {
      InvestmentAmountsSnoc(FilterInvestments(init, monthKey), inv);
    } else {
      assert FilterInvestments(init, monthKey) + [] == FilterInvestments(init, monthKey);
    }
  }

  /**
   * An untyped investment is listed in the month of its date, yet the
   * projection takes no cash for it there.
   */
  lemma UntypedInvestmentListedButNotInvested(inv: Investment, realized: seq<string>)
    requires inv.kind == Untyped
    ensures inv in MonthInvestments(Some([inv]), GetMonthKey(inv.date))
    ensures InvestedTotal([inv], GetMonthKey(inv.date), false, realized) == 0.0
  {
    assert [inv][..0] == [];
  }

  /** A manual loan that repays something in a month is listed in that month. */
  lemma ManualRepaymentIsListed(loan: Loan, monthKey: string, isCurrentMonth: bool, realized: seq<string>)
    requires loan.mode.ManualPayouts?
    requires LoanPayout(loan, monthKey, isCurrentMonth, realized) != 0.0
    ensures ListingOf(loan, monthKey).Some?
  {
  }

  /**
   * A monthly loan that repays something in a month is listed in that month
   * (four-digit years): its repayment window lies inside its listing window.
   */
  lemma MonthlyRepaymentIsListed(loan: Loan, k: MonthKey, isCurrentMonth: bool, realized: seq<string>)
    requires loan.mode.MonthlyPayouts? && loan.startDate.Some?
    requires 1000 <= loan.startDate.value.year && Ordinal(KeyOf(loan.startDate.value)) < Ordinal(MonthKey(9999, 12))
    requires 1000 <= k.year <= 9999
    requires LoanPayout(loan, KeyText(k), isCurrentMonth, realized) != 0.0
    ensures ListingOf(loan, KeyText(k)).Some?
    ensures !ListingOf(loan, KeyText(k)).value.isPrincipalMonth
  {
    var s := loan.startDate.value;
    var first := KeyOf(MonthStart(s.year, s.month));
    assert Ordinal(first) == Ordinal(KeyOf(s)) + 1;
    KeyOrder(k, first);
    assert Ordinal(KeyOf(s)) < Ordinal(k);
    KeyOrder(k, KeyOf(s));
    KeyTextInjective(k, KeyOf(s));
  }

  /**
   * A loan with a start date whose principal moves in a month is listed
   * there as its principal month when it is manual, and when it is monthly
   * exactly if the month is not after its end month.
   */
  lemma PrincipalMonthIsListed(loan: Loan, monthKey: string, isCurrentMonth: bool, realized: seq<string>)
    requires loan.startDate.Some?
    requires LoanPrincipal(loan, monthKey, isCurrentMonth, realized) != 0.0
    ensures loan.mode.ManualPayouts? ==> ListingOf(loan, monthKey) == Some(LoanListing(loan, true))
    ensures loan.mode.MonthlyPayouts? ==>
      (ListingOf(loan, monthKey).Some? <==> !LexLess(DateKeyText(loan.mode.endDate), monthKey))
    ensures ListingOf(loan, monthKey).Some? ==> ListingOf(loan, monthKey).value.isPrincipalMonth
  {
    LexIrreflexive(monthKey);
  }

  /**
   * A monthly loan whose end month is not before its start month is listed
   * in its start month as the principal month, yet repays nothing there
   * (four-digit years).
   */
  lemma MonthlyLoanListedInStartMonth(loan: Loan, isCurrentMonth: bool, realized: seq<string>)
    requires loan.mode.MonthlyPayouts? && loan.startDate.Some? && loan.mode.endDate.Some?
    requires 1000 <= loan.startDate.value.year && Ordinal(KeyOf(loan.startDate.value)) < Ordinal(MonthKey(9999, 12))
    requires loan.mode.endDate.value.year <= 9999
    requires Ordinal(KeyOf(loan.startDate.value)) <= Ordinal(KeyOf(loan.mode.endDate.value))
    ensures ListingOf(loan, GetMonthKey(loan.startDate.value)) == Some(LoanListing(loan, true))
    ensures LoanPayout(loan, GetMonthKey(loan.startDate.value), isCurrentMonth, realized) == 0.0
  {
    var s, e := loan.startDate.value, loan.mode.endDate.value;
    LexIrreflexive(GetMonthKey(s));
    KeyOrder(KeyOf(e), KeyOf(s));
    NoPayoutInStartMonth(loan, isCurrentMonth, realized);
  }

  /**
   * A loan with only the older `date` field has its principal counted in
   * that month, but the month view never marks any month as its principal
   * month.
   */
  lemma DateOnlyLoanNeverPrincipalMonth(loan: Loan, k: MonthKey)
    requires loan.startDate.None? && loan.date.Some?
    ensures LoanPrincipal(loan, GetMonthKey(loan.date.value), false, []) == PrincipalOf(loan)
    ensures ListingOf(loan, KeyText(k)).Some? ==> !ListingOf(loan, KeyText(k)).value.isPrincipalMonth
  {
    KeyBeforeInvalid(k);
  }
}
