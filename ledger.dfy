/**
 * The `monthlyData` fold: one row per month of the horizon with the month's
 * income, expenses, cash put into investments, loan movements, the running
 * cash total and the value of everything invested.
 */
module Ledger {
  import opened Calendar
  import opened Records
  import opened Recurrence
  import opened Loans
  import opened Valuation

  /** `getNextMonths(100)`: the ledger always spans a hundred months. */
  const Horizon: nat := 100

  /** Everything `monthlyData` reads from the stores. */
  datatype Snapshot = Snapshot(
    income: seq<Entry>,
    expenses: seq<Entry>,
    loansGiven: seq<Loan>,
    loansTaken: seq<Loan>,
    investments: seq<Investment>,
    startingSavings: real,
    realized: seq<string>,
    allocations: seq<Allocation>)

  /** One row of `monthlyData` (the month's display label is not modelled). */
  datatype Row = Row(
    key: string,
    date: Date,
    isCurrentMonth: bool,
    income: real,
    expenses: real,
    invested: real,
    investmentValue: real,
    loanPrincipalsGiven: real,
    loanPrincipalsTaken: real,
    loansReceived: real,
    loansPaid: real,
    netLoans: real,
    total: real,
    difference: real,
    totalWorth: real)

  /** The months `getNextMonths(100)` lists for the clock reading `now`. */
  function HorizonMonths(now: Date): (months: seq<MonthInfo>)
    ensures |months| == Horizon
  {
    seq(Horizon, i => HorizonMonth(now, i))
  }

  /** The keys of the given months, in order. */
  function MonthKeys(months: seq<MonthInfo>): (keys: seq<string>)
    ensures |keys| == |months|
    ensures forall j :: 0 <= j < |months| ==> keys[j] == months[j].key
  {
    seq(|months|, j requires 0 <= j < |months| => months[j].key)
  }

  /** Principals taken in, less principals given out, plus repayments received, less repayments paid. */
  function NetLoans(s: Snapshot, m: MonthInfo): real {
    PrincipalTotal(s.loansTaken, m.key, m.isCurrentMonth, s.realized)
    - PrincipalTotal(s.loansGiven, m.key, m.isCurrentMonth, s.realized)
    + PayoutTotal(s.loansGiven, m.key, m.isCurrentMonth, s.realized)
    - PayoutTotal(s.loansTaken, m.key, m.isCurrentMonth, s.realized)
  }

  /** The month's change of cash: income, less expenses, less cash put into investments, plus net loans. */
  function CashFlow(s: Snapshot, m: MonthInfo): real {
    MonthFlow(s.income, m.key, m.isCurrentMonth, s.realized)
    - MonthFlow(s.expenses, m.key, m.isCurrentMonth, s.realized)
    - InvestedTotal(s.investments, m.key, m.isCurrentMonth, s.realized)
    + NetLoans(s, m)
  }

  /** The cash total after the first `n` months: the starting savings carried through each month's cash flow. */
  function TotalAfter(s: Snapshot, months: seq<MonthInfo>, n: nat): real
    requires n <= |months|
  {
    if n == 0 then s.startingSavings else TotalAfter(s, months, n - 1) + CashFlow(s, months[n - 1])
  }

  /** `combinedInvestmentValue`: the sum of the investment table plus the sum of the portfolio table. */
  function CombinedValue(investmentValues: ValueMap, portfolioValues: ValueMap): real {
    ValueTotal(investmentValues) + ValueTotal(portfolioValues)
  }

  /** The value of both tables at the end of month `i`. */
  function ValueAfter(s: Snapshot, months: seq<MonthInfo>, i: nat): real
    requires i < |months|
  {
    CombinedValue(InvestmentValuesAfter(s.investments, MonthKeys(months[..i + 1])), PortfolioAfter(s.allocations, i + 1))
  }

  /** The row of month `m`, given the previous month's total and the combined value at the end of `m`. */
  function RowOf(s: Snapshot, m: MonthInfo, previousTotal: real, value: real): Row {
    var total := previousTotal + CashFlow(s, m);
    Row(
      m.key, m.date, m.isCurrentMonth,
      MonthFlow(s.income, m.key, m.isCurrentMonth, s.realized),
      MonthFlow(s.expenses, m.key, m.isCurrentMonth, s.realized),
      InvestedTotal(s.investments, m.key, m.isCurrentMonth, s.realized),
      value,
      PrincipalTotal(s.loansGiven, m.key, m.isCurrentMonth, s.realized),
      PrincipalTotal(s.loansTaken, m.key, m.isCurrentMonth, s.realized),
      PayoutTotal(s.loansGiven, m.key, m.isCurrentMonth, s.realized),
      PayoutTotal(s.loansTaken, m.key, m.isCurrentMonth, s.realized),
      NetLoans(s, m),
      total,
      total - previousTotal,
      total + value)
  }

  /** Row `i` of the ledger over the given months. */
  function RowAt(s: Snapshot, months: seq<MonthInfo>, i: nat): Row
    requires i < |months|
  {
    RowOf(s, months[i], TotalAfter(s, months, i), ValueAfter(s, months, i))
  }

  /** The whole ledger over the given months. */
  function Rows(s: Snapshot, months: seq<MonthInfo>): (rows: seq<Row>)
    ensures |rows| == |months|
  {
    seq(|months|, i requires 0 <= i < |months| => RowAt(s, months, i))
  }

  /** The first `n` rows of the ledger, built one month after another. */
  function RowsUpTo(s: Snapshot, months: seq<MonthInfo>, n: nat): (rows: seq<Row>)
    requires n <= |months|
    ensures |rows| == n
    ensures forall j :: 0 <= j < n ==> rows[j] == RowAt(s, months, j)
  {
    if n == 0 then [] else RowsUpTo(s, months, n - 1) + [RowAt(s, months, n - 1)]
  }

  /**
   * The arithmetic a row satisfies: net loans from the four loan figures,
   * the cash total chained from the previous row's total (the starting
   * savings for the first row), the difference and the total worth.
   */
  predicate RowFits(s: Snapshot, rows: seq<Row>, i: nat)
    requires i < |rows|
  {
    FitsAfter(rows[i], if i == 0 then s.startingSavings else rows[i - 1].total)
  }

  /** The arithmetic of one row, given the total of the month before it. */
  predicate FitsAfter(r: Row, previousTotal: real) {
    && r.netLoans == r.loanPrincipalsTaken - r.loanPrincipalsGiven + r.loansReceived - r.loansPaid
    && r.total == previousTotal + r.income - r.expenses - r.invested + r.netLoans
    && r.difference == r.total - previousTotal
    && r.totalWorth == r.total + r.investmentValue
  }

  /** A row built from the previous total fits after that total. */
  lemma RowOfFits(s: Snapshot, m: MonthInfo, previousTotal: real, value: real)
    ensures FitsAfter(RowOf(s, m, previousTotal, value), previousTotal)
  {
  }

  /** Every row of the ledger fits, whatever the months. */
  lemma RowsFit(s: Snapshot, months: seq<MonthInfo>)
    ensures forall i :: 0 <= i < |months| ==> RowFits(s, Rows(s, months), i)
  {
    forall i | 0 <= i < |months|
      ensures RowFits(s, Rows(s, months), i)
    {
      RowFitsAt(s, months, i);
    }
  }

  lemma RowFitsAt(s: Snapshot, months: seq<MonthInfo>, i: nat)
    requires i < |months|
    ensures RowFits(s, Rows(s, months), i)
  {
    RowAtFacts(s, months, i);
    RowOfFits(s, months[i], TotalAfter(s, months, i), ValueAfter(s, months, i));
    if i > 0 {
      RowAtFacts(s, months, i - 1);
    }
  }

  /**
   * One step of the value tables: carried on by month `i` from where they
   * stand after `i` months, they stand as after `i + 1` months.
   */
  lemma TablesStep(s: Snapshot, months: seq<MonthInfo>, i: nat,
                   investmentValues: ValueMap, portfolioValues: ValueMap,
                   newInvestmentValues: ValueMap, newPortfolioValues: ValueMap)
    requires i < |months|
    requires investmentValues == InvestmentValuesAfter(s.investments, MonthKeys(months[..i]))
    requires portfolioValues == PortfolioAfter(s.allocations, i)
    requires newInvestmentValues == AccrueAll(investmentValues, s.investments, months[i].key)
    requires newPortfolioValues == GrowAll(portfolioValues, s.allocations, i)
    ensures newInvestmentValues == InvestmentValuesAfter(s.investments, MonthKeys(months[..i + 1]))
    ensures newPortfolioValues == PortfolioAfter(s.allocations, i + 1)
    ensures ValueAfter(s, months, i) == CombinedValue(newInvestmentValues, newPortfolioValues)
  {
    ValuesStep(s.investments, months, i);
  }

  /**
   * One step of the rows: the callback's row for month `i`, given the total
   * after `i` months and the value after month `i`, is row `i` of the ledger,
   * and its total is the total after `i + 1` months.
   */
  lemma RowStep(s: Snapshot, months: seq<MonthInfo>, i: nat, previousTotal: real, value: real, row: Row)
    requires i < |months|
    requires previousTotal == TotalAfter(s, months, i)
    requires value == ValueAfter(s, months, i)
    requires row == RowOf(s, months[i], previousTotal, value)
    ensures row == RowAt(s, months, i)
    ensures row.total == TotalAfter(s, months, i + 1)
  {
  }

  /** One step of the fold: the row and both tables stand as after `i + 1` months. */
  lemma FoldStep(s: Snapshot, months: seq<MonthInfo>, i: nat, previousTotal: real,
                 investmentValues: ValueMap, portfolioValues: ValueMap,
                 row: Row, newInvestmentValues: ValueMap, newPortfolioValues: ValueMap)
    requires i < |months|
    requires previousTotal == TotalAfter(s, months, i)
    requires investmentValues == InvestmentValuesAfter(s.investments, MonthKeys(months[..i]))
    requires portfolioValues == PortfolioAfter(s.allocations, i)
    requires newInvestmentValues == AccrueAll(investmentValues, s.investments, months[i].key)
    requires newPortfolioValues == GrowAll(portfolioValues, s.allocations, i)
    requires row == RowOf(s, months[i], previousTotal, CombinedValue(newInvestmentValues, newPortfolioValues))
    ensures row == RowAt(s, months, i)
    ensures row.total == TotalAfter(s, months, i + 1)
    ensures newInvestmentValues == InvestmentValuesAfter(s.investments, MonthKeys(months[..i + 1]))
    ensures newPortfolioValues == PortfolioAfter(s.allocations, i + 1)
  {
    TablesStep(s, months, i, investmentValues, portfolioValues, newInvestmentValues, newPortfolioValues);
    RowStep(s, months, i, previousTotal, ValueAfter(s, months, i), row);
  }

  lemma ValuesStep(invs: seq<Investment>, months: seq<MonthInfo>, i: nat)
    requires i < |months|
    ensures InvestmentValuesAfter(invs, MonthKeys(months[..i + 1]))
         == AccrueAll(InvestmentValuesAfter(invs, MonthKeys(months[..i])), invs, months[i].key)
  {
    var keys := MonthKeys(months[..i + 1]);
    assert keys[..i] == MonthKeys(months[..i]);
  }

  /**
   * The `months.map` callback of `monthlyData` for one month: the month's
   * row, and both value tables carried one month on.
   */
  method MonthRow(s: Snapshot, month: MonthInfo, index: nat, previousTotal: real, investmentValues: ValueMap, portfolioValues: ValueMap)
    returns (row: Row, newInvestmentValues: ValueMap, newPortfolioValues: ValueMap)
    ensures newInvestmentValues == AccrueAll(investmentValues, s.investments, month.key)
    ensures newPortfolioValues == GrowAll(portfolioValues, s.allocations, index)
    ensures row == RowOf(s, month, previousTotal, CombinedValue(newInvestmentValues, newPortfolioValues))
  {
    var isCurrentMonth := month.isCurrentMonth;
    var monthIncome := MonthFlow(s.income, month.key, isCurrentMonth, s.realized);
    var monthExpenses := MonthFlow(s.expenses, month.key, isCurrentMonth, s.realized);
    var monthInvestedAmount, combinedInvestmentValue;
    newInvestmentValues, newPortfolioValues, monthInvestedAmount, combinedInvestmentValue := MonthTables(s, month, index, investmentValues, portfolioValues);
    var loanPrincipalsGiven, loanPrincipalsTaken, loansReceived, loansPaid, netLoans := MonthLoans(s, month);
    var currentTotal := previousTotal + monthIncome - monthExpenses - monthInvestedAmount + netLoans;
    var difference := currentTotal - previousTotal;
    var totalWorth := currentTotal + combinedInvestmentValue;
    row := Row(
      month.key, month.date, isCurrentMonth, monthIncome, monthExpenses, monthInvestedAmount,
      combinedInvestmentValue, loanPrincipalsGiven, loanPrincipalsTaken, loansReceived, loansPaid,
      netLoans, currentTotal, difference, totalWorth);
    RowOfFigures(s, month, previousTotal, combinedInvestmentValue, row);
  }

  /** The investment figures of the callback: both tables carried one month on, the cash invested and their combined value. */
  method MonthTables(s: Snapshot, month: MonthInfo, index: nat, investmentValues: ValueMap, portfolioValues: ValueMap)
    returns (newInvestmentValues: ValueMap, newPortfolioValues: ValueMap, monthInvestedAmount: real, combinedInvestmentValue: real)
    ensures newInvestmentValues == AccrueAll(investmentValues, s.investments, month.key)
    ensures newPortfolioValues == GrowAll(portfolioValues, s.allocations, index)
    ensures monthInvestedAmount == InvestedTotal(s.investments, month.key, month.isCurrentMonth, s.realized)
    ensures combinedInvestmentValue == CombinedValue(newInvestmentValues, newPortfolioValues)
  {
    newInvestmentValues, monthInvestedAmount := AccrueInvestments(s.investments, investmentValues, month.key, month.isCurrentMonth, s.realized);
    newPortfolioValues := GrowAllocations(s.allocations, portfolioValues, index);
    combinedInvestmentValue := CombinedValue(newInvestmentValues, newPortfolioValues);
  }

  /** The loan figures of the callback: principals given and taken, repayments received and paid, and their net. */
  method MonthLoans(s: Snapshot, month: MonthInfo)
    returns (loanPrincipalsGiven: real, loanPrincipalsTaken: real, loansReceived: real, loansPaid: real, netLoans: real)
    ensures loanPrincipalsGiven == PrincipalTotal(s.loansGiven, month.key, month.isCurrentMonth, s.realized)
    ensures loanPrincipalsTaken == PrincipalTotal(s.loansTaken, month.key, month.isCurrentMonth, s.realized)
    ensures loansReceived == PayoutTotal(s.loansGiven, month.key, month.isCurrentMonth, s.realized)
    ensures loansPaid == PayoutTotal(s.loansTaken, month.key, month.isCurrentMonth, s.realized)
    ensures netLoans == NetLoans(s, month)
  {
    loanPrincipalsGiven := CalculateLoanPrincipals(s.loansGiven, month.key, month.isCurrentMonth, s.realized);
    loanPrincipalsTaken := CalculateLoanPrincipals(s.loansTaken, month.key, month.isCurrentMonth, s.realized);
    loansReceived := CalculateLoanPayouts(s.loansGiven, month.key, month.isCurrentMonth, s.realized);
    loansPaid := CalculateLoanPayouts(s.loansTaken, month.key, month.isCurrentMonth, s.realized);
    netLoans := loanPrincipalsTaken - loanPrincipalsGiven + loansReceived - loansPaid;
  }

  /** A row carrying the month's figures and fitting after `previousTotal` is the row of that month. */
  lemma RowOfFigures(s: Snapshot, m: MonthInfo, previousTotal: real, value: real, row: Row)
    requires row.key == m.key && row.date == m.date && row.isCurrentMonth == m.isCurrentMonth
    requires row.income == MonthFlow(s.income, m.key, m.isCurrentMonth, s.realized)
    requires row.expenses == MonthFlow(s.expenses, m.key, m.isCurrentMonth, s.realized)
    requires row.invested == InvestedTotal(s.investments, m.key, m.isCurrentMonth, s.realized)
    requires row.investmentValue == value
    requires row.loanPrincipalsGiven == PrincipalTotal(s.loansGiven, m.key, m.isCurrentMonth, s.realized)
    requires row.loanPrincipalsTaken == PrincipalTotal(s.loansTaken, m.key, m.isCurrentMonth, s.realized)
    requires row.loansReceived == PayoutTotal(s.loansGiven, m.key, m.isCurrentMonth, s.realized)
    requires row.loansPaid == PayoutTotal(s.loansTaken, m.key, m.isCurrentMonth, s.realized)
    requires FitsAfter(row, previousTotal)
    ensures row == RowOf(s, m, previousTotal, value)
  {
  }

  /**
   * `monthlyData` for the snapshot, with the clock reading passed in as
   * `now`: exactly a hundred rows, the first for the current month, each
   * fitting the ledger arithmetic.
   */
  method MonthlyData(s: Snapshot, now: Date) returns (rows: seq<Row>)
    ensures |rows| == Horizon
    ensures rows == Rows(s, HorizonMonths(now))
    ensures forall i :: 0 <= i < Horizon ==> rows[i].key == MonthKeyAt(now, i) && (rows[i].isCurrentMonth <==> i == 0)
    ensures forall i :: 0 <= i < Horizon ==> RowFits(s, rows, i)
  {
    var months := NextMonths(Horizon, now);
    assert months == HorizonMonths(now);
    rows := FoldMonths(s, months);
    HorizonRows(s, now);
  }

  /**
   * The `months.map` pass of `monthlyData`: the running total starts at the
   * starting savings, the investment table empty and the portfolio table
   * seeded, and each month's callback yields its row and carries all three on.
   */
  method FoldMonths(s: Snapshot, months: seq<MonthInfo>) returns (rows: seq<Row>)
    ensures rows == Rows(s, months)
  {
    var previousTotal := s.startingSavings;
    var investmentValues: ValueMap := [];
    var portfolioValues := SeedAllocations(s.allocations);
    rows := [];
    for index := 0 to |months|
      invariant |rows| == index
      invariant rows == RowsUpTo(s, months, index)
      invariant previousTotal == TotalAfter(s, months, index)
      invariant investmentValues == InvestmentValuesAfter(s.investments, MonthKeys(months[..index]))
      invariant portfolioValues == PortfolioAfter(s.allocations, index)
    {
      var row, newInvestmentValues, newPortfolioValues := MonthRow(s, months[index], index, previousTotal, investmentValues, portfolioValues);
      FoldStep(s, months, index, previousTotal, investmentValues, portfolioValues, row, newInvestmentValues, newPortfolioValues);
      investmentValues, portfolioValues := newInvestmentValues, newPortfolioValues;
      rows := rows + [row];
      previousTotal := row.total;
    }
    assert rows == Rows(s, months);
  }

  /** The rows over the horizon: month `i`'s key, only the first current, each fitting the ledger arithmetic. */
  lemma HorizonRows(s: Snapshot, now: Date)
    ensures forall i :: 0 <= i < Horizon ==>
      Rows(s, HorizonMonths(now))[i].key == MonthKeyAt(now, i) && (Rows(s, HorizonMonths(now))[i].isCurrentMonth <==> i == 0)
    ensures forall i :: 0 <= i < Horizon ==> RowFits(s, Rows(s, HorizonMonths(now)), i)
  {
    var months := HorizonMonths(now);
    forall i | 0 <= i < Horizon
      ensures Rows(s, months)[i].key == MonthKeyAt(now, i) && (Rows(s, months)[i].isCurrentMonth <==> i == 0)
    {
      RowAtFacts(s, months, i);
    }
    RowsFit(s, months);
  }

  /** The sum of the rows' differences, first to last. */
  function DifferenceSum(rows: seq<Row>): real
    decreases |rows|
  {
    if rows == [] then 0.0 else DifferenceSum(rows[..|rows| - 1]) + rows[|rows| - 1].difference
  }

  /**
   * The differences telescope: over rows that fit, the first `n`
   * differences add up to the `n`-th total less the starting savings.
   */
  lemma {:induction false} DifferencesTelescope(s: Snapshot, rows: seq<Row>, n: nat)
    requires forall i :: 0 <= i < |rows| ==> RowFits(s, rows, i)
    requires 1 <= n <= |rows|
    ensures DifferenceSum(rows[..n]) == rows[n - 1].total - s.startingSavings
    decreases n
  {
    assert RowFits(s, rows, n - 1);
    assert rows[..n][..n - 1] == rows[..n - 1];
    if n > 1 {
      DifferencesTelescope(s, rows, n - 1);
    } else {
      assert rows[..0] == [];
    }
  }

  /**
   * Outside the current month the realized list changes nothing in a row:
   * realizing an entry only takes it out of the current month.
   */
  lemma OtherMonthIgnoresRealized(s: Snapshot, realized: seq<string>, m: MonthInfo, previousTotal: real, value: real)
    requires !m.isCurrentMonth
    ensures CashFlow(s.(realized := realized), m) == CashFlow(s, m)
    ensures RowOf(s.(realized := realized), m, previousTotal, value) == RowOf(s, m, previousTotal, value)
  {
    RealizedOnlyAffectsCurrentMonth(s.income, m.key, s.realized, realized);
    RealizedOnlyAffectsCurrentMonth(s.expenses, m.key, s.realized, realized);
    InvestedOutsideCurrentMonth(s.investments, m.key, s.realized, realized);
    PrincipalsOutsideCurrentMonth(s.loansGiven, m.key, s.realized, realized);
    PrincipalsOutsideCurrentMonth(s.loansTaken, m.key, s.realized, realized);
    PayoutsOutsideCurrentMonth(s.loansGiven, m.key, s.realized, realized);
    PayoutsOutsideCurrentMonth(s.loansTaken, m.key, s.realized, realized);
  }

  /**
   * When only the first month is the current one, a different realized list
   * moves every total from the first month on by the same amount: the
   * change of the first month's cash flow.
   */
  lemma {:induction false} RealizedShiftsTotals(s: Snapshot, realized: seq<string>, months: seq<MonthInfo>, n: nat)
    requires forall j :: 1 <= j < |months| ==> !months[j].isCurrentMonth
    requires 1 <= n <= |months|
    ensures TotalAfter(s.(realized := realized), months, n) - TotalAfter(s, months, n)
         == CashFlow(s.(realized := realized), months[0]) - CashFlow(s, months[0])
    decreases n
  {
    if n > 1 {
      RealizedShiftsTotals(s, realized, months, n - 1);
      OtherMonthIgnoresRealized(s, realized, months[n - 1], 0.0, 0.0);
    }
  }

  lemma RowAtFacts(s: Snapshot, months: seq<MonthInfo>, i: nat)
    requires i < |months|
    ensures Rows(s, months)[i] == RowAt(s, months, i)
    ensures RowAt(s, months, i).total == TotalAfter(s, months, i + 1)
    ensures RowAt(s, months, i).difference == CashFlow(s, months[i])
    ensures RowAt(s, months, i).investmentValue == ValueAfter(s, months, i)
  {
  }

  /** Of the hundred months from `now`, only the first is the current month. */
  lemma OnlyFirstMonthIsCurrent(now: Date)
    ensures forall j :: 0 <= j < Horizon ==> (HorizonMonths(now)[j].isCurrentMonth <==> j == 0)
  {
  }

  /**
   * A different realized list, over the hundred months from `now`: every
   * month after the current one keeps its figures, and the value of what is
   * invested is the same in every month.
   */
  lemma RealizedKeepsOtherMonths(s: Snapshot, realized: seq<string>, now: Date, i: nat)
    requires i < Horizon
    ensures var rows, rows' := Rows(s, HorizonMonths(now)), Rows(s.(realized := realized), HorizonMonths(now));
      && rows'[i].investmentValue == rows[i].investmentValue
      && (i > 0 ==> rows'[i].income == rows[i].income && rows'[i].expenses == rows[i].expenses
                    && rows'[i].invested == rows[i].invested && rows'[i].netLoans == rows[i].netLoans
                    && rows'[i].difference == rows[i].difference)
  {
    var months := HorizonMonths(now);
    var s' := s.(realized := realized);
    RowAtFacts(s, months, i);
    RowAtFacts(s', months, i);
    if i > 0 {
      OnlyFirstMonthIsCurrent(now);
      OtherMonthIgnoresRealized(s, realized, months[i], TotalAfter(s, months, i), ValueAfter(s, months, i));
    }
  }

  /**
   * A different realized list, over the hundred months from `now`: every
   * total moves by the change of the current month's difference.
   */
  lemma RealizedShiftsEveryTotal(s: Snapshot, realized: seq<string>, now: Date, i: nat)
    requires i < Horizon
    ensures var rows, rows' := Rows(s, HorizonMonths(now)), Rows(s.(realized := realized), HorizonMonths(now));
      rows'[i].total - rows[i].total == rows'[0].difference - rows[0].difference
  {
    var months := HorizonMonths(now);
    var s' := s.(realized := realized);
    RowAtFacts(s, months, i);
    RowAtFacts(s', months, i);
    RowAtFacts(s, months, 0);
    RowAtFacts(s', months, 0);
    OnlyFirstMonthIsCurrent(now);
    RealizedShiftsTotals(s, realized, months, i + 1);
  }

  /**
   * With distinct ids, the value the ledger reports for month `i` is what
   * every investment reaches on its own plus every allocation compounded
   * `i` times.
   */
  lemma InvestmentValueIsHoldings(s: Snapshot, months: seq<MonthInfo>, i: nat)
    requires i < |months|
    requires DistinctInvestmentIds(s.investments) && DistinctAllocationIds(s.allocations)
    ensures RowAt(s, months, i).investmentValue
         == HoldingsValue(s.investments, MonthKeys(months[..i + 1])) + PortfolioWorth(s.allocations, i)
  {
    InvestmentTableTotal(s.investments, MonthKeys(months[..i + 1]));
    PortfolioTableTotal(s.allocations, i + 1);
  }
}
