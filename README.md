# Personal-finance projection engine, modelled in Dafny

This project models the projection engine of a personal-finance web app. The
engine lives in `src/lib/stores.js`. From the lists the user keeps, it
projects the next hundred months. Those lists are income, expenses, loans
given and taken, investments, portfolio allocations, the starting savings and
the list of "realized" keys. For each month it works out:

- the income and the expenses, from one-time and monthly entries;
- the cash put into investments, and the value of the investments and
  allocations as they compound month by month;
- the loan principals and repayments;
- the running cash total, its change from the previous month, and the total
  worth.

The model also covers the month drill-down view, the realized-key toggle,
update and delete by id, and the rule that migrates the legacy
`initialInvestmentValue` into a portfolio allocation.

## Structure

Dates are `(year, month, day)` triples. Amounts and rates are exact `real`s.

| File | Module | What it holds |
|---|---|---|
| `wrappers.dfy` | `Wrappers` | `Option` |
| `decimal.dfy` | `Decimal` | Decimal text of naturals and its parse. `LexLess` is JavaScript's `<` on strings. |
| `calendar.dfy` | `Calendar` | Month keys (`getMonthKey`, `parseMonthKey`), the `Date` constructor's month carry and two-digit-year rule, the Invalid Date key `"NaN-NaN"`, and `getNextMonths` (method `NextMonths`). |
| `records.dfy` | `Records` | The entry, investment, loan and allocation records. `parseFloat(x) \|\| 0` becomes `Option<real>` with `OrZero`. A loan's amount fields may hold a number or text (`NumberField`), since `\|\|` treats the two differently. The realized key is `${id}_${monthKey}`. |
| `actions.dfy` | `Actions` | `toggleRealized`, the update and delete lambdas, the legacy migration rule. |
| `recurrence.dfy` | `Recurrence` | The income and expense sums of one month. |
| `loans.dfy` | `Loans` | `calculateLoanPrincipals` and `calculateLoanPayouts`, as loops proved against fold functions. |
| `valuation.dfy` | `Valuation` | The two JavaScript `Map`s: the investment values and the portfolio values. |
| `ledger.dfy` | `Ledger` | The `monthlyData` fold. |
| `details.dfy` | `Details` | `getMonthDetails`. |

**Month keys.** A month key is text. The model compares keys as strings, as
the source does. Lemmas show that for four-digit years this string order is
the chronological order.

**The value maps.** A JavaScript `Map` is a sequence of `(id, value)` pairs in
insertion order. Its `get`, `set` and sum of values are modelled exactly, so
duplicate ids behave as in the source.

**The ledger.** `MonthlyData` is a loop that carries three things from month
to month: `previousTotal` and the two maps. It is proved equal to `Rows`, a
function that gives each row in closed form.

## Model

| member | source | states |
|---|---|---|
| `Calendar.KeyRoundTrip` | src/lib/stores.js:77-84 | Parsing the text of a key with a year of 0 or more gives the first day of that month, in the year the `Date` constructor reads. For years of 100 or more, `getMonthKey(parseMonthKey(k)) == k`. |
| `Calendar.TwoDigitYearKey` | src/lib/stores.js:81-84 | A key whose year has one or two digits parses to 1900 + year. Its key is then a different text. |
| `Calendar.GetMonthKeyFormat` | src/lib/stores.js:77-79 | The key of a date is `String(year)`, a dash, and the month as exactly two digits, zero-padded; the day is dropped. `Calendar.SameMonthKey`, `Calendar.KeyTextInjective`, `Calendar.KeyOrder` and `Calendar.KeyRoundTrip` state what the key means. |
| `Calendar.SameMonthKey` | src/lib/stores.js:77-79 | Two dates get the same key exactly when they share year and month; the day never matters. No date's key is the Invalid Date text. |
| `Calendar.MonthStart` | src/lib/stores.js:82-91 | `new Date(year, monthIndex, 1)` (also used at line 141): the first day of the month whose position is `12 * fullYear + monthIndex`, so indexes outside 0..11 carry into the year. |
| `Calendar.ParseMonthKey` | src/lib/stores.js:81-84 | Any date it yields is the first day of a month. |
| `Calendar.KeyTextInjective` | src/lib/stores.js:77-79 | Two months have the same key text only if they are the same month. |
| `Calendar.KeyOrder` | src/lib/stores.js:148 | For four-digit years, comparing keys as strings is chronological order, in both directions. |
| `Calendar.KeyBeforeInvalid` | src/lib/stores.js:134-148 | The key of a missing date (`"NaN-NaN"`) differs from every real key and sorts after it. |
| `Calendar.NextMonths` | src/lib/stores.js:86-101 | Returns exactly `count` months, each the first day of the month `i` steps after the month of `now`, each keyed by `getMonthKey` of its date. Only index 0 is the current month. |
| `Records.RealizedKeyInjective` | src/lib/stores.js:579 | The realized keys of two ids for the same month are equal only if the ids are equal. |
| `Actions.RemoveAll` | src/lib/stores.js:581 | The result has no copy of the key, and every other key keeps its multiplicity. |
| `Actions.RemoveAllAppend` | src/lib/stores.js:581 | The filter distributes over concatenation, so the remaining keys keep their order. |
| `Actions.ToggleRealized` | src/lib/stores.js:577-586 | The key is present afterwards exactly when it was absent before. An absent key is appended at the end. No other key changes its multiplicity. |
| `Actions.ToggleTwiceRestores` | src/lib/stores.js:577-586 | Toggling a key twice on a list that lacks it gives back the original list. |
| `Actions.DeleteById` | src/lib/stores.js:499 | Every kept entry comes from the list and has a different id. Every entry with a different id is kept. |
| `Actions.DeleteByIdCount` | src/lib/stores.js:499 | An item carrying the id keeps no copy. Every other item keeps its exact multiplicity. |
| `Actions.DeleteByIdAppend` | src/lib/stores.js:499 | Filtering a concatenation is the concatenation of the filtered parts, so the kept items stay in their order. |
| `Actions.UpdateById` | src/lib/stores.js:494 | The length is kept. Entries with the id are merged and all others are unchanged. |
| `Actions.UpdateAbsentId` | src/lib/stores.js:494 | Updating an id that no entry carries leaves the list unchanged. |
| `Actions.UpdateThenDelete` | src/lib/stores.js:492-500 | Updating an id and then deleting it is the same as deleting it, when the merge gives every entry that carries the id the same id again. |
| `Actions.MergeEntry` | src/lib/stores.js:494 | `{ ...entry, ...updates }`: each field the update carries (id included) takes the update's value, and every other field keeps the entry's value. |
| `Actions.UpdateEntryThenDelete` | src/lib/stores.js:492-500 | Updating an entry with a spread that carries no id or the entry's own id, then deleting that id, is the same as deleting it. |
| `Actions.MigrationOutcome` | src/lib/stores.js:50-57 | Existing allocations are never replaced. A positive legacy value with no allocations becomes exactly one 'Initial Investment' allocation with a zero return. Otherwise the list stays empty. The rule is idempotent. The import path at lines 664-672 applies the same rule. |
| `Actions.MigrateAllocations` | src/lib/stores.js:50-57 | Existing allocations are returned unchanged. At most one allocation is added, and an added one has the new id, a positive amount equal to the legacy value, and a zero return. |
| `Recurrence.OneTimeTotal` | src/lib/stores.js:211-215 | With no negative amount, the one-time sum lies between 0 and the sum of all amounts. |
| `Recurrence.MonthlyTotal` | src/lib/stores.js:218-233 | With no negative amount, the monthly sum lies between 0 and the sum of all amounts. |
| `Recurrence.MonthFlowIsPerEntrySum` | src/lib/stores.js:209-265 | The one-time filter plus the monthly filter equals the per-entry rule summed over all entries, so each entry is counted once, by its own type. |
| `Recurrence.OneTimeEntryMonth` | src/lib/stores.js:211 | A one-time or untyped entry counts in the month of its date and in no other month. |
| `Recurrence.MonthlyEntryWindow` | src/lib/stores.js:218-233 | A monthly entry counts exactly in the months from its start month on (four-digit years). |
| `Recurrence.OneTimeEntryInOneMonth` | src/lib/stores.js:211-215 | Across the horizon, a one-time entry adds to at most one month. |
| `Recurrence.RealizedOnlyAffectsCurrentMonth` | src/lib/stores.js:207-229 | Outside the current month, the realized list does not change the income or expenses. |
| `Recurrence.RealizingRemovesOnlyThatId` | src/lib/stores.js:207-234 | Realizing an id in the current month gives the same figure as deleting that id's entries. |
| `Loans.PrincipalFallback` | src/lib/stores.js:118 | `parseFloat(principalAmount \|\| totalSum) \|\| 0`: a nonzero number or non-empty text is parsed itself; only a falsy principal falls back to `totalSum`. |
| `Loans.ZeroTextPrincipal` | src/lib/stores.js:118 | The text "0" is truthy, so it does not fall back to a `totalSum` of 500 and gives 0. The number 0 falls back and gives 500. |
| `Loans.LoanPrincipal` | src/lib/stores.js:108-120 | One loan moves either nothing or its whole principal, and it moves it only in the month of `startDate \|\| date` and only when not realized in the current month. |
| `Loans.PayoutsIn` | src/lib/stores.js:159-175 | A manual loan with no payout dated in the month repays nothing there. |
| `Loans.LoanPayout` | src/lib/stores.js:131-178 | A loan of an unknown mode, or one realized in the current month, repays nothing. A manual loan repays nothing in a month without a payout. A monthly loan repays nothing before its first payment month. |
| `Loans.CalculateLoanPrincipals` | src/lib/stores.js:104-124 | The `forEach` loop returns the left-to-right sum of each loan's principal movement. |
| `Loans.PrincipalOnlyInStartMonth` | src/lib/stores.js:108-120 | A loan's principal moves only in the month of `startDate \|\| date`. It is skipped only when that month is the current month and the loan is realized there. |
| `Loans.CalculateLoanPayouts` | src/lib/stores.js:127-182 | The `forEach` loop returns the left-to-right sum of each loan's repayment by mode. |
| `Loans.MonthlyPayoutWindow` | src/lib/stores.js:132-154 | A monthly loan repays `monthlyPayout` exactly in the months after its start month, through its end month, unless realized in the current month. |
| `Loans.NoPayoutInStartMonth` | src/lib/stores.js:140-148 | A monthly loan with a start date in a four-digit year repays nothing in its start month, whatever its end date. |
| `Loans.MissingEndDateNeverStops` | src/lib/stores.js:135-148 | A monthly loan with a start date and no end date repays `monthlyPayout` in every month after its start (four-digit years), except a month realized as the current month, where it repays nothing. |
| `Loans.MissingStartDateNeverPays` | src/lib/stores.js:134-148 | A monthly loan with no start date never repays. |
| `Loans.PayoutsInAppend` | src/lib/stores.js:159-175 | The manual payouts in a month add up over concatenated payout lists. |
| `Loans.PayoutInItsMonth` | src/lib/stores.js:159-175 | A single manual payout counts in the month of its date only. |
| `Loans.UnknownModeLoanPaysNothing` | src/lib/stores.js:131-178 | Removing a loan of any other mode, wherever it stands in the list, leaves the repayments unchanged. |
| `Loans.QuarterLoanExample` | src/lib/stores.js:104-182 | Example: a loan of 300 started 2025-01-15 and repaid at 100 a month until 2025-04-15. Its principal moves only in January. Its repayments fall only in February, March and April. |
| `Loans.PrincipalsOutsideCurrentMonth` | src/lib/stores.js:113-115 | Outside the current month, the realized list does not change the principals. |
| `Loans.PayoutsOutsideCurrentMonth` | src/lib/stores.js:148-157 | Outside the current month, the realized list does not change the repayments. |
| `Valuation.Store` | src/lib/stores.js:311 | `map.set(id, v)`: `get(id)` is `v` afterwards, every other id keeps its value, and the key set gains exactly `id`. |
| `Valuation.StoreKeepsKeysDistinct` | src/lib/stores.js:311 | Setting a key never creates a second entry for it. |
| `Valuation.InvestmentTableKeysDistinct` | src/lib/stores.js:191-312 | However many months pass, the investment map never holds one id twice. |
| `Valuation.PortfolioKeysDistinct` | src/lib/stores.js:199-325 | However many months pass, the portfolio map never holds one id twice. |
| `Valuation.StoreTotal` | src/lib/stores.js:327-328 | Setting a key moves the sum of the values by exactly the change of that key's value. |
| `Valuation.MonthlyRate` | src/lib/stores.js:274-275 | The monthly rate is the annual percentage divided by 1200. A missing or malformed percentage gives rate 0. |
| `Valuation.AccrueInvestment` | src/lib/stores.js:271-312 | The `forEach` body for one investment. It returns its cash contribution (none when realized in the current month), and stores its value grown by the monthly rate plus its full contribution, once started. |
| `Valuation.AccrueInvestments` | src/lib/stores.js:268-312 | One month's investment pass. It returns the updated map and `monthInvestedAmount`. |
| `Valuation.AccrueAllLookup` | src/lib/stores.js:298-311 | With distinct ids, one month's pass accrues each investment's own value and nothing else. |
| `Valuation.InvestedOutsideCurrentMonth` | src/lib/stores.js:283-290 | Outside the current month, the realized list does not change `invested`. |
| `Valuation.InvestmentValuesAreIndependent` | src/lib/stores.js:191-193 | With distinct ids, the shared map holds, for each investment, the value that investment reaches on its own. |
| `Valuation.ValueZeroBeforeStart` | src/lib/stores.js:302-309 | An investment is worth 0 until its start month. |
| `Valuation.Contribution` | src/lib/stores.js:277-296 | An investment contributes nothing or its whole amount, and nothing before its start month. |
| `Valuation.Accrue` | src/lib/stores.js:298-309 | Before its start month an investment's value is left as it is. With no negative value, rate or amount, accrual never lowers the value. |
| `Valuation.RealizingRemovesOnlyThatInvestment` | src/lib/stores.js:283-290 | In the current month, realizing an investment's key gives the same `invested` as deleting that investment, so no other investment is affected. The value map does not read the realized list at all (`Valuation.AccrueInvestments`). |
| `Valuation.SeedAllocations` | src/lib/stores.js:199-202 | Seeds every allocation at its amount, in list order. |
| `Valuation.GrowAllocations` | src/lib/stores.js:315-325 | One month's allocation pass: growth by the monthly rate, except at index 0. |
| `Valuation.SeedAllLookup` | src/lib/stores.js:200-201 | With distinct ids, each allocation is seeded at its own amount. |
| `Valuation.GrowAllLookup` | src/lib/stores.js:319-324 | With distinct ids, one month's pass grows each allocation's own value once. |
| `Valuation.CompoundedIsPower` | src/lib/stores.js:322 | Compounding month by month equals `amount * (1 + rate)^n`. |
| `Valuation.PortfolioClosedForm` | src/lib/stores.js:315-325 | After `n >= 1` months, an allocation holds its amount compounded `n - 1` times: its amount in month 0, multiplied by `1 + annualReturn/1200` in every later month. |
| `Valuation.InvestmentTableTotal` | src/lib/stores.js:327 | With distinct ids, the sum of the investment map is the sum of the values each investment reaches on its own. |
| `Valuation.PortfolioTableTotal` | src/lib/stores.js:328 | With distinct ids, the sum of the portfolio map after `n >= 1` months is every allocation compounded `n - 1` times. |
| `Ledger.MonthRow` | src/lib/stores.js:204-369 | The `months.map` callback for one month. It returns the row the ledger defines for this month, given the previous total and both maps, and carries both maps one month on. |
| `Ledger.MonthTables` | src/lib/stores.js:270-329 | Carries the investment map and the portfolio map one month on, returns the month's cash invested, and returns the sum of both maps' values. |
| `Ledger.MonthLoans` | src/lib/stores.js:332-341 | Returns the month's principals given and taken and repayments received and paid, each as that month's loan total. `netLoans` is the month's net loan figure. |
| `Ledger.MonthlyData` | src/lib/stores.js:185-370 | Returns exactly 100 rows, equal to the closed-form ledger. Row `i` is keyed by the month `i` steps after now, and only row 0 is the current month. Every row satisfies the ledger arithmetic. |
| `Ledger.FoldMonths` | src/lib/stores.js:189-369 | For any list of months, the pass that starts from the starting savings, an empty investment table and the seeded portfolio table yields exactly the closed-form rows, one per month, in order. |
| `Ledger.HorizonRows` | src/lib/stores.js:188-369 | Over the 100-month horizon, row `i` carries the key of the month `i` steps after now, only row 0 is current, and every row satisfies the ledger arithmetic. |
| `Ledger.RowsFit` | src/lib/stores.js:343-349 | In every row: `netLoans` is principals taken minus principals given plus received minus paid; `total` is the previous total plus income minus expenses minus invested plus `netLoans`; `difference` is `total` minus the previous total; `totalWorth` is `total` plus `investmentValue`. The previous total is the starting savings at month 0. |
| `Ledger.FoldStep` | src/lib/stores.js:347-367 | One step of the fold turns `previousTotal` and both maps as they stand after `i` months into row `i`, and leaves everything as it stands after `i + 1` months. |
| `Ledger.DifferencesTelescope` | src/lib/stores.js:347-348 | Over rows that fit, the first `n` differences add up to the `n`-th total minus the starting savings. |
| `Ledger.OtherMonthIgnoresRealized` | src/lib/stores.js:206-343 | Outside the current month, the realized list changes no figure of the row. |
| `Ledger.RealizedShiftsTotals` | src/lib/stores.js:347-367 | When only the first month is current, a different realized list moves every total by the same amount: the change of the first month's cash flow. |
| `Ledger.RealizedKeepsOtherMonths` | src/lib/stores.js:207 | Over the horizon, changing the realized list keeps every later month's income, expenses, invested, net loans and difference, and keeps `investmentValue` in every month. |
| `Ledger.RealizedShiftsEveryTotal` | src/lib/stores.js:347-367 | Over the horizon, changing the realized list moves every month's total by the change of month 0's difference. |
| `Ledger.InvestmentValueIsHoldings` | src/lib/stores.js:327-329 | With distinct ids, month `i`'s `investmentValue` is the sum of each investment's own value plus every allocation compounded `i` times. |
| `Details.ListedIn` | src/lib/stores.js:380-419 | The listing rule: a 'one-time', untyped or 'monthly' item is listed exactly when the recurrence rule `CountsIn` puts it in the month; an item of any other type is listed exactly in the month of its date. The ledger differs: it also skips items realized in the current month, and it invests nothing for an untyped investment (`Details.UntypedInvestmentListedButNotInvested`). |
| `Details.MonthEntries` | src/lib/stores.js:380-391 | The income (or expense) entries listed are exactly the entries that pass the listing rule, and never more than the list holds. |
| `Details.MonthEntriesCount` | src/lib/stores.js:380-391 | A listed entry appears as often as in the list, an unlisted one never. |
| `Details.MonthEntriesAppend` | src/lib/stores.js:380-391 | The filter distributes over concatenation, so the listing keeps the list's order. |
| `Details.MonthInvestments` | src/lib/stores.js:408-419 | The investments listed are exactly those that pass the listing rule. None are listed when the list is missing. |
| `Details.FilterInvestmentsCount` | src/lib/stores.js:408-419 | A listed investment appears as often as in the list, an unlisted one never. |
| `Details.FilterInvestmentsAppend` | src/lib/stores.js:408-419 | The filter distributes over concatenation, so the listing keeps the list's order. |
| `Details.ListingOf` | src/lib/stores.js:425-444 | A listed loan is carried as it is, with `isPrincipalMonth` set exactly when its `startDate` key is the month. A monthly loan is listed exactly when the month is neither before its start key nor after its end key. A manual loan is listed exactly when a payout falls in the month or the month is its start month. A loan of any other mode is never listed. |
| `Details.LoanListings` | src/lib/stores.js:424-445 | Every listing comes from the list and is exactly what the rule gives for its loan. Every loan the rule lists is listed. |
| `Details.LoanListingsAppend` | src/lib/stores.js:424-445 | The listing distributes over concatenation, so listings keep the order of the loans. |
| `Details.MonthlyListingWindow` | src/lib/stores.js:430-435 | A monthly loan is listed exactly in the months from its start month through its end month, or from its start month on with no end date (four-digit years). A loan without a start date is never listed. |
| `Details.ManualListingRule` | src/lib/stores.js:436-442 | A manual loan is listed exactly in the months where one of its payouts falls, and in its start month. |
| `Details.ListLoans` | src/lib/stores.js:424-467 | The `forEach` and `push` pass equals the listing fold. |
| `Details.GetMonthDetails` | src/lib/stores.js:374-478 | The five lists of the month view. |
| `Details.ListedEntriesAddUp` | src/lib/stores.js:380-405 | Away from the current month, and with no entry of another type, the amounts listed add up to the month's income (or expenses) in the ledger. |
| `Details.OtherTypeListedButNotCounted` | src/lib/stores.js:388-390 | An entry of another type is listed in its month, but the ledger does not count it there. |
| `Details.ListedInvestmentsAddUp` | src/lib/stores.js:408-419 | Away from the current month, with every investment typed 'one-time' or 'monthly', the amounts listed add up to `invested`. |
| `Details.UntypedInvestmentListedButNotInvested` | src/lib/stores.js:416-418 | An untyped investment is listed in its month, but the ledger invests nothing for it. |
| `Details.ManualRepaymentIsListed` | src/lib/stores.js:436-442 | A manual loan that repays something in a month is listed in that month. |
| `Details.MonthlyRepaymentIsListed` | src/lib/stores.js:430-435 | A monthly loan that repays in a month is listed there, and not as its principal month. |
| `Details.PrincipalMonthIsListed` | src/lib/stores.js:425-444 | For a loan with a start date whose principal moves in a month: a manual loan is listed there as its principal month; a monthly loan is listed there exactly when the month is not after its end month, and then as its principal month. A loan of any other mode still moves its principal but is never listed. |
| `Details.MonthlyLoanListedInStartMonth` | src/lib/stores.js:430-435 | A monthly loan with a start date and an end month not before its start month (four-digit years) is listed in its start month as the principal month, yet repays nothing there. |
| `Details.DateOnlyLoanNeverPrincipalMonth` | src/lib/stores.js:425-427 | A loan with only the older `date` field has its principal counted in that month, but the view never marks any month as its principal month. |

## Code notes

`calculateLoanPrincipals` (`src/lib/stores.js:104-124`) never reads `mode`,
so a loan of any mode, known or not, moves its principal in its start month.
`LoanPrincipal` does not look at the mode either.

The code also has some quirks. The model keeps them, and lemmas pin them down:

- The month view lists an entry of any type other than 'monthly' in the month
  of its date. The ledger counts only 'one-time', untyped and 'monthly'
  entries.
- Investments count in the ledger only when typed exactly 'one-time' or
  'monthly'.
- The month view reads `loan.startDate` alone. The principal uses
  `startDate || date`.
- The view lists a monthly loan from its start month. Repayments begin one
  month later.
- Years with one or two digits parse into the 1900s.
- `parseFloat(loan.principalAmount || loan.totalSum) || 0` falls back to
  `totalSum` only for a falsy principal: the text "0" does not fall back,
  the number 0 does.

## Left out

- Persistence and reactivity are not modelled. This covers localStorage, the Svelte stores, `subscribe` and the `browser` guards (lines 1-74).
- Export and import are file I/O and are not modelled. Only the migration rule they apply is modelled.
- Clock readings are not modelled. `new Date()` becomes the parameter `now`, and `Date.now()` ids become the parameter `newId`.
- The `toLocaleString` month label is not modelled, because it depends on the locale.
- Timezones and JavaScript's parsing of date strings are not modelled. A date is already a `(year, month, day)` triple.
- Floating-point rounding is not modelled. Amounts are exact reals.
- The entry `description` is not modelled; no computation reads it.
- `NaN` is not modelled. `parseFloat(inv.amount)` without `|| 0` can propagate `NaN`; here investment amounts are always numbers.
- `parseInt`'s leniency is not modelled. `ParseMonthKey` accepts only digit runs; a key piece with a sign, spaces or trailing text is treated as an Invalid Date.
- `getMonthDetails` computes `parseMonthKey(monthKey)` and the current-month flag but never uses them, so the model drops them.
- `src/routes/api/chat/+server.js` is not part of this model. It only calls a remote chat service.
- Valuation.InvestmentValuesAreIndependent: assumes distinct investment ids. The fold itself follows the source for duplicate ids, which share one map entry.
- Valuation.PortfolioClosedForm: assumes distinct allocation ids, for the same reason.
- Valuation.InvestmentTableTotal: assumes distinct investment ids.
- Valuation.PortfolioTableTotal: assumes distinct allocation ids.
- Ledger.InvestmentValueIsHoldings: assumes distinct ids, because it rests on the two lemmas above.
- Recurrence.MonthlyEntryWindow: states chronological order for four-digit years only. The engine compares key texts, and outside that range string order is not chronological.
- Loans.MonthlyPayoutWindow: four-digit years only, as above.
- Details.MonthlyRepaymentIsListed: four-digit years only, as above.
- Details.MonthlyListingWindow: four-digit years only, as above.
- Loans.NoPayoutInStartMonth: four-digit years only, as above; a loan started in 999-12 does repay in its start month, since "999-12" sorts after "1000-01".
- Loans.MissingEndDateNeverStops: four-digit years only, as above.
- Details.MonthlyLoanListedInStartMonth: four-digit years only, as above, and only for a loan with an end month not before its start month; other loans are covered by `Details.MonthlyListingWindow`.
