/**
 * Recurrence of income and expense entries: which entries count in a month
 * and how much they add, with realized entries left out of the current month.
 */
module Recurrence {
  import opened Decimal
  import opened Calendar
  import opened Records
  import opened Actions

  /** The sum of every entry's amount, whatever its type and date. */
  function AmountSum(entries: seq<Entry>): real
    decreases |entries|
  {
    if entries == [] then 0.0 else AmountSum(entries[..|entries| - 1]) + entries[|entries| - 1].amount
  }

  predicate NonNegativeAmounts(entries: seq<Entry>) {
    forall i :: 0 <= i < |entries| ==> entries[i].amount >= 0.0
  }

  /**
   * The one-time part of a month's income or expenses: entries typed
   * 'one-time' or untyped whose date falls in the month, summed left to
   * right, skipping those realized in the current month.
   */
  function OneTimeTotal(entries: seq<Entry>, monthKey: string, isCurrentMonth: bool, realized: seq<string>): (r: real)
    ensures NonNegativeAmounts(entries) ==> 0.0 <= r <= AmountSum(entries)
    decreases |entries|
  {
    if entries == [] then 0.0
    else
      var e := entries[|entries| - 1];
      var init := entries[..|entries| - 1];
      assert NonNegativeAmounts(entries) ==> NonNegativeAmounts(init) && e.amount >= 0.0;
      var sum := OneTimeTotal(init, monthKey, isCurrentMonth, realized);
      if (e.kind == OneTime || e.kind == Untyped) && GetMonthKey(e.date) == monthKey
         && !Suppressed(isCurrentMonth, realized, e.id, monthKey)
      then sum + e.amount
      else sum
  }

  /**
   * The recurring part: entries typed 'monthly' whose start month key is
   * not after the month's key, less those realized in the current month.
   */
  function MonthlyTotal(entries: seq<Entry>, monthKey: string, isCurrentMonth: bool, realized: seq<string>): (r: real)
    ensures NonNegativeAmounts(entries) ==> 0.0 <= r <= AmountSum(entries)
    decreases |entries|
  {
    if entries == [] then 0.0
    else
      var e := entries[|entries| - 1];
      var init := entries[..|entries| - 1];
      assert NonNegativeAmounts(entries) ==> NonNegativeAmounts(init) && e.amount >= 0.0;
      var sum := MonthlyTotal(init, monthKey, isCurrentMonth, realized);
      if e.kind == Monthly && !LexLess(monthKey, GetMonthKey(e.date))
         && !Suppressed(isCurrentMonth, realized, e.id, monthKey)
      then sum + e.amount
      else sum
  }

  /** A month's income (or expenses): the one-time part plus the recurring part. */
  function MonthFlow(entries: seq<Entry>, monthKey: string, isCurrentMonth: bool, realized: seq<string>): real {
    OneTimeTotal(entries, monthKey, isCurrentMonth, realized) + MonthlyTotal(entries, monthKey, isCurrentMonth, realized)
  }

  /**
   * The recurrence rule for one entry: one-time and untyped entries fall in
   * the month of their date, monthly ones in every month whose key is not
   * before their start key, entries of any other type in none.
   */
  predicate CountsIn(kind: EntryType, date: Date, monthKey: string) {
    match kind
    case OneTime => GetMonthKey(date) == monthKey
    case Untyped => GetMonthKey(date) == monthKey
    case Monthly => !LexLess(monthKey, GetMonthKey(date))
    case OtherType => false
  }

  /** What one entry adds to a month's figure. */
  function EntryFlow(e: Entry, monthKey: string, isCurrentMonth: bool, realized: seq<string>): real {
    if CountsIn(e.kind, e.date, monthKey) && !Suppressed(isCurrentMonth, realized, e.id, monthKey) then e.amount else 0.0
  }

  /** The per-entry reference: the sum of what each entry adds. */
  function FlowSum(entries: seq<Entry>, monthKey: string, isCurrentMonth: bool, realized: seq<string>): real
    decreases |entries|
  {
    if entries == [] then 0.0
    else EntryFlow(entries[0], monthKey, isCurrentMonth, realized) + FlowSum(entries[1..], monthKey, isCurrentMonth, realized)
  }

  lemma {:induction false} FlowSumSnoc(entries: seq<Entry>, e: Entry, monthKey: string, isCurrentMonth: bool, realized: seq<string>)
    ensures FlowSum(entries + [e], monthKey, isCurrentMonth, realized)
         == FlowSum(entries, monthKey, isCurrentMonth, realized) + EntryFlow(e, monthKey, isCurrentMonth, realized)
    decreases |entries|
  {
    if entries == [] {
      assert [] + [e] == [e];
    } else {
      assert (entries + [e])[1..] == entries[1..] + [e];
      FlowSumSnoc(entries[1..], e, monthKey, isCurrentMonth, realized);
    }
  }

  /**
   * The split into a one-time filter and a monthly filter adds up to the
   * per-entry rule: every entry is counted once, by its own type.
   */
  lemma {:induction false} MonthFlowIsPerEntrySum(entries: seq<Entry>, monthKey: string, isCurrentMonth: bool, realized: seq<string>)
    ensures MonthFlow(entries, monthKey, isCurrentMonth, realized) == FlowSum(entries, monthKey, isCurrentMonth, realized)
    decreases |entries|
  {
    if entries != [] {
      var init, e := entries[..|entries| - 1], entries[|entries| - 1];
      MonthFlowIsPerEntrySum(init, monthKey, isCurrentMonth, realized);
      assert entries == init + [e];
      FlowSumSnoc(init, e, monthKey, isCurrentMonth, realized);
    }
  }

  /** A one-time or untyped entry counts in the month of its date and in no other. */
  lemma OneTimeEntryMonth(e: Entry, k: MonthKey)
    requires e.kind == OneTime || e.kind == Untyped
    ensures CountsIn(e.kind, e.date, KeyText(k)) <==> k == KeyOf(e.date)
  {
    KeyTextInjective(k, KeyOf(e.date));
  }

  /** A monthly entry counts in its start month and every later one, never before (four-digit years). */
  lemma MonthlyEntryWindow(e: Entry, k: MonthKey)
    requires e.kind == Monthly
    requires 1000 <= e.date.year <= 9999 && 1000 <= k.year <= 9999
    ensures CountsIn(e.kind, e.date, KeyText(k)) <==> Ordinal(KeyOf(e.date)) <= Ordinal(k)
  {
    KeyOrder(k, KeyOf(e.date));
  }

  /** Within the horizon, a one-time or untyped entry adds to at most one month. */
  lemma OneTimeEntryInOneMonth(e: Entry, now: Date, i: int, j: int, realized: seq<string>)
    requires e.kind == OneTime || e.kind == Untyped
    requires EntryFlow(e, KeyText(HorizonKey(now, i)), i == 0, realized) != 0.0
    requires EntryFlow(e, KeyText(HorizonKey(now, j)), j == 0, realized) != 0.0
    ensures i == j
  {
    OneTimeEntryMonth(e, HorizonKey(now, i));
    OneTimeEntryMonth(e, HorizonKey(now, j));
  }

  lemma {:induction false} FlowSumOutsideCurrentMonth(entries: seq<Entry>, monthKey: string, r1: seq<string>, r2: seq<string>)
    ensures FlowSum(entries, monthKey, false, r1) == FlowSum(entries, monthKey, false, r2)
    decreases |entries|
  {
    if entries != [] {
      FlowSumOutsideCurrentMonth(entries[1..], monthKey, r1, r2);
    }
  }

  /** The realized list changes nothing outside the current month. */
  lemma RealizedOnlyAffectsCurrentMonth(entries: seq<Entry>, monthKey: string, r1: seq<string>, r2: seq<string>)
    ensures MonthFlow(entries, monthKey, false, r1) == MonthFlow(entries, monthKey, false, r2)
  {
    MonthFlowIsPerEntrySum(entries, monthKey, false, r1);
    MonthFlowIsPerEntrySum(entries, monthKey, false, r2);
    FlowSumOutsideCurrentMonth(entries, monthKey, r1, r2);
  }

  lemma {:induction false} FlowSumRealizing(entries: seq<Entry>, id: nat, monthKey: string, realized: seq<string>)
    ensures FlowSum(entries, monthKey, true, realized + [RealizedKey(id, monthKey)])
         == FlowSum(DeleteById(entries, id, (e: Entry) => e.id), monthKey, true, realized)
    decreases |entries|
  {
    if entries != [] {
      var e := entries[0];
      FlowSumRealizing(entries[1..], id, monthKey, realized);
      RealizedKeyInjective(e.id, id, monthKey);
    }
  }

  /**
   * Realizing an id in the current month takes exactly the entries with that
   * id out of the month's figure, as if they were deleted; every other entry
   * still counts.
   */
  lemma RealizingRemovesOnlyThatId(entries: seq<Entry>, id: nat, monthKey: string, realized: seq<string>)
    ensures MonthFlow(entries, monthKey, true, realized + [RealizedKey(id, monthKey)])
         == MonthFlow(DeleteById(entries, id, (e: Entry) => e.id), monthKey, true, realized)
  {
    MonthFlowIsPerEntrySum(entries, monthKey, true, realized + [RealizedKey(id, monthKey)]);
    MonthFlowIsPerEntrySum(DeleteById(entries, id, (e: Entry) => e.id), monthKey, true, realized);
    FlowSumRealizing(entries, id, monthKey, realized);
  }
}
