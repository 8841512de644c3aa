/**
 * The two value tables the ledger carries from month to month: investments,
 * which compound and take their contribution once started, and portfolio
 * allocations, which are seeded at their amount and compound from the second
 * month of the horizon on.
 */
module Valuation {
  import opened Wrappers
  import opened Decimal
  import opened Calendar
  import opened Records
  import opened Actions

  /** A JavaScript `Map` from id to value, as (id, value) pairs in insertion order. */
  type ValueMap = seq<(nat, real)>

  /** `map.get(id) || 0`: the value stored for `id`, zero when there is none. */
  function Lookup(m: ValueMap, id: nat): real
    decreases |m|
  {
    if m == [] then 0.0
    else if m[0].0 == id then m[0].1
    else Lookup(m[1..], id)
  }

  /** `map.has(id)`. */
  predicate HasKey(m: ValueMap, id: nat)
    decreases |m|
  {
    m != [] && (m[0].0 == id || HasKey(m[1..], id))
  }

  /** A `Map` holds at most one entry per key. */
  predicate DistinctKeys(m: ValueMap)
    decreases |m|
  {
    m == [] || (!HasKey(m[1..], m[0].0) && DistinctKeys(m[1..]))
  }

  /** `map.set(id, v)`: overwrites the entry for `id` where it stands, or appends a new one. */
  function Store(m: ValueMap, id: nat, v: real): (r: ValueMap)
    ensures Lookup(r, id) == v
    ensures forall x :: x != id ==> Lookup(r, x) == Lookup(m, x)
    ensures forall x :: HasKey(r, x) <==> HasKey(m, x) || x == id
    decreases |m|
  {
    if m == [] then [(id, v)]
    else if m[0].0 == id then [(id, v)] + m[1..]
    else [m[0]] + Store(m[1..], id, v)
  }

  /** `Array.from(map.values()).reduce((sum, val) => sum + val, 0)`. */
  function ValueTotal(m: ValueMap): real
    decreases |m|
  {
    if m == [] then 0.0 else m[0].1 + ValueTotal(m[1..])
  }

  /** Setting a key never creates a second entry for it. */
  lemma {:induction false} StoreKeepsKeysDistinct(m: ValueMap, id: nat, v: real)
    requires DistinctKeys(m)
    ensures DistinctKeys(Store(m, id, v))
    decreases |m|
  {
    if m != [] && m[0].0 != id {
      StoreKeepsKeysDistinct(m[1..], id, v);
      assert Store(m, id, v)[1..] == Store(m[1..], id, v);
    }
  }

  /** Setting a key moves the map's total by exactly the change of that key's value. */
  lemma {:induction false} StoreTotal(m: ValueMap, id: nat, v: real)
    ensures ValueTotal(Store(m, id, v)) == ValueTotal(m) - Lookup(m, id) + v
    decreases |m|
  {
    if m != [] && m[0].0 != id {
      StoreTotal(m[1..], id, v);
      assert Store(m, id, v)[1..] == Store(m[1..], id, v);
    }
  }

  /** `(parseFloat(annualReturn) || 0) / 100 / 12`: a yearly percentage as a monthly fraction. */
  function MonthlyRate(annualReturn: Option<real>): (r: real)
    ensures r * 1200.0 == OrZero(annualReturn)
  {
    OrZero(annualReturn) / 100.0 / 12.0
  }

  /** An investment takes part from the month whose key is not before the key of its date. */
  predicate Started(inv: Investment, monthKey: string) {
    !LexLess(monthKey, GetMonthKey(inv.date))
  }

  /**
   * What an investment puts in during a month: a 'one-time' investment its
   * amount in the month of its date, a 'monthly' one its amount in every
   * month from its start on, any other (or missing) type nothing.
   */
  function Contribution(inv: Investment, monthKey: string): (r: real)
    ensures r == 0.0 || r == inv.amount
    ensures !Started(inv, monthKey) ==> r == 0.0
  {
    LexIrreflexive(monthKey);
    match inv.kind
    case OneTime => if GetMonthKey(inv.date) == monthKey then inv.amount else 0.0
    case Monthly => if Started(inv, monthKey) then inv.amount else 0.0
    case Untyped => 0.0
    case OtherType => 0.0
  }

  /** The contribution as cash leaving the account: none when realized in the current month. */
  function CashContribution(inv: Investment, monthKey: string, isCurrentMonth: bool, realized: seq<string>): real {
    if Suppressed(isCurrentMonth, realized, inv.id, monthKey) then 0.0 else Contribution(inv, monthKey)
  }

  /** One month of an investment's value: growth, then the contribution, once started. */
  function Accrue(v: real, inv: Investment, monthKey: string): (r: real)
    ensures !Started(inv, monthKey) ==> r == v
    ensures 0.0 <= v && 0.0 <= OrZero(inv.annualReturn) && 0.0 <= inv.amount ==> v <= r
  {
    if Started(inv, monthKey) then v * (1.0 + MonthlyRate(inv.annualReturn)) + Contribution(inv, monthKey) else v
  }

  /** The investment table after one month's pass over the investments, left to right. */
  function AccrueAll(m: ValueMap, invs: seq<Investment>, monthKey: string): ValueMap
    decreases |invs|
  {
    if invs == [] then m
    else
      var before := AccrueAll(m, invs[..|invs| - 1], monthKey);
      var inv := invs[|invs| - 1];
      Store(before, inv.id, Accrue(Lookup(before, inv.id), inv, monthKey))
  }

  /** The month's `invested` figure: the cash contributions, left to right. */
  function InvestedTotal(invs: seq<Investment>, monthKey: string, isCurrentMonth: bool, realized: seq<string>): real
    decreases |invs|
  {
    if invs == [] then 0.0
    else InvestedTotal(invs[..|invs| - 1], monthKey, isCurrentMonth, realized)
         + CashContribution(invs[|invs| - 1], monthKey, isCurrentMonth, realized)
  }

  /**
   * The `forEach` callback of the investments pass for one investment: its
   * cash contribution, and the table with its value grown and topped up.
   */
  method AccrueInvestment(inv: Investment, values: ValueMap, monthKey: string, isCurrentMonth: bool, realized: seq<string>)
    returns (newValues: ValueMap, cashFlowContribution: real)
    ensures newValues == Store(values, inv.id, Accrue(Lookup(values, inv.id), inv, monthKey))
    ensures cashFlowContribution == CashContribution(inv, monthKey, isCurrentMonth, realized)
  {
    var startMonthKey := GetMonthKey(inv.date);
    var monthlyRate := MonthlyRate(inv.annualReturn);
    var isRealized := isCurrentMonth && RealizedKey(inv.id, monthKey) in realized;
    var contribution := 0.0;
    cashFlowContribution := 0.0;
    if inv.kind == OneTime {
      if startMonthKey == monthKey {
        contribution := inv.amount;
        if !isRealized {
          cashFlowContribution := contribution;
        }
      }
    } else if inv.kind == Monthly {
      if !LexLess(monthKey, startMonthKey) {
        contribution := inv.amount;
        if !isRealized {
          cashFlowContribution := contribution;
        }
      }
    }
    assert contribution == Contribution(inv, monthKey);
    var currentValue := Lookup(values, inv.id);
    AccrueUnfolded(currentValue, inv, monthKey, monthlyRate, contribution);
    if !LexLess(monthKey, startMonthKey) {
      currentValue := currentValue * (1.0 + monthlyRate);
      currentValue := currentValue + contribution;
    }
    newValues := Store(values, inv.id, currentValue);
  }

  /** The investments pass of one month of `monthlyData`: updates the table and sums the cash contributions. */
  method AccrueInvestments(invs: seq<Investment>, values: ValueMap, monthKey: string, isCurrentMonth: bool, realized: seq<string>)
    returns (newValues: ValueMap, invested: real)
    ensures newValues == AccrueAll(values, invs, monthKey)
    ensures invested == InvestedTotal(invs, monthKey, isCurrentMonth, realized)
  {
    newValues, invested := values, 0.0;
    for i := 0 to |invs|
      invariant newValues == AccrueAll(values, invs[..i], monthKey)
      invariant invested == InvestedTotal(invs[..i], monthKey, isCurrentMonth, realized)
    {
      var cashFlowContribution;
      newValues, cashFlowContribution := AccrueInvestment(invs[i], newValues, monthKey, isCurrentMonth, realized);
      invested := invested + cashFlowContribution;
      AccrueAllPrefix(values, invs, i, monthKey);
      InvestedTotalPrefix(invs, i, monthKey, isCurrentMonth, realized);
    }
    assert invs[..|invs|] == invs;
  }

  /** `Accrue` spelled out in the steps `monthlyData` takes. */
  lemma AccrueUnfolded(v: real, inv: Investment, monthKey: string, monthlyRate: real, contribution: real)
    requires monthlyRate == MonthlyRate(inv.annualReturn) && contribution == Contribution(inv, monthKey)
    ensures Accrue(v, inv, monthKey)
         == if !LexLess(monthKey, GetMonthKey(inv.date)) then v * (1.0 + monthlyRate) + contribution else v
  {
  }

  lemma AccrueAllPrefix(m: ValueMap, invs: seq<Investment>, i: nat, monthKey: string)
    requires i < |invs|
    ensures AccrueAll(m, invs[..i + 1], monthKey)
         == Store(AccrueAll(m, invs[..i], monthKey), invs[i].id, Accrue(Lookup(AccrueAll(m, invs[..i], monthKey), invs[i].id), invs[i], monthKey))
  {
    assert invs[..i + 1][..i] == invs[..i];
  }

  lemma InvestedTotalPrefix(invs: seq<Investment>, i: nat, monthKey: string, isCurrentMonth: bool, realized: seq<string>)
    requires i < |invs|
    ensures InvestedTotal(invs[..i + 1], monthKey, isCurrentMonth, realized)
         == InvestedTotal(invs[..i], monthKey, isCurrentMonth, realized) + CashContribution(invs[i], monthKey, isCurrentMonth, realized)
  {
    assert invs[..i + 1][..i] == invs[..i];
  }

  predicate DistinctInvestmentIds(invs: seq<Investment>) {
    forall i, j :: 0 <= i < j < |invs| ==> invs[i].id != invs[j].id
  }

  /** The pass leaves the values of ids no investment carries alone. */
  lemma {:induction false} AccrueAllOther(m: ValueMap, invs: seq<Investment>, monthKey: string, x: nat)
    requires forall k :: 0 <= k < |invs| ==> invs[k].id != x
    ensures Lookup(AccrueAll(m, invs, monthKey), x) == Lookup(m, x)
    decreases |invs|
  {
    if invs != [] {
      AccrueAllOther(m, invs[..|invs| - 1], monthKey, x);
    }
  }

  /** With distinct ids, the pass accrues each investment's own value and nothing else's. */
  lemma {:induction false} AccrueAllLookup(m: ValueMap, invs: seq<Investment>, monthKey: string, k: nat)
    requires DistinctInvestmentIds(invs) && k < |invs|
    ensures Lookup(AccrueAll(m, invs, monthKey), invs[k].id) == Accrue(Lookup(m, invs[k].id), invs[k], monthKey)
    decreases |invs|
  {
    var init, last := invs[..|invs| - 1], invs[|invs| - 1];
    if k == |invs| - 1 {
      AccrueAllOther(m, init, monthKey, last.id);
    } else {
      assert init[k] == invs[k];
      AccrueAllLookup(m, init, monthKey, k);
    }
  }

  /** Outside the current month the realized list plays no part in `invested`. */
  lemma {:induction false} InvestedOutsideCurrentMonth(invs: seq<Investment>, monthKey: string, r1: seq<string>, r2: seq<string>)
    ensures InvestedTotal(invs, monthKey, false, r1) == InvestedTotal(invs, monthKey, false, r2)
    decreases |invs|
  {
    if invs != [] {
      InvestedOutsideCurrentMonth(invs[..|invs| - 1], monthKey, r1, r2);
    }
  }

  /** The investment table after the months with the given keys, in order. */
  function InvestmentValuesAfter(invs: seq<Investment>, keys: seq<string>): ValueMap
    decreases |keys|
  {
    if keys == [] then []
    else AccrueAll(InvestmentValuesAfter(invs, keys[..|keys| - 1]), invs, keys[|keys| - 1])
  }

  /** One investment's value after the months with the given keys, followed on its own. */
  function InvestmentValue(inv: Investment, keys: seq<string>): real
    decreases |keys|
  {
    if keys == [] then 0.0
    else Accrue(InvestmentValue(inv, keys[..|keys| - 1]), inv, keys[|keys| - 1])
  }

  /**
   * With distinct ids, the shared table holds for every investment exactly
   * the value that investment reaches on its own.
   */
  lemma {:induction false} InvestmentValuesAreIndependent(invs: seq<Investment>, keys: seq<string>, k: nat)
    requires DistinctInvestmentIds(invs) && k < |invs|
    ensures Lookup(InvestmentValuesAfter(invs, keys), invs[k].id) == InvestmentValue(invs[k], keys)
    decreases |keys|
  {
    if keys != [] {
      var init := keys[..|keys| - 1];
      InvestmentValuesAreIndependent(invs, init, k);
      AccrueAllLookup(InvestmentValuesAfter(invs, init), invs, keys[|keys| - 1], k);
    }
  }

  /** An investment is worth nothing while none of the months so far has reached its start. */
  lemma {:induction false} ValueZeroBeforeStart(inv: Investment, keys: seq<string>)
    requires forall j :: 0 <= j < |keys| ==> !Started(inv, keys[j])
    ensures InvestmentValue(inv, keys) == 0.0
    decreases |keys|
  {
    if keys != [] {
      ValueZeroBeforeStart(inv, keys[..|keys| - 1]);
    }
  }

  lemma InvestedTotalSnoc(invs: seq<Investment>, last: Investment, monthKey: string, isCurrentMonth: bool, realized: seq<string>)
    ensures InvestedTotal(invs + [last], monthKey, isCurrentMonth, realized)
         == InvestedTotal(invs, monthKey, isCurrentMonth, realized) + CashContribution(last, monthKey, isCurrentMonth, realized)
  {
    assert (invs + [last])[..|invs|] == invs;
  }

  /**
   * Realizing an investment in the current month keeps exactly the
   * investments with that id out of `invested`, as if they were deleted;
   * every other investment still puts its cash in.
   */
  lemma {:induction false} RealizingRemovesOnlyThatInvestment(invs: seq<Investment>, id: nat, monthKey: string, realized: seq<string>)
    ensures InvestedTotal(invs, monthKey, true, realized + [RealizedKey(id, monthKey)])
         == InvestedTotal(DeleteById(invs, id, (inv: Investment) => inv.id), monthKey, true, realized)
    decreases |invs|
  {
    var idOf := (inv: Investment) => inv.id;
    if invs != [] {
      var init, last := invs[..|invs| - 1], invs[|invs| - 1];
      assert invs == init + [last];
      RealizingRemovesOnlyThatInvestment(init, id, monthKey, realized);
      DeleteByIdAppend(init, [last], id, idOf);
      CashOfRealizedKey(last, id, monthKey, realized);
      var kept := DeleteById(init, id, idOf);
      assert [last][1..] == [];
      if last.id == id {
        assert DeleteById([last], id, idOf) == [];
        assert DeleteById(invs, id, idOf) == kept;
      } else {
        assert DeleteById([last], id, idOf) == [last];
        InvestedTotalSnoc(kept, last, monthKey, true, realized);
      }
    }
  }

  /** Adding an id's realized key takes away that id's cash contribution in the current month, and no other. */
  lemma CashOfRealizedKey(inv: Investment, id: nat, monthKey: string, realized: seq<string>)
    ensures CashContribution(inv, monthKey, true, realized + [RealizedKey(id, monthKey)])
         == if inv.id == id then 0.0 else CashContribution(inv, monthKey, true, realized)
  {
    RealizedKeyInjective(inv.id, id, monthKey);
  }

  /** One step of portfolio growth: none in the first month of the horizon (index 0). */
  function Grow(v: real, a: Allocation, index: nat): real {
    if index > 0 then v * (1.0 + MonthlyRate(a.annualReturn)) else v
  }

  /** The portfolio table after one month's pass over the allocations, left to right. */
  function GrowAll(m: ValueMap, allocs: seq<Allocation>, index: nat): ValueMap
    decreases |allocs|
  {
    if allocs == [] then m
    else
      var before := GrowAll(m, allocs[..|allocs| - 1], index);
      var a := allocs[|allocs| - 1];
      Store(before, a.id, Grow(Lookup(before, a.id), a, index))
  }

  /** The portfolio table before the first month: every allocation at its amount. */
  function SeedAll(allocs: seq<Allocation>): ValueMap
    decreases |allocs|
  {
    if allocs == [] then []
    else
      var a := allocs[|allocs| - 1];
      Store(SeedAll(allocs[..|allocs| - 1]), a.id, a.amount)
  }

  /** `portfolioAllocations.forEach(a => portfolioValues.set(a.id, a.amount))`. */
  method SeedAllocations(allocs: seq<Allocation>) returns (values: ValueMap)
    ensures values == SeedAll(allocs)
  {
    values := [];
    for i := 0 to |allocs|
      invariant values == SeedAll(allocs[..i])
    {
      values := Store(values, allocs[i].id, allocs[i].amount);
      assert allocs[..i + 1][..i] == allocs[..i];
    }
    assert allocs[..|allocs|] == allocs;
  }

  /** The allocations pass of month `index` of `monthlyData`. */
  method GrowAllocations(allocs: seq<Allocation>, values: ValueMap, index: nat) returns (newValues: ValueMap)
    ensures newValues == GrowAll(values, allocs, index)
  {
    newValues := values;
    for i := 0 to |allocs|
      invariant newValues == GrowAll(values, allocs[..i], index)
    {
      var allocation := allocs[i];
      var monthlyRate := MonthlyRate(allocation.annualReturn);
      var currentValue := Lookup(newValues, allocation.id);
      if index > 0 {
        currentValue := currentValue * (1.0 + monthlyRate);
      }
      assert currentValue == Grow(Lookup(newValues, allocation.id), allocation, index);
      newValues := Store(newValues, allocation.id, currentValue);
      assert allocs[..i + 1][..i] == allocs[..i] && allocs[..i + 1][i] == allocation;
    }
    assert allocs[..|allocs|] == allocs;
  }

  /** The portfolio table after the first `n` months of the horizon. */
  function PortfolioAfter(allocs: seq<Allocation>, n: nat): ValueMap {
    if n == 0 then SeedAll(allocs) else GrowAll(PortfolioAfter(allocs, n - 1), allocs, n - 1)
  }

  /** Like a `Map`, the investment table never holds two entries for one id. */
  lemma {:induction false} InvestmentTableKeysDistinct(invs: seq<Investment>, keys: seq<string>)
    ensures DistinctKeys(InvestmentValuesAfter(invs, keys))
    decreases |keys|
  {
    if keys != [] {
      InvestmentTableKeysDistinct(invs, keys[..|keys| - 1]);
      AccrueAllKeepsKeysDistinct(InvestmentValuesAfter(invs, keys[..|keys| - 1]), invs, keys[|keys| - 1]);
    }
  }

  lemma {:induction false} AccrueAllKeepsKeysDistinct(m: ValueMap, invs: seq<Investment>, monthKey: string)
    requires DistinctKeys(m)
    ensures DistinctKeys(AccrueAll(m, invs, monthKey))
    decreases |invs|
  {
    if invs != [] {
      var before := AccrueAll(m, invs[..|invs| - 1], monthKey);
      var inv := invs[|invs| - 1];
      AccrueAllKeepsKeysDistinct(m, invs[..|invs| - 1], monthKey);
      StoreKeepsKeysDistinct(before, inv.id, Accrue(Lookup(before, inv.id), inv, monthKey));
    }
  }

  /** Like a `Map`, the portfolio table never holds two entries for one id. */
  lemma {:induction false} PortfolioKeysDistinct(allocs: seq<Allocation>, n: nat)
    ensures DistinctKeys(PortfolioAfter(allocs, n))
    decreases n
  {
    if n == 0 {
      SeedAllKeysDistinct(allocs);
    } else {
      PortfolioKeysDistinct(allocs, n - 1);
      GrowAllKeepsKeysDistinct(PortfolioAfter(allocs, n - 1), allocs, n - 1);
    }
  }

  lemma {:induction false} SeedAllKeysDistinct(allocs: seq<Allocation>)
    ensures DistinctKeys(SeedAll(allocs))
    decreases |allocs|
  {
    if allocs != [] {
      var a := allocs[|allocs| - 1];
      SeedAllKeysDistinct(allocs[..|allocs| - 1]);
      StoreKeepsKeysDistinct(SeedAll(allocs[..|allocs| - 1]), a.id, a.amount);
    }
  }

  lemma {:induction false} GrowAllKeepsKeysDistinct(m: ValueMap, allocs: seq<Allocation>, index: nat)
    requires DistinctKeys(m)
    ensures DistinctKeys(GrowAll(m, allocs, index))
    decreases |allocs|
  {
    if allocs != [] {
      var before := GrowAll(m, allocs[..|allocs| - 1], index);
      var a := allocs[|allocs| - 1];
      GrowAllKeepsKeysDistinct(m, allocs[..|allocs| - 1], index);
      StoreKeepsKeysDistinct(before, a.id, Grow(Lookup(before, a.id), a, index));
    }
  }

  predicate DistinctAllocationIds(allocs: seq<Allocation>) {
    forall i, j :: 0 <= i < j < |allocs| ==> allocs[i].id != allocs[j].id
  }

  lemma {:induction false} SeedAllOther(allocs: seq<Allocation>, x: nat)
    requires forall k :: 0 <= k < |allocs| ==> allocs[k].id != x
    ensures Lookup(SeedAll(allocs), x) == 0.0
    decreases |allocs|
  {
    if allocs != [] {
      SeedAllOther(allocs[..|allocs| - 1], x);
    }
  }

  /** With distinct ids, each allocation is seeded at its own amount. */
  lemma {:induction false} SeedAllLookup(allocs: seq<Allocation>, k: nat)
    requires DistinctAllocationIds(allocs) && k < |allocs|
    ensures Lookup(SeedAll(allocs), allocs[k].id) == allocs[k].amount
    decreases |allocs|
  {
    var init := allocs[..|allocs| - 1];
    if k < |allocs| - 1 {
      assert init[k] == allocs[k];
      SeedAllLookup(init, k);
    }
  }

  lemma {:induction false} GrowAllOther(m: ValueMap, allocs: seq<Allocation>, index: nat, x: nat)
    requires forall k :: 0 <= k < |allocs| ==> allocs[k].id != x
    ensures Lookup(GrowAll(m, allocs, index), x) == Lookup(m, x)
    decreases |allocs|
  {
    if allocs != [] {
      GrowAllOther(m, allocs[..|allocs| - 1], index, x);
    }
  }

  /** With distinct ids, the pass grows each allocation's own value once. */
  lemma {:induction false} GrowAllLookup(m: ValueMap, allocs: seq<Allocation>, index: nat, k: nat)
    requires DistinctAllocationIds(allocs) && k < |allocs|
    ensures Lookup(GrowAll(m, allocs, index), allocs[k].id) == Grow(Lookup(m, allocs[k].id), allocs[k], index)
    decreases |allocs|
  {
    var init, last := allocs[..|allocs| - 1], allocs[|allocs| - 1];
    if k == |allocs| - 1 {
      GrowAllOther(m, init, index, last.id);
    } else {
      assert init[k] == allocs[k];
      GrowAllLookup(m, init, index, k);
    }
  }

  /** `x` to the power `n`. */
  function Power(x: real, n: nat): real {
    if n == 0 then 1.0 else x * Power(x, n - 1)
  }

  /** `amount` after `n` months of compounding at `rate`, one month at a time. */
  function Compounded(amount: real, rate: real, n: nat): real {
    if n == 0 then amount else Compounded(amount, rate, n - 1) * (1.0 + rate)
  }

  /** Month-by-month compounding is the textbook `amount * (1 + rate)^n`. */
  lemma {:induction false} CompoundedIsPower(amount: real, rate: real, n: nat)
    ensures Compounded(amount, rate, n) == amount * Power(1.0 + rate, n)
  {
    if n > 0 {
      CompoundedIsPower(amount, rate, n - 1);
      var p := Power(1.0 + rate, n - 1);
      assert amount * p * (1.0 + rate) == amount * ((1.0 + rate) * p);
    }
  }

  /**
   * With distinct ids, an allocation is worth its amount in month 0 and is
   * multiplied by `1 + MonthlyRate` (`1 + annualReturn / 1200`) in every
   * later month: after the first `n` months (n >= 1) it holds its amount
   * compounded `n - 1` times.
   */
  lemma {:induction false} PortfolioClosedForm(allocs: seq<Allocation>, n: nat, k: nat)
    requires DistinctAllocationIds(allocs) && k < |allocs| && n >= 1
    ensures Lookup(PortfolioAfter(allocs, n), allocs[k].id)
         == Compounded(allocs[k].amount, MonthlyRate(allocs[k].annualReturn), n - 1)
  {
    var a := allocs[k];
    var m := PortfolioAfter(allocs, n - 1);
    GrowAllLookup(m, allocs, n - 1, k);
    if n == 1 {
      SeedAllLookup(allocs, k);
    } else {
      PortfolioClosedForm(allocs, n - 1, k);
      CompoundedStep(Lookup(m, a.id), a, n - 1);
    }
  }

  lemma CompoundedStep(v: real, a: Allocation, n: nat)
    requires n >= 1 && v == Compounded(a.amount, MonthlyRate(a.annualReturn), n - 1)
    ensures Grow(v, a, n) == Compounded(a.amount, MonthlyRate(a.annualReturn), n)
  {
  }

  /** The investments' own values after the given months, added up. */
  function HoldingsValue(invs: seq<Investment>, keys: seq<string>): real
    decreases |invs|
  {
    if invs == [] then 0.0 else HoldingsValue(invs[..|invs| - 1], keys) + InvestmentValue(invs[|invs| - 1], keys)
  }

  /** What one month's pass adds to the values the table holds for the investments' ids. */
  function AccrualGain(m: ValueMap, invs: seq<Investment>, monthKey: string): real
    decreases |invs|
  {
    if invs == [] then 0.0
    else
      var inv := invs[|invs| - 1];
      AccrualGain(m, invs[..|invs| - 1], monthKey) + (Accrue(Lookup(m, inv.id), inv, monthKey) - Lookup(m, inv.id))
  }

  /** With distinct ids, one month's pass moves the table's total by the gain of every investment. */
  lemma {:induction false} AccrueAllTotal(m: ValueMap, invs: seq<Investment>, monthKey: string)
    requires DistinctInvestmentIds(invs)
    ensures ValueTotal(AccrueAll(m, invs, monthKey)) == ValueTotal(m) + AccrualGain(m, invs, monthKey)
    decreases |invs|
  {
    if invs != [] {
      var init, last := invs[..|invs| - 1], invs[|invs| - 1];
      var before := AccrueAll(m, init, monthKey);
      AccrueAllTotal(m, init, monthKey);
      AccrueAllOther(m, init, monthKey, last.id);
      StoreTotal(before, last.id, Accrue(Lookup(before, last.id), last, monthKey));
    }
  }

  lemma {:induction false} AccrualGainIsGrowth(m: ValueMap, invs: seq<Investment>, keys: seq<string>, monthKey: string)
    requires forall k :: 0 <= k < |invs| ==> Lookup(m, invs[k].id) == InvestmentValue(invs[k], keys)
    ensures AccrualGain(m, invs, monthKey) == HoldingsValue(invs, keys + [monthKey]) - HoldingsValue(invs, keys)
    decreases |invs|
  {
    if invs != [] {
      var init := invs[..|invs| - 1];
      assert (keys + [monthKey])[..|keys|] == keys;
      assert forall k :: 0 <= k < |init| ==> init[k] == invs[k];
      AccrualGainIsGrowth(m, init, keys, monthKey);
    }
  }

  lemma {:induction false} HoldingsValueAtStart(invs: seq<Investment>)
    ensures HoldingsValue(invs, []) == 0.0
    decreases |invs|
  {
    if invs != [] {
      HoldingsValueAtStart(invs[..|invs| - 1]);
    }
  }

  /**
   * With distinct ids, the total of the investment table (what the ledger
   * reports as the investments' value) is the sum of the values each
   * investment reaches on its own.
   */
  lemma {:induction false} InvestmentTableTotal(invs: seq<Investment>, keys: seq<string>)
    requires DistinctInvestmentIds(invs)
    ensures ValueTotal(InvestmentValuesAfter(invs, keys)) == HoldingsValue(invs, keys)
    decreases |keys|
  {
    if keys == [] {
      HoldingsValueAtStart(invs);
    } else {
      var init, key := keys[..|keys| - 1], keys[|keys| - 1];
      var m := InvestmentValuesAfter(invs, init);
      InvestmentTableTotal(invs, init);
      AccrueAllTotal(m, invs, key);
      forall k | 0 <= k < |invs|
        ensures Lookup(m, invs[k].id) == InvestmentValue(invs[k], init)
      {
        InvestmentValuesAreIndependent(invs, init, k);
      }
      AccrualGainIsGrowth(m, invs, init, key);
      assert init + [key] == keys;
    }
  }

  /** Every allocation's amount compounded `n` times, added up. */
  function PortfolioWorth(allocs: seq<Allocation>, n: nat): real
    decreases |allocs|
  {
    if allocs == [] then 0.0
    else
      var a := allocs[|allocs| - 1];
      PortfolioWorth(allocs[..|allocs| - 1], n) + Compounded(a.amount, MonthlyRate(a.annualReturn), n)
  }

  /** What one month's pass adds to the values the table holds for the allocations' ids. */
  function GrowthGain(m: ValueMap, allocs: seq<Allocation>, index: nat): real
    decreases |allocs|
  {
    if allocs == [] then 0.0
    else
      var a := allocs[|allocs| - 1];
      GrowthGain(m, allocs[..|allocs| - 1], index) + (Grow(Lookup(m, a.id), a, index) - Lookup(m, a.id))
  }

  /** With distinct ids, the seeded table totals the allocations' amounts. */
  lemma {:induction false} SeedAllTotal(allocs: seq<Allocation>)
    requires DistinctAllocationIds(allocs)
    ensures ValueTotal(SeedAll(allocs)) == PortfolioWorth(allocs, 0)
    decreases |allocs|
  {
    if allocs != [] {
      var init, last := allocs[..|allocs| - 1], allocs[|allocs| - 1];
      SeedAllTotal(init);
      SeedAllOther(init, last.id);
      StoreTotal(SeedAll(init), last.id, last.amount);
    }
  }

  /** With distinct ids, one month's pass moves the table's total by the gain of every allocation. */
  lemma {:induction false} GrowAllTotal(m: ValueMap, allocs: seq<Allocation>, index: nat)
    requires DistinctAllocationIds(allocs)
    ensures ValueTotal(GrowAll(m, allocs, index)) == ValueTotal(m) + GrowthGain(m, allocs, index)
    decreases |allocs|
  {
    if allocs != [] {
      var init, last := allocs[..|allocs| - 1], allocs[|allocs| - 1];
      var before := GrowAll(m, init, index);
      GrowAllTotal(m, init, index);
      GrowAllOther(m, init, index, last.id);
      StoreTotal(before, last.id, Grow(Lookup(before, last.id), last, index));
    }
  }

  lemma {:induction false} NoGrowthAtIndexZero(m: ValueMap, allocs: seq<Allocation>)
    ensures GrowthGain(m, allocs, 0) == 0.0
    decreases |allocs|
  {
    if allocs != [] {
      NoGrowthAtIndexZero(m, allocs[..|allocs| - 1]);
    }
  }

  lemma {:induction false} GrowthGainIsGrowth(m: ValueMap, allocs: seq<Allocation>, n: nat)
    requires forall k :: 0 <= k < |allocs| ==>
      Lookup(m, allocs[k].id) == Compounded(allocs[k].amount, MonthlyRate(allocs[k].annualReturn), n)
    ensures GrowthGain(m, allocs, n + 1) == PortfolioWorth(allocs, n + 1) - PortfolioWorth(allocs, n)
    decreases |allocs|
  {
    if allocs != [] {
      var init := allocs[..|allocs| - 1];
      assert forall k :: 0 <= k < |init| ==> init[k] == allocs[k];
      GrowthGainIsGrowth(m, init, n);
    }
  }

  /**
   * With distinct ids, the total of the portfolio table after the first `n`
   * months (n >= 1) is every allocation's amount compounded `n - 1` times.
   */
  lemma {:induction false} PortfolioTableTotal(allocs: seq<Allocation>, n: nat)
    requires DistinctAllocationIds(allocs) && n >= 1
    ensures ValueTotal(PortfolioAfter(allocs, n)) == PortfolioWorth(allocs, n - 1)
    decreases n
  {
    var m := PortfolioAfter(allocs, n - 1);
    GrowAllTotal(m, allocs, n - 1);
    if n == 1 {
      SeedAllTotal(allocs);
      NoGrowthAtIndexZero(m, allocs);
    } else {
      PortfolioTableTotal(allocs, n - 1);
      forall k | 0 <= k < |allocs|
        ensures Lookup(m, allocs[k].id) == Compounded(allocs[k].amount, MonthlyRate(allocs[k].annualReturn), n - 2)
      {
        PortfolioClosedForm(allocs, n - 1, k);
      }
      GrowthGainIsGrowth(m, allocs, n - 2);
    }
  }
}
