/**
 * The list transforms behind the editing actions: toggling a realized key,
 * updating and deleting entries by id, and the rule that turns the legacy
 * `initialInvestmentValue` into a portfolio allocation.
 */
module Actions {
  import opened Wrappers
  import opened Calendar
  import opened Records

  /** `entries.filter(k => k !== x)`: every copy of `x` removed, the rest in order. */
  function RemoveAll(s: seq<string>, x: string): (r: seq<string>)
    ensures x !in r
    ensures multiset(r) == multiset(s)[x := 0]
  {
    if s == [] then []
    else
      assert s == [s[0]] + s[1..];
      if s[0] == x then RemoveAll(s[1..], x) else [s[0]] + RemoveAll(s[1..], x)
  }

  lemma {:induction false} RemoveAllAbsent(s: seq<string>, x: string)
    requires x !in s
    ensures RemoveAll(s, x) == s
    decreases |s|
  {
    if s != [] {
      RemoveAllAbsent(s[1..], x);
    }
  }

  lemma {:induction false} RemoveAllAppended(s: seq<string>, x: string)
    ensures RemoveAll(s + [x], x) == RemoveAll(s, x)
    decreases |s|
  {
    if s != [] {
      assert (s + [x])[1..] == s[1..] + [x];
      RemoveAllAppended(s[1..], x);
    } else {
      assert [x][1..] == [];
    }
  }

  /** The filter distributes over concatenation, so the kept keys stay in order. */
  lemma {:induction false} RemoveAllAppend(s: seq<string>, t: seq<string>, x: string)
    ensures RemoveAll(s + t, x) == RemoveAll(s, x) + RemoveAll(t, x)
    decreases |s|
  {
    if s != [] {
      assert (s + t)[1..] == s[1..] + t;
      RemoveAllAppend(s[1..], t, x);
    } else {
      assert s + t == t;
    }
  }

  /**
   * `toggleRealized(id, monthKey)`: the key `${id}_${monthKey}` is appended
   * when absent and every copy of it is removed when present.
   */
  function ToggleRealized(entries: seq<string>, id: nat, monthKey: string): (r: seq<string>)
    ensures RealizedKey(id, monthKey) in r <==> RealizedKey(id, monthKey) !in entries
    ensures forall k :: k != RealizedKey(id, monthKey) ==> multiset(r)[k] == multiset(entries)[k]
    ensures RealizedKey(id, monthKey) !in entries ==> r == entries + [RealizedKey(id, monthKey)]
  {
    var key := RealizedKey(id, monthKey);
    if key in entries then RemoveAll(entries, key) else entries + [key]
  }

  /** Toggling the same key twice on a list that lacks it gives the list back. */
  lemma ToggleTwiceRestores(entries: seq<string>, id: nat, monthKey: string)
    requires RealizedKey(id, monthKey) !in entries
    ensures ToggleRealized(ToggleRealized(entries, id, monthKey), id, monthKey) == entries
  {
    var key := RealizedKey(id, monthKey);
    RemoveAllAppended(entries, key);
    RemoveAllAbsent(entries, key);
  }

  /** `entries.filter(entry => entry.id !== id)`: every entry with the id removed, every other copy kept. */
  function DeleteById<T>(s: seq<T>, id: nat, idOf: T -> nat): (r: seq<T>)
    ensures forall i :: 0 <= i < |r| ==> r[i] in s && idOf(r[i]) != id
    ensures forall i :: 0 <= i < |s| && idOf(s[i]) != id ==> s[i] in r
    ensures |r| <= |s|
  {
    if s == [] then []
    else if idOf(s[0]) == id then DeleteById(s[1..], id, idOf)
    else [s[0]] + DeleteById(s[1..], id, idOf)
  }

  /** Every copy of a value with another id is kept, and none with the id. */
  lemma {:induction false} DeleteByIdCount<T>(s: seq<T>, id: nat, idOf: T -> nat, x: T)
    ensures multiset(DeleteById(s, id, idOf))[x] == if idOf(x) == id then 0 else multiset(s)[x]
    decreases |s|
  {
    if s != [] {
      assert s == [s[0]] + s[1..];
      DeleteByIdCount(s[1..], id, idOf, x);
    }
  }

  /** The filter keeps the order of the list: it works on each part of a concatenation separately. */
  lemma {:induction false} DeleteByIdAppend<T>(a: seq<T>, b: seq<T>, id: nat, idOf: T -> nat)
    ensures DeleteById(a + b, id, idOf) == DeleteById(a, id, idOf) + DeleteById(b, id, idOf)
    decreases |a|
  {
    if a != [] {
      var ab := a + b;
      assert ab[0] == a[0] && ab[1..] == a[1..] + b;
      DeleteByIdAppend(a[1..], b, id, idOf);
      var rest := DeleteById(a[1..], id, idOf) + DeleteById(b, id, idOf);
      assert DeleteById(ab[1..], id, idOf) == rest;
      if idOf(a[0]) != id {
        assert [a[0]] + rest == ([a[0]] + DeleteById(a[1..], id, idOf)) + DeleteById(b, id, idOf);
      }
    } else {
      assert a + b == b;
    }
  }

  /** `entries.map(entry => entry.id === id ? { ...entry, ...updates } : entry)`, with the merge as `merge`. */
  function UpdateById<T>(s: seq<T>, id: nat, idOf: T -> nat, merge: T -> T): (r: seq<T>)
    ensures |r| == |s|
    ensures forall i :: 0 <= i < |s| && idOf(s[i]) != id ==> r[i] == s[i]
    ensures forall i :: 0 <= i < |s| && idOf(s[i]) == id ==> r[i] == merge(s[i])
  {
    if s == [] then []
    else [if idOf(s[0]) == id then merge(s[0]) else s[0]] + UpdateById(s[1..], id, idOf, merge)
  }

  /** Updating an id that no entry has leaves the list as it is. */
  lemma UpdateAbsentId<T>(s: seq<T>, id: nat, idOf: T -> nat, merge: T -> T)
    requires forall x :: x in s ==> idOf(x) != id
    ensures UpdateById(s, id, idOf, merge) == s
  {
    var r := UpdateById(s, id, idOf, merge);
    assert forall i :: 0 <= i < |s| ==> r[i] == s[i];
  }

  /** Deleting an entry after updating it is the same as deleting it, when the merge keeps the entry's id. */
  lemma {:induction false} UpdateThenDelete<T>(s: seq<T>, id: nat, idOf: T -> nat, merge: T -> T)
    requires forall x :: idOf(x) == id ==> idOf(merge(x)) == id
    ensures DeleteById(UpdateById(s, id, idOf, merge), id, idOf) == DeleteById(s, id, idOf)
    decreases |s|
  {
    if s != [] {
      var u := UpdateById(s, id, idOf, merge);
      assert u[1..] == UpdateById(s[1..], id, idOf, merge);
      UpdateThenDelete(s[1..], id, idOf, merge);
    }
  }

  /** The fields an update of an income or expense entry may carry; a missing field keeps its value. */
  datatype EntryPatch = EntryPatch(id: Option<nat>, amount: Option<real>, date: Option<Date>, kind: Option<EntryType>)

  /** `{ ...entry, ...updates }` for an income or expense entry: each field the update carries wins. */
  function MergeEntry(e: Entry, p: EntryPatch): (r: Entry)
    ensures r.id == (if p.id.Some? then p.id.value else e.id)
    ensures r.amount == (if p.amount.Some? then p.amount.value else e.amount)
    ensures r.date == (if p.date.Some? then p.date.value else e.date)
    ensures r.kind == (if p.kind.Some? then p.kind.value else e.kind)
  {
    Entry(
      if p.id.Some? then p.id.value else e.id,
      if p.amount.Some? then p.amount.value else e.amount,
      if p.date.Some? then p.date.value else e.date,
      if p.kind.Some? then p.kind.value else e.kind)
  }

  /**
   * Deleting an entry after an update that carries no id, or the entry's own
   * id (an edit form spreading the whole entry), is the same as deleting it.
   */
  lemma UpdateEntryThenDelete(s: seq<Entry>, id: nat, p: EntryPatch)
    requires p.id.None? || p.id == Some(id)
    ensures DeleteById(UpdateById(s, id, (e: Entry) => e.id, (e: Entry) => MergeEntry(e, p)), id, (e: Entry) => e.id)
         == DeleteById(s, id, (e: Entry) => e.id)
  {
    UpdateThenDelete(s, id, (e: Entry) => e.id, (e: Entry) => MergeEntry(e, p));
  }

  const InitialInvestmentDescription: string := "Initial Investment"

  /**
   * The legacy migration: a positive `initialInvestmentValue` becomes a
   * single allocation with no return, but only when there are no
   * allocations yet. `newId` stands for the clock-based id.
   */
  function MigrateAllocations(initialInvestmentValue: Option<real>, allocations: seq<Allocation>, newId: nat): (r: seq<Allocation>)
    ensures allocations != [] ==> r == allocations
    ensures |r| <= |allocations| + 1
    ensures forall a :: a in r && a !in allocations ==>
      a.id == newId && a.amount > 0.0 && Some(a.amount) == initialInvestmentValue && a.annualReturn == Some(0.0)
  {
    if initialInvestmentValue.Some? && initialInvestmentValue.value > 0.0 && allocations == [] then
      [Allocation(newId, initialInvestmentValue.value, InitialInvestmentDescription, Some(0.0))]
    else
      allocations
  }

  /**
   * What the migration produces: existing allocations are never touched, and
   * a migrated list holds exactly one allocation carrying the legacy value
   * with a zero return; applying the rule again changes nothing.
   */
  lemma MigrationOutcome(v: Option<real>, allocations: seq<Allocation>, newId: nat, laterId: nat)
    ensures allocations != [] ==> MigrateAllocations(v, allocations, newId) == allocations
    ensures allocations == [] && v.Some? && v.value > 0.0 ==>
      MigrateAllocations(v, allocations, newId) == [Allocation(newId, v.value, InitialInvestmentDescription, Some(0.0))]
    ensures allocations == [] && !(v.Some? && v.value > 0.0) ==> MigrateAllocations(v, allocations, newId) == []
    ensures MigrateAllocations(v, MigrateAllocations(v, allocations, newId), laterId) == MigrateAllocations(v, allocations, newId)
  {
  }
}
