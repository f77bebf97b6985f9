/**
 * What the two public results pages share: the slots and results they load,
 * the slot looked up for a result, and the history grouped by the result's
 * Malaysian date (a "yyyy-MM-dd" text from the backend), newest date first.
 */
module DrawResults {
  import opened Common
  import opened Sorting

  datatype Slot = Slot(id: string, kind: string, uniqueSlotId: string)

  datatype ResultSlot = ResultSlot(
    slotId: string,
    kind: string,
    date: string,
    time: string,
    winningNumber: Option<int>,
    winningCombo: Option<seq<int>>)

  /** A result with the slot found for it, if any. */
  datatype Entry = Entry(result: ResultSlot, slot: Option<Slot>)

  function SlotOfKind(kind: string): Slot -> bool { (s: Slot) => s.kind == kind }
  function ResultOfKind(kind: string): ResultSlot -> bool { (r: ResultSlot) => r.kind == kind }
  function SlotHasId(id: string): Slot -> bool { (s: Slot) => s.id == id }
  function OnDate(date: string): ResultSlot -> bool { (r: ResultSlot) => r.date == date }
  function EntryDate(): Entry -> string { (e: Entry) => e.result.date }

  /** `slots.find(s => s.id === id)`. */
  function FindSlot(slots: seq<Slot>, id: string): (r: Option<Slot>)
    ensures r.Some? ==> r.value in slots && r.value.id == id
    ensures r.None? <==> forall k :: 0 <= k < |slots| ==> slots[k].id != id
    ensures r.Some? ==> exists i :: 0 <= i < |slots| && slots[i] == r.value && forall j :: 0 <= j < i ==> slots[j].id != id
  {
    match FindFirst(slots, SlotHasId(id))
    case None => None
    case Some(i) => Some(slots[i])
  }

  /** The items of the entry whose key is `key` (`groups[key]`), if there is one. */
  function Lookup<T>(gs: seq<(string, seq<T>)>, key: string): (r: Option<seq<T>>)
    ensures r.Some? <==> exists j :: 0 <= j < |gs| && gs[j].0 == key
    ensures r.Some? ==> exists j :: 0 <= j < |gs| && gs[j] == (key, r.value)
  {
    if |gs| == 0 then None
    else if gs[0].0 == key then Some(gs[0].1)
    else
      var r := Lookup(gs[1..], key);
      assert r.Some? ==> exists j :: 0 <= j < |gs[1..]| && gs[1..][j] == (key, r.value);
      r
  }

  /** The date groups of the entries: first-appearance groups, then sorted newest date first. */
  function DateGroups(entries: seq<Entry>): seq<(string, seq<Entry>)>
  {
    NewestFirst(Grouped(entries, EntryDate()))
  }

  /** `forEach` into a record of arrays, then `Object.entries(...).sort(([a], [b]) => b.localeCompare(a))`. */
  method GroupByDate(entries: seq<Entry>) returns (groups: seq<(string, seq<Entry>)>)
    ensures groups == DateGroups(entries)
  {
    var byDate := GroupBy(entries, EntryDate());
    groups := NewestFirst(byDate);
  }

  /**
   * Each date appears once, dates strictly decrease, every group holds only
   * entries of its date, and together the groups hold every entry exactly
   * as often as the input does.
   */
  lemma DateGroupsShape(entries: seq<Entry>)
    ensures var g := DateGroups(entries);
      && (forall i, j :: 0 <= i < j < |g| ==> StrCmp(g[i].0, g[j].0) > 0)
      && (forall j, e :: 0 <= j < |g| && e in g[j].1 ==> e.result.date == g[j].0)
      && multiset(Flatten(g)) == multiset(entries)
  {
    var raw := Grouped(entries, EntryDate());
    var ks := FirstKeys(entries, EntryDate());
    assert Keys(raw) == ks;
    NewestFirstShape(raw);
    FlattenGrouped(entries, EntryDate());
    var g := DateGroups(entries);
    NewestFirstGroupsKeyed(entries, EntryDate());
    forall j, e | 0 <= j < |g| && e in g[j].1 ensures e.result.date == g[j].0 {
      assert EntryDate()(e) == e.result.date;
    }
  }

  /** Every entry is found in the group of its own date. */
  lemma EntryInItsGroup(entries: seq<Entry>, i: nat)
    requires i < |entries|
    ensures var g := DateGroups(entries);
      exists j :: 0 <= j < |g| && g[j].0 == entries[i].result.date && entries[i] in g[j].1
  {
    var raw := Grouped(entries, EntryDate());
    GroupedContainsEveryItem(entries, EntryDate(), i);
    assert EntryDate()(entries[i]) == entries[i].result.date;
    var j0 :| 0 <= j0 < |raw| && raw[j0].0 == entries[i].result.date && entries[i] in raw[j0].1;
    var g := DateGroups(entries);
    NewestFirstContains(raw, j0);
    var j :| 0 <= j < |g| && g[j] == raw[j0];
  }

  /** The group found for a date holds only that date's entries. */
  lemma LookupDate(entries: seq<Entry>, date: string)
    ensures var r := Lookup(DateGroups(entries), date);
      r.Some? ==> forall e :: e in r.value ==> e.result.date == date
    ensures Lookup(DateGroups(entries), date).None? ==> forall i :: 0 <= i < |entries| ==> entries[i].result.date != date
  {
    DateGroupsShape(entries);
    var g := DateGroups(entries);
    if Lookup(g, date).None? {
      forall i | 0 <= i < |entries| ensures entries[i].result.date != date {
        EntryInItsGroup(entries, i);
      }
    }
  }

  /** A date without entries has no group. */
  lemma LookupAbsentDate(entries: seq<Entry>, date: string)
    requires forall i :: 0 <= i < |entries| ==> entries[i].result.date != date
    ensures Lookup(DateGroups(entries), date).None?
  {
    var raw := Grouped(entries, EntryDate());
    var ks := FirstKeys(entries, EntryDate());
    var g := DateGroups(entries);
    forall j | 0 <= j < |g| ensures g[j].0 != date {
      NewestFirstFrom(raw, j);
      var j0 :| 0 <= j0 < |raw| && raw[j0] == g[j];
      assert ks[j0] in ks;
    }
  }
}
