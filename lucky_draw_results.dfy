/**
 * The public Lucky Draw results page: today's winners and the history by
 * date. Result times come from the backend as 12-hour texts such as
 * "8:00PM" or "12:15AM".
 */
module LuckyDrawResults {
  import opened Common
  import opened Sorting
  import opened DrawResults

  /** `String(winningNumber ?? "?").padStart(2, "0")`. */
  function WinningText(n: Option<int>): string
  {
    PadStart(if n.Some? then IntToString(n.value) else "?", 2, '0')
  }

  /** A missing number renders "0?", and a number from 0 to 99 as two digits (0 is "00"). */
  lemma WinningTextCases(n: Option<int>)
    ensures n.None? ==> WinningText(n) == "0?"
    ensures n.Some? && 0 <= n.value < 100 ==> WinningText(n) == Pad2(n.value) && ToNumber(WinningText(n)) == n
  {
    if n.Some? && 0 <= n.value < 100 {
      Pad2IsPadStart(n.value);
      ToNumberPad2(n.value);
    }
  }

  /** `slotMap.get(id)` for a Map filled by `slots.forEach(s => slotMap.set(s.id, s))`: the last slot wins. */
  function SlotMapGet(slots: seq<Slot>, id: string): (r: Option<Slot>)
    ensures r.None? <==> forall k :: 0 <= k < |slots| ==> slots[k].id != id
    ensures r.Some? ==> exists i :: (0 <= i < |slots| && slots[i] == r.value && slots[i].id == id
      && forall j :: i < j < |slots| ==> slots[j].id != id)
  {
    if |slots| == 0 then None
    else if slots[|slots| - 1].id == id then Some(slots[|slots| - 1])
    else
      var r := SlotMapGet(slots[..|slots| - 1], id);
      assert forall k :: 0 <= k < |slots| - 1 ==> slots[..|slots| - 1][k] == slots[k];
      r
  }

  /** Each of today's results, in the given order, with the slot from the Map. */
  function WithSlots(rs: seq<ResultSlot>, slots: seq<Slot>): (r: seq<Entry>)
    ensures |r| == |rs| && forall k :: 0 <= k < |rs| ==> r[k] == Entry(rs[k], SlotMapGet(slots, rs[k].slotId))
  {
    if |rs| == 0 then [] else [Entry(rs[0], SlotMapGet(slots, rs[0].slotId))] + WithSlots(rs[1..], slots)
  }

  // ---------------------------------------------------------------------
  // Today's winners
  // ---------------------------------------------------------------------

  /** `(a, b) => a.time.localeCompare(b.time)`. */
  function ByTimeText(): (ResultSlot, ResultSlot) -> int
  {
    (a: ResultSlot, b: ResultSlot) => StrCmp(a.time, b.time)
  }

  /** `todayResults` as written: today's results sorted by their time text. */
  function TodayResultsAsWritten(results: seq<ResultSlot>, slots: seq<Slot>, today: string): seq<Entry>
  {
    WithSlots(SortBy(Filter(results, OnDate(today)), ByTimeText()), slots)
  }

  /** Comparing the time texts is a total preorder on any results. */
  lemma ByTimeTextConsistent(dom: seq<ResultSlot>)
    ensures ConsistentOn(dom, ByTimeText())
  {
    forall a, b | ByTimeText()(a, b) > 0
      ensures ByTimeText()(b, a) < 0
    {
      StrCmpAntisymmetric(a.time, b.time);
    }
    forall a, b, c | ByTimeText()(a, b) <= 0 && ByTimeText()(b, c) <= 0
      ensures ByTimeText()(a, c) <= 0
    {
      StrCmpTransitive(a.time, b.time, c.time);
    }
  }

  /**
   * The list the page shows holds today's results only, every one of them,
   * each with its slot, in the order of their time texts.
   */
  lemma TodayResultsByText(results: seq<ResultSlot>, slots: seq<Slot>, today: string)
    ensures var r := TodayResultsAsWritten(results, slots, today);
      && (forall i, j :: 0 <= i < j < |r| ==> StrCmp(r[i].result.time, r[j].result.time) <= 0)
      && (forall i :: 0 <= i < |r| ==> r[i].result.date == today && r[i].slot == SlotMapGet(slots, r[i].result.slotId))
      && multiset(SortBy(Filter(results, OnDate(today)), ByTimeText())) == multiset(Filter(results, OnDate(today)))
  {
    var f := Filter(results, OnDate(today));
    ByTimeTextConsistent(f);
    SortBySorted(f, ByTimeText());
    var s := SortBy(f, ByTimeText());
    forall i | 0 <= i < |s| ensures s[i].date == today {
      assert s[i] in multiset(f);
    }
  }

  /** Two results of one day, at 4 PM and at 10 PM. */
  const FourPm: ResultSlot := ResultSlot("s1", "LD", "2025-12-08", "4:00PM", Some(7), None)
  const TenPm: ResultSlot := ResultSlot("s2", "LD", "2025-12-08", "10:00PM", Some(9), None)

  /** Sorting the texts puts the 10 PM result before the 4 PM one, because "1" sorts before "4". */
  lemma TodayOrderAsWritten()
    ensures TodayResultsAsWritten([FourPm, TenPm], [], "2025-12-08") == [Entry(TenPm, None), Entry(FourPm, None)]
  {
    assert StrCmp(FourPm.time, TenPm.time) == 1;
    assert Filter([FourPm, TenPm], OnDate("2025-12-08")) == [FourPm, TenPm];
    assert SortBy([FourPm, TenPm], ByTimeText()) == [TenPm, FourPm] by {
      assert [FourPm, TenPm][..1] == [FourPm];
      assert SortBy([FourPm], ByTimeText()) == [FourPm];
    }
  }

  /**
   * Minutes after midnight of a 12-hour time text: the hour before `:`, the
   * minutes read by `parseInt` after it, and "PM" at the end adds 12 hours.
   * A text that does not read as a time is `None`.
   */
  function ClockMinutes(t: string): Option<int>
  {
    var parts := Split(t, ":");
    if |parts| != 2 || |t| < 2 then None
    else
      var h := ParseInt(parts[0]);
      var m := ParseInt(parts[1]);
      if h.None? || m.None? then None
      else Some(MinuteOfDay(h.value, m.value, t[|t| - 2..] == "PM"))
  }

  /** Hour 12 is the first hour of its half of the day. */
  function MinuteOfDay(h: int, m: int, pm: bool): int
  {
    (h % 12) * 60 + m + (if pm then 720 else 0)
  }

  /** The sort key of the corrected order: unreadable times first. */
  function TimeKey(r: ResultSlot): int
  {
    var c := ClockMinutes(r.time);
    if c.Some? then c.value else -1
  }

  function ByClock(): (ResultSlot, ResultSlot) -> int
  {
    (a: ResultSlot, b: ResultSlot) => TimeKey(a) - TimeKey(b)
  }

  /** Today's winners in the order of the day: the corrected `todayResults`. */
  function TodayResults(results: seq<ResultSlot>, slots: seq<Slot>, today: string): seq<Entry>
  {
    WithSlots(SortBy(Filter(results, OnDate(today)), ByClock()), slots)
  }

  /** A time written as the backend writes it reads as its minute of the day. */
  lemma ClockMinutesOf(h: nat, m: nat, pm: bool)
    requires 1 <= h <= 12 && m < 60
    ensures ClockMinutes(NatToString(h) + ":" + Pad2(m) + (if pm then "PM" else "AM")) == Some(MinuteOfDay(h, m, pm))
  {
    var hs, ms, p := NatToString(h), Pad2(m), if pm then "PM" else "AM";
    var t := hs + ":" + ms + p;
    TimePieces(hs, ms, p);
    ParseNatToString(h);
    MinutesRead(m, p);
    SuffixOf(hs + ":" + ms, p);
    assert t == (hs + ":" + ms) + p;
    ClockMinutesOfPieces(t, hs, ms + p, h, m, pm);
  }

  lemma ClockMinutesOfPieces(t: string, a: string, b: string, h: int, m: int, pm: bool)
    requires Split(t, ":") == [a, b] && ParseInt(a) == Some(h) && ParseInt(b) == Some(m)
    requires |t| >= 2 && (t[|t| - 2..] == "PM") == pm
    ensures ClockMinutes(t) == Some(MinuteOfDay(h, m, pm))
  {
  }

  /** The minutes followed by the AM/PM marker read as the minutes. */
  lemma MinutesRead(m: nat, p: string)
    requires m < 60 && (p == "PM" || p == "AM")
    ensures ParseInt(Pad2(m) + p) == Some(m as int)
  {
    ParsePad2(m);
    ParseDigits(Pad2(m));
    ParseIntIgnoresSuffix(Pad2(m), p);
  }

  lemma SuffixOf(x: string, p: string)
    requires |p| == 2
    ensures (x + p)[|x + p| - 2..] == p
  {
  }

  lemma TimePieces(hs: string, ms: string, p: string)
    requires IsDigits(hs) && IsDigits(ms) && (p == "PM" || p == "AM")
    ensures Split(hs + ":" + ms + p, ":") == [hs, ms + p]
  {
    assert hs + ":" + ms + p == hs + [':'] + (ms + p);
    DigitsNoChar(hs, ':');
    DigitsNoChar(ms, ':');
    assert NoChar(p, ':');
    NoCharAppend(ms, p, ':');
    SplitPair(hs, ms + p, ':');
  }

  /**
   * The corrected list holds today's results only, every one of them, and
   * is in order of the clock: a 4 PM result comes before a 10 PM one.
   */
  lemma TodayResultsChronological(results: seq<ResultSlot>, slots: seq<Slot>, today: string)
    ensures var r := TodayResults(results, slots, today);
      && (forall i, j :: 0 <= i < j < |r| ==> TimeKey(r[i].result) <= TimeKey(r[j].result))
      && (forall i :: 0 <= i < |r| ==> r[i].result.date == today && r[i].slot == SlotMapGet(slots, r[i].result.slotId))
      && multiset(SortBy(Filter(results, OnDate(today)), ByClock())) == multiset(Filter(results, OnDate(today)))
  {
    var f := Filter(results, OnDate(today));
    KeyComparatorConsistent(f, TimeKey);
    assert ByClock() == (a: ResultSlot, b: ResultSlot) => TimeKey(a) - TimeKey(b);
    SortBySorted(f, ByClock());
    var s := SortBy(f, ByClock());
    forall i | 0 <= i < |s| ensures s[i].date == today {
      assert s[i] in multiset(f);
    }
  }

  lemma TodayOrderCorrected()
    ensures TodayResults([FourPm, TenPm], [], "2025-12-08") == [Entry(FourPm, None), Entry(TenPm, None)]
  {
    ExampleKeys();
    assert Filter([FourPm, TenPm], OnDate("2025-12-08")) == [FourPm, TenPm];
    assert SortBy([FourPm, TenPm], ByClock()) == [FourPm, TenPm] by {
      assert [FourPm, TenPm][..1] == [FourPm];
      assert SortBy([FourPm], ByClock()) == [FourPm];
    }
  }

  lemma ExampleKeys()
    ensures TimeKey(FourPm) == 960 && TimeKey(TenPm) == 1320
  {
    FourPmText();
    TenPmText();
    ClockMinutesOf(4, 0, true);
    ClockMinutesOf(10, 0, true);
  }

  lemma FourPmText()
    ensures FourPm.time == NatToString(4) + ":" + Pad2(0) + "PM"
  {
    assert NatToString(4) == "4";
    assert Pad2(0) == "00";
  }

  lemma TenPmText()
    ensures TenPm.time == NatToString(10) + ":" + Pad2(0) + "PM"
  {
    assert NatToString(10) == NatToString(1) + [DigitChar(0)];
    assert NatToString(10) == "10";
    assert Pad2(0) == "00";
  }

  // ---------------------------------------------------------------------
  // History
  // ---------------------------------------------------------------------

  /** The results whose slot is found, each with that slot; the others are skipped. */
  function HistoryEntries(results: seq<ResultSlot>, slots: seq<Slot>): (r: seq<Entry>)
    ensures forall e :: e in r ==> e.result in results && e.slot.Some? && e.slot == FindSlot(slots, e.result.slotId)
    ensures forall k :: 0 <= k < |results| && FindSlot(slots, results[k].slotId).Some? ==>
      Entry(results[k], FindSlot(slots, results[k].slotId)) in r
  {
    if |results| == 0 then []
    else
      var s := FindSlot(slots, results[0].slotId);
      var rest := HistoryEntries(results[1..], slots);
      assert forall k :: 1 <= k < |results| ==> results[k] == results[1..][k - 1];
      (if s.Some? then [Entry(results[0], s)] else []) + rest
  }

  /** `historyGrouped`. */
  function HistoryGrouped(results: seq<ResultSlot>, slots: seq<Slot>): seq<(string, seq<Entry>)>
  {
    DateGroups(HistoryEntries(results, slots))
  }

  /** A result is in the history exactly when its slot is found. */
  lemma HistorySkipsMissingSlots(results: seq<ResultSlot>, slots: seq<Slot>)
    ensures forall j, e :: 0 <= j < |HistoryGrouped(results, slots)| && e in HistoryGrouped(results, slots)[j].1 ==>
      e.slot.Some? && e.result in results && e.result.date == HistoryGrouped(results, slots)[j].0
  {
    var entries := HistoryEntries(results, slots);
    DateGroupsShape(entries);
    var g := HistoryGrouped(results, slots);
    forall j, e | 0 <= j < |g| && e in g[j].1 ensures e in entries {
      FlattenHas(g, j, e);
    }
  }

  lemma {:induction false} FlattenHas<T>(gs: seq<(string, seq<T>)>, j: nat, x: T)
    requires j < |gs| && x in gs[j].1
    ensures x in multiset(Flatten(gs))
    decreases |gs|
  {
    var n := |gs|;
    if j < n - 1 {
      FlattenHas(gs[..n - 1], j, x);
    }
  }

  /** A result with a slot is listed under its date. */
  lemma HistoryKeepsFoundSlots(results: seq<ResultSlot>, slots: seq<Slot>, i: nat)
    requires i < |results| && FindSlot(slots, results[i].slotId).Some?
    ensures var g := HistoryGrouped(results, slots);
      exists j :: 0 <= j < |g| && g[j].0 == results[i].date && Entry(results[i], FindSlot(slots, results[i].slotId)) in g[j].1
  {
    var entries := HistoryEntries(results, slots);
    var e := Entry(results[i], FindSlot(slots, results[i].slotId));
    assert e in entries;
    var k :| 0 <= k < |entries| && entries[k] == e;
    EntryInItsGroup(entries, k);
    var g := DateGroups(entries);
    assert HistoryGrouped(results, slots) == g;
    var j :| 0 <= j < |g| && g[j].0 == entries[k].result.date && entries[k] in g[j].1;
    assert g[j].0 == results[i].date && e in g[j].1;
  }

  /** `displayGroups`: with a selected date, one entry for that date; otherwise the whole history. */
  function DisplayGroups(groups: seq<(string, seq<Entry>)>, selected: Option<string>): seq<(string, seq<Entry>)>
  {
    if selected.Some? then
      var g := Lookup(groups, selected.value);
      [(selected.value, if g.Some? then g.value else [])]
    else groups
  }

  /**
   * A selected date always gives exactly one group, under that date, even
   * when the date has no results; its entries are that date's.
   */
  lemma DisplaySelectedOneKey(results: seq<ResultSlot>, slots: seq<Slot>, date: string)
    ensures var d := DisplayGroups(HistoryGrouped(results, slots), Some(date));
      && |d| == 1 && d[0].0 == date
      && (forall e :: e in d[0].1 ==> e.result.date == date)
      && ((forall k :: 0 <= k < |results| ==> results[k].date != date) ==> d[0].1 == [])
  {
    var entries := HistoryEntries(results, slots);
    LookupDate(entries, date);
    if forall k :: 0 <= k < |results| ==> results[k].date != date {
      forall i | 0 <= i < |entries| ensures entries[i].result.date != date {
        assert entries[i] in entries;
      }
      LookupAbsentDate(entries, date);
    }
  }

  // ---------------------------------------------------------------------
  // The page
  // ---------------------------------------------------------------------

  datatype Fetch<T> = Failed | Loaded(value: T)

  class Page {
    var slots: seq<Slot>
    var results: seq<ResultSlot>
    var loading: bool
    var selectedDate: Option<string>

    constructor()
      ensures slots == [] && results == [] && loading && selectedDate == None
    {
      slots := [];
      results := [];
      loading := true;
      selectedDate := None;
    }

    /** The one load: only Lucky Draw slots and results are kept. */
    method Load(res: Fetch<(seq<Slot>, seq<ResultSlot>)>)
      modifies this
      ensures !loading && selectedDate == old(selectedDate)
      ensures res.Loaded? ==> slots == Filter(res.value.0, SlotOfKind("LD")) && results == Filter(res.value.1, ResultOfKind("LD"))
      ensures res.Failed? ==> slots == old(slots) && results == old(results)
    {
      if res.Loaded? {
        slots := Filter(res.value.0, SlotOfKind("LD"));
        results := Filter(res.value.1, ResultOfKind("LD"));
      }
      loading := false;
    }

    method SelectDate(date: Option<string>)
      modifies this
      ensures selectedDate == date && slots == old(slots) && results == old(results) && loading == old(loading)
    {
      selectedDate := date;
    }

    /** Today's winners, in the order of their time texts, as the page sorts them. */
    method TodayWinners(today: string) returns (shown: seq<Entry>)
      ensures shown == TodayResultsAsWritten(results, slots, today)
      ensures forall i, j :: 0 <= i < j < |shown| ==> StrCmp(shown[i].result.time, shown[j].result.time) <= 0
      ensures forall i :: 0 <= i < |shown| ==> shown[i].result.date == today
    {
      shown := TodayResultsAsWritten(results, slots, today);
      TodayResultsByText(results, slots, today);
    }

    /** The history groups currently shown. */
    method Displayed() returns (shown: seq<(string, seq<Entry>)>)
      ensures shown == DisplayGroups(HistoryGrouped(results, slots), selectedDate)
    {
      var groups := GroupByDate(HistoryEntries(results, slots));
      shown := DisplayGroups(groups, selectedDate);
    }
  }
}
