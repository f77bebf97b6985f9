/** The public Jackpot results page: today's combination and the history by date. */
module JackpotResults {
  import opened Common
  import opened Sorting
  import opened DrawResults

  const Unknown: seq<string> := ["?", "?", "?", "?", "?", "?"]

  /** `String(n).padStart(2, "0")` of each number. */
  function PadTexts(ns: seq<int>): (r: seq<string>)
    ensures |r| == |ns| && forall k :: 0 <= k < |ns| ==> r[k] == PadStart(IntToString(ns[k]), 2, '0')
  {
    if |ns| == 0 then [] else [PadStart(IntToString(ns[0]), 2, '0')] + PadTexts(ns[1..])
  }

  /** `formatWinningCombo`: six question marks unless there are exactly six numbers. */
  function FormatWinningCombo(combo: Option<seq<int>>): seq<string>
  {
    if combo.None? || |combo.value| != 6 then Unknown else PadTexts(combo.value)
  }

  /**
   * There are always six balls. A missing combination, or one of any other
   * length, shows six "?"; six numbers from 0 to 99 each show as two digits
   * that read back as the number, so no ball shows "?".
   */
  lemma ComboBalls(combo: Option<seq<int>>)
    ensures |FormatWinningCombo(combo)| == 6
    ensures combo.None? || |combo.value| != 6 ==> forall k :: 0 <= k < 6 ==> FormatWinningCombo(combo)[k] == "?"
    ensures combo.Some? && |combo.value| == 6 && (forall k :: 0 <= k < 6 ==> 0 <= combo.value[k] < 100) ==>
      forall k :: 0 <= k < 6 ==>
        var b := FormatWinningCombo(combo)[k];
        b == Pad2(combo.value[k]) && |b| == 2 && ToNumber(b) == Some(combo.value[k])
  {
    if combo.Some? && |combo.value| == 6 && (forall k :: 0 <= k < 6 ==> 0 <= combo.value[k] < 100) {
      forall k | 0 <= k < 6
        ensures FormatWinningCombo(combo)[k] == Pad2(combo.value[k])
        ensures ToNumber(Pad2(combo.value[k])) == Some(combo.value[k])
      {
        Pad2IsPadStart(combo.value[k]);
        ToNumberPad2(combo.value[k]);
      }
    }
  }

  // ---------------------------------------------------------------------
  // Today's jackpot
  // ---------------------------------------------------------------------

  /** `todayJackpot`: the first result dated today, with its slot when one is found. */
  function TodayJackpot(results: seq<ResultSlot>, slots: seq<Slot>, today: string): Option<Entry>
  {
    match FindFirst(results, OnDate(today))
    case None => None
    case Some(i) => Some(Entry(results[i], FindSlot(slots, results[i].slotId)))
  }

  /**
   * There is a jackpot today exactly when some result is dated today; it is
   * the first such result, and its slot, when present, is the first slot with
   * the result's slot id.
   */
  lemma TodayJackpotFirst(results: seq<ResultSlot>, slots: seq<Slot>, today: string)
    ensures TodayJackpot(results, slots, today).Some? <==> exists k :: 0 <= k < |results| && results[k].date == today
    ensures TodayJackpot(results, slots, today).Some? ==>
      var e := TodayJackpot(results, slots, today).value;
      && (exists i :: 0 <= i < |results| && e.result == results[i] && results[i].date == today
            && forall j :: 0 <= j < i ==> results[j].date != today)
      && e.slot == FindSlot(slots, e.result.slotId)
  {
    if TodayJackpot(results, slots, today).None? {
      assert FindFirst(results, OnDate(today)).None?;
    } else {
      var i := FindFirst(results, OnDate(today)).value;
      assert TodayJackpot(results, slots, today).value.result == results[i];
    }
  }

  /** The six balls of today: `todayNumbers ? formatWinningCombo(todayNumbers) : six placeholders`. */
  function TodayBalls(today: Option<Entry>): seq<string>
  {
    if today.Some? && today.value.result.winningCombo.Some? then FormatWinningCombo(today.value.result.winningCombo)
    else Unknown
  }

  /** The placeholder row and the formatter agree: the balls are always the formatted combination of today. */
  lemma TodayBallsFormatted(today: Option<Entry>)
    ensures TodayBalls(today) == FormatWinningCombo(if today.Some? then today.value.result.winningCombo else None)
    ensures |TodayBalls(today)| == 6
  {
  }

  // ---------------------------------------------------------------------
  // History
  // ---------------------------------------------------------------------

  /** Every result with the slot found for it; a result without a slot is kept. */
  function HistoryEntries(results: seq<ResultSlot>, slots: seq<Slot>): (r: seq<Entry>)
    ensures |r| == |results|
    ensures forall k :: 0 <= k < |results| ==> r[k] == Entry(results[k], FindSlot(slots, results[k].slotId))
  {
    if |results| == 0 then []
    else [Entry(results[0], FindSlot(slots, results[0].slotId))] + HistoryEntries(results[1..], slots)
  }

  /** `historyGrouped`. */
  function HistoryGrouped(results: seq<ResultSlot>, slots: seq<Slot>): seq<(string, seq<Entry>)>
  {
    DateGroups(HistoryEntries(results, slots))
  }

  /** Every result, with or without a slot, is listed under its own date. */
  lemma EveryResultGrouped(results: seq<ResultSlot>, slots: seq<Slot>, i: nat)
    requires i < |results|
    ensures var g := HistoryGrouped(results, slots);
      exists j :: 0 <= j < |g| && g[j].0 == results[i].date && Entry(results[i], FindSlot(slots, results[i].slotId)) in g[j].1
  {
    var entries := HistoryEntries(results, slots);
    var e := Entry(results[i], FindSlot(slots, results[i].slotId));
    assert entries[i] == e;
    EntryInItsGroup(entries, i);
    var g := DateGroups(entries);
    var j :| 0 <= j < |g| && g[j].0 == entries[i].result.date && entries[i] in g[j].1;
    assert HistoryGrouped(results, slots) == g;
    assert g[j].0 == results[i].date && e in g[j].1;
  }

  /** `displayResults`: the selected date's group (or nothing), else every group in order. */
  function DisplayResults(groups: seq<(string, seq<Entry>)>, selected: Option<string>): seq<Entry>
  {
    if selected.Some? then
      var g := Lookup(groups, selected.value);
      if g.Some? then g.value else []
    else Flatten(groups)
  }

  /** Without a selected date every result is displayed exactly once. */
  lemma DisplayAll(results: seq<ResultSlot>, slots: seq<Slot>)
    ensures multiset(DisplayResults(HistoryGrouped(results, slots), None)) == multiset(HistoryEntries(results, slots))
  {
    DateGroupsShape(HistoryEntries(results, slots));
  }

  /** With a selected date only results of that date are displayed, and nothing when that date has none. */
  lemma DisplaySelected(results: seq<ResultSlot>, slots: seq<Slot>, date: string)
    ensures forall e :: e in DisplayResults(HistoryGrouped(results, slots), Some(date)) ==> e.result.date == date
    ensures (forall k :: 0 <= k < |results| ==> results[k].date != date) ==>
      DisplayResults(HistoryGrouped(results, slots), Some(date)) == []
  {
    var entries := HistoryEntries(results, slots);
    LookupDate(entries, date);
    if forall k :: 0 <= k < |results| ==> results[k].date != date {
      LookupAbsentDate(entries, date);
    }
  }

  // ---------------------------------------------------------------------
  // The page
  // ---------------------------------------------------------------------

  datatype Fetch<T> = Failed | Loaded(value: T)

  class Page {
    var slots: seq<Slot>
    var results: seq<ResultSlot>
    var loading: bool
    var selectedDate: Option<string>

    constructor()
      ensures slots == [] && results == [] && loading && selectedDate == None
    {
      slots := [];
      results := [];
      loading := true;
      selectedDate := None;
    }

    /** The one load: only Jackpot slots and results are kept. */
    method Load(res: Fetch<(seq<Slot>, seq<ResultSlot>)>)
      modifies this
      ensures !loading && selectedDate == old(selectedDate)
      ensures res.Loaded? ==> slots == Filter(res.value.0, SlotOfKind("JP")) && results == Filter(res.value.1, ResultOfKind("JP"))
      ensures res.Failed? ==> slots == old(slots) && results == old(results)
    {
      if res.Loaded? {
        slots := Filter(res.value.0, SlotOfKind("JP"));
        results := Filter(res.value.1, ResultOfKind("JP"));
      }
      loading := false;
    }

    /** A pick in the calendar. */
    method SelectDate(date: Option<string>)
      modifies this
      ensures selectedDate == date && slots == old(slots) && results == old(results) && loading == old(loading)
    {
      selectedDate := date;
    }

    /** The history list currently shown. */
    method Displayed() returns (shown: seq<Entry>)
      ensures shown == DisplayResults(HistoryGrouped(results, slots), selectedDate)
    {
      var groups := GroupByDate(HistoryEntries(results, slots));
      shown := DisplayResults(groups, selectedDate);
    }
  }
}
