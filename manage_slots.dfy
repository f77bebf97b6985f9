/**
 * The admin "manage slots" screen: the slot list loaded from the server,
 * the tab / OPEN-only / date filters with a newest-first sort, status
 * changes, the create-slot form with its per-type default times, the
 * Malaysia-time to UTC conversion used when creating a slot, and the
 * 12-hour to 24-hour conversion used when editing one.
 *
 * Instants are minutes since the epoch.  A calendar day is a day number;
 * locale date and time rendering and `Date` string parsing are parameters.
 */
module ManageSlots {
  import opened Common
  import opened Sorting
  import TimePicker

  datatype SlotType = LD | JP
  datatype SlotStatus = Open | Closed | Completed

  /** A slot as the table shows it. */
  datatype SlotData = SlotData(
    id: string,
    slotId: string,
    date: string,
    slotTime: string,
    windowCloseTime: string,
    kind: SlotType,
    status: SlotStatus,
    bidPrize: int,
    winningPrize: int,
    totalUnits: int)

  // ---------------------------------------------------------------------
  // Malaysia wall-clock time to a UTC instant
  // ---------------------------------------------------------------------

  const MinutesPerDay: int := 1440
  const MytOffsetMinutes: int := 8 * 60

  /**
   * `malaysiaDateTimeToUTCISO(date, time24)`: `Date.UTC` of the calendar day
   * with `hours - 8` and `minutes`, each field read with `Number`.  `None`
   * when a field is NaN or missing (`toISOString` then throws).
   */
  function MalaysiaToUtc(day: int, time24: string): (r: Option<int>)
  {
    var fields := Split(time24, ":");
    UtcOf(day, ToNumber(fields[0]), if |fields| >= 2 then ToNumber(fields[1]) else None)
  }

  /** `Date.UTC(day, hours - 8, minutes)`; NaN in, NaN out. */
  function UtcOf(day: int, hours: Option<int>, minutes: Option<int>): Option<int>
  {
    if hours.None? || minutes.None? then None
    else Some(day * MinutesPerDay + (hours.value - 8) * 60 + minutes.value)
  }

  /** The "HH:mm" text of an hour and a minute. */
  function Clock(h: nat, m: nat): string
  {
    Pad2(h) + ":" + Pad2(m)
  }

  lemma SplitClock(h: nat, m: nat)
    requires h < 100 && m < 100
    ensures Split(Clock(h, m), ":") == [Pad2(h), Pad2(m)]
  {
    DigitsNoChar(Pad2(h), ':');
    DigitsNoChar(Pad2(m), ':');
    SplitPair(Pad2(h), Pad2(m), ':');
  }

  /** The UTC instant is 8 hours before the Malaysian wall-clock time. */
  lemma MalaysiaToUtcOfClock(day: int, h: nat, m: nat)
    requires h < 24 && m < 60
    ensures MalaysiaToUtc(day, Clock(h, m)) == Some(day * MinutesPerDay + h * 60 + m - MytOffsetMinutes)
  {
    var fields := Split(Clock(h, m), ":");
    SplitClock(h, m);
    ParsePad2(h);
    ParsePad2(m);
    assert ToNumber(fields[0]) == Some(h as int);
    assert ToNumber(fields[1]) == Some(m as int);
    assert MalaysiaToUtc(day, Clock(h, m)) == UtcOf(day, Some(h as int), Some(m as int));
    UtcOfFields(day, h, m);
  }

  lemma UtcOfFields(day: int, h: nat, m: nat)
    ensures UtcOf(day, Some(h as int), Some(m as int)) == Some(day * MinutesPerDay + h * 60 + m - MytOffsetMinutes)
  {
  }

  /**
   * Its UTC day is the previous day for hours below 8 and the same day
   * otherwise, and its UTC clock reads `hours - 8` modulo 24 with the same
   * minutes.
   */
  lemma MalaysiaToUtcShift(day: int, h: nat, m: nat)
    requires h < 24 && m < 60
    ensures MalaysiaToUtc(day, Clock(h, m)).Some?
    ensures var u := MalaysiaToUtc(day, Clock(h, m)).value;
      && u / MinutesPerDay == (if h < 8 then day - 1 else day)
      && u % MinutesPerDay == ((h + 16) % 24) * 60 + m
  {
    MalaysiaToUtcOfClock(day, h, m);
    UtcDayAndClock(day, h, m);
  }

  lemma UtcDayAndClock(day: int, h: nat, m: nat)
    requires h < 24 && m < 60
    ensures var u := day * MinutesPerDay + h * 60 + m - MytOffsetMinutes;
      && u / MinutesPerDay == (if h < 8 then day - 1 else day)
      && u % MinutesPerDay == ((h + 16) % 24) * 60 + m
  {
    var u := day * MinutesPerDay + h * 60 + m - MytOffsetMinutes;
    var d := if h < 8 then day - 1 else day;
    var rem := ((h + 16) % 24) * 60 + m;
    assert u == d * MinutesPerDay + rem;
    assert 0 <= rem < MinutesPerDay;
  }

  /** A value whose hour field is not a number gives no instant. */
  lemma MalaysiaToUtcRejects(day: int, time24: string)
    requires ToNumber(Split(time24, ":")[0]).None? || |Split(time24, ":")| < 2
    ensures MalaysiaToUtc(day, time24).None?
  {
  }

  // ---------------------------------------------------------------------
  // "hh:mm AM" back to "HH:mm"
  // ---------------------------------------------------------------------

  function PlusTwelve(x: Option<int>): Option<int>
  {
    match x
    case None => None
    case Some(v) => Some(v + 12)
  }

  /**
   * `convertTo24Hour(time12)`: split on the space, then on `:` with
   * `Number`; PM adds 12 unless the hour is 12, then 12 AM becomes 0; both
   * fields are padded to two.  `None` when there is no minute field
   * (`undefined.toString()` throws).
   */
  function ConvertTo24Hour(time12: string): (r: Option<string>)
  {
    var halves := Split(time12, " ");
    var period := if |halves| >= 2 then Some(halves[1]) else None;
    var fields := Split(halves[0], ":");
    if |fields| < 2 then None
    else
      var hours := ToNumber(fields[0]);
      var minutes := ToNumber(fields[1]);
      var h1 := if period == Some("PM") && hours != Some(12) then PlusTwelve(hours) else hours;
      var h2 := if period == Some("AM") && h1 == Some(12) then Some(0) else h1;
      Some(PadStart(NumText(h2), 2, '0') + ":" + PadStart(NumText(minutes), 2, '0'))
  }

  /** The "hh:mm AM|PM" display text of a face, minute and period. */
  function Display12(h12: nat, m: nat, p: TimePicker.Period): string
  {
    Clock(h12, m) + " " + TimePicker.PeriodText(p)
  }

  lemma SplitDisplay12(h12: nat, m: nat, p: TimePicker.Period)
    requires h12 < 100 && m < 100
    ensures Split(Display12(h12, m, p), " ") == [Clock(h12, m), TimePicker.PeriodText(p)]
  {
    DigitsNoChar(Pad2(h12), ' ');
    DigitsNoChar(Pad2(m), ' ');
    NoCharAppend(Pad2(h12), ":", ' ');
    NoCharAppend(Pad2(h12) + ":", Pad2(m), ' ');
    assert NoChar(TimePicker.PeriodText(p), ' ');
    SplitPair(Clock(h12, m), TimePicker.PeriodText(p), ' ');
  }

  lemma PeriodHour(h12: nat, p: TimePicker.Period)
    requires 1 <= h12 <= 12
    ensures var period := Some(TimePicker.PeriodText(p));
      var hours := Some(h12 as int);
      var h1 := if period == Some("PM") && hours != Some(12) then PlusTwelve(hours) else hours;
      var h2 := if period == Some("AM") && h1 == Some(12) then Some(0) else h1;
      h2 == Some(TimePicker.ClockHour(h12, p) as int) && TimePicker.ClockHour(h12, p) < 24
  {
  }

  /**
   * On a well-formed display time the conversion gives the clock hour of
   * the face and period (12 AM is 00, PM adds 12 except at 12) and keeps
   * the minutes, both two-digit padded.
   */
  lemma ConvertTo24HourOfDisplay(h12: nat, m: nat, p: TimePicker.Period)
    requires 1 <= h12 <= 12 && m < 60
    ensures ConvertTo24Hour(Display12(h12, m, p)) == Some(Clock(TimePicker.ClockHour(h12, p), m))
  {
    SplitDisplay12(h12, m, p);
    SplitClock(h12, m);
    ParsePad2(h12);
    ParsePad2(m);
    PeriodHour(h12, p);
    TimePicker.HourTextPad(TimePicker.ClockHour(h12, p));
    TimePicker.HourTextPad(m);
  }

  /**
   * Editing reads back what the time picker writes: the picker's label of an
   * "HH:mm" value converts to the same value.
   */
  lemma ConvertsPickerLabel(h: nat, m: nat)
    requires h < 24 && m < 60
    ensures ConvertTo24Hour(TimePicker.FormatTime12Hour(Clock(h, m))) == Some(Clock(h, m))
  {
    DigitsNoChar(Pad2(m), ':');
    TimePicker.FormatTime12HourOfTime(h, Pad2(m));
    Common.Hour12Bounds(h);
    var p := if h >= 12 then TimePicker.PM else TimePicker.AM;
    assert TimePicker.FormatTime12Hour(Clock(h, m)) == Display12(Common.Hour12(h), m, p);
    ConvertTo24HourOfDisplay(Common.Hour12(h), m, p);
    TimePicker.ClockHourInverse(h);
  }

  /** A display time without a `:` cannot be edited. */
  lemma ConvertTo24HourRejects(time12: string)
    requires NoChar(time12, ':')
    ensures ConvertTo24Hour(time12).None?
  {
    var halves := Split(time12, " ");
    SplitKeepsNoChar(time12, ' ', ':');
    SplitNoSep(halves[0], ':');
  }

  // ---------------------------------------------------------------------
  // The filtered, newest-first list
  // ---------------------------------------------------------------------

  datatype Tab = Lucky | Jackpot

  function TabType(t: Tab): SlotType
  {
    match t
    case Lucky => LD
    case Jackpot => JP
  }

  /** The text `new Date(...)` parses to order two slots. */
  function SortText(s: SlotData): string
  {
    s.date + " " + s.slotTime
  }

  /** `(a, b) => dateB - dateA`: the later slot first. */
  function LatestFirst(instant: string -> int): (SlotData, SlotData) -> int
  {
    (a: SlotData, b: SlotData) => instant(SortText(b)) - instant(SortText(a))
  }

  function OfType(tab: Tab): SlotData -> bool
  {
    (s: SlotData) => s.kind == TabType(tab)
  }

  function IsOpen(): SlotData -> bool
  {
    (s: SlotData) => s.status == Open
  }

  function OnDay(localDay: string -> string, day: string): SlotData -> bool
  {
    (s: SlotData) => localDay(s.date) == day
  }

  /** The three conditions a slot must meet to be listed. */
  predicate Listed(s: SlotData, tab: Tab, activeOnly: bool, filterDay: Option<string>, localDay: string -> string)
  {
    && s.kind == TabType(tab)
    && (activeOnly ==> s.status == Open)
    && (filterDay.Some? ==> localDay(s.date) == filterDay.value)
  }

  /**
   * The filter effect: keep the active tab's type, then only OPEN slots when
   * asked, then only the chosen local day when one is chosen, and sort the
   * copy newest first.
   */
  function Visible(slots: seq<SlotData>, tab: Tab, activeOnly: bool, filterDay: Option<string>,
                   localDay: string -> string, instant: string -> int): (r: seq<SlotData>)
  {
    var byType := Filter(slots, OfType(tab));
    var byStatus := if activeOnly then Filter(byType, IsOpen()) else byType;
    var byDay := if filterDay.Some? then Filter(byStatus, OnDay(localDay, filterDay.value)) else byStatus;
    SortBy(byDay, LatestFirst(instant))
  }

  /** The unsorted list the three filters leave. */
  lemma FiltersAreListed(slots: seq<SlotData>, tab: Tab, activeOnly: bool, filterDay: Option<string>,
                         localDay: string -> string, instant: string -> int)
    ensures multiset(Visible(slots, tab, activeOnly, filterDay, localDay, instant))
      == multiset(Filter(slots, (s: SlotData) => Listed(s, tab, activeOnly, filterDay, localDay)))
  {
    var pType := OfType(tab);
    var pOpen := IsOpen();
    var byType := Filter(slots, pType);
    var typeOpen := (s: SlotData) => pType(s) && pOpen(s);
    var byStatus := if activeOnly then Filter(byType, pOpen) else byType;
    var statusPred := if activeOnly then typeOpen else pType;
    FilterFilter(slots, pType, pOpen, typeOpen);
    assert byStatus == Filter(slots, statusPred);
    var listed := (s: SlotData) => Listed(s, tab, activeOnly, filterDay, localDay);
    if filterDay.Some? {
      FilterFilter(slots, statusPred, OnDay(localDay, filterDay.value), listed);
    } else {
      assert forall x :: listed(x) == statusPred(x);
      FilterFilter(slots, statusPred, (s: SlotData) => true, listed);
      FilterAll(Filter(slots, statusPred), (s: SlotData) => true);
    }
  }

  /**
   * The listed slots are exactly the slots of the active type, OPEN when
   * asked, on the chosen day when one is chosen: nothing else is shown and
   * nothing that qualifies is missing.
   */
  lemma VisibleExactly(slots: seq<SlotData>, tab: Tab, activeOnly: bool, filterDay: Option<string>,
                       localDay: string -> string, instant: string -> int)
    ensures forall x :: (x in Visible(slots, tab, activeOnly, filterDay, localDay, instant)
                         <==> x in slots && Listed(x, tab, activeOnly, filterDay, localDay))
  {
    FiltersAreListed(slots, tab, activeOnly, filterDay, localDay, instant);
    var listed := (s: SlotData) => Listed(s, tab, activeOnly, filterDay, localDay);
    FilterMembers(slots, listed);
    var r := Visible(slots, tab, activeOnly, filterDay, localDay, instant);
    forall x ensures x in r <==> x in multiset(Filter(slots, listed)) {
      assert x in r <==> x in multiset(r);
    }
  }

  /** The listed slots run newest first. */
  lemma VisibleNewestFirst(slots: seq<SlotData>, tab: Tab, activeOnly: bool, filterDay: Option<string>,
                           localDay: string -> string, instant: string -> int)
    ensures var r := Visible(slots, tab, activeOnly, filterDay, localDay, instant);
      forall i, j :: 0 <= i < j < |r| ==> instant(SortText(r[i])) >= instant(SortText(r[j]))
  {
    var byType := Filter(slots, OfType(tab));
    var byStatus := if activeOnly then Filter(byType, IsOpen()) else byType;
    var byDay := if filterDay.Some? then Filter(byStatus, OnDay(localDay, filterDay.value)) else byStatus;
    SortBySorted(byDay, LatestFirst(instant));
  }

  // ---------------------------------------------------------------------
  // Loading
  // ---------------------------------------------------------------------

  /** A slot as the server sends it. */
  datatype RawSlot = RawSlot(
    id: string,
    uniqueSlotId: string,
    slotTime: int,
    windowCloseAt: int,
    kind: SlotType,
    status: SlotStatus,
    bidPrize: Option<int>,
    winningPrize: Option<int>,
    totalUnits: Option<int>)

  /** The outcome of `getAllSlots`. */
  datatype FetchResult = Failed | NotAnArray | Slots(items: seq<RawSlot>)

  function OrZero(x: Option<int>): int
  {
    match x
    case None => 0
    case Some(v) => v
  }

  /** One row of `fetchSlots`: the date and times rendered in Malaysia time, missing amounts 0. */
  function FormatSlot(raw: RawSlot, showDate: int -> string, showTime: int -> string): (s: SlotData)
  {
    SlotData(raw.id, raw.uniqueSlotId, showDate(raw.slotTime), showTime(raw.slotTime),
             showTime(raw.windowCloseAt), raw.kind, raw.status,
             OrZero(raw.bidPrize), OrZero(raw.winningPrize), OrZero(raw.totalUnits))
  }

  function FormatSlots(items: seq<RawSlot>, showDate: int -> string, showTime: int -> string): (r: seq<SlotData>)
    ensures |r| == |items|
    ensures forall i :: 0 <= i < |items| ==> r[i] == FormatSlot(items[i], showDate, showTime)
  {
    if |items| == 0 then [] else [FormatSlot(items[0], showDate, showTime)] + FormatSlots(items[1..], showDate, showTime)
  }

  /** The slot list `fetchSlots` stores: empty on a failure or a non-array answer. */
  function Loaded(res: FetchResult, showDate: int -> string, showTime: int -> string): (r: seq<SlotData>)
  {
    match res
    case Slots(items) => FormatSlots(items, showDate, showTime)
    case _ => []
  }

  /**
   * Loading keeps one row per server slot in order, with its id, type and
   * status, and missing prizes and units read as 0; a failed or malformed
   * answer leaves the list empty.
   */
  lemma LoadedRows(res: FetchResult, showDate: int -> string, showTime: int -> string)
    ensures !res.Slots? ==> Loaded(res, showDate, showTime) == []
    ensures res.Slots? ==> var r := Loaded(res, showDate, showTime);
      && |r| == |res.items|
      && forall i :: 0 <= i < |r| ==>
           && r[i].id == res.items[i].id && r[i].kind == res.items[i].kind && r[i].status == res.items[i].status
           && r[i].bidPrize == (if res.items[i].bidPrize.Some? then res.items[i].bidPrize.value else 0)
           && r[i].winningPrize == (if res.items[i].winningPrize.Some? then res.items[i].winningPrize.value else 0)
           && r[i].totalUnits == (if res.items[i].totalUnits.Some? then res.items[i].totalUnits.value else 0)
  {
  }

  // ---------------------------------------------------------------------
  // Status changes
  // ---------------------------------------------------------------------

  /** `prev.map(slot => slot.id === id ? { ...slot, status } : slot)`. */
  function WithStatus(slots: seq<SlotData>, id: string, status: SlotStatus): (r: seq<SlotData>)
    ensures |r| == |slots|
  {
    if |slots| == 0 then []
    else [if slots[0].id == id then slots[0].(status := status) else slots[0]] + WithStatus(slots[1..], id, status)
  }

  /** Only the slots carrying the id change, and only in their status. */
  lemma {:induction false} WithStatusOnlyMatching(slots: seq<SlotData>, id: string, status: SlotStatus)
    ensures var r := WithStatus(slots, id, status);
      forall i :: 0 <= i < |slots| ==>
        r[i] == (if slots[i].id == id then slots[i].(status := status) else slots[i])
  {
    if |slots| > 0 {
      WithStatusOnlyMatching(slots[1..], id, status);
    }
  }

  /** Setting the same status twice is setting it once. */
  lemma WithStatusIdempotent(slots: seq<SlotData>, id: string, status: SlotStatus)
    ensures WithStatus(WithStatus(slots, id, status), id, status) == WithStatus(slots, id, status)
  {
    var r := WithStatus(slots, id, status);
    WithStatusOnlyMatching(slots, id, status);
    WithStatusOnlyMatching(r, id, status);
  }

  /** With "active only" on, a slot just closed or completed drops out of the list. */
  lemma ClosedSlotHidden(slots: seq<SlotData>, id: string, status: SlotStatus, tab: Tab,
                         filterDay: Option<string>, localDay: string -> string, instant: string -> int)
    requires status != Open
    ensures forall x :: x in Visible(WithStatus(slots, id, status), tab, true, filterDay, localDay, instant) ==> x.id != id
  {
    var r := WithStatus(slots, id, status);
    WithStatusOnlyMatching(slots, id, status);
    VisibleExactly(r, tab, true, filterDay, localDay, instant);
  }

  // ---------------------------------------------------------------------
  // Create and edit forms
  // ---------------------------------------------------------------------

  datatype NewSlotForm = NewSlotForm(kind: SlotType, day: int, time: string, windowCloseTime: string,
                                     bidPrize: int, winningPrize: int)

  datatype EditForm = EditForm(windowCloseTime: string, bidPrize: int, winningPrize: int, slotTime: string)

  /** The hour of the default draw time: LD at 12, JP at 20. */
  function DefaultHour(t: SlotType): (h: nat)
    ensures h < 24
  {
    match t
    case LD => 12
    case JP => 20
  }

  /** The hour of the default close time: LD at 11, JP at 19. */
  function DefaultCloseHour(t: SlotType): (h: nat)
    ensures h < 24
  {
    match t
    case LD => 11
    case JP => 19
  }

  /** The draw time a new slot of the type starts with: "12:00" or "20:00" (see `DefaultClocks`). */
  function DefaultTime(t: SlotType): string
  {
    Clock(DefaultHour(t), 0)
  }

  /** The bidding close time a new slot of the type starts with: "11:30" or "19:30". */
  function DefaultClose(t: SlotType): string
  {
    Clock(DefaultCloseHour(t), 30)
  }

  /** The instants `handleCreateSlot` sends: the draw time and the window close time. */
  datatype CreatePayload = CreatePayload(kind: SlotType, slotTime: int, bidPrize: int, winningPrize: int, windowCloseAt: int)

  function CreateRequest(f: NewSlotForm): (r: Option<CreatePayload>)
  {
    var t := MalaysiaToUtc(f.day, f.time);
    var w := MalaysiaToUtc(f.day, f.windowCloseTime);
    if t.None? || w.None? then None
    else Some(CreatePayload(f.kind, t.value, f.bidPrize, f.winningPrize, w.value))
  }

  /**
   * The default times of a type ask for a draw 30 minutes after the bidding
   * window closes: LD draws at 12:00 Malaysian time (04:00 UTC), JP at 20:00
   * (12:00 UTC).
   */
  lemma DefaultsCloseHalfHourBefore(kind: SlotType, day: int)
    ensures var t := MalaysiaToUtc(day, DefaultTime(kind));
      var w := MalaysiaToUtc(day, DefaultClose(kind));
      && t.Some? && w.Some?
      && t.value - w.value == 30
      && t.value % MinutesPerDay == (if kind == LD then 4 * 60 else 12 * 60)
  {
    var h := DefaultHour(kind);
    MalaysiaToUtcOfClock(day, h, 0);
    MalaysiaToUtcOfClock(day, DefaultCloseHour(kind), 30);
    DayRemainder(day, h * 60 - MytOffsetMinutes);
  }

  /** The request carries both converted instants when both convert. */
  lemma CreateRequestOf(f: NewSlotForm)
    ensures CreateRequest(f).Some? <==> MalaysiaToUtc(f.day, f.time).Some? && MalaysiaToUtc(f.day, f.windowCloseTime).Some?
    ensures CreateRequest(f).Some? ==>
      (CreateRequest(f).value
         == CreatePayload(f.kind, MalaysiaToUtc(f.day, f.time).value, f.bidPrize, f.winningPrize,
                          MalaysiaToUtc(f.day, f.windowCloseTime).value))
  {
  }

  /** The default texts as the form shows them. */
  lemma DefaultClocks()
    ensures DefaultTime(LD) == "12:00" && DefaultClose(LD) == "11:30"
    ensures DefaultTime(JP) == "20:00" && DefaultClose(JP) == "19:30"
  {
  }

  lemma DayRemainder(day: int, r: int)
    requires 0 <= r < MinutesPerDay
    ensures (day * MinutesPerDay + r) % MinutesPerDay == r
  {
  }

  /** The edit form for a slot, or `None` when a display time cannot be converted. */
  function EditFormFor(slot: SlotData): (r: Option<EditForm>)
  {
    var close := ConvertTo24Hour(slot.windowCloseTime);
    var time := ConvertTo24Hour(slot.slotTime);
    if close.None? || time.None? then None
    else Some(EditForm(close.value, slot.bidPrize, slot.winningPrize, time.value))
  }

  /** A slot displayed with well-formed times opens with those times in 24-hour form and its prizes. */
  lemma EditFormOfDisplayed(slot: SlotData, h: nat, m: nat, ch: nat, cm: nat)
    requires h < 24 && m < 60 && ch < 24 && cm < 60
    requires slot.slotTime == TimePicker.FormatTime12Hour(Clock(h, m))
    requires slot.windowCloseTime == TimePicker.FormatTime12Hour(Clock(ch, cm))
    ensures EditFormFor(slot) == Some(EditForm(Clock(ch, cm), slot.bidPrize, slot.winningPrize, Clock(h, m)))
  {
    ConvertsPickerLabel(h, m);
    ConvertsPickerLabel(ch, cm);
  }

  // ---------------------------------------------------------------------
  // The screen's state
  // ---------------------------------------------------------------------

  class ManageSlotsPage {
    var slotsData: seq<SlotData>
    var filteredSlotsData: seq<SlotData>
    var activeTab: Tab
    var showActiveOnly: bool
    var filterDate: Option<string>
    var loading: bool
    var newSlot: NewSlotForm
    var editingSlot: Option<SlotData>
    var editForm: EditForm
    var editDialogOpen: bool

    constructor(today: int)
      ensures slotsData == [] && filteredSlotsData == []
      ensures activeTab == Lucky && !showActiveOnly && filterDate == None && !loading
      ensures newSlot == NewSlotForm(LD, today, DefaultTime(LD), DefaultClose(LD), 0, 0)
      ensures editingSlot == None && !editDialogOpen
      ensures editForm == EditForm("00:00", 0, 0, "00:00")
    {
      slotsData := [];
      filteredSlotsData := [];
      activeTab := Lucky;
      showActiveOnly := false;
      filterDate := None;
      loading := false;
      newSlot := NewSlotForm(LD, today, "12:00", "11:30", 0, 0);
      editingSlot := None;
      editForm := EditForm("00:00", 0, 0, "00:00");
      editDialogOpen := false;
    }

    /** The filter effect, run whenever the slots or a filter change. */
    method Refilter(localDay: string -> string, instant: string -> int)
      modifies this
      ensures filteredSlotsData == Visible(slotsData, activeTab, showActiveOnly, filterDate, localDay, instant)
      ensures slotsData == old(slotsData) && activeTab == old(activeTab) && showActiveOnly == old(showActiveOnly)
      ensures filterDate == old(filterDate) && loading == old(loading) && newSlot == old(newSlot)
      ensures editingSlot == old(editingSlot) && editForm == old(editForm) && editDialogOpen == old(editDialogOpen)
    {
      var result := Filter(slotsData, OfType(activeTab));
      if showActiveOnly {
        result := Filter(result, IsOpen());
      }
      if filterDate.Some? {
        result := Filter(result, OnDay(localDay, filterDate.value));
      }
      filteredSlotsData := SortBy(result, LatestFirst(instant));
    }

    /** `fetchSlots`: replaces the list with the loaded rows and ends not loading. */
    method FetchSlots(res: FetchResult, showDate: int -> string, showTime: int -> string)
      modifies this
      ensures slotsData == Loaded(res, showDate, showTime) && !loading
      ensures filteredSlotsData == old(filteredSlotsData) && activeTab == old(activeTab)
      ensures showActiveOnly == old(showActiveOnly) && filterDate == old(filterDate) && newSlot == old(newSlot)
      ensures editingSlot == old(editingSlot) && editForm == old(editForm) && editDialogOpen == old(editDialogOpen)
    {
      loading := true;
      match res {
        case Slots(items) => slotsData := FormatSlots(items, showDate, showTime);
        case _ => slotsData := [];
      }
      loading := false;
    }

    /**
     * `handleStatusChange`: only after `updateSlot` succeeds does the slot
     * with the id take the new status; on an error nothing changes.
     */
    method HandleStatusChange(id: string, status: SlotStatus, updateSucceeds: bool)
      modifies this
      ensures slotsData == if updateSucceeds then WithStatus(old(slotsData), id, status) else old(slotsData)
      ensures filteredSlotsData == old(filteredSlotsData) && activeTab == old(activeTab) && loading == old(loading)
      ensures showActiveOnly == old(showActiveOnly) && filterDate == old(filterDate) && newSlot == old(newSlot)
      ensures editingSlot == old(editingSlot) && editForm == old(editForm) && editDialogOpen == old(editDialogOpen)
    {
      if updateSucceeds {
        slotsData := WithStatus(slotsData, id, status);
      }
    }

    /** Choosing a type in the create dialog resets both times to that type's defaults. */
    method ChooseType(kind: SlotType)
      modifies this
      ensures newSlot == old(newSlot).(kind := kind, time := DefaultTime(kind), windowCloseTime := DefaultClose(kind))
      ensures slotsData == old(slotsData) && filteredSlotsData == old(filteredSlotsData) && activeTab == old(activeTab)
      ensures showActiveOnly == old(showActiveOnly) && filterDate == old(filterDate) && loading == old(loading)
      ensures editingSlot == old(editingSlot) && editForm == old(editForm) && editDialogOpen == old(editDialogOpen)
    {
      var defaultTime := if kind == LD then "12:00" else "20:00";
      var defaultWindowClose := if kind == LD then "11:30" else "19:30";
      newSlot := newSlot.(kind := kind, time := defaultTime, windowCloseTime := defaultWindowClose);
    }

    /**
     * `handleEditClick`: the slot becomes the one being edited; when both
     * display times convert the form takes them and the dialog opens,
     * otherwise the conversion throws and form and dialog stay as they were.
     */
    method HandleEditClick(slot: SlotData)
      modifies this
      ensures editingSlot == Some(slot)
      ensures match EditFormFor(slot)
        case Some(form) => editForm == form && editDialogOpen
        case None => editForm == old(editForm) && editDialogOpen == old(editDialogOpen)
      ensures slotsData == old(slotsData) && filteredSlotsData == old(filteredSlotsData) && activeTab == old(activeTab)
      ensures showActiveOnly == old(showActiveOnly) && filterDate == old(filterDate) && loading == old(loading)
      ensures newSlot == old(newSlot)
    {
      editingSlot := Some(slot);
      OpenEditDialog(EditFormFor(slot));
    }

    /** `setEditForm` and `setEditDialogOpen(true)`, reached only when the form could be built. */
    method OpenEditDialog(form: Option<EditForm>)
      modifies this
      ensures match form
        case Some(f) => editForm == f && editDialogOpen
        case None => editForm == old(editForm) && editDialogOpen == old(editDialogOpen)
      ensures slotsData == old(slotsData) && filteredSlotsData == old(filteredSlotsData) && activeTab == old(activeTab)
      ensures showActiveOnly == old(showActiveOnly) && filterDate == old(filterDate) && loading == old(loading)
      ensures newSlot == old(newSlot) && editingSlot == old(editingSlot)
    {
      if form.Some? {
        editForm := form.value;
        editDialogOpen := true;
      }
    }
  }
}
