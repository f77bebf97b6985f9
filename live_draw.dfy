/**
 * The admin live-draw page: slots listed by Malaysia time, an automatic
 * choice of the slot to announce, the winning value typed or picked from the
 * bid summary, the announce gate and the announcement request.
 *
 * A slot's `time` is its Malaysia wall-clock instant in milliseconds, so the
 * `toMY` conversion is already applied; its calendar day is `DayOf(time)`.
 */
module LiveDraw {
  import opened Common
  import opened Sorting

  datatype DrawSlot = DrawSlot(id: string, kind: string, status: string, time: int)

  /** The bid summary of a slot: numbers or combos with their bid counts. */
  datatype Summary =
    | LdSummary(numbers: seq<(int, int)>, totalUnits: int)
    | JpSummary(combos: seq<(seq<int>, int)>, totalUnits: int)

  /** The Malaysia calendar day of a wall-clock instant. */
  function DayOf(t: int): int
  {
    t / DayMs
  }

  /** `(a, b) => time(a) - time(b)`: ascending by time. */
  function ByTime(): (DrawSlot, DrawSlot) -> int
  {
    (a: DrawSlot, b: DrawSlot) => a.time - b.time
  }

  predicate TimeOrdered(s: seq<DrawSlot>)
  {
    forall i, j :: 0 <= i < j < |s| ==> s[i].time <= s[j].time
  }

  /** Sorting by time yields the same slots in ascending time order. */
  lemma SortByTimeOrdered(s: seq<DrawSlot>)
    ensures TimeOrdered(SortBy(s, ByTime()))
    ensures multiset(SortBy(s, ByTime())) == multiset(s)
  {
    assert ConsistentOn(s, ByTime());
    SortBySorted(s, ByTime());
  }

  // ---------------------------------------------------------------------
  // Automatic slot choice
  // ---------------------------------------------------------------------

  predicate Ready(x: DrawSlot, now: int) { x.status == "CLOSED" && x.time <= now }

  predicate Upcoming(x: DrawSlot, now: int) { x.status == "OPEN" && x.time >= now }

  function ReadyAt(now: int): DrawSlot -> bool { (x: DrawSlot) => Ready(x, now) }

  function UpcomingAt(now: int): DrawSlot -> bool { (x: DrawSlot) => Upcoming(x, now) }

  /** `found?.id`, the empty text when nothing was found. */
  function IdAt(s: seq<DrawSlot>, i: Option<nat>): string
  {
    if i.Some? && i.value < |s| then s[i.value].id else ""
  }

  /** `ready?.id || upcoming?.id || s[0].id`. */
  function AutoSelectId(s: seq<DrawSlot>, now: int): string
    requires |s| > 0
  {
    var ready := IdAt(s, FindFirst(s, ReadyAt(now)));
    var upcoming := IdAt(s, FindFirst(s, UpcomingAt(now)));
    if ready != "" then ready else if upcoming != "" then upcoming else s[0].id
  }

  /**
   * With non-empty ids the page picks the first closed slot whose time has
   * come; failing that the first open slot still to come; failing that the
   * first slot.  The choice is always the id of a listed slot.
   */
  lemma AutoSelectChoice(s: seq<DrawSlot>, now: int)
    requires |s| > 0
    ensures exists i :: 0 <= i < |s| && s[i].id == AutoSelectId(s, now)
    ensures (forall i :: 0 <= i < |s| ==> s[i].id != "") ==> (
      && (forall i :: 0 <= i < |s| && Ready(s[i], now) && (forall j :: 0 <= j < i ==> !Ready(s[j], now))
            ==> AutoSelectId(s, now) == s[i].id)
      && ((forall j :: 0 <= j < |s| ==> !Ready(s[j], now)) ==>
            forall i :: 0 <= i < |s| && Upcoming(s[i], now) && (forall j :: 0 <= j < i ==> !Upcoming(s[j], now))
              ==> AutoSelectId(s, now) == s[i].id)
      && ((forall j :: 0 <= j < |s| ==> !Ready(s[j], now) && !Upcoming(s[j], now)) ==> AutoSelectId(s, now) == s[0].id))
  {
    forall i | 0 <= i < |s| && Ready(s[i], now) && (forall j :: 0 <= j < i ==> !Ready(s[j], now))
      ensures FindFirst(s, ReadyAt(now)) == Some(i)
    {
      FindFirstAt(s, ReadyAt(now), i);
    }
    forall i | 0 <= i < |s| && Upcoming(s[i], now) && (forall j :: 0 <= j < i ==> !Upcoming(s[j], now))
      ensures FindFirst(s, UpcomingAt(now)) == Some(i)
    {
      FindFirstAt(s, UpcomingAt(now), i);
    }
    var r := FindFirst(s, ReadyAt(now));
    var u := FindFirst(s, UpcomingAt(now));
    if r.Some? && s[r.value].id != "" {
      assert s[r.value].id == AutoSelectId(s, now);
    } else if u.Some? && s[u.value].id != "" {
      assert s[u.value].id == AutoSelectId(s, now);
    } else {
      assert s[0].id == AutoSelectId(s, now);
    }
  }

  // ---------------------------------------------------------------------
  // Slots grouped by day
  // ---------------------------------------------------------------------

  function SlotDay(): DrawSlot -> int { (x: DrawSlot) => DayOf(x.time) }

  function OnDay(day: int): DrawSlot -> bool { (x: DrawSlot) => DayOf(x.time) == day }

  /** The slots the calendar filter lets through (all of them without a chosen day). */
  function DayFiltered(slots: seq<DrawSlot>, filterDay: Option<int>): seq<DrawSlot>
  {
    if filterDay.Some? then Filter(slots, OnDay(filterDay.value)) else slots
  }

  /** Each group's slots sorted ascending by time. */
  function SortGroups(gs: seq<(int, seq<DrawSlot>)>): (r: seq<(int, seq<DrawSlot>)>)
    ensures |r| == |gs|
    ensures forall j :: 0 <= j < |gs| ==> r[j] == (gs[j].0, SortBy(gs[j].1, ByTime()))
  {
    if |gs| == 0 then [] else [(gs[0].0, SortBy(gs[0].1, ByTime()))] + SortGroups(gs[1..])
  }

  /** The `groupedSlots` memo: filter, group into a Map by day, sort each group. */
  function GroupedSlots(slots: seq<DrawSlot>, filterDay: Option<int>): seq<(int, seq<DrawSlot>)>
  {
    SortGroups(Grouped(DayFiltered(slots, filterDay), SlotDay()))
  }

  /**
   * Every group holds slots of its own day only, that day passes the filter,
   * the days are distinct and each group runs in ascending time order.
   */
  lemma GroupedSlotsShape(slots: seq<DrawSlot>, filterDay: Option<int>)
    ensures var g := GroupedSlots(slots, filterDay);
      && (forall j, x :: 0 <= j < |g| && x in g[j].1 ==>
            x in slots && DayOf(x.time) == g[j].0 && (filterDay.Some? ==> g[j].0 == filterDay.value))
      && (forall i, j :: 0 <= i < j < |g| ==> g[i].0 != g[j].0)
      && (forall j :: 0 <= j < |g| ==> TimeOrdered(g[j].1))
  {
    var f := DayFiltered(slots, filterDay);
    var gs := Grouped(f, SlotDay());
    var g := SortGroups(gs);
    var ks := FirstKeys(f, SlotDay());
    if filterDay.Some? {
      FilterMembers(slots, OnDay(filterDay.value));
    }
    forall j, x | 0 <= j < |g| && x in g[j].1
      ensures x in slots && DayOf(x.time) == g[j].0 && (filterDay.Some? ==> g[j].0 == filterDay.value)
    {
      var sel := Select(f, SlotDay(), ks[j]);
      assert gs[j] == (ks[j], sel);
      SortByTimeOrdered(sel);
      assert x in multiset(sel);
      var i :| 0 <= i < |sel| && sel[i] == x;
      assert SlotDay()(sel[i]) == ks[j];
      SelectMembers(f, SlotDay(), ks[j]);
    }
    forall j | 0 <= j < |g| ensures TimeOrdered(g[j].1) {
      SortByTimeOrdered(gs[j].1);
    }
  }

  /** Grouping and sorting lose and invent nothing: the groups together are the filtered slots. */
  lemma GroupedSlotsPermutation(slots: seq<DrawSlot>, filterDay: Option<int>)
    ensures multiset(Flatten(GroupedSlots(slots, filterDay))) == multiset(DayFiltered(slots, filterDay))
  {
    var gs := Grouped(DayFiltered(slots, filterDay), SlotDay());
    FlattenSortGroups(gs);
    FlattenGrouped(DayFiltered(slots, filterDay), SlotDay());
  }

  lemma {:induction false} FlattenSortGroups(gs: seq<(int, seq<DrawSlot>)>)
    ensures multiset(Flatten(SortGroups(gs))) == multiset(Flatten(gs))
    decreases |gs|
  {
    if |gs| > 0 {
      var init := gs[..|gs| - 1];
      var r := SortGroups(gs);
      assert r[..|gs| - 1] == SortGroups(init) by {
        assert forall j :: 0 <= j < |init| ==> init[j] == gs[j];
      }
      FlattenSortGroups(init);
    }
  }

  /**
   * `groupedSlots` as the page computes it: `forEach` into a Map keyed by
   * day, then each group sorted in place.
   */
  method GroupSlots(slots: seq<DrawSlot>, filterDay: Option<int>) returns (groups: seq<(int, seq<DrawSlot>)>)
    ensures groups == GroupedSlots(slots, filterDay)
  {
    var filtered := DayFiltered(slots, filterDay);
    var raw := GroupBy(filtered, SlotDay());
    groups := raw;
    var j := 0;
    while j < |groups|
      invariant 0 <= j <= |groups| == |raw|
      invariant forall t :: 0 <= t < j ==> groups[t] == (raw[t].0, SortBy(raw[t].1, ByTime()))
      invariant forall t :: j <= t < |groups| ==> groups[t] == raw[t]
    {
      groups := groups[j := (groups[j].0, SortBy(groups[j].1, ByTime()))];
      j := j + 1;
    }
  }

  // ---------------------------------------------------------------------
  // The winning value
  // ---------------------------------------------------------------------

  /** The manual LD field: `value.replace(/\D/g, "").slice(0, 2)`. */
  function ManualLd(raw: string): (r: string)
    ensures |r| <= 2 && AllDigits(r)
  {
    var digits := Filter(raw, IsDigitChar());
    if |digits| <= 2 then digits else digits[..2]
  }

  /**
   * The kept text is the first two digits of the input, in order, or all
   * of them when there are fewer.
   */
  lemma ManualLdFirstDigits(raw: string)
    ensures var d := Filter(raw, IsDigitChar());
      |ManualLd(raw)| == (if |d| < 2 then |d| else 2) && ManualLd(raw) == d[..|ManualLd(raw)|]
  {
  }

  /**
   * Typing one more character: a digit is appended while fewer than two are
   * held; a third digit or any other character leaves the field as it was.
   */
  lemma ManualLdTyping(raw: string, c: char)
    ensures IsDigit(c) && |ManualLd(raw)| < 2 ==> ManualLd(raw + [c]) == ManualLd(raw) + [c]
    ensures !IsDigit(c) || |ManualLd(raw)| == 2 ==> ManualLd(raw + [c]) == ManualLd(raw)
  {
    FilterAppend(raw, [c], IsDigitChar());
    assert Filter([c], IsDigitChar()) == if IsDigit(c) then [c] else [];
  }

  function IsDigitChar(): char -> bool { (c: char) => IsDigit(c) }

  /** Letters are dropped and only the first two digits are kept. */
  lemma ManualLdExample()
    ensures ManualLd("a1b2c3") == "12"
  {
    FilterAppend("a1b2", "c3", IsDigitChar());
    FilterAppend("a1", "b2", IsDigitChar());
    assert Filter("a1", IsDigitChar()) == "1";
    assert Filter("b2", IsDigitChar()) == "2";
  }

  lemma ManualLdIdempotent(raw: string)
    ensures ManualLd(ManualLd(raw)) == ManualLd(raw)
  {
    var r := ManualLd(raw);
    FilterAll(r, IsDigitChar());
  }

  /** A non-empty manual LD entry reads as a number `0..99`. */
  lemma ManualLdValue(raw: string)
    requires ManualLd(raw) != ""
    ensures ToNumber(ManualLd(raw)).Some? && 0 <= ToNumber(ManualLd(raw)).value <= 99
  {
    var r := ManualLd(raw);
    ParseDigits(r);
    TwoDigitsBound(r);
  }

  lemma TwoDigitsBound(s: string)
    requires AllDigits(s) && |s| <= 2
    ensures DigitsValue(s) <= 99
  {
    if |s| == 2 {
      assert DigitsValue(s) == DigitsValue(s[..1]) * 10 + DigitVal(s[1]);
      assert DigitsValue(s[..1]) == DigitVal(s[0]);
    }
  }

  /** The separators of `/[\s,\-|,]+/`. */
  predicate IsJpSep(c: char) { IsWs(c) || c == ',' || c == '-' || c == '|' }

  /** A token whose `Number` is neither `NaN` nor 0, so `filter(Boolean)` keeps it. */
  function IsTruthyNumber(): string -> bool
  {
    (t: string) => ToNumber(t).Some? && ToNumber(t).value != 0
  }

  /** `Number` of each token with `filter(Boolean)`: zeros and NaN dropped. */
  function TruthyNumbers(ts: seq<string>): (r: seq<int>)
    ensures forall k :: 0 <= k < |r| ==> r[k] != 0
  {
    if |ts| == 0 then []
    else
      var n := ToNumber(ts[0]);
      (if n.Some? && n.value != 0 then [n.value] else []) + TruthyNumbers(ts[1..])
  }

  /** Exactly the tokens that read as a non-zero number are kept, in order, as their numbers. */
  lemma {:induction false} TruthyNumbersKept(ts: seq<string>)
    ensures var kept := Filter(ts, IsTruthyNumber());
      |TruthyNumbers(ts)| == |kept| && forall k :: 0 <= k < |kept| ==> ToNumber(kept[k]) == Some(TruthyNumbers(ts)[k])
  {
    if |ts| > 0 {
      var n := ToNumber(ts[0]);
      var head := if n.Some? && n.value != 0 then [n.value] else [];
      TruthyNumbersKept(ts[1..]);
      FilterStep(ts, IsTruthyNumber());
      assert TruthyNumbers(ts) == head + TruthyNumbers(ts[1..]);
      assert IsTruthyNumber()(ts[0]) == (n.Some? && n.value != 0);
    }
  }

  /**
   * The numbers of the manual JP field.  The empty pieces a regular-expression
   * split leaves at either end read as 0 and are dropped, so only the tokens
   * matter.
   */
  function ManualJpNumbers(input: string): seq<int>
  {
    TruthyNumbers(Tokens(input, IsJpSep))
  }

  /** The value the page would announce; `NoValue` is `null`. */
  datatype Preview = NoValue | LdValue(n: Option<int>) | JpValue(nums: seq<Option<int>>)

  /** `Number` of each `-` piece of a picked combo. */
  function ComboNumbers(ps: seq<string>): (r: seq<Option<int>>)
    ensures |r| == |ps| && forall k :: 0 <= k < |ps| ==> r[k] == ToNumber(ps[k])
  {
    if |ps| == 0 then [] else [ToNumber(ps[0])] + ComboNumbers(ps[1..])
  }

  /** `winningValuePreview`. */
  function WinningPreview(slot: Option<DrawSlot>, ldPick: Option<int>, ldManual: string,
                          jpPick: Option<string>, jpManual: string): Preview
  {
    if slot.None? then NoValue
    else if slot.value.kind == "LD" then
      if ldPick.Some? then LdValue(ldPick)
      else if !Blank(ldManual) then LdValue(ToNumber(ldManual))
      else NoValue
    else if jpPick.Some? && jpPick.value != "" then JpValue(ComboNumbers(Split(jpPick.value, "-")))
    else if !Blank(jpManual) then
      var nums := ManualJpNumbers(jpManual);
      if |nums| == 6 then JpValue(MapSome(SortBy(nums, IntCmp()))) else NoValue
    else NoValue
  }

  /**
   * The LD preview prefers the picked number; without one a blank entry is
   * no value; an LD slot never yields a JP value.
   */
  lemma LdPreview(slot: DrawSlot, ldPick: Option<int>, ldManual: string, jpPick: Option<string>, jpManual: string)
    requires slot.kind == "LD"
    ensures var p := WinningPreview(Some(slot), ldPick, ldManual, jpPick, jpManual);
      && !p.JpValue?
      && (ldPick.Some? ==> p == LdValue(ldPick))
      && (ldPick.None? ==> (p == NoValue <==> Blank(ldManual)))
  {
  }

  /**
   * Without a picked combo a manual JP entry gives a value exactly when it
   * holds six non-zero numbers; the value is those numbers in ascending
   * order.
   */
  lemma ManualJpPreview(slot: DrawSlot, ldPick: Option<int>, ldManual: string, jpManual: string)
    requires slot.kind != "LD" && !Blank(jpManual)
    ensures var p := WinningPreview(Some(slot), ldPick, ldManual, None, jpManual);
      var nums := ManualJpNumbers(jpManual);
      && (p != NoValue <==> |nums| == 6)
      && (|nums| == 6 ==>
            p == JpValue(MapSome(SortBy(nums, IntCmp())))
            && Ascending(SortBy(nums, IntCmp()))
            && multiset(SortBy(nums, IntCmp())) == multiset(nums))
  {
    var nums := ManualJpNumbers(jpManual);
    ManualJpPreviewValue(slot, ldPick, ldManual, jpManual);
    SortIntsAscending(nums);
  }

  lemma ManualJpPreviewValue(slot: DrawSlot, ldPick: Option<int>, ldManual: string, jpManual: string)
    requires slot.kind != "LD" && !Blank(jpManual)
    ensures var p := WinningPreview(Some(slot), ldPick, ldManual, None, jpManual);
      var nums := ManualJpNumbers(jpManual);
      (p != NoValue <==> |nums| == 6) && (|nums| == 6 ==> p == JpValue(MapSome(SortBy(nums, IntCmp()))))
  {
  }

  /** `canAnnounce`: a CLOSED slot and a value. */
  predicate CanAnnounce(slot: Option<DrawSlot>, preview: Preview)
  {
    slot.Some? && slot.value.status == "CLOSED" && preview != NoValue
  }

  datatype Request = LdRequest(slotId: string, winningNumber: int) | JpRequest(slotId: string, winningCombo: string)

  /** What `doAnnounce` does before its API call: nothing, an "Invalid LD number" error, or a request. */
  datatype AnnounceStep = Skip | Invalid | Send(request: Request)

  function AnnounceAction(slot: Option<DrawSlot>, preview: Preview): AnnounceStep
  {
    if !CanAnnounce(slot, preview) then Skip
    else if slot.value.kind == "LD" then
      match preview
      case LdValue(n) => if n.Some? && 1 <= n.value <= 37 then Send(LdRequest(slot.value.id, n.value)) else Invalid
      case _ => Skip
    else
      match preview
      case JpValue(ns) => Send(JpRequest(slot.value.id, Join(NumTexts(ns), "-")))
      case _ => Skip
  }

  /**
   * For an LD slot a request goes out exactly when the slot is CLOSED and
   * the value is a whole number in `1..37`; any other value is refused
   * before the call.
   */
  lemma LdAnnounceRange(slot: DrawSlot, ldPick: Option<int>, ldManual: string, jpPick: Option<string>, jpManual: string)
    requires slot.kind == "LD"
    ensures var p := WinningPreview(Some(slot), ldPick, ldManual, jpPick, jpManual);
      && (forall n :: AnnounceAction(Some(slot), p) == Send(LdRequest(slot.id, n)) <==>
            slot.status == "CLOSED" && p == LdValue(Some(n)) && 1 <= n <= 37)
      && (AnnounceAction(Some(slot), p) == Invalid <==>
            CanAnnounce(Some(slot), p) && !(p.LdValue? && p.n.Some? && 1 <= p.n.value <= 37))
      && (AnnounceAction(Some(slot), p) == Skip <==> !CanAnnounce(Some(slot), p))
  {
    LdPreview(slot, ldPick, ldManual, jpPick, jpManual);
  }

  /** A manual LD entry of "0", "00" or "38" to "99" passes the gate and is then refused. */
  lemma ManualLdOutOfRange(slot: DrawSlot, raw: string, jpPick: Option<string>, jpManual: string)
    requires slot.kind == "LD" && slot.status == "CLOSED"
    requires ManualLd(raw) != ""
    requires ToNumber(ManualLd(raw)).value == 0 || ToNumber(ManualLd(raw)).value > 37
    ensures var p := WinningPreview(Some(slot), None, ManualLd(raw), jpPick, jpManual);
      CanAnnounce(Some(slot), p) && AnnounceAction(Some(slot), p) == Invalid
  {
    ManualLdValue(raw);
    OutOfRangeTextRefused(slot, ManualLd(raw), jpPick, jpManual);
  }

  lemma OutOfRangeTextRefused(slot: DrawSlot, r: string, jpPick: Option<string>, jpManual: string)
    requires slot.kind == "LD" && slot.status == "CLOSED"
    requires r != "" && AllDigits(r) && ToNumber(r).Some?
    requires ToNumber(r).value == 0 || ToNumber(r).value > 37
    ensures var p := WinningPreview(Some(slot), None, r, jpPick, jpManual);
      CanAnnounce(Some(slot), p) && AnnounceAction(Some(slot), p) == Invalid
  {
    assert !Blank(r) by {
      DigitsTrim(r);
    }
  }

  /** The text of a summary combo button: its numbers joined with "-". */
  function ComboText(numbers: seq<int>): string
  {
    Join(IntTexts(numbers), "-")
  }

  lemma NatTextsNoDash(ns: seq<int>)
    requires forall k :: 0 <= k < |ns| ==> ns[k] >= 0
    ensures forall k :: 0 <= k < |IntTexts(ns)| ==> |IntTexts(ns)[k]| > 0 && NoChar(IntTexts(ns)[k], '-')
  {
    forall k | 0 <= k < |ns| ensures NoChar(IntTexts(ns)[k], '-') {
      DigitsNoChar(IntTexts(ns)[k], '-');
    }
  }

  lemma ComboNumbersOfTexts(ns: seq<int>)
    requires forall k :: 0 <= k < |ns| ==> ns[k] >= 0
    ensures ComboNumbers(IntTexts(ns)) == MapSome(ns)
  {
    forall k | 0 <= k < |ns| ensures ToNumber(IntTexts(ns)[k]) == Some(ns[k]) {
      ParseNatToString(ns[k]);
    }
  }

  lemma NumTextsOfSome(ns: seq<int>)
    ensures NumTexts(MapSome(ns)) == IntTexts(ns)
  {
    assert forall k :: 0 <= k < |ns| ==> NumTexts(MapSome(ns))[k] == IntToString(ns[k]);
  }

  /**
   * Picking a summary combo of non-negative numbers on a CLOSED JP slot
   * announces exactly that combo text.
   */
  lemma PickedComboAnnounced(slot: DrawSlot, numbers: seq<int>, ldPick: Option<int>, ldManual: string, jpManual: string)
    requires slot.kind != "LD" && slot.status == "CLOSED"
    requires |numbers| >= 1 && forall k :: 0 <= k < |numbers| ==> numbers[k] >= 0
    ensures var p := WinningPreview(Some(slot), ldPick, ldManual, Some(ComboText(numbers)), jpManual);
      && p == JpValue(MapSome(numbers))
      && AnnounceAction(Some(slot), p) == Send(JpRequest(slot.id, ComboText(numbers)))
  {
    var p := WinningPreview(Some(slot), ldPick, ldManual, Some(ComboText(numbers)), jpManual);
    PickedComboPreview(slot, numbers, ldPick, ldManual, jpManual);
    NumTextsOfSome(numbers);
    assert CanAnnounce(Some(slot), p);
    assert AnnounceAction(Some(slot), p) == Send(JpRequest(slot.id, Join(NumTexts(MapSome(numbers)), "-")));
  }

  /** The picked combo text reads back as its numbers. */
  lemma PickedComboPreview(slot: DrawSlot, numbers: seq<int>, ldPick: Option<int>, ldManual: string, jpManual: string)
    requires slot.kind != "LD"
    requires |numbers| >= 1 && forall k :: 0 <= k < |numbers| ==> numbers[k] >= 0
    ensures WinningPreview(Some(slot), ldPick, ldManual, Some(ComboText(numbers)), jpManual) == JpValue(MapSome(numbers))
  {
    var t := ComboText(numbers);
    NatTextsNoDash(numbers);
    SplitJoin(IntTexts(numbers), '-');
    JoinNonEmpty(IntTexts(numbers), '-');
    assert t != "";
    assert WinningPreview(Some(slot), ldPick, ldManual, Some(t), jpManual) == JpValue(ComboNumbers(Split(t, "-")));
    ComboNumbersOfTexts(numbers);
  }

  /** The outcome of a request the page cannot see inside. */
  datatype Fetch<T> = Failed | Loaded(value: T)

  class LiveDrawPage {
    var slots: seq<DrawSlot>
    var selectedSlotId: Option<string>
    var loadingSlots: bool
    var summary: Option<Summary>
    var loadingSummary: bool
    var selectedLdNumber: Option<int>
    var manualLdInput: string
    var selectedJpCombo: Option<string>
    var manualJpInput: string
    var filterDay: Option<int>
    var confirmDialogOpen: bool
    var announcing: bool

    /** The initial state: nothing loaded, the calendar on today. */
    constructor(today: int)
      ensures slots == [] && selectedSlotId == None && loadingSlots && summary == None && !loadingSummary
      ensures selectedLdNumber == None && manualLdInput == "" && selectedJpCombo == None && manualJpInput == ""
      ensures filterDay == Some(today) && !confirmDialogOpen && !announcing
    {
      slots := [];
      selectedSlotId := None;
      loadingSlots := true;
      summary := None;
      loadingSummary := false;
      selectedLdNumber := None;
      manualLdInput := "";
      selectedJpCombo := None;
      manualJpInput := "";
      filterDay := Some(today);
      confirmDialogOpen := false;
      announcing := false;
    }

    /** `slots.find(s => s.id === selectedSlotId) ?? null`. */
    function SelectedSlot(): Option<DrawSlot>
      reads this
    {
      if selectedSlotId.None? then None
      else
        var i := FindFirst(slots, HasId(selectedSlotId.value));
        if i.Some? then Some(slots[i.value]) else None
    }

    function Preview(): Preview
      reads this
    {
      WinningPreview(SelectedSlot(), selectedLdNumber, manualLdInput, selectedJpCombo, manualJpInput)
    }

    /**
     * `fetchSlots`: the answer is stored sorted by time; when nothing is
     * selected (no id or an empty one) and there are slots, the automatic
     * choice is selected.  A failure keeps the list and the selection.
     */
    method FetchSlots(res: Fetch<seq<DrawSlot>>, now: int)
      modifies this
      ensures !loadingSlots
      ensures res.Failed? ==> slots == old(slots) && selectedSlotId == old(selectedSlotId)
      ensures res.Loaded? ==> slots == SortBy(res.value, ByTime())
      ensures res.Loaded? ==> (selectedSlotId ==
        if (old(selectedSlotId).None? || old(selectedSlotId) == Some("")) && |res.value| > 0
        then Some(AutoSelectId(SortBy(res.value, ByTime()), now))
        else old(selectedSlotId))
      ensures summary == old(summary) && loadingSummary == old(loadingSummary)
      ensures selectedLdNumber == old(selectedLdNumber) && manualLdInput == old(manualLdInput)
      ensures selectedJpCombo == old(selectedJpCombo) && manualJpInput == old(manualJpInput)
      ensures filterDay == old(filterDay) && confirmDialogOpen == old(confirmDialogOpen) && announcing == old(announcing)
    {
      loadingSlots := true;
      if res.Loaded? {
        var sorted := SortBy(res.value, ByTime());
        slots := sorted;
        if (selectedSlotId.None? || selectedSlotId == Some("")) && |sorted| > 0 {
          selectedSlotId := Some(AutoSelectId(sorted, now));
        }
      }
      loadingSlots := false;
    }

    /** `fetchSummary`: the four winning-value selections are cleared before the answer is stored. */
    method FetchSummary(res: Fetch<Summary>)
      modifies this
      ensures summary == (if res.Loaded? then Some(res.value) else None) && !loadingSummary
      ensures selectedLdNumber == None && manualLdInput == "" && selectedJpCombo == None && manualJpInput == ""
      ensures Preview() == NoValue
      ensures slots == old(slots) && selectedSlotId == old(selectedSlotId) && loadingSlots == old(loadingSlots)
      ensures filterDay == old(filterDay) && confirmDialogOpen == old(confirmDialogOpen) && announcing == old(announcing)
    {
      loadingSummary := true;
      summary := None;
      selectedLdNumber := None;
      manualLdInput := "";
      selectedJpCombo := None;
      manualJpInput := "";
      if res.Loaded? {
        summary := Some(res.value);
      }
      loadingSummary := false;
      NothingChosen(SelectedSlot());
    }

    /** Typing in the manual LD field keeps at most two digits. */
    method TypeManualLd(raw: string)
      modifies this
      ensures manualLdInput == ManualLd(raw)
      ensures slots == old(slots) && selectedSlotId == old(selectedSlotId) && loadingSlots == old(loadingSlots)
      ensures summary == old(summary) && loadingSummary == old(loadingSummary)
      ensures selectedLdNumber == old(selectedLdNumber) && selectedJpCombo == old(selectedJpCombo)
      ensures manualJpInput == old(manualJpInput)
      ensures filterDay == old(filterDay) && confirmDialogOpen == old(confirmDialogOpen) && announcing == old(announcing)
    {
      manualLdInput := ManualLd(raw);
    }

    /**
     * `doAnnounce`: without the gate nothing happens; an LD value outside
     * `1..37` is refused before the call; otherwise the request is sent
     * and, when the server accepts it, the slots are fetched again and the
     * dialog closes.  `sent` is the request that went out, if any.
     */
    method DoAnnounce(accepted: bool, refreshed: Fetch<seq<DrawSlot>>, now: int) returns (sent: Option<Request>)
      modifies this
      ensures var step := AnnounceAction(old(SelectedSlot()), old(Preview()));
        sent == (if step.Send? then Some(step.request) else None)
      ensures !AnnounceAction(old(SelectedSlot()), old(Preview())).Send? || !accepted ==>
        slots == old(slots) && selectedSlotId == old(selectedSlotId) && confirmDialogOpen == old(confirmDialogOpen)
      ensures AnnounceAction(old(SelectedSlot()), old(Preview())).Send? && accepted ==> !confirmDialogOpen
      ensures AnnounceAction(old(SelectedSlot()), old(Preview())).Send? && accepted && refreshed.Loaded? ==>
        slots == SortBy(refreshed.value, ByTime())
      ensures AnnounceAction(old(SelectedSlot()), old(Preview())) == Skip ==> announcing == old(announcing)
      ensures AnnounceAction(old(SelectedSlot()), old(Preview())) != Skip ==> !announcing
      ensures summary == old(summary) && selectedLdNumber == old(selectedLdNumber) && manualLdInput == old(manualLdInput)
      ensures selectedJpCombo == old(selectedJpCombo) && manualJpInput == old(manualJpInput) && filterDay == old(filterDay)
    {
      var step := AnnounceAction(SelectedSlot(), Preview());
      sent := None;
      if step == Skip {
        return;
      }
      announcing := true;
      if step.Send? {
        sent := Some(step.request);
        if accepted {
          FetchSlots(refreshed, now);
          confirmDialogOpen := false;
        }
      }
      announcing := false;
    }
  }

  function HasId(id: string): DrawSlot -> bool { (x: DrawSlot) => x.id == id }

  /** With no pick and both manual fields empty there is no value to announce. */
  lemma NothingChosen(slot: Option<DrawSlot>)
    ensures WinningPreview(slot, None, "", None, "") == NoValue
  {
    assert Blank("");
  }
}
