/**
 * The home-page "Make a Bid" panel: the Lucky Draw slots of today (or of
 * tomorrow), the automatically selected slot, the countdown to its close,
 * the result polling gate, the winning number and the bid link.
 *
 * Instants are milliseconds since the epoch; Malaysia time is UTC+8 and has
 * no daylight saving, so its calendar day and clock are plain arithmetic.
 */
module MakeaBid {
  import opened Common
  import BidPage

  const SecondMs: int := 1000
  const MinuteMs: int := 60000
  const HourMs: int := 3600000
  const MytOffsetMs: int := 28800000

  /** A slot as the panel reads it; `windowCloseAt` is absent or empty when `None`. */
  datatype Slot = Slot(id: string, kind: string, slotTime: int, windowCloseAt: Option<int>)

  datatype DrawResult = DrawResult(slotId: string, kind: string, winningNumber: Option<int>)

  /** `windowCloseAt || slotTime`. */
  function CloseAt(s: Slot): int
  {
    if s.windowCloseAt.Some? then s.windowCloseAt.value else s.slotTime
  }

  /** The Malaysian calendar day of an instant, as a day number. */
  function MytDay(t: int): int { (t + MytOffsetMs) / DayMs }

  function IsLdSlot(): Slot -> bool { (s: Slot) => s.kind == "LD" }
  function IsLdResult(): DrawResult -> bool { (r: DrawResult) => r.kind == "LD" }
  function OnDay(d: int): Slot -> bool { (s: Slot) => MytDay(s.slotTime) == d }

  // ---------------------------------------------------------------------
  // Today's or tomorrow's slots and the automatic choice
  // ---------------------------------------------------------------------

  /** `activeDaySlots`: today's slots when there are any, else tomorrow's. */
  function ActiveDaySlots(slots: seq<Slot>, now: int): seq<Slot>
  {
    var today := Filter(slots, OnDay(MytDay(now)));
    if |today| > 0 then today else Filter(slots, OnDay(MytDay(now) + 1))
  }

  /**
   * The active slots all lie on one day: today's slots, all of them and in
   * list order, as soon as there is one; otherwise all of tomorrow's.
   */
  lemma ActiveDayShape(slots: seq<Slot>, now: int)
    ensures var r := ActiveDaySlots(slots, now);
      (forall s :: s in r <==> s in slots && MytDay(s.slotTime) == MytDay(now))
      || (forall s :: s in r <==> s in slots && MytDay(s.slotTime) == MytDay(now) + 1)
    ensures (exists k :: 0 <= k < |slots| && MytDay(slots[k].slotTime) == MytDay(now)) ==>
      ActiveDaySlots(slots, now) == Filter(slots, OnDay(MytDay(now)))
    ensures (forall k :: 0 <= k < |slots| ==> MytDay(slots[k].slotTime) != MytDay(now)) ==>
      ActiveDaySlots(slots, now) == Filter(slots, OnDay(MytDay(now) + 1))
  {
    FilterEmpty(slots, OnDay(MytDay(now)));
    FilterMembers(slots, OnDay(MytDay(now)));
    FilterMembers(slots, OnDay(MytDay(now) + 1));
  }

  function OpenAt(now: int): Slot -> bool { (s: Slot) => CloseAt(s) > now }

  /** The slot the panel selects: the first whose bidding window is still open, else the last one. */
  function AutoSelect(active: seq<Slot>, now: int): (r: Slot)
    requires |active| > 0
    ensures r in active
    ensures (exists k :: 0 <= k < |active| && CloseAt(active[k]) > now) ==>
      exists i :: 0 <= i < |active| && r == active[i] && CloseAt(r) > now && forall j :: 0 <= j < i ==> CloseAt(active[j]) <= now
    ensures (forall k :: 0 <= k < |active| ==> CloseAt(active[k]) <= now) ==> r == active[|active| - 1]
  {
    match FindFirst(active, OpenAt(now))
    case Some(i) => active[i]
    case None => active[|active| - 1]
  }

  // ---------------------------------------------------------------------
  // Countdown
  // ---------------------------------------------------------------------

  /** `tick`: "00:00:00" once the window has closed, else hours, minutes and seconds left. */
  function Countdown(diff: int): string
  {
    if diff <= 0 then "00:00:00"
    else Pad2(diff / HourMs) + ":" + Pad2((diff % HourMs) / MinuteMs) + ":" + Pad2((diff % MinuteMs) / SecondMs)
  }

  /** The three fields of the countdown for a window still open. */
  function CountdownFields(diff: int): (f: (nat, nat, nat))
    requires diff > 0
    ensures f.1 < 60 && f.2 < 60
    ensures f.0 * 3600 + f.1 * 60 + f.2 == diff / SecondMs
  {
    var h := diff / HourMs;
    var r := diff % HourMs;
    var m := r / MinuteMs;
    var s := (diff % MinuteMs) / SecondMs;
    SecondsSplit(diff);
    (h, m, s)
  }

  lemma SecondsSplit(diff: int)
    requires diff > 0
    ensures (diff % HourMs) / MinuteMs < 60 && (diff % MinuteMs) / SecondMs < 60
    ensures (diff / HourMs) * 3600 + ((diff % HourMs) / MinuteMs) * 60 + (diff % MinuteMs) / SecondMs == diff / SecondMs
  {
    var h := diff / HourMs;
    var r := diff % HourMs;
    var m := r / MinuteMs;
    var r2 := r % MinuteMs;
    var s := r2 / SecondMs;
    assert diff == h * HourMs + m * MinuteMs + r2;
    assert diff == (h * 60 + m) * MinuteMs + r2;
    DivUnique(diff, h * 60 + m, r2, MinuteMs);
    assert diff == (h * 3600 + m * 60 + s) * SecondMs + r2 % SecondMs;
    DivUnique(diff, h * 3600 + m * 60 + s, r2 % SecondMs, SecondMs);
  }

  /** Division by a positive number has one quotient and one remainder. */
  lemma DivUnique(x: int, q: int, r: int, d: int)
    requires d > 0 && 0 <= r < d && x == q * d + r
    ensures x / d == q && x % d == r
  {
    var q0, r0 := x / d, x % d;
    if q0 < q {
      MulAtLeast(q - q0, d);
    } else if q0 > q {
      MulAtLeast(q0 - q, d);
    }
  }

  lemma MulAtLeast(a: int, d: int)
    requires a >= 1 && d > 0
    ensures a * d >= d
  {
  }

  /** Three padded fields joined by `:`. */
  function ClockText(h: nat, m: nat, sec: nat): string
  {
    Pad2(h) + ":" + Pad2(m) + ":" + Pad2(sec)
  }

  lemma CountdownIsClock(diff: int)
    requires diff > 0
    ensures var f := CountdownFields(diff); Countdown(diff) == ClockText(f.0, f.1, f.2)
  {
  }

  lemma SplitClockText(h: nat, m: nat, sec: nat)
    ensures Split(ClockText(h, m, sec), ":") == [Pad2(h), Pad2(m), Pad2(sec)]
  {
    var a, b, c := Pad2(h), Pad2(m), Pad2(sec);
    DigitsNoChar(a, ':');
    DigitsNoChar(b, ':');
    DigitsNoChar(c, ':');
    assert a + ":" + b + ":" + c == a + [':'] + (b + [':'] + c);
    SplitAtFirst(a, ':', b + [':'] + c);
    SplitPair(b, c, ':');
  }

  /**
   * The countdown reads back: its three `:`-separated fields are the hours,
   * minutes and seconds left, which add up to the whole seconds left.
   */
  lemma CountdownReadsBack(diff: int)
    requires diff > 0
    ensures var f := CountdownFields(diff);
      && Split(Countdown(diff), ":") == [Pad2(f.0), Pad2(f.1), Pad2(f.2)]
      && ToNumber(Pad2(f.0)) == Some(f.0 as int) && ToNumber(Pad2(f.1)) == Some(f.1 as int) && ToNumber(Pad2(f.2)) == Some(f.2 as int)
  {
    var f := CountdownFields(diff);
    CountdownIsClock(diff);
    SplitClockText(f.0, f.1, f.2);
    ToNumberPad2(f.0);
    ToNumberPad2(f.1);
    ToNumberPad2(f.2);
  }

  /** The timer line is hidden ("00:00:00") exactly when less than a second is left. */
  lemma CountdownHidden(diff: int)
    ensures Countdown(diff) == "00:00:00" <==> diff < SecondMs
  {
    if diff > 0 {
      var f := CountdownFields(diff);
      CountdownIsClock(diff);
      if diff < SecondMs {
        assert f.0 == 0 && f.1 == 0 && f.2 == 0;
        assert ClockText(0, 0, 0) == "00:00:00";
      }
      if Countdown(diff) == "00:00:00" {
        ClockZero(f.0, f.1, f.2);
      }
    }
  }

  /** Only zero hours, minutes and seconds give "00:00:00". */
  lemma ClockZero(h: nat, m: nat, sec: nat)
    requires ClockText(h, m, sec) == "00:00:00"
    ensures h == 0 && m == 0 && sec == 0
  {
    SplitClockText(h, m, sec);
    assert ClockText(0, 0, 0) == "00:00:00";
    SplitClockText(0, 0, 0);
    ToNumberPad2(h);
    ToNumberPad2(m);
    ToNumberPad2(sec);
    ToNumberPad2(0);
  }

  // ---------------------------------------------------------------------
  // Result polling
  // ---------------------------------------------------------------------

  /** `minutesUntilSlot`: whole minutes to the slot time, rounded down. */
  function MinutesUntil(slotTime: int, now: int): (r: int)
    ensures r * MinuteMs <= slotTime - now < (r + 1) * MinuteMs
  {
    (slotTime - now) / MinuteMs
  }

  predicate HasResultFor(results: seq<DrawResult>, id: string)
  {
    exists k :: 0 <= k < |results| && results[k].slotId == id
  }

  /** Results are polled while the slot is at most 30 whole minutes away and has no result yet. */
  predicate ShouldPoll(slot: Slot, results: seq<DrawResult>, now: int)
  {
    MinutesUntil(slot.slotTime, now) <= 30 && !HasResultFor(results, slot.id)
  }

  /** Rounding down makes the gate open as soon as less than 31 minutes are left. */
  lemma PollGate(slot: Slot, results: seq<DrawResult>, now: int)
    ensures ShouldPoll(slot, results, now) <==> slot.slotTime - now < 31 * MinuteMs && !HasResultFor(results, slot.id)
  {
    var r := MinutesUntil(slot.slotTime, now);
    if r > 30 {
      assert r * MinuteMs >= 31 * MinuteMs;
    } else {
      assert (r + 1) * MinuteMs <= 31 * MinuteMs;
    }
  }

  // ---------------------------------------------------------------------
  // Winning number and bid link
  // ---------------------------------------------------------------------

  function ForSlot(id: string): DrawResult -> bool { (r: DrawResult) => r.slotId == id }

  /** The first result of the selected slot, padded to two digits when its number is truthy, else "??". */
  function WinnerText(selected: Option<Slot>, results: seq<DrawResult>): string
  {
    if selected.None? then "??"
    else
      match FindFirst(results, ForSlot(selected.value.id))
      case None => "??"
      case Some(i) =>
        var w := results[i].winningNumber;
        if w.Some? && w.value != 0 then PadStart(IntToString(w.value), 2, '0') else "??"
  }

  /** The winning number of the selected slot's first result, when it is neither missing nor 0. */
  predicate Announced(selected: Option<Slot>, results: seq<DrawResult>)
  {
    selected.Some? &&
    var i := FindFirst(results, ForSlot(selected.value.id));
    i.Some? && results[i.value].winningNumber.Some? && results[i.value].winningNumber.value != 0
  }

  /**
   * The panel has a result exactly when the selected slot's first result
   * carries a non-zero number: a result of 0 shows "??", and a number up to
   * 99 shows with two digits.
   */
  lemma WinnerShown(selected: Option<Slot>, results: seq<DrawResult>)
    ensures WinnerText(selected, results) != "??" <==> Announced(selected, results)
    ensures Announced(selected, results) ==>
      var w := results[FindFirst(results, ForSlot(selected.value.id)).value].winningNumber.value;
      0 < w < 100 ==> WinnerText(selected, results) == Pad2(w)
  {
    if Announced(selected, results) {
      var w := results[FindFirst(results, ForSlot(selected.value.id)).value].winningNumber.value;
      var t := IntToString(w);
      var r := PadStart(t, 2, '0');
      assert r[|r| - |t|..] == t;
      assert r[|r| - 1] == t[|t| - 1];
      if w >= 0 {
        assert IsDigit(t[|t| - 1]);
      } else {
        assert t[|t| - 1] == NatToString(-w)[|NatToString(-w)| - 1];
        assert IsDigit(t[|t| - 1]);
      }
      assert r != "??" by { assert "??"[1] == '?'; }
      if 0 < w < 100 { Pad2IsPadStart(w); }
    }
  }

  /** Bidding is open while the selected slot's window has not closed. */
  predicate BiddingOpen(selected: Option<Slot>, now: int)
  {
    selected.Some? && CloseAt(selected.value) > now
  }

  datatype BidLink = BidLink(href: string, text: string)

  function LinkFor(open: bool, hasResult: bool): BidLink
  {
    BidLink(if open && !hasResult then "/bid" else "#",
            if hasResult then "Result Announced" else if open then "Make a Bid" else "Bidding Closed")
  }

  /**
   * The link leads to /bid exactly when bidding is open and there is no
   * result, and exactly then it reads "Make a Bid"; an announced result
   * overrides everything.
   */
  lemma LinkRule(open: bool, hasResult: bool)
    ensures LinkFor(open, hasResult).href == "/bid" <==> open && !hasResult
    ensures LinkFor(open, hasResult).text == "Make a Bid" <==> LinkFor(open, hasResult).href == "/bid"
    ensures hasResult ==> LinkFor(open, hasResult).text == "Result Announced"
    ensures !open && !hasResult ==> LinkFor(open, hasResult).text == "Bidding Closed"
  {
  }

  // ---------------------------------------------------------------------
  // Slot buttons
  // ---------------------------------------------------------------------

  function MytHour(t: int): nat { ((t + MytOffsetMs) % DayMs) / HourMs }
  function MytMinute(t: int): nat { ((t + MytOffsetMs) % HourMs) / MinuteMs }

  /** `formatTimeDisplay(fmtMYT(slotTime, "HH:mm"))`. */
  function SlotLabel(s: Slot): Option<string>
  {
    BidPage.FormatTimeDisplay(Pad2(MytHour(s.slotTime)) + ":" + Pad2(MytMinute(s.slotTime)))
  }

  /** Every slot button reads its Malaysian time on the 12-hour clock. */
  lemma SlotLabelReading(s: Slot)
    ensures var h := MytHour(s.slotTime);
      && h < 24 && MytMinute(s.slotTime) < 60
      && SlotLabel(s) == Some(NatToString(Hour12(h)) + ":" + Pad2(MytMinute(s.slotTime)) + " " + (if h >= 12 then "PM" else "AM"))
  {
    BidPage.FormatTimeDisplayOfClock(MytHour(s.slotTime), MytMinute(s.slotTime));
  }

  // ---------------------------------------------------------------------
  // The panel
  // ---------------------------------------------------------------------

  datatype Fetch<T> = Failed | Loaded(value: T)

  class Panel {
    var allSlots: seq<Slot>
    var allResults: seq<DrawResult>
    var loading: bool
    var selectedSlot: Option<Slot>
    var timeLeft: string
    var winnerNumber: string

    constructor()
      ensures allSlots == [] && allResults == [] && loading && selectedSlot == None
      ensures timeLeft == "00:00:00" && winnerNumber == "??"
    {
      allSlots := [];
      allResults := [];
      loading := true;
      selectedSlot := None;
      timeLeft := "00:00:00";
      winnerNumber := "??";
    }

    /** The initial load keeps only Lucky Draw slots and results; a failure keeps what was there. */
    method Load(res: Fetch<(seq<Slot>, seq<DrawResult>)>)
      modifies this
      ensures !loading
      ensures res.Loaded? ==> allSlots == Filter(res.value.0, IsLdSlot()) && allResults == Filter(res.value.1, IsLdResult())
      ensures res.Failed? ==> allSlots == old(allSlots) && allResults == old(allResults)
      ensures selectedSlot == old(selectedSlot) && timeLeft == old(timeLeft) && winnerNumber == old(winnerNumber)
    {
      loading := true;
      if res.Loaded? {
        allSlots := Filter(res.value.0, IsLdSlot());
        allResults := Filter(res.value.1, IsLdResult());
      }
      loading := false;
    }

    /** The auto-select effect: nothing happens without active slots. */
    method AutoSelectSlot(now: int)
      modifies this
      ensures |ActiveDaySlots(old(allSlots), now)| == 0 ==> selectedSlot == old(selectedSlot)
      ensures |ActiveDaySlots(old(allSlots), now)| > 0 ==> selectedSlot == Some(AutoSelect(ActiveDaySlots(old(allSlots), now), now))
      ensures allSlots == old(allSlots) && allResults == old(allResults) && loading == old(loading)
      ensures timeLeft == old(timeLeft) && winnerNumber == old(winnerNumber)
    {
      var active := ActiveDaySlots(allSlots, now);
      if |active| > 0 {
        selectedSlot := Some(AutoSelect(active, now));
      }
    }

    /** A click on a slot button. */
    method Choose(slot: Slot)
      modifies this
      ensures selectedSlot == Some(slot)
      ensures allSlots == old(allSlots) && allResults == old(allResults) && loading == old(loading)
      ensures timeLeft == old(timeLeft) && winnerNumber == old(winnerNumber)
    {
      selectedSlot := Some(slot);
    }

    /** One timer tick. */
    method Tick(now: int)
      modifies this
      ensures timeLeft == (if old(selectedSlot).Some? then Countdown(CloseAt(old(selectedSlot).value) - now) else old(timeLeft))
      ensures allSlots == old(allSlots) && allResults == old(allResults) && loading == old(loading)
      ensures selectedSlot == old(selectedSlot) && winnerNumber == old(winnerNumber)
    {
      if selectedSlot.Some? {
        timeLeft := Countdown(CloseAt(selectedSlot.value) - now);
      }
    }

    /** One polling round: a successful fetch replaces the results with the Lucky Draw ones. */
    method Poll(res: Fetch<seq<DrawResult>>)
      modifies this
      ensures res.Loaded? ==> allResults == Filter(res.value, IsLdResult())
      ensures res.Failed? ==> allResults == old(allResults)
      ensures allSlots == old(allSlots) && loading == old(loading) && selectedSlot == old(selectedSlot)
      ensures timeLeft == old(timeLeft) && winnerNumber == old(winnerNumber)
    {
      if res.Loaded? {
        allResults := Filter(res.value, IsLdResult());
      }
    }

    /** The winner-number effect. */
    method ShowWinner()
      modifies this
      ensures winnerNumber == WinnerText(selectedSlot, allResults)
      ensures winnerNumber != "??" <==> Announced(selectedSlot, allResults)
      ensures allSlots == old(allSlots) && allResults == old(allResults) && loading == old(loading)
      ensures selectedSlot == old(selectedSlot) && timeLeft == old(timeLeft)
    {
      winnerNumber := WinnerText(selectedSlot, allResults);
      WinnerShown(selectedSlot, allResults);
    }

    /** The bid link as rendered. */
    function Link(now: int): BidLink
      reads this
    {
      LinkFor(BiddingOpen(selectedSlot, now), winnerNumber != "??")
    }
  }
}
