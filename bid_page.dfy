/**
 * The agent's bid page: picking a draw slot, validating the Lucky Draw (LD)
 * and Jackpot (JP) forms, keeping a local cart per draw type keyed by
 * `date-time`, editing and deleting cart lines, and confirming the bids of
 * the selected slot one by one against the backend.
 *
 * Instants are integers in milliseconds; a date is the `yyyy-MM-dd` text of
 * the date picked on the calendar. The backend's `createBid` is an oracle:
 * `backend(i, payload)` says whether the i-th call of a confirmation succeeds.
 */
module BidPage {
  import opened Common

  datatype Section = Lucky | Jackpot
  datatype DrawType = LD | JP

  function SectionType(s: Section): DrawType
  {
    if s == Lucky then LD else JP
  }

  /** A draw slot of the selected day (`windowCloseAt` is `None` when it cannot be parsed). */
  datatype GroupedSlot = GroupedSlot(
    id: string,
    drawType: DrawType,
    status: string,
    slotTimeFormatted: string,
    windowCloseAt: Option<int>,
    bidPrize: Option<int>)

  datatype LdBid = LdBid(
    id: string, slotId: string, customerName: string, customerPhone: string,
    bidNumber: int, bidCount: int, date: string, time: string)

  datatype JpBid = JpBid(
    id: string, slotId: string, customerName: string, customerPhone: string,
    bidNumbers: seq<int>, bidCount: int, date: string, time: string)

  datatype CartBid = Ld(ld: LdBid) | Jp(jp: JpBid)

  datatype LdForm = LdForm(customerName: string, customerPhone: string, bidNumber: string, bidCount: string)
  datatype JpForm = JpForm(customerName: string, customerPhone: string, bidNumbers: seq<string>)
  datatype Errors = Errors(customerName: string, customerPhone: string, bidNumber: string, bidCount: string)

  const EmptyLdForm := LdForm("", "", "", "")
  const EmptyJpForm := JpForm("", "", ["", "", "", "", "", ""])
  const NoErrors := Errors("", "", "", "")

  // ---------------------------------------------------------------------
  // Slot choice
  // ---------------------------------------------------------------------

  /** A slot cannot be picked when it is not open or its bidding window has closed. */
  predicate IsSlotDisabled(slot: GroupedSlot, now: int)
  {
    if slot.status != "OPEN" then true
    else match slot.windowCloseAt
      case None => false
      case Some(close) => close <= now
  }

  /** The test the auto-selection applies to each slot. */
  predicate OpenAndInWindow(slot: GroupedSlot, now: int)
  {
    match slot.windowCloseAt
    case None => slot.status == "OPEN"
    case Some(close) => slot.status == "OPEN" && close > now
  }

  function FindOpen(slots: seq<GroupedSlot>, now: int): (r: Option<nat>)
    ensures r.Some? ==>
      && r.value < |slots| && OpenAndInWindow(slots[r.value], now)
      && forall k :: 0 <= k < r.value ==> !OpenAndInWindow(slots[k], now)
    ensures r.None? ==> forall k :: 0 <= k < |slots| ==> !OpenAndInWindow(slots[k], now)
  {
    if |slots| == 0 then None
    else if OpenAndInWindow(slots[0], now) then Some(0)
    else match FindOpen(slots[1..], now)
      case None => None
      case Some(k) => Some(k + 1)
  }

  /** The slot selected when the day's slot list changes: the first open one, else the first one. */
  function AutoSelectSlot(slots: seq<GroupedSlot>, now: int): (r: Option<GroupedSlot>)
    ensures |slots| == 0 <==> r.None?
    ensures r.Some? ==> r.value in slots
  {
    if |slots| == 0 then None
    else match FindOpen(slots, now)
      case Some(k) => Some(slots[k])
      case None => Some(slots[0])
  }

  /**
   * The automatic choice is the first slot the list shows as enabled; only
   * when every slot is disabled does it fall back to the first (disabled) one.
   */
  lemma AutoSelectPicksFirstEnabled(slots: seq<GroupedSlot>, now: int)
    requires |slots| > 0
    ensures (exists k :: 0 <= k < |slots| && !IsSlotDisabled(slots[k], now)) ==>
      exists k :: 0 <= k < |slots| && AutoSelectSlot(slots, now) == Some(slots[k])
        && !IsSlotDisabled(slots[k], now)
        && forall t :: 0 <= t < k ==> IsSlotDisabled(slots[t], now)
    ensures (forall k :: 0 <= k < |slots| ==> IsSlotDisabled(slots[k], now)) ==>
      AutoSelectSlot(slots, now) == Some(slots[0])
  {
    assert forall k :: 0 <= k < |slots| ==> (IsSlotDisabled(slots[k], now) <==> !OpenAndInWindow(slots[k], now));
  }

  // ---------------------------------------------------------------------
  // Display of a slot time
  // ---------------------------------------------------------------------

  /** `h === 0 ? 12 : h > 12 ? h - 12 : h`. */
  function DisplayHour(h: Option<int>): string
  {
    match h
    case None => "NaN"
    case Some(v) => if v == 0 then "12" else if v > 12 then IntToString(v - 12) else IntToString(v)
  }

  /** `${displayH}:${m.toString().padStart(2, "0")} ${period}` for the values read by `Number`. */
  function ClockText(h: Option<int>, m: Option<int>): string
  {
    var period := if h.Some? && h.value >= 12 then "PM" else "AM";
    DisplayHour(h) + ":" + PadStart(NumText(m), 2, '0') + " " + period
  }

  /**
   * `time.split(":").map(Number)` rendered as `h:mm AM|PM` with an unpadded
   * hour. `None` when the text has no `:`, where the source throws on the
   * missing minute.
   */
  function FormatTimeDisplay(time: string): (r: Option<string>)
    ensures r.None? <==> NoChar(time, ':')
  {
    var parts := Split(time, ":");
    if |parts| < 2 then
      assert NoChar(time, ':') by { SplitLengthOne(time); }
      None
    else
      assert !NoChar(time, ':') by { if NoChar(time, ':') { SplitNoSep(time, ':'); } }
      Some(ClockText(ToNumber(parts[0]), ToNumber(parts[1])))
  }

  lemma {:induction false} SplitLengthOne(s: string)
    requires |Split(s, ":")| < 2
    ensures NoChar(s, ':')
    decreases |s|
  {
    if |s| > 0 {
      if s[..1] == ":" {
        assert false;
      } else {
        assert s[0] != ':' by { assert s[..1][0] == s[0]; }
        SplitLengthOne(s[1..]);
      }
    }
  }

  lemma SplitClock(h: nat, m: nat)
    requires h < 100 && m < 100
    ensures Split(Pad2(h) + ":" + Pad2(m), ":") == [Pad2(h), Pad2(m)]
  {
    assert NoChar(Pad2(h), ':');
    assert NoChar(Pad2(m), ':');
    SplitAtFirst(Pad2(h), ':', Pad2(m));
    SplitNoSep(Pad2(m), ':');
  }

  /** For a well-formed `HH:mm` slot time the display is the usual 12-hour reading. */
  lemma FormatTimeDisplayOfClock(h: nat, m: nat)
    requires h < 24 && m < 60
    ensures FormatTimeDisplay(Pad2(h) + ":" + Pad2(m)) ==
      Some(NatToString(Hour12(h)) + ":" + Pad2(m) + " " + (if h >= 12 then "PM" else "AM"))
  {
    SplitClock(h, m);
    ToNumberPad2(h);
    ToNumberPad2(m);
    ClockTextOfClock(h, m);
  }

  lemma ClockTextOfClock(h: nat, m: nat)
    requires h < 24 && m < 60
    ensures ClockText(Some(h as int), Some(m as int)) == NatToString(Hour12(h)) + ":" + Pad2(m) + " " + (if h >= 12 then "PM" else "AM")
  {
    assert PadStart(NatToString(m), 2, '0') == Pad2(m);
    assert DisplayHour(Some(h as int)) == NatToString(Hour12(h));
  }

  /** The 12-hour face and the period together determine the hour: distinct slot times display differently. */
  lemma Hour12Determines(h1: nat, h2: nat)
    requires h1 < 24 && h2 < 24
    requires Hour12(h1) == Hour12(h2) && (h1 >= 12) == (h2 >= 12)
    ensures h1 == h2
  {
  }

  // ---------------------------------------------------------------------
  // Form validation
  // ---------------------------------------------------------------------

  /** `/^\d{10}$/`. */
  predicate PhoneOk(phone: string) { |phone| == 10 && AllDigits(phone) }

  predicate InRange(x: Option<int>, lo: int, hi: int) { x.Some? && lo <= x.value <= hi }

  datatype Validation = Validation(valid: bool, errors: Errors)

  function NameError(name: string): string { if Blank(name) then "Name is required" else "" }
  function PhoneError(phone: string): string { if PhoneOk(phone) then "" else "Phone must be 10 digits" }

  function LdNumberError(f: LdForm): string
  {
    if f.bidNumber == "" then "Bid number required"
    else if !InRange(ParseInt(f.bidNumber), 0, 37) then "Must be 0\U{2013}37"
    else ""
  }

  function LdCountError(f: LdForm): string
  {
    if f.bidCount == "" then "Count required"
    else if !InRange(ParseInt(f.bidCount), 1, 80) then "Count must be between 1 and 80"
    else ""
  }

  function JpNumbersError(f: JpForm): string
  {
    if exists k :: 0 <= k < |f.bidNumbers| && f.bidNumbers[k] == "" then "All 6 numbers required"
    else if exists k :: 0 <= k < |f.bidNumbers| && !InRange(ParseInt(f.bidNumbers[k]), 0, 37) then "Numbers must be 0\U{2013}37"
    else ""
  }

  /**
   * The form check run before a line is added to the cart. Each field's
   * message is set exactly when its check fails, and the form is valid
   * exactly when no message is set.
   */
  function Validate(section: Section, ld: LdForm, jp: JpForm): (r: Validation)
    ensures r.valid <==> r.errors == NoErrors
    ensures section == Lucky ==>
      (r.valid <==>
        && !Blank(ld.customerName) && PhoneOk(ld.customerPhone)
        && InRange(ParseInt(ld.bidNumber), 0, 37) && InRange(ParseInt(ld.bidCount), 1, 80))
    ensures section == Jackpot ==>
      (r.valid <==>
        && !Blank(jp.customerName) && PhoneOk(jp.customerPhone)
        && forall k :: 0 <= k < |jp.bidNumbers| ==> InRange(ParseInt(jp.bidNumbers[k]), 0, 37))
    ensures section == Jackpot ==> r.errors.bidCount == ""
  {
    var name := if section == Lucky then ld.customerName else jp.customerName;
    var phone := if section == Lucky then ld.customerPhone else jp.customerPhone;
    var errs :=
      if section == Lucky then Errors(NameError(name), PhoneError(phone), LdNumberError(ld), LdCountError(ld))
      else Errors(NameError(name), PhoneError(phone), JpNumbersError(jp), "");
    Validation(errs == NoErrors, errs)
  }

  /** A well-formed Lucky Draw form passes validation. */
  lemma ValidateAcceptsWellFormedLd(name: string, phone: string, n: nat, c: nat, jp: JpForm)
    requires !Blank(name) && PhoneOk(phone)
    requires n <= 37 && 1 <= c <= 80
    ensures Validate(Lucky, LdForm(name, phone, NatToString(n), NatToString(c)), jp).valid
  {
    ParseNatToString(n);
    ParseNatToString(c);
  }

  /**
   * The Lucky Draw check reads only the leading number of a `#`-separated
   * list: `5#40` passes it although 40 is out of range. The whole list is
   * checked again when the lines are added.
   */
  lemma ValidateReadsLeadingNumberOnly(name: string, phone: string, a: nat, b: nat, c: nat, jp: JpForm)
    requires !Blank(name) && PhoneOk(phone)
    requires a <= 37 < b && 1 <= c <= 80
    ensures Validate(Lucky, LdForm(name, phone, NatToString(a) + "#" + NatToString(b), NatToString(c)), jp).valid
    ensures ParseNumbers(NatToString(a) + "#" + NatToString(b)) == ListErr("Bid number must be between 0 and 37")
  {
    ParseIntOfList(a, b);
    ParseNatToString(c);
    PairRejected(a, b);
  }

  lemma PairRejected(a: nat, b: nat)
    requires 37 < b
    ensures ParseNumbers(NatToString(a) + "#" + NatToString(b)) == ListErr("Bid number must be between 0 and 37")
  {
    var ns := [a, b];
    assert Texts(ns) == [NatToString(a), NatToString(b)];
    JoinPair(NatToString(a), NatToString(b), "#");
    ParseListRejectsOutOfRange(ns, 0, 37, "Bid number must contain only numbers", "Bid number must be between 0 and 37", 1);
  }

  lemma ParseIntOfList(a: nat, b: nat)
    ensures ParseInt(NatToString(a) + "#" + NatToString(b)) == Some(a as int)
  {
    ConcatAssoc(NatToString(a), "#", NatToString(b));
    ParseIntIgnoresSuffix(NatToString(a), "#" + NatToString(b));
  }

  // ---------------------------------------------------------------------
  // The `#`-separated lists of the add mode
  // ---------------------------------------------------------------------

  datatype ListResult = ListOk(values: seq<int>) | ListErr(msg: string)

  function TrimAll(ps: seq<string>): (r: seq<string>)
    ensures |r| == |ps| && forall k :: 0 <= k < |ps| ==> r[k] == Trim(ps[k])
  {
    if |ps| == 0 then [] else [Trim(ps[0])] + TrimAll(ps[1..])
  }

  function NonEmpty(ps: seq<string>): (r: seq<string>)
    ensures forall k :: 0 <= k < |r| ==> r[k] != ""
    ensures |r| <= |ps|
  {
    if |ps| == 0 then [] else (if ps[0] == "" then [] else [ps[0]]) + NonEmpty(ps[1..])
  }

  lemma {:induction false} NonEmptyKeepsAll(ps: seq<string>)
    requires forall k :: 0 <= k < |ps| ==> ps[k] != ""
    ensures NonEmpty(ps) == ps
  {
    if |ps| > 0 {
      NonEmptyKeepsAll(ps[1..]);
      assert [ps[0]] + ps[1..] == ps;
    }
  }

  /** `input.split("#").map(v => v.trim()).filter(Boolean)`. */
  function Pieces(input: string): seq<string>
  {
    NonEmpty(TrimAll(Split(input, "#")))
  }

  /** `raw.map(Number)`. */
  function MapNumber(ps: seq<string>): (r: seq<Option<int>>)
    ensures |r| == |ps| && forall k :: 0 <= k < |ps| ==> r[k] == ToNumber(ps[k])
  {
    if |ps| == 0 then [] else [ToNumber(ps[0])] + MapNumber(ps[1..])
  }

  function Values(nums: seq<Option<int>>): (r: seq<int>)
    requires forall k :: 0 <= k < |nums| ==> nums[k].Some?
    ensures |r| == |nums| && forall k :: 0 <= k < |nums| ==> nums[k] == Some(r[k])
  {
    if |nums| == 0 then [] else [nums[0].value] + Values(nums[1..])
  }

  /**
   * Checks the values read by `Number`: any `NaN` gives `nanMsg`, otherwise
   * any value outside `lo..hi` gives `rangeMsg`, and otherwise the values in
   * order.
   */
  function CheckValues(nums: seq<Option<int>>, lo: int, hi: int, nanMsg: string, rangeMsg: string): (r: ListResult)
    ensures r.ListOk? <==> forall k :: 0 <= k < |nums| ==> InRange(nums[k], lo, hi)
    ensures r.ListOk? ==> |r.values| == |nums| && forall k :: 0 <= k < |nums| ==> nums[k] == Some(r.values[k])
    ensures r.ListErr? && (exists k :: 0 <= k < |nums| && nums[k].None?) ==> r.msg == nanMsg
    ensures r.ListErr? && (forall k :: 0 <= k < |nums| ==> nums[k].Some?) ==> r.msg == rangeMsg
  {
    if exists k :: 0 <= k < |nums| && nums[k].None? then ListErr(nanMsg)
    else if exists k :: 0 <= k < |nums| && !(lo <= nums[k].value <= hi) then ListErr(rangeMsg)
    else ListOk(Values(nums))
  }

  lemma CheckedValuesInBounds(nums: seq<Option<int>>, lo: int, hi: int, nanMsg: string, rangeMsg: string)
    requires CheckValues(nums, lo, hi, nanMsg, rangeMsg).ListOk?
    ensures forall k :: 0 <= k < |CheckValues(nums, lo, hi, nanMsg, rangeMsg).values| ==>
      lo <= CheckValues(nums, lo, hi, nanMsg, rangeMsg).values[k] <= hi
  {
    var r := CheckValues(nums, lo, hi, nanMsg, rangeMsg);
    assert forall k :: 0 <= k < |r.values| ==> InRange(nums[k], lo, hi) && nums[k] == Some(r.values[k]);
  }

  /** `parseAndValidateNumbers`: bid numbers in `0..37`. */
  function ParseNumbers(input: string): ListResult
  {
    CheckValues(MapNumber(Pieces(input)), 0, 37, "Bid number must contain only numbers", "Bid number must be between 0 and 37")
  }

  /** `parseAndValidateCounts`: bid counts in `1..80`. */
  function ParseCounts(input: string): ListResult
  {
    CheckValues(MapNumber(Pieces(input)), 1, 80, "Bid count must contain only numbers", "Bid count must be between 1 and 80")
  }

  function Texts(ns: seq<nat>): (r: seq<string>)
    ensures |r| == |ns| && forall k :: 0 <= k < |ns| ==> r[k] == NatToString(ns[k])
  {
    if |ns| == 0 then [] else [NatToString(ns[0])] + Texts(ns[1..])
  }

  function Ints(ns: seq<nat>): (r: seq<int>)
    ensures |r| == |ns| && forall k :: 0 <= k < |ns| ==> r[k] == ns[k] as int
  {
    if |ns| == 0 then [] else [ns[0] as int] + Ints(ns[1..])
  }

  lemma TrimAllUnchanged(ps: seq<string>)
    requires forall k :: 0 <= k < |ps| ==> Trim(ps[k]) == ps[k]
    ensures TrimAll(ps) == ps
  {
  }

  lemma TextsAreDigits(ns: seq<nat>)
    ensures forall k :: 0 <= k < |ns| ==>
      IsDigits(Texts(ns)[k]) && NoChar(Texts(ns)[k], '#') && Trim(Texts(ns)[k]) == Texts(ns)[k]
  {
    forall k | 0 <= k < |ns|
      ensures Trim(Texts(ns)[k]) == Texts(ns)[k]
    {
      DigitsTrim(Texts(ns)[k]);
    }
  }

  /** `String(n)` of each number, joined with `#`: the shape of a multi-bid entry such as `5#12#30`. */
  lemma PiecesOfJoin(ns: seq<nat>)
    requires |ns| >= 1
    ensures Pieces(Join(Texts(ns), "#")) == Texts(ns)
  {
    TextsAreDigits(ns);
    PiecesOfPlain(Texts(ns));
  }

  lemma PiecesOfPlain(ts: seq<string>)
    requires |ts| >= 1
    requires forall k :: 0 <= k < |ts| ==> IsDigits(ts[k]) && NoChar(ts[k], '#') && Trim(ts[k]) == ts[k]
    ensures Pieces(Join(ts, "#")) == ts
  {
    SplitJoin(ts, '#');
    assert Split(Join(ts, "#"), "#") == ts;
    TrimAllUnchanged(ts);
    NonEmptyKeepsAll(ts);
    assert NonEmpty(TrimAll(ts)) == ts;
  }

  /** A list typed as `5#12#30` with numbers in range is read back as exactly those numbers. */
  lemma ParseListRoundTrip(ns: seq<nat>, lo: nat, hi: nat, nanMsg: string, rangeMsg: string)
    requires |ns| >= 1
    requires forall k :: 0 <= k < |ns| ==> lo <= ns[k] <= hi
    ensures CheckValues(MapNumber(Pieces(Join(Texts(ns), "#"))), lo, hi, nanMsg, rangeMsg) == ListOk(Ints(ns))
  {
    PiecesOfJoin(ns);
    var nums := MapNumber(Texts(ns));
    forall k | 0 <= k < |nums| ensures nums[k] == Some(ns[k] as int) && InRange(nums[k], lo, hi) {
      ParseNatToString(ns[k]);
    }
    var r := CheckValues(nums, lo, hi, nanMsg, rangeMsg);
    assert r.ListOk?;
    assert r.values == Ints(ns);
  }

  /** A list typed as `5#12#30` with one number outside the bounds is refused with the range message. */
  lemma ParseListRejectsOutOfRange(ns: seq<nat>, lo: nat, hi: nat, nanMsg: string, rangeMsg: string, j: nat)
    requires j < |ns|
    requires !(lo <= ns[j] <= hi)
    ensures CheckValues(MapNumber(Pieces(Join(Texts(ns), "#"))), lo, hi, nanMsg, rangeMsg) == ListErr(rangeMsg)
  {
    PiecesOfJoin(ns);
    var nums := MapNumber(Texts(ns));
    forall k | 0 <= k < |nums| ensures nums[k] == Some(ns[k] as int) {
      ParseNatToString(ns[k]);
    }
    assert !InRange(nums[j], lo, hi);
    CheckValuesOutOfRange(nums, lo, hi, nanMsg, rangeMsg, j);
  }

  lemma CheckValuesOutOfRange(nums: seq<Option<int>>, lo: int, hi: int, nanMsg: string, rangeMsg: string, j: nat)
    requires forall k :: 0 <= k < |nums| ==> nums[k].Some?
    requires j < |nums| && !InRange(nums[j], lo, hi)
    ensures CheckValues(nums, lo, hi, nanMsg, rangeMsg) == ListErr(rangeMsg)
  {
  }

  // ---------------------------------------------------------------------
  // Cart lines
  // ---------------------------------------------------------------------

  /** The cart partition a line belongs to: `${date}-${time}`. */
  function Key(date: string, time: string): string
  {
    date + "-" + time
  }

  /** Dates have a fixed width, so the partition key determines its date and time. */
  lemma KeyInjective(d1: string, t1: string, d2: string, t2: string)
    requires |d1| == |d2|
    ensures Key(d1, t1) == Key(d2, t2) <==> d1 == d2 && t1 == t2
  {
    if Key(d1, t1) == Key(d2, t2) {
      assert d1 == Key(d1, t1)[..|d1|];
      assert d2 == Key(d2, t2)[..|d2|];
      assert t1 == Key(d1, t1)[|d1| + 1..];
      assert t2 == Key(d2, t2)[|d2| + 1..];
    }
  }

  function LdKey(b: LdBid): string { Key(b.date, b.time) }
  function JpKey(b: JpBid): string { Key(b.date, b.time) }

  function LdSlotIs(key: string): LdBid -> bool { b => LdKey(b) == key }
  function LdSlotIsNot(key: string): LdBid -> bool { b => LdKey(b) != key }
  function JpSlotIs(key: string): JpBid -> bool { b => JpKey(b) == key }
  function JpSlotIsNot(key: string): JpBid -> bool { b => JpKey(b) != key }
  function LdIdIsNot(id: string): LdBid -> bool { (b: LdBid) => b.id != id }
  function JpIdIsNot(id: string): JpBid -> bool { (b: JpBid) => b.id != id }

  function LdInSlot(cart: seq<LdBid>, key: string): seq<LdBid> { Filter(cart, LdSlotIs(key)) }
  function JpInSlot(cart: seq<JpBid>, key: string): seq<JpBid> { Filter(cart, JpSlotIs(key)) }
  function LdOutsideSlot(cart: seq<LdBid>, key: string): seq<LdBid> { Filter(cart, LdSlotIsNot(key)) }
  function JpOutsideSlot(cart: seq<JpBid>, key: string): seq<JpBid> { Filter(cart, JpSlotIsNot(key)) }
  function LdWithoutId(cart: seq<LdBid>, id: string): seq<LdBid> { Filter(cart, LdIdIsNot(id)) }
  function JpWithoutId(cart: seq<JpBid>, id: string): seq<JpBid> { Filter(cart, JpIdIsNot(id)) }

  /** Clearing a slot loses no line: the cart splits into the slot's lines and the others. */
  lemma ClearSplitsCart(cart: seq<LdBid>, key: string)
    ensures multiset(LdInSlot(cart, key)) + multiset(LdOutsideSlot(cart, key)) == multiset(cart)
    ensures |LdInSlot(cart, key)| + |LdOutsideSlot(cart, key)| == |cart|
  {
    FilterSplit(cart, LdSlotIs(key), LdSlotIsNot(key));
    assert |multiset(LdInSlot(cart, key)) + multiset(LdOutsideSlot(cart, key))| == |multiset(cart)|;
  }

  /** `prev.map(b => b.id === id ? bid : b)`. */
  function ReplaceLd(cart: seq<LdBid>, id: string, bid: LdBid): (r: seq<LdBid>)
    ensures |r| == |cart|
    ensures forall k :: 0 <= k < |cart| ==> r[k] == if cart[k].id == id then bid else cart[k]
  {
    if |cart| == 0 then [] else [if cart[0].id == id then bid else cart[0]] + ReplaceLd(cart[1..], id, bid)
  }

  function ReplaceJp(cart: seq<JpBid>, id: string, bid: JpBid): (r: seq<JpBid>)
    ensures |r| == |cart|
    ensures forall k :: 0 <= k < |cart| ==> r[k] == if cart[k].id == id then bid else cart[k]
  {
    if |cart| == 0 then [] else [if cart[0].id == id then bid else cart[0]] + ReplaceJp(cart[1..], id, bid)
  }

  /** `${a}_${b}`. */
  function Field(a: string, b: string): string
  {
    a + "_" + b
  }

  /** `LD_${now}_${index}_${num}_${phone}`. */
  function LdId(now: nat, index: nat, num: int, phone: string): string
  {
    "LD_" + Field(NatToString(now), Field(NatToString(index), Field(IntToString(num), phone)))
  }

  lemma DigitsNoUnderscore(s: string)
    requires AllDigits(s)
    ensures NoChar(s, '_')
  {
  }

  lemma FieldUnique(a: string, b: string, a': string, b': string)
    requires AllDigits(a) && AllDigits(a')
    requires Field(a, b) == Field(a', b')
    ensures a == a' && b == b'
  {
    DigitsNoUnderscore(a);
    DigitsNoUnderscore(a');
    FirstFieldUnique(a, b, a', b', '_');
  }

  /** The batch's timestamp and position can be read back from a line id. */
  lemma LdIdDeterminesTimeAndIndex(now1: nat, i1: nat, n1: int, p1: string, now2: nat, i2: nat, n2: int, p2: string)
    requires LdId(now1, i1, n1, p1) == LdId(now2, i2, n2, p2)
    ensures now1 == now2 && i1 == i2
  {
    var x1 := Field(NatToString(now1), Field(NatToString(i1), Field(IntToString(n1), p1)));
    var x2 := Field(NatToString(now2), Field(NatToString(i2), Field(IntToString(n2), p2)));
    assert x1 == LdId(now1, i1, n1, p1)[3..];
    assert x2 == LdId(now2, i2, n2, p2)[3..];
    FieldUnique(NatToString(now1), Field(NatToString(i1), Field(IntToString(n1), p1)),
                NatToString(now2), Field(NatToString(i2), Field(IntToString(n2), p2)));
    FieldUnique(NatToString(i1), Field(IntToString(n1), p1), NatToString(i2), Field(IntToString(n2), p2));
    NatToStringInjective(now1, now2);
    NatToStringInjective(i1, i2);
  }

  /** The lines added by one submission. */
  function NewLdBatch(nums: seq<int>, counts: seq<int>, f: LdForm, slot: GroupedSlot, date: string, now: nat): (r: seq<LdBid>)
    requires |nums| == |counts|
    ensures |r| == |nums|
    ensures forall k :: 0 <= k < |r| ==> r[k] == LdBid(LdId(now, k, nums[k], f.customerPhone), slot.id,
      f.customerName, f.customerPhone, nums[k], counts[k], date, slot.slotTimeFormatted)
  {
    seq(|nums|, k requires 0 <= k < |nums| =>
      LdBid(LdId(now, k, nums[k], f.customerPhone), slot.id, f.customerName, f.customerPhone,
        nums[k], counts[k], date, slot.slotTimeFormatted))
  }

  /** The lines added together have pairwise distinct ids, and none repeats an id of an earlier batch. */
  lemma NewLdBatchIdsDistinct(nums: seq<int>, counts: seq<int>, f: LdForm, slot: GroupedSlot, date: string, now: nat,
                              earlier: LdBid, earlierNow: nat, earlierIndex: nat, earlierNum: int)
    requires |nums| == |counts|
    requires earlier.id == LdId(earlierNow, earlierIndex, earlierNum, earlier.customerPhone)
    requires earlierNow != now
    ensures forall i, j :: 0 <= i < j < |nums| ==>
      NewLdBatch(nums, counts, f, slot, date, now)[i].id != NewLdBatch(nums, counts, f, slot, date, now)[j].id
    ensures forall i :: 0 <= i < |nums| ==> NewLdBatch(nums, counts, f, slot, date, now)[i].id != earlier.id
  {
    var b := NewLdBatch(nums, counts, f, slot, date, now);
    forall i, j | 0 <= i < j < |nums|
      ensures b[i].id != b[j].id
    {
      if b[i].id == b[j].id {
        LdIdDeterminesTimeAndIndex(now, i, nums[i], f.customerPhone, now, j, nums[j], f.customerPhone);
      }
    }
    forall i | 0 <= i < |nums|
      ensures b[i].id != earlier.id
    {
      if b[i].id == earlier.id {
        LdIdDeterminesTimeAndIndex(now, i, nums[i], f.customerPhone, earlierNow, earlierIndex, earlierNum, earlier.customerPhone);
      }
    }
  }

  /** `parseInt` of each of the six validated fields. */
  function ParsedNumbers(ns: seq<string>): (r: seq<int>)
    requires forall k :: 0 <= k < |ns| ==> ParseInt(ns[k]).Some?
    ensures |r| == |ns| && forall k :: 0 <= k < |ns| ==> Some(r[k]) == ParseInt(ns[k])
  {
    Values(MapParseInt(ns))
  }

  /** `raw.map(n => parseInt(n))`. */
  function MapParseInt(ps: seq<string>): (r: seq<Option<int>>)
    ensures |r| == |ps| && forall k :: 0 <= k < |ps| ==> r[k] == ParseInt(ps[k])
  {
    if |ps| == 0 then [] else [ParseInt(ps[0])] + MapParseInt(ps[1..])
  }

  // ---------------------------------------------------------------------
  // Totals
  // ---------------------------------------------------------------------

  /** `bidPrize || 1`: a missing or zero price counts as 1. */
  function UnitPrice(slot: GroupedSlot): (p: int)
    ensures p != 0
    ensures slot.bidPrize.Some? && slot.bidPrize.value != 0 ==> p == slot.bidPrize.value
  {
    match slot.bidPrize
    case None => 1
    case Some(v) => if v == 0 then 1 else v
  }

  function SumCounts(bids: seq<LdBid>): int
  {
    if |bids| == 0 then 0 else bids[0].bidCount + SumCounts(bids[1..])
  }

  /** LD total as the page folds it: `sum + b.bid_count * price` over the slot's lines. */
  function LdTotalFold(bids: seq<LdBid>, key: string, price: int, acc: int): int
  {
    if |bids| == 0 then acc
    else LdTotalFold(bids[1..], key, price, if LdKey(bids[0]) == key then acc + bids[0].bidCount * price else acc)
  }

  /** JP total as the page folds it: one fixed price per line of the slot. */
  function JpTotalFold(bids: seq<JpBid>, key: string, price: int, acc: int): int
  {
    if |bids| == 0 then acc
    else JpTotalFold(bids[1..], key, price, if JpKey(bids[0]) == key then acc + price else acc)
  }

  /** The LD total is the unit price times the units bid in the selected slot. */
  lemma {:induction false} LdTotalIsPriceTimesUnits(bids: seq<LdBid>, key: string, price: int, acc: int)
    ensures LdTotalFold(bids, key, price, acc) == acc + price * SumCounts(LdInSlot(bids, key))
  {
    if |bids| > 0 {
      LdTotalIsPriceTimesUnits(bids[1..], key, price,
        if LdKey(bids[0]) == key then acc + bids[0].bidCount * price else acc);
      var rest := LdInSlot(bids[1..], key);
      if LdKey(bids[0]) == key {
        assert LdInSlot(bids, key) == [bids[0]] + rest;
        assert ([bids[0]] + rest)[1..] == rest;
      } else {
        assert LdInSlot(bids, key) == rest;
      }
    }
  }

  /** The JP total is the unit price times the number of JP lines in the selected slot. */
  lemma {:induction false} JpTotalIsPriceTimesLines(bids: seq<JpBid>, key: string, price: int, acc: int)
    ensures JpTotalFold(bids, key, price, acc) == acc + price * |JpInSlot(bids, key)|
  {
    if |bids| > 0 {
      JpTotalIsPriceTimesLines(bids[1..], key, price, if JpKey(bids[0]) == key then acc + price else acc);
    }
  }

  // ---------------------------------------------------------------------
  // The page as a value
  // ---------------------------------------------------------------------

  datatype Page = Page(
    date: Option<string>,
    slot: Option<GroupedSlot>,
    section: Section,
    ldCart: seq<LdBid>,
    jpCart: seq<JpBid>,
    editing: Option<string>,
    ldForm: LdForm,
    jpForm: JpForm,
    errors: Errors,
    confirmOpen: bool)

  /** The key of the selected date and slot, when both are chosen. */
  function CurrentKey(p: Page): Option<string>
  {
    if p.date.Some? && p.slot.Some? then Some(Key(p.date.value, p.slot.value.slotTimeFormatted)) else None
  }

  /** `totalAmount`. */
  function TotalAmount(p: Page): int
  {
    match CurrentKey(p)
    case None => 0
    case Some(key) =>
      if p.section == Lucky then LdTotalFold(p.ldCart, key, UnitPrice(p.slot.value), 0)
      else JpTotalFold(p.jpCart, key, UnitPrice(p.slot.value), 0)
  }

  /** The LD lines shown in the cart: those of the selected date and slot. */
  function ShownLd(p: Page): seq<LdBid>
  {
    match CurrentKey(p)
    case None => []
    case Some(key) => LdInSlot(p.ldCart, key)
  }

  function ShownJp(p: Page): seq<JpBid>
  {
    match CurrentKey(p)
    case None => []
    case Some(key) => JpInSlot(p.jpCart, key)
  }

  function ResetForms(p: Page): (r: Page)
  {
    p.(editing := None, ldForm := EmptyLdForm, jpForm := EmptyJpForm)
  }

  /** Edit mode of the Lucky Draw form: the edited line replaces every line with its id. */
  function ReplaceEditedLd(p: Page): (r: Page)
    requires p.date.Some? && p.slot.Some? && p.section == Lucky && p.editing.Some?
    requires ParseInt(p.ldForm.bidNumber).Some? && ParseInt(p.ldForm.bidCount).Some?
    ensures r == ResetForms(r) && r.jpCart == p.jpCart && r.errors == p.errors
    ensures r.date == p.date && r.slot == p.slot && r.section == p.section
    ensures |r.ldCart| == |p.ldCart|
  {
    var f := p.ldForm;
    var slot := p.slot.value;
    var bid := LdBid(p.editing.value, slot.id, f.customerName, f.customerPhone,
      ParseInt(f.bidNumber).value, ParseInt(f.bidCount).value, p.date.value, slot.slotTimeFormatted);
    ResetForms(p.(ldCart := ReplaceLd(p.ldCart, p.editing.value, bid)))
  }

  /**
   * An edited Lucky Draw line keeps its id and takes the form's customer,
   * the parsed number and count, the selected slot and the date; every
   * other line stays as it was.
   */
  lemma ReplaceEditedLdValues(p: Page)
    requires p.date.Some? && p.slot.Some? && p.section == Lucky && p.editing.Some?
    requires ParseInt(p.ldForm.bidNumber).Some? && ParseInt(p.ldForm.bidCount).Some?
    ensures var r := ReplaceEditedLd(p);
      var f := p.ldForm;
      forall k :: 0 <= k < |p.ldCart| ==>
        && (p.ldCart[k].id != p.editing.value ==> r.ldCart[k] == p.ldCart[k])
        && (p.ldCart[k].id == p.editing.value ==>
              && r.ldCart[k].id == p.editing.value
              && r.ldCart[k].customerName == f.customerName && r.ldCart[k].customerPhone == f.customerPhone
              && Some(r.ldCart[k].bidNumber) == ParseInt(f.bidNumber)
              && Some(r.ldCart[k].bidCount) == ParseInt(f.bidCount)
              && r.ldCart[k].slotId == p.slot.value.id && r.ldCart[k].date == p.date.value
              && r.ldCart[k].time == p.slot.value.slotTimeFormatted)
  {
  }

  /** Add mode of the Lucky Draw form: one line per `#`-separated number, or an error. */
  function AddLdLines(p: Page, now: nat): (r: Page)
    requires p.date.Some? && p.slot.Some?
    ensures r.jpCart == p.jpCart && r.date == p.date && r.slot == p.slot && r.section == p.section
  {
    match ParseNumbers(p.ldForm.bidNumber)
    case ListErr(m) => p.(errors := p.errors.(bidNumber := m))
    case ListOk(nums) =>
      match ParseCounts(p.ldForm.bidCount)
      case ListErr(m) => p.(errors := p.errors.(bidCount := m))
      case ListOk(counts) =>
        if |nums| != |counts| then p.(errors := p.errors.(bidCount := "Numbers and counts must match in quantity"))
        else ResetForms(p.(ldCart := p.ldCart + NewLdBatch(nums, counts, p.ldForm, p.slot.value, p.date.value, now)))
  }

  /** The Jackpot form: a new line is appended, an edited one replaces the line with its id. */
  function PutJpLine(p: Page, now: nat): (r: Page)
    requires p.date.Some? && p.slot.Some? && p.section == Jackpot
    requires Validate(p.section, p.ldForm, p.jpForm).valid
    ensures r == ResetForms(r) && r.ldCart == p.ldCart && r.errors == p.errors
    ensures r.date == p.date && r.slot == p.slot && r.section == p.section
    ensures p.editing.None? ==> |r.jpCart| == |p.jpCart| + 1 && r.jpCart[..|p.jpCart|] == p.jpCart
    ensures p.editing.None? ==>
      && r.jpCart[|p.jpCart|].bidCount == 1
      && |r.jpCart[|p.jpCart|].bidNumbers| == |p.jpForm.bidNumbers|
      && JpKey(r.jpCart[|p.jpCart|]) == CurrentKey(p).value
    ensures p.editing.Some? ==> |r.jpCart| == |p.jpCart|
  {
    var bid := JpLineFor(p, now);
    ResetForms(p.(jpCart := if p.editing.Some? then ReplaceJp(p.jpCart, bid.id, bid) else p.jpCart + [bid]))
  }

  /** The Jackpot line the form describes: the edited id, or a fresh one from the instant and the phone. */
  function JpLineFor(p: Page, now: nat): JpBid
    requires p.date.Some? && p.slot.Some?
    requires forall k :: 0 <= k < |p.jpForm.bidNumbers| ==> ParseInt(p.jpForm.bidNumbers[k]).Some?
  {
    var f := p.jpForm;
    var slot := p.slot.value;
    var id := if p.editing.Some? then p.editing.value else "JP_" + NatToString(now) + "_" + f.customerPhone;
    JpBid(id, slot.id, f.customerName, f.customerPhone, ParsedNumbers(f.bidNumbers), 1, p.date.value, slot.slotTimeFormatted)
  }

  /**
   * The Jackpot line carries the form's customer and numbers, the selected
   * slot and date and one unit; an edit changes only the line with the
   * edited id, which keeps that id.
   */
  lemma PutJpLineValues(p: Page, now: nat)
    requires p.date.Some? && p.slot.Some? && p.section == Jackpot
    requires Validate(p.section, p.ldForm, p.jpForm).valid
    ensures var r := PutJpLine(p, now);
      var f := p.jpForm;
      && (p.editing.None? ==>
            var b := r.jpCart[|p.jpCart|];
            && b.customerName == f.customerName && b.customerPhone == f.customerPhone
            && b.slotId == p.slot.value.id && b.date == p.date.value && b.bidCount == 1
            && forall k :: 0 <= k < |f.bidNumbers| ==> Some(b.bidNumbers[k]) == ParseInt(f.bidNumbers[k]))
      && (p.editing.Some? ==>
            forall k :: 0 <= k < |p.jpCart| ==>
              && (p.jpCart[k].id != p.editing.value ==> r.jpCart[k] == p.jpCart[k])
              && (p.jpCart[k].id == p.editing.value ==>
                    r.jpCart[k].id == p.editing.value && r.jpCart[k].customerName == f.customerName
                    && r.jpCart[k].bidCount == 1 && |r.jpCart[k].bidNumbers| == |f.bidNumbers|))
  {
  }

  /** `handleSubmit`: validates, then adds or replaces cart lines (nothing is sent to the backend). */
  function Submit(p: Page, now: nat): Page
  {
    if p.date.None? || p.slot.None? then p
    else
      var v := Validate(p.section, p.ldForm, p.jpForm);
      var p1 := p.(errors := v.errors);
      if !v.valid then p1
      else if p.section == Jackpot then PutJpLine(p1, now)
      else if p.editing.Some? then ReplaceEditedLd(p1)
      else AddLdLines(p1, now)
  }

  /** A submission changes at most the cart of the active section, never the other one. */
  lemma SubmitTouchesActiveCartOnly(p: Page, now: nat)
    ensures p.section == Lucky ==> Submit(p, now).jpCart == p.jpCart
    ensures p.section == Jackpot ==> Submit(p, now).ldCart == p.ldCart
    ensures Submit(p, now).date == p.date && Submit(p, now).slot == p.slot && Submit(p, now).section == p.section
  {
    if p.date.Some? && p.slot.Some? {
      var v := Validate(p.section, p.ldForm, p.jpForm);
      var p1 := p.(errors := v.errors);
      if !v.valid {
        assert Submit(p, now) == p1;
      } else if p.section == Jackpot {
        assert Submit(p, now) == PutJpLine(p1, now);
      } else if p.editing.Some? {
        assert Submit(p, now) == ReplaceEditedLd(p1);
      } else {
        assert Submit(p, now) == AddLdLines(p1, now);
      }
    }
  }

  /** A rejected form leaves both carts and the editing state alone and reports why. */
  lemma SubmitRejectedKeepsCart(p: Page, now: nat)
    requires p.date.Some? && p.slot.Some?
    requires !Validate(p.section, p.ldForm, p.jpForm).valid
    ensures Submit(p, now).ldCart == p.ldCart && Submit(p, now).jpCart == p.jpCart
    ensures Submit(p, now).editing == p.editing && Submit(p, now).ldForm == p.ldForm && Submit(p, now).jpForm == p.jpForm
    ensures Submit(p, now).errors != NoErrors
  {
  }

  /**
   * In add mode a Lucky Draw submission either appends one line per number
   * — all in the selected slot, each number in `0..37` and each count in
   * `1..80` — and clears the form, or changes nothing but the error messages,
   * at least one of which is set.
   */
  lemma SubmitLdAddAppendsValidatedLines(p: Page, now: nat)
    requires p.date.Some? && p.slot.Some? && p.section == Lucky && p.editing.None?
    ensures var q := Submit(p, now);
      (q == p.(errors := q.errors) && q.errors != NoErrors)
      || (&& |q.ldCart| > |p.ldCart| && q.ldCart[..|p.ldCart|] == p.ldCart
          && q.errors == NoErrors && q.ldForm == EmptyLdForm
          && forall k :: |p.ldCart| <= k < |q.ldCart| ==>
               LdKey(q.ldCart[k]) == CurrentKey(p).value
               && 0 <= q.ldCart[k].bidNumber <= 37 && 1 <= q.ldCart[k].bidCount <= 80)
  {
    var v := Validate(p.section, p.ldForm, p.jpForm);
    if v.valid {
      var p1 := p.(errors := NoErrors);
      assert Submit(p, now) == AddLdLines(p1, now);
      AddLdLinesOutcome(p1, now);
    }
  }

  /** The add mode on a form whose leading number `parseInt` reads. */
  lemma AddLdLinesOutcome(p: Page, now: nat)
    requires p.date.Some? && p.slot.Some? && p.errors == NoErrors
    requires ParseInt(p.ldForm.bidNumber).Some?
    ensures var q := AddLdLines(p, now);
      (q == p.(errors := q.errors) && q.errors != NoErrors)
      || (&& |q.ldCart| > |p.ldCart| && q.ldCart[..|p.ldCart|] == p.ldCart
          && q.errors == NoErrors && q.ldForm == EmptyLdForm
          && forall k :: |p.ldCart| <= k < |q.ldCart| ==>
               LdKey(q.ldCart[k]) == CurrentKey(p).value
               && 0 <= q.ldCart[k].bidNumber <= 37 && 1 <= q.ldCart[k].bidCount <= 80)
  {
    var rn := ParseNumbers(p.ldForm.bidNumber);
    var rc := ParseCounts(p.ldForm.bidCount);
    if rn.ListOk? && rc.ListOk? && |rn.values| == |rc.values| {
      AddLdLinesAccepts(p, now);
    } else {
      AddLdLinesRejects(p, now);
    }
  }

  /** Two lists that pass their checks and match in length are appended as one batch. */
  lemma AddLdLinesAccepts(p: Page, now: nat)
    requires p.date.Some? && p.slot.Some?
    requires ParseNumbers(p.ldForm.bidNumber).ListOk? && ParseCounts(p.ldForm.bidCount).ListOk?
    requires |ParseNumbers(p.ldForm.bidNumber).values| == |ParseCounts(p.ldForm.bidCount).values|
    requires ParseInt(p.ldForm.bidNumber).Some?
    ensures var q := AddLdLines(p, now);
      && |q.ldCart| > |p.ldCart| && q.ldCart[..|p.ldCart|] == p.ldCart
      && q.errors == p.errors && q.ldForm == EmptyLdForm
      && forall k :: |p.ldCart| <= k < |q.ldCart| ==>
           LdKey(q.ldCart[k]) == CurrentKey(p).value
           && 0 <= q.ldCart[k].bidNumber <= 37 && 1 <= q.ldCart[k].bidCount <= 80
  {
    var rn := ParseNumbers(p.ldForm.bidNumber);
    var rc := ParseCounts(p.ldForm.bidCount);
    var batch := NewLdBatch(rn.values, rc.values, p.ldForm, p.slot.value, p.date.value, now);
    AddLdLinesAppends(p, now);
    ValidLdHasNumbers(p.ldForm.bidNumber);
    NumbersInBounds(p.ldForm.bidNumber);
    CountsInBounds(p.ldForm.bidCount);
    assert CurrentKey(p).value == Key(p.date.value, p.slot.value.slotTimeFormatted);
    BatchChecked(p.ldCart, rn.values, rc.values, p.ldForm, p.slot.value, p.date.value, now);
  }

  lemma AddLdLinesAppends(p: Page, now: nat)
    requires p.date.Some? && p.slot.Some?
    requires ParseNumbers(p.ldForm.bidNumber).ListOk? && ParseCounts(p.ldForm.bidCount).ListOk?
    requires |ParseNumbers(p.ldForm.bidNumber).values| == |ParseCounts(p.ldForm.bidCount).values|
    ensures var batch := NewLdBatch(ParseNumbers(p.ldForm.bidNumber).values, ParseCounts(p.ldForm.bidCount).values,
        p.ldForm, p.slot.value, p.date.value, now);
      var q := AddLdLines(p, now);
      q.ldCart == p.ldCart + batch && q.errors == p.errors && q.ldForm == EmptyLdForm
  {
  }

  lemma NumbersInBounds(input: string)
    requires ParseNumbers(input).ListOk?
    ensures forall k :: 0 <= k < |ParseNumbers(input).values| ==> 0 <= ParseNumbers(input).values[k] <= 37
  {
    CheckedValuesInBounds(MapNumber(Pieces(input)), 0, 37, "Bid number must contain only numbers", "Bid number must be between 0 and 37");
  }

  lemma CountsInBounds(input: string)
    requires ParseCounts(input).ListOk?
    ensures forall k :: 0 <= k < |ParseCounts(input).values| ==> 1 <= ParseCounts(input).values[k] <= 80
  {
    CheckedValuesInBounds(MapNumber(Pieces(input)), 1, 80, "Bid count must contain only numbers", "Bid count must be between 1 and 80");
  }

  /** A list that fails its check leaves the cart alone and sets a message. */
  lemma AddLdLinesRejects(p: Page, now: nat)
    requires p.date.Some? && p.slot.Some?
    requires !(ParseNumbers(p.ldForm.bidNumber).ListOk? && ParseCounts(p.ldForm.bidCount).ListOk?
               && |ParseNumbers(p.ldForm.bidNumber).values| == |ParseCounts(p.ldForm.bidCount).values|)
    ensures AddLdLines(p, now) == p.(errors := AddLdLines(p, now).errors)
    ensures AddLdLines(p, now).errors != NoErrors
  {
    var rn := ParseNumbers(p.ldForm.bidNumber);
    var rc := ParseCounts(p.ldForm.bidCount);
    if rn.ListErr? {
      ErrorMessageOf(MapNumber(Pieces(p.ldForm.bidNumber)), 0, 37, "Bid number must contain only numbers", "Bid number must be between 0 and 37");
      assert AddLdLines(p, now).errors.bidNumber == rn.msg;
    } else if rc.ListErr? {
      ErrorMessageOf(MapNumber(Pieces(p.ldForm.bidCount)), 1, 80, "Bid count must contain only numbers", "Bid count must be between 1 and 80");
      assert AddLdLines(p, now).errors.bidCount == rc.msg;
    } else {
      assert AddLdLines(p, now).errors.bidCount == "Numbers and counts must match in quantity";
    }
  }

  /** A failed check carries one of its two messages. */
  lemma ErrorMessageOf(nums: seq<Option<int>>, lo: int, hi: int, nanMsg: string, rangeMsg: string)
    requires nanMsg != "" && rangeMsg != ""
    ensures CheckValues(nums, lo, hi, nanMsg, rangeMsg).ListErr? ==> CheckValues(nums, lo, hi, nanMsg, rangeMsg).msg != ""
  {
  }

  /** Lines appended after `base` from checked numbers and counts lie in the slot and in range. */
  lemma BatchChecked(base: seq<LdBid>, nums: seq<int>, counts: seq<int>, f: LdForm, slot: GroupedSlot, date: string, now: nat)
    requires |nums| == |counts|
    requires forall k :: 0 <= k < |nums| ==> 0 <= nums[k] <= 37
    requires forall k :: 0 <= k < |counts| ==> 1 <= counts[k] <= 80
    ensures var c := base + NewLdBatch(nums, counts, f, slot, date, now);
      && c[..|base|] == base
      && forall k :: |base| <= k < |c| ==>
        LdKey(c[k]) == Key(date, slot.slotTimeFormatted) && 0 <= c[k].bidNumber <= 37 && 1 <= c[k].bidCount <= 80
  {
    var batch := NewLdBatch(nums, counts, f, slot, date, now);
    var c := base + batch;
    assert c[..|base|] == base;
    forall k | |base| <= k < |c|
      ensures LdKey(c[k]) == Key(date, slot.slotTimeFormatted) && 0 <= c[k].bidNumber <= 37 && 1 <= c[k].bidCount <= 80
    {
      assert c[k] == batch[k - |base|];
    }
  }

  /** A number the form check accepts leaves at least one piece for the add mode. */
  lemma ValidLdHasNumbers(input: string)
    requires ParseInt(input).Some?
    requires ParseNumbers(input).ListOk?
    ensures |ParseNumbers(input).values| > 0
  {
    var t := TrimStart(input);
    var u := SignSplit(t).1;
    var d := DigitPrefix(u);
    assert |d| > 0;
    PiecesNonEmptyOfDigit(input);
  }

  /** An input with a digit has a non-empty `#` piece. */
  lemma PiecesNonEmptyOfDigit(input: string)
    requires ParseInt(input).Some?
    ensures |Pieces(input)| > 0
  {
    var k := DigitPosition(input);
    var ps := Split(input, "#");
    var j := PieceWithChar(input, '#', k);
    assert ps[j] != "" && !Blank(ps[j]) by {
      PieceHasDigit(input, k);
      BlankIffAllWs(ps[j]);
    }
    TrimAllNonEmpty(ps, j);
  }

  /** Position of a digit in an input that `parseInt` reads. */
  lemma DigitPosition(input: string) returns (k: nat)
    requires ParseInt(input).Some?
    ensures k < |input| && IsDigit(input[k])
  {
    var t := TrimStart(input);
    var (neg, u) := SignSplit(t);
    assert |DigitPrefix(u)| > 0;
    if |t| > 0 && (t[0] == '-' || t[0] == '+') {
      assert u == t[1..];
      k := |input| - |t| + 1;
      assert input[k] == t[1] == u[0];
    } else {
      assert u == t;
      k := |input| - |t|;
      assert input[k] == t[0];
    }
  }

  /** Some piece of `split` contains the given non-separator character position. */
  lemma {:induction false} PieceWithChar(s: string, c: char, k: nat) returns (j: nat)
    requires k < |s| && s[k] != c
    ensures j < |Split(s, [c])| && exists t :: 0 <= t < |Split(s, [c])[j]| && Split(s, [c])[j][t] == s[k]
    decreases |s|
  {
    var ps := Split(s, [c]);
    if s[..1] == [c] {
      assert s[0] == c by { assert s[..1][0] == s[0]; }
      assert s[1..] == s[|[c]|..];
      var j' := PieceWithChar(s[1..], c, k - 1);
      assert ps == [""] + Split(s[1..], [c]);
      j := j' + 1;
      assert ps[j] == Split(s[1..], [c])[j'];
      assert s[1..][k - 1] == s[k];
    } else {
      var rest := Split(s[1..], [c]);
      assert ps == [[s[0]] + rest[0]] + rest[1..];
      if k == 0 {
        j := 0;
        assert ps[0][0] == s[0];
      } else {
        var j' := PieceWithChar(s[1..], c, k - 1);
        if j' == 0 {
          j := 0;
          var t :| 0 <= t < |rest[0]| && rest[0][t] == s[1..][k - 1];
          assert ps[0][t + 1] == rest[0][t];
        } else {
          j := j';
          assert ps[j] == rest[j'];
        }
      }
    }
  }

  lemma PieceHasDigit(input: string, k: nat)
    requires k < |input| && IsDigit(input[k])
    ensures exists j :: 0 <= j < |Split(input, "#")| && exists t :: 0 <= t < |Split(input, "#")[j]| && IsDigit(Split(input, "#")[j][t])
  {
    var j := PieceWithChar(input, '#', k);
  }

  lemma TrimAllNonEmpty(ps: seq<string>, j: nat)
    requires j < |ps| && !Blank(ps[j])
    ensures |NonEmpty(TrimAll(ps))| > 0
  {
    NonEmptyHas(TrimAll(ps), j);
  }

  lemma {:induction false} NonEmptyHas(ps: seq<string>, j: nat)
    requires j < |ps| && ps[j] != ""
    ensures |NonEmpty(ps)| > 0
    decreases j
  {
    if j > 0 && ps[0] == "" {
      NonEmptyHas(ps[1..], j - 1);
    }
  }

  /** `handleEdit`: loads a cart line into the form of its section and enters edit mode. */
  function Edit(p: Page, b: CartBid): (r: Page)
    requires (p.section == Lucky) == b.Ld?
  {
    match b
    case Ld(l) => p.(ldForm := LdForm(l.customerName, l.customerPhone, IntToString(l.bidNumber), IntToString(l.bidCount)),
                     editing := Some(l.id))
    case Jp(j) => p.(jpForm := JpForm(j.customerName, j.customerPhone, IntTexts(j.bidNumbers)),
                     editing := Some(j.id))
  }

  /**
   * Editing a validated line and submitting it again without changes gives
   * back the same line and leaves the cart as it was.
   */
  lemma EditThenSubmitRestoresLine(p: Page, b: LdBid, now: nat)
    requires p.section == Lucky && p.date.Some? && p.slot.Some?
    requires p.date.value == b.date && p.slot.value.slotTimeFormatted == b.time && p.slot.value.id == b.slotId
    requires 0 <= b.bidNumber <= 37 && 1 <= b.bidCount <= 80
    requires !Blank(b.customerName) && PhoneOk(b.customerPhone)
    requires b in p.ldCart
    requires forall k :: 0 <= k < |p.ldCart| && p.ldCart[k].id == b.id ==> p.ldCart[k] == b
    ensures Submit(Edit(p, Ld(b)), now).ldCart == p.ldCart
    ensures Submit(Edit(p, Ld(b)), now).editing.None?
  {
    var e := Edit(p, Ld(b));
    assert e.ldForm == LdForm(b.customerName, b.customerPhone, NatToString(b.bidNumber), NatToString(b.bidCount));
    ValidateAcceptsWellFormedLd(b.customerName, b.customerPhone, b.bidNumber, b.bidCount, e.jpForm);
    var e1 := e.(errors := NoErrors);
    assert Submit(e, now) == ReplaceEditedLd(e1);
    ParseNatToString(b.bidNumber);
    ParseNatToString(b.bidCount);
    assert ReplaceEditedLd(e1).ldCart == ReplaceLd(p.ldCart, b.id, b);
    ReplaceLdSame(p.ldCart, b);
  }

  lemma ReplaceLdSame(cart: seq<LdBid>, b: LdBid)
    requires forall k :: 0 <= k < |cart| && cart[k].id == b.id ==> cart[k] == b
    ensures ReplaceLd(cart, b.id, b) == cart
  {
    var r := ReplaceLd(cart, b.id, b);
    assert forall k :: 0 <= k < |cart| ==> r[k] == cart[k];
  }

  /** `handleDelete`: removes every line with that id from the active cart. */
  function Delete(p: Page, id: string): Page
  {
    var p1 := if p.section == Lucky then p.(ldCart := LdWithoutId(p.ldCart, id)) else p.(jpCart := JpWithoutId(p.jpCart, id));
    if p.editing == Some(id) then ResetForms(p1) else p1
  }

  /** After a delete no line carries the id, every other line stays, and an edit of that line is abandoned. */
  lemma DeleteRemovesExactlyId(p: Page, id: string)
    ensures p.section == Lucky ==>
      (forall b :: b in Delete(p, id).ldCart ==> b.id != id && b in p.ldCart)
      && (forall b :: b in p.ldCart && b.id != id ==> b in Delete(p, id).ldCart)
      && Delete(p, id).jpCart == p.jpCart
    ensures p.section == Jackpot ==>
      (forall b :: b in Delete(p, id).jpCart ==> b.id != id && b in p.jpCart)
      && (forall b :: b in p.jpCart && b.id != id ==> b in Delete(p, id).jpCart)
      && Delete(p, id).ldCart == p.ldCart
    ensures Delete(p, id).editing != Some(id)
  {
    FilterMembers(p.ldCart, LdIdIsNot(id));
    FilterMembers(p.jpCart, JpIdIsNot(id));
  }

  /** `handleClearAll`: drops the active cart's lines of the selected slot. */
  function ClearAll(p: Page): Page
  {
    match CurrentKey(p)
    case None => p
    case Some(key) =>
      var p1 := if p.section == Lucky then p.(ldCart := LdOutsideSlot(p.ldCart, key)) else p.(jpCart := JpOutsideSlot(p.jpCart, key));
      p1.(confirmOpen := false)
  }

  /** Clearing empties the selected slot's view, keeps lines of other slots and zeroes the total. */
  lemma ClearAllEmptiesSlotOnly(p: Page)
    requires CurrentKey(p).Some?
    ensures ShownLd(ClearAll(p)) == [] || p.section == Jackpot
    ensures ShownJp(ClearAll(p)) == [] || p.section == Lucky
    ensures TotalAmount(ClearAll(p)) == 0
    ensures forall b :: b in p.ldCart && LdKey(b) != CurrentKey(p).value ==> b in ClearAll(p).ldCart
    ensures forall b :: b in p.jpCart && JpKey(b) != CurrentKey(p).value ==> b in ClearAll(p).jpCart
  {
    var key := CurrentKey(p).value;
    var q := ClearAll(p);
    FilterMembers(p.ldCart, LdSlotIsNot(key));
    FilterMembers(p.jpCart, JpSlotIsNot(key));
    if p.section == Lucky {
      FilterNone(q.ldCart, LdSlotIs(key));
      LdTotalIsPriceTimesUnits(q.ldCart, key, UnitPrice(p.slot.value), 0);
    } else {
      FilterNone(q.jpCart, JpSlotIs(key));
      JpTotalIsPriceTimesLines(q.jpCart, key, UnitPrice(p.slot.value), 0);
    }
  }

  // ---------------------------------------------------------------------
  // Confirmation
  // ---------------------------------------------------------------------

  /** `CreateBidPayload`: no date or time, the slot id identifies the draw. */
  datatype BidPayload =
    | LdPayload(customerName: string, customerPhone: string, slotId: string, number: int, count: int)
    | JpPayload(customerName: string, customerPhone: string, slotId: string, jpNumbers: seq<int>)

  function LdPayloads(bids: seq<LdBid>): (r: seq<BidPayload>)
    ensures |r| == |bids|
    ensures forall k :: 0 <= k < |bids| ==> r[k] == LdPayload(bids[k].customerName, bids[k].customerPhone, bids[k].slotId, bids[k].bidNumber, bids[k].bidCount)
  {
    if |bids| == 0 then [] else [LdPayload(bids[0].customerName, bids[0].customerPhone, bids[0].slotId, bids[0].bidNumber, bids[0].bidCount)] + LdPayloads(bids[1..])
  }

  function JpPayloads(bids: seq<JpBid>): (r: seq<BidPayload>)
    ensures |r| == |bids|
    ensures forall k :: 0 <= k < |bids| ==> r[k] == JpPayload(bids[k].customerName, bids[k].customerPhone, bids[k].slotId, bids[k].bidNumbers)
  {
    if |bids| == 0 then [] else [JpPayload(bids[0].customerName, bids[0].customerPhone, bids[0].slotId, bids[0].bidNumbers)] + JpPayloads(bids[1..])
  }

  /** The payloads a confirmation sends, in cart order. */
  function ConfirmPayloads(p: Page): seq<BidPayload>
  {
    if p.section == Lucky then LdPayloads(ShownLd(p)) else JpPayloads(ShownJp(p))
  }

  /** Index of the first call that fails, or the number of payloads when all succeed. */
  function FirstRejected(ps: seq<BidPayload>, backend: (nat, BidPayload) -> bool, from: nat): (k: nat)
    requires from <= |ps|
    ensures from <= k <= |ps|
    ensures forall i :: from <= i < k ==> backend(i, ps[i])
    ensures k < |ps| ==> !backend(k, ps[k])
    decreases |ps| - from
  {
    if from == |ps| then from
    else if !backend(from, ps[from]) then from
    else FirstRejected(ps, backend, from + 1)
  }

  /**
   * `for (const bid of bids) await createBid(payload)`: the calls are made in
   * order and the first failure (an exception) stops the loop. Returns how
   * many calls succeeded and whether all did.
   */
  method SendSequentially(ps: seq<BidPayload>, backend: (nat, BidPayload) -> bool) returns (accepted: nat, ok: bool)
    ensures accepted == FirstRejected(ps, backend, 0)
    ensures ok <==> accepted == |ps|
    ensures forall i :: 0 <= i < accepted ==> backend(i, ps[i])
  {
    accepted := 0;
    while accepted < |ps| && backend(accepted, ps[accepted])
      invariant accepted <= |ps|
      invariant forall i :: 0 <= i < accepted ==> backend(i, ps[i])
      invariant FirstRejected(ps, backend, accepted) == FirstRejected(ps, backend, 0)
    {
      accepted := accepted + 1;
    }
    ok := accepted == |ps|;
  }

  /** `handleConfirmBid`: the page after the calls, given the backend's answers. */
  function Confirm(p: Page, backend: (nat, BidPayload) -> bool): Page
  {
    var ps := ConfirmPayloads(p);
    if p.slot.None? || |ps| == 0 then p
    else if FirstRejected(ps, backend, 0) == |ps| then ClearAll(p).(confirmOpen := false)
    else p.(confirmOpen := false)
  }

  /**
   * A confirmation clears the slot only when every call succeeds. When a
   * later call fails, the lines already accepted by the backend stay in the
   * cart, so confirming again sends them a second time.
   */
  lemma ConfirmClearsOnlyOnFullSuccess(p: Page, backend: (nat, BidPayload) -> bool)
    requires p.slot.Some? && p.section == Lucky
    ensures var ps := ConfirmPayloads(p);
      var k := FirstRejected(ps, backend, 0);
      (k == |ps| ==> Confirm(p, backend).ldCart == ClearAll(p).ldCart)
      && (k < |ps| ==>
           && Confirm(p, backend).ldCart == p.ldCart
           && forall i :: 0 <= i < k ==> ShownLd(p)[i] in Confirm(p, backend).ldCart)
  {
    var ps := ConfirmPayloads(p);
    if |ps| == 0 && CurrentKey(p).Some? {
      ClearLdEmpty(p.ldCart, CurrentKey(p).value);
    }
    if CurrentKey(p).Some? {
      ShownLdInCart(p.ldCart, CurrentKey(p).value);
    }
  }

  /** Clearing a slot that holds no line keeps the cart. */
  lemma ClearLdEmpty(cart: seq<LdBid>, key: string)
    requires LdInSlot(cart, key) == []
    ensures LdOutsideSlot(cart, key) == cart
  {
    FilterMembers(cart, LdSlotIs(key));
    forall i | 0 <= i < |cart|
      ensures LdSlotIsNot(key)(cart[i])
    {
      assert cart[i] !in LdInSlot(cart, key);
    }
    FilterAll(cart, LdSlotIsNot(key));
  }

  /** Every line of a slot is a line of the cart. */
  lemma ShownLdInCart(cart: seq<LdBid>, key: string)
    ensures forall i :: 0 <= i < |LdInSlot(cart, key)| ==> LdInSlot(cart, key)[i] in cart
  {
    FilterMembers(cart, LdSlotIs(key));
  }

  /** The same rule on the Jackpot tab. */
  lemma ConfirmClearsOnlyOnFullSuccessJp(p: Page, backend: (nat, BidPayload) -> bool)
    requires p.slot.Some? && p.section == Jackpot
    ensures var ps := ConfirmPayloads(p);
      var k := FirstRejected(ps, backend, 0);
      (k == |ps| ==> Confirm(p, backend).jpCart == ClearAll(p).jpCart)
      && (k < |ps| ==>
           && Confirm(p, backend).jpCart == p.jpCart
           && forall i :: 0 <= i < k ==> ShownJp(p)[i] in Confirm(p, backend).jpCart)
  {
    var ps := ConfirmPayloads(p);
    if |ps| == 0 && CurrentKey(p).Some? {
      ClearJpEmpty(p.jpCart, CurrentKey(p).value);
    }
    if CurrentKey(p).Some? {
      ShownJpInCart(p.jpCart, CurrentKey(p).value);
    }
  }

  /** Clearing a slot that holds no line keeps the cart. */
  lemma ClearJpEmpty(cart: seq<JpBid>, key: string)
    requires JpInSlot(cart, key) == []
    ensures JpOutsideSlot(cart, key) == cart
  {
    FilterMembers(cart, JpSlotIs(key));
    forall i | 0 <= i < |cart|
      ensures JpSlotIsNot(key)(cart[i])
    {
      assert cart[i] !in JpInSlot(cart, key);
    }
    FilterAll(cart, JpSlotIsNot(key));
  }

  /** Every line of a slot is a line of the cart. */
  lemma ShownJpInCart(cart: seq<JpBid>, key: string)
    ensures forall i :: 0 <= i < |JpInSlot(cart, key)| ==> JpInSlot(cart, key)[i] in cart
  {
    FilterMembers(cart, JpSlotIs(key));
  }

  // ---------------------------------------------------------------------
  // The page as mutable state
  // ---------------------------------------------------------------------

  class BidPageState {
    var date: Option<string>
    var selectedSlot: Option<GroupedSlot>
    var section: Section
    var ldCart: seq<LdBid>
    var jpCart: seq<JpBid>
    var editingBid: Option<string>
    var ldForm: LdForm
    var jpForm: JpForm
    var errors: Errors
    var confirmOpen: bool

    function Snapshot(): Page
      reads this
    {
      Page(date, selectedSlot, section, ldCart, jpCart, editingBid, ldForm, jpForm, errors, confirmOpen)
    }

    /** The page as first rendered: today, the Lucky Draw tab, empty carts and forms. */
    constructor(today: string)
      ensures Snapshot() == Page(Some(today), None, Lucky, [], [], None, EmptyLdForm, EmptyJpForm, NoErrors, false)
    {
      date := Some(today);
      selectedSlot := None;
      section := Lucky;
      ldCart := [];
      jpCart := [];
      editingBid := None;
      ldForm := EmptyLdForm;
      jpForm := EmptyJpForm;
      errors := NoErrors;
      confirmOpen := false;
    }

    /** The effect run when the day's slot list of the active type changes. */
    method AutoSelect(slots: seq<GroupedSlot>, now: int)
      modifies this
      ensures Snapshot() == old(Snapshot()).(slot := AutoSelectSlot(slots, now))
    {
      if |slots| == 0 {
        selectedSlot := None;
        return;
      }
      var i := 0;
      while i < |slots| && !OpenAndInWindow(slots[i], now)
        invariant 0 <= i <= |slots|
        invariant forall k :: 0 <= k < i ==> !OpenAndInWindow(slots[k], now)
      {
        i := i + 1;
      }
      if i < |slots| {
        assert FindOpen(slots, now) == Some(i) by { FindOpenFirst(slots, now, i); }
        selectedSlot := Some(slots[i]);
      } else {
        selectedSlot := Some(slots[0]);
      }
    }

    /** `handleSubmit`: the form check, then the Jackpot line, the edited line or the new lines. */
    method HandleSubmit(now: nat)
      modifies this
      ensures Snapshot() == Submit(old(Snapshot()), now)
    {
      if date.None? || selectedSlot.None? {
        return;
      }
      var v := Validate(section, ldForm, jpForm);
      errors := v.errors;
      if !v.valid {
        return;
      }
      if section == Jackpot {
        PutJp(now);
      } else if editingBid.Some? {
        ReplaceEdited();
      } else {
        AddLines(now);
      }
    }

    method PutJp(now: nat)
      requires date.Some? && selectedSlot.Some? && section == Jackpot
      requires Validate(section, ldForm, jpForm).valid
      modifies this
      ensures Snapshot() == PutJpLine(old(Snapshot()), now)
    {
      var bid := JpLineFor(Snapshot(), now);
      if editingBid.Some? {
        jpCart := ReplaceJp(jpCart, bid.id, bid);
      } else {
        jpCart := jpCart + [bid];
      }
      editingBid, ldForm, jpForm := None, EmptyLdForm, EmptyJpForm;
    }

    method ReplaceEdited()
      requires date.Some? && selectedSlot.Some? && section == Lucky && editingBid.Some?
      requires ParseInt(ldForm.bidNumber).Some? && ParseInt(ldForm.bidCount).Some?
      modifies this
      ensures Snapshot() == ReplaceEditedLd(old(Snapshot()))
    {
      var slot := selectedSlot.value;
      var bid := LdBid(editingBid.value, slot.id, ldForm.customerName, ldForm.customerPhone,
        ParseInt(ldForm.bidNumber).value, ParseInt(ldForm.bidCount).value, date.value, slot.slotTimeFormatted);
      ldCart := ReplaceLd(ldCart, editingBid.value, bid);
      editingBid, ldForm, jpForm := None, EmptyLdForm, EmptyJpForm;
    }

    method AddLines(now: nat)
      requires date.Some? && selectedSlot.Some?
      modifies this
      ensures Snapshot() == AddLdLines(old(Snapshot()), now)
    {
      var p0 := Snapshot();
      var numResult := ParseNumbers(p0.ldForm.bidNumber);
      if numResult.ListErr? {
        errors := errors.(bidNumber := numResult.msg);
        assert Snapshot() == p0.(errors := p0.errors.(bidNumber := numResult.msg));
        return;
      }
      var countResult := ParseCounts(p0.ldForm.bidCount);
      if countResult.ListErr? {
        errors := errors.(bidCount := countResult.msg);
        assert Snapshot() == p0.(errors := p0.errors.(bidCount := countResult.msg));
        return;
      }
      var numbers := numResult.values;
      var counts := countResult.values;
      if |numbers| != |counts| {
        errors := errors.(bidCount := "Numbers and counts must match in quantity");
        assert Snapshot() == p0.(errors := p0.errors.(bidCount := "Numbers and counts must match in quantity"));
        return;
      }
      AppendBatch(numbers, counts, now);
    }

    /** Appends the lines of one add-mode submission and clears the forms. */
    method AppendBatch(numbers: seq<int>, counts: seq<int>, now: nat)
      requires date.Some? && selectedSlot.Some? && |numbers| == |counts|
      modifies this
      ensures Snapshot() == ResetForms(old(Snapshot()).(ldCart := old(ldCart) + NewLdBatch(numbers, counts, old(ldForm), old(selectedSlot).value, old(date).value, now)))
    {
      ldCart := ldCart + NewLdBatch(numbers, counts, ldForm, selectedSlot.value, date.value, now);
      editingBid, ldForm, jpForm := None, EmptyLdForm, EmptyJpForm;
    }

    method HandleEdit(b: CartBid)
      requires (section == Lucky) == b.Ld?
      modifies this
      ensures Snapshot() == Edit(old(Snapshot()), b)
    {
      match b
      case Ld(l) =>
        ldForm := LdForm(l.customerName, l.customerPhone, IntToString(l.bidNumber), IntToString(l.bidCount));
        editingBid := Some(l.id);
      case Jp(j) =>
        jpForm := JpForm(j.customerName, j.customerPhone, IntTexts(j.bidNumbers));
        editingBid := Some(j.id);
    }

    method HandleDelete(id: string)
      modifies this
      ensures Snapshot() == Delete(old(Snapshot()), id)
    {
      if section == Lucky {
        ldCart := LdWithoutId(ldCart, id);
      } else {
        jpCart := JpWithoutId(jpCart, id);
      }
      if editingBid == Some(id) {
        editingBid := None;
        ldForm := EmptyLdForm;
        jpForm := EmptyJpForm;
      }
    }

    method HandleClearAll()
      modifies this
      ensures Snapshot() == ClearAll(old(Snapshot()))
    {
      if date.None? || selectedSlot.None? {
        return;
      }
      var key := Key(date.value, selectedSlot.value.slotTimeFormatted);
      if section == Lucky {
        ldCart := LdOutsideSlot(ldCart, key);
      } else {
        jpCart := JpOutsideSlot(jpCart, key);
      }
      confirmOpen := false;
    }

    /** Sends the selected slot's lines; returns how many the backend accepted. */
    method HandleConfirmBid(backend: (nat, BidPayload) -> bool) returns (accepted: nat)
      modifies this
      ensures Snapshot() == Confirm(old(Snapshot()), backend)
      ensures accepted == if old(selectedSlot).None? then 0 else FirstRejected(ConfirmPayloads(old(Snapshot())), backend, 0)
    {
      accepted := 0;
      if selectedSlot.None? {
        return;
      }
      var ps := ConfirmPayloads(Snapshot());
      if |ps| == 0 {
        return;
      }
      var ok;
      accepted, ok := SendSequentially(ps, backend);
      if ok {
        HandleClearAll();
      }
      confirmOpen := false;
    }
  }

  lemma FindOpenFirst(slots: seq<GroupedSlot>, now: int, i: nat)
    requires i < |slots| && OpenAndInWindow(slots[i], now)
    requires forall k :: 0 <= k < i ==> !OpenAndInWindow(slots[k], now)
    ensures FindOpen(slots, now) == Some(i)
  {
    match FindOpen(slots, now)
    case None =>
    case Some(j) =>
  }
}
