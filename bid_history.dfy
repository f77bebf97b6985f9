/**
 * An agent's bid history: each bid the server returns becomes a table row
 * with a Winner / Lost / Pending status, a formatted bid number, a quantity
 * and an amount; rows are kept by age in days and split into the Lucky Draw
 * and Jackpot tables.
 *
 * Instants are milliseconds since the epoch; date and time rendering are
 * parameters.  A JSON number read with `Number(...)` is an `Option<int>`,
 * `None` standing for NaN (a missing field or a value that is not a number).
 */
module BidHistory {
  import opened Common
  import opened Sorting

  datatype Status = Winner | Lost | Pending

  /** The fields of `b.slot` the page reads; `""` is a missing or empty text. */
  datatype SlotInfo = SlotInfo(slotTime: Option<int>, status: string, kind: string, winner: string)

  /** One bid of `getMyBids().items`. */
  datatype RawBid = RawBid(
    uniqueBidId: string,
    customerName: string,
    customerPhone: string,
    number: Option<int>,
    jpNumbers: Option<seq<int>>,
    count: Option<int>,
    amount: Option<int>,
    slot: Option<SlotInfo>)

  /** `b.slot || {}`. */
  function SlotOf(b: RawBid): SlotInfo
  {
    match b.slot
    case None => SlotInfo(None, "", "", "")
    case Some(s) => s
  }

  // ---------------------------------------------------------------------
  // Winner detection
  // ---------------------------------------------------------------------

  /** `Number(a) === Number(b)`: NaN equals nothing. */
  predicate SameNumber(a: Option<int>, b: Option<int>)
  {
    a.Some? && b.Some? && a.value == b.value
  }

  /** The separators of `/[-,\s]+/`. */
  predicate IsSep(c: char)
  {
    c == '-' || c == ',' || IsWs(c)
  }

  /**
   * `winner.split(/[-,\s]+/).map(x => x.trim()).filter(Boolean)`: the
   * maximal runs of non-separator characters (the trim has nothing left to
   * remove, `Common.TokensTrimmed`).
   */
  function WinTokens(winner: string): (r: seq<string>)
  {
    Tokens(winner, IsSep)
  }

  /** The `trim` of each winning token is the token itself. */
  lemma WinTokensTrimmed(winner: string)
    ensures forall k :: 0 <= k < |WinTokens(winner)| ==> Trim(WinTokens(winner)[k]) == WinTokens(winner)[k]
  {
    TokensTrimmed(winner, IsSep);
  }

  /** `.map(Number)`. */
  function TokenNumbers(ts: seq<string>): (r: seq<Option<int>>)
    ensures |r| == |ts|
    ensures forall k :: 0 <= k < |ts| ==> r[k] == ToNumber(ts[k])
  {
    if |ts| == 0 then [] else [ToNumber(ts[0])] + TokenNumbers(ts[1..])
  }

  /** `(a, b) => a - b` on values that may be NaN: a NaN comparison counts as equal. */
  function NumCmp(): (Option<int>, Option<int>) -> int
  {
    (a: Option<int>, b: Option<int>) => if a.Some? && b.Some? then a.value - b.value else 0
  }

  /** The bid's numbers sorted ascending and joined with ",". */
  function BidKey(jp: seq<int>): string
  {
    Join(IntTexts(SortBy(jp, IntCmp())), ",")
  }

  /** The winning numbers tokenised, sorted ascending and joined with ",". */
  function WinKey(winner: string): string
  {
    Join(NumTexts(SortBy(TokenNumbers(WinTokens(winner)), NumCmp())), ",")
  }

  /**
   * The row status: Pending unless the slot is COMPLETED with a winner; then
   * an LD bid wins on numeric equality and a JP bid with a number list wins
   * when the sorted lists render alike; any other slot type stays Pending.
   */
  function BidStatus(b: RawBid): (s: Status)
  {
    var slot := SlotOf(b);
    if !(slot.status == "COMPLETED" && slot.winner != "") then Pending
    else
      var afterLd := if slot.kind == "LD" then (if SameNumber(b.number, ToNumber(slot.winner)) then Winner else Lost) else Pending;
      if slot.kind == "JP" && b.jpNumbers.Some? then (if BidKey(b.jpNumbers.value) == WinKey(slot.winner) then Winner else Lost)
      else afterLd
  }

  /** A status other than Pending needs a completed slot with a winner and an LD or JP bid. */
  lemma PendingUnlessDecided(b: RawBid)
    ensures var slot := SlotOf(b);
      BidStatus(b) != Pending <==>
        && slot.status == "COMPLETED" && slot.winner != ""
        && (slot.kind == "LD" || (slot.kind == "JP" && b.jpNumbers.Some?))
  {
  }

  /** An LD bid on a completed slot wins exactly when its number equals the winning number. */
  lemma LdWinnerIffEqual(b: RawBid)
    requires SlotOf(b).status == "COMPLETED" && SlotOf(b).winner != "" && SlotOf(b).kind == "LD"
    ensures BidStatus(b) == Winner <==> b.number.Some? && ToNumber(SlotOf(b).winner) == b.number
    ensures BidStatus(b) != Pending
  {
  }

  // The JP comparison, when every winning token is a number.

  /** The values of the winning tokens, when every token is a number. */
  function TokenValues(ts: seq<string>): (r: seq<int>)
    requires forall k :: 0 <= k < |ts| ==> ToNumber(ts[k]).Some?
    ensures |r| == |ts|
    ensures forall k :: 0 <= k < |ts| ==> ToNumber(ts[k]) == Some(r[k])
  {
    if |ts| == 0 then [] else [ToNumber(ts[0]).value] + TokenValues(ts[1..])
  }

  /** The numbers a winning string names, when each of its tokens is a number. */
  function WinningNumbers(winner: string): seq<int>
    requires forall k :: 0 <= k < |WinTokens(winner)| ==> ToNumber(WinTokens(winner)[k]).Some?
  {
    TokenValues(WinTokens(winner))
  }

  lemma MapSomeAppend(a: seq<int>, y: int)
    ensures MapSome(a + [y]) == MapSome(a) + [Some(y)]
  {
  }

  lemma {:induction false} MapSomeInit(s: seq<int>)
    requires |s| > 0
    ensures MapSome(s)[..|s| - 1] == MapSome(s[..|s| - 1])
    ensures MapSome(s)[|s| - 1] == Some(s[|s| - 1])
  {
    var init := s[..|s| - 1];
    assert forall k :: 0 <= k < |init| ==> MapSome(s)[..|s| - 1][k] == MapSome(init)[k];
  }

  lemma {:induction false} InsertSome(s: seq<int>, x: int)
    ensures Insert(MapSome(s), Some(x), NumCmp()) == MapSome(Insert(s, x, IntCmp()))
    decreases |s|
  {
    if |s| == 0 {
      assert MapSome([x]) == [Some(x)];
    } else {
      var init := s[..|s| - 1];
      var last := s[|s| - 1];
      MapSomeInit(s);
      assert NumCmp()(MapSome(s)[|s| - 1], Some(x)) == IntCmp()(last, x);
      if IntCmp()(last, x) <= 0 {
        MapSomeAppend(s, x);
      } else {
        InsertSome(init, x);
        MapSomeAppend(Insert(init, x, IntCmp()), last);
      }
    }
  }

  /** Sorting numbers wrapped as possibly-NaN values is sorting the numbers. */
  lemma {:induction false} SortSome(s: seq<int>)
    ensures SortBy(MapSome(s), NumCmp()) == MapSome(SortBy(s, IntCmp()))
    decreases |s|
  {
    if |s| > 0 {
      var init := s[..|s| - 1];
      assert MapSome(s)[..|s| - 1] == MapSome(init);
      SortSome(init);
      InsertSome(SortBy(init, IntCmp()), s[|s| - 1]);
    }
  }

  lemma NumTextsSome(xs: seq<int>)
    ensures NumTexts(MapSome(xs)) == IntTexts(xs)
  {
    if |xs| > 0 {
      assert MapSome(xs)[1..] == MapSome(xs[1..]);
      NumTextsSome(xs[1..]);
    }
  }

  lemma IntToStringInjective(a: int, b: int)
    ensures IntToString(a) == IntToString(b) <==> a == b
  {
    if IntToString(a) == IntToString(b) {
      if a >= 0 && b >= 0 {
        NatToStringInjective(a, b);
      } else if a < 0 && b < 0 {
        assert IntToString(a)[1..] == NatToString(-a) && IntToString(b)[1..] == NatToString(-b);
        NatToStringInjective(-a, -b);
      }
    }
  }

  lemma IntTextsInjective(xs: seq<int>, ys: seq<int>)
    ensures IntTexts(xs) == IntTexts(ys) <==> xs == ys
  {
    if IntTexts(xs) == IntTexts(ys) {
      forall k | 0 <= k < |xs| ensures xs[k] == ys[k] {
        IntToStringInjective(xs[k], ys[k]);
      }
    }
  }

  lemma IntTextsJoinable(xs: seq<int>)
    ensures forall k :: 0 <= k < |IntTexts(xs)| ==> |IntTexts(xs)[k]| > 0 && NoChar(IntTexts(xs)[k], ',')
  {
    forall k | 0 <= k < |xs| ensures NoChar(IntTexts(xs)[k], ',') {
      var t := IntToString(xs[k]);
      if xs[k] >= 0 {
        DigitsNoChar(t, ',');
      } else {
        DigitsNoChar(NatToString(-xs[k]), ',');
        NoCharAppend("-", NatToString(-xs[k]), ',');
      }
    }
  }

  /** Two lists render alike after sorting exactly when they hold the same numbers, counted with multiplicity. */
  lemma SortedKeysAgree(xs: seq<int>, ys: seq<int>)
    ensures Join(IntTexts(SortBy(xs, IntCmp())), ",") == Join(IntTexts(SortBy(ys, IntCmp())), ",")
      <==> multiset(xs) == multiset(ys)
  {
    var sx := SortBy(xs, IntCmp());
    var sy := SortBy(ys, IntCmp());
    IntTextsJoinable(sx);
    IntTextsJoinable(sy);
    JoinInjective(IntTexts(sx), IntTexts(sy), ',');
    IntTextsInjective(sx, sy);
    SortIntsAscending(xs);
    SortIntsAscending(ys);
    if multiset(xs) == multiset(ys) {
      AscendingUnique(sx, sy);
    }
  }

  /**
   * A JP bid on a completed slot whose winning tokens are all numbers wins
   * exactly when it holds the winning numbers in any order, each as often as
   * it is drawn.
   */
  lemma JpWinnerIffSameNumbers(b: RawBid)
    requires SlotOf(b).status == "COMPLETED" && SlotOf(b).winner != "" && SlotOf(b).kind == "JP"
    requires b.jpNumbers.Some?
    requires forall k :: 0 <= k < |WinTokens(SlotOf(b).winner)| ==> ToNumber(WinTokens(SlotOf(b).winner)[k]).Some?
    ensures BidStatus(b) == Winner <==> multiset(b.jpNumbers.value) == multiset(WinningNumbers(SlotOf(b).winner))
    ensures BidStatus(b) != Pending
  {
    var winner := SlotOf(b).winner;
    var vals := WinningNumbers(winner);
    assert TokenNumbers(WinTokens(winner)) == MapSome(vals);
    SortSome(vals);
    NumTextsSome(SortBy(vals, IntCmp()));
    assert WinKey(winner) == Join(IntTexts(SortBy(vals, IntCmp())), ",");
    SortedKeysAgree(b.jpNumbers.value, vals);
  }

  // ---------------------------------------------------------------------
  // Row formatting
  // ---------------------------------------------------------------------

  /** `String(x)` of a JSON number that may be missing. */
  function NumberText(x: Option<int>): string
  {
    match x
    case None => "undefined"
    case Some(v) => IntToString(v)
  }

  /** `String(n).padStart(2, "0")` of each number. */
  function PaddedPairs(ns: seq<int>): (r: seq<string>)
    ensures |r| == |ns|
    ensures forall k :: 0 <= k < |ns| ==> r[k] == PadStart(IntToString(ns[k]), 2, '0')
  {
    if |ns| == 0 then [] else [PadStart(IntToString(ns[0]), 2, '0')] + PaddedPairs(ns[1..])
  }

  const Dot: string := " · "

  /**
   * The winner check of a JP bid runs `b.jpNumbers.sort(...)`, which reorders
   * the bid's own array before the row is built from it.
   */
  predicate SortedInPlace(b: RawBid)
  {
    var slot := SlotOf(b);
    slot.status == "COMPLETED" && slot.winner != "" && slot.kind == "JP" && b.jpNumbers.Some?
  }

  /** `b.jpNumbers || []` as it stands when the row is built: ascending after the winner check, else as sent. */
  function ShownJpNumbers(b: RawBid): seq<int>
  {
    if SortedInPlace(b) then SortBy(b.jpNumbers.value, IntCmp())
    else if b.jpNumbers.Some? then b.jpNumbers.value
    else []
  }

  /**
   * A JP bid on a decided slot shows the same numbers in ascending order;
   * any other bid shows its numbers as the answer sent them.
   */
  lemma ShownJpNumbersOrder(b: RawBid)
    ensures SortedInPlace(b) ==>
      Ascending(ShownJpNumbers(b)) && multiset(ShownJpNumbers(b)) == multiset(b.jpNumbers.value)
    ensures !SortedInPlace(b) ==> ShownJpNumbers(b) == (if b.jpNumbers.Some? then b.jpNumbers.value else [])
  {
    if SortedInPlace(b) {
      SortIntsAscending(b.jpNumbers.value);
    }
  }

  /** The bid-number column: an LD number padded to four, JP numbers padded to two and joined with " · ". */
  function BidNumberText(kind: string, b: RawBid): string
  {
    if kind == "LD" then PadStart(NumberText(b.number), 4, '0')
    else Join(PaddedPairs(ShownJpNumbers(b)), Dot)
  }

  /** An LD number below 10000 shows as exactly four digits that read back as the number. */
  lemma LdNumberFourDigits(b: RawBid, n: nat)
    requires b.number == Some(n as int) && n < 10000
    ensures var r := BidNumberText("LD", b);
      |r| == 4 && AllDigits(r) && ParseInt(r) == Some(n as int)
  {
    var s := NatToString(n);
    var r := PadStart(s, 4, '0');
    assert Pow10(4) == 10000;
    NatToStringLength(n, 4);
    assert r == Repeat('0', 4 - |s|) + s;
    LeadingZeros(4 - |s|, s);
    ParseDigits(r);
  }

  function Pow10(k: nat): nat
  {
    if k == 0 then 1 else 10 * Pow10(k - 1)
  }

  /** A number below `10^k` has at most `k` digits. */
  lemma {:induction false} NatToStringLength(n: nat, k: nat)
    requires 1 <= k && n < Pow10(k)
    ensures |NatToString(n)| <= k
    decreases k
  {
    if n >= 10 {
      assert n / 10 < Pow10(k - 1);
      NatToStringLength(n / 10, k - 1);
      assert NatToString(n) == NatToString(n / 10) + [DigitChar(n % 10)];
    }
  }

  /** Zeros in front of a digit string leave its value alone. */
  lemma {:induction false} LeadingZeros(z: nat, s: string)
    requires AllDigits(s)
    ensures AllDigits(Repeat('0', z) + s)
    ensures DigitsValue(Repeat('0', z) + s) == DigitsValue(s)
    decreases z
  {
    if z == 0 {
      assert Repeat('0', z) + s == s;
    } else {
      LeadingZeros(z - 1, s);
      var t := Repeat('0', z - 1) + s;
      assert Repeat('0', z) == "0" + Repeat('0', z - 1);
      ConcatAssoc("0", Repeat('0', z - 1), s);
      assert Repeat('0', z) + s == "0" + t;
      ZeroPrefix(t);
    }
  }

  lemma {:induction false} ZeroPrefix(t: string)
    requires AllDigits(t)
    ensures AllDigits("0" + t) && DigitsValue("0" + t) == DigitsValue(t)
    decreases |t|
  {
    if |t| > 0 {
      var init := t[..|t| - 1];
      ZeroPrefix(init);
      assert ("0" + t)[..|t|] == "0" + init;
    } else {
      assert "0" + t == "0";
    }
  }

  /** Fields two wide, five apart: prefixing a field and a separator shifts every later field by five. */
  lemma ShiftFields(head: string, rest: string, r: string, k: nat)
    requires |head| == 2 && r == head + (Dot + rest)
    requires 1 <= k && 5 * k + 2 <= |r|
    ensures r[5 * k..5 * k + 2] == rest[5 * (k - 1)..5 * (k - 1) + 2]
  {
  }

  /**
   * JP numbers `0..99` show as two-digit fields five characters apart
   * (each field is followed by " · " except the last), in the order given.
   */
  lemma JpNumbersAsPairs(ns: seq<int>)
    requires forall k :: 0 <= k < |ns| ==> 0 <= ns[k] < 100
    ensures var r := Join(PaddedPairs(ns), Dot);
      && |r| == (if |ns| == 0 then 0 else 5 * |ns| - 3)
      && forall k :: 0 <= k < |ns| ==> r[5 * k..5 * k + 2] == Pad2(ns[k] as nat)
  {
    var fs := PaddedPairs(ns);
    forall k | 0 <= k < |ns| ensures fs[k] == Pad2(ns[k] as nat) && |fs[k]| == 2 {
      PairIsPad2(ns[k]);
    }
    JoinFields(fs);
  }

  lemma PairIsPad2(n: int)
    requires 0 <= n < 100
    ensures PadStart(IntToString(n), 2, '0') == Pad2(n as nat)
  {
    Pad2IsPadStart(n as nat);
  }

  /** Two-character fields joined with " · " start five characters apart. */
  lemma {:induction false} JoinFields(fs: seq<string>)
    requires forall k :: 0 <= k < |fs| ==> |fs[k]| == 2
    ensures var r := Join(fs, Dot);
      && |r| == (if |fs| == 0 then 0 else 5 * |fs| - 3)
      && forall k :: 0 <= k < |fs| ==> r[5 * k..5 * k + 2] == fs[k]
    decreases |fs|
  {
    if |fs| == 1 {
      assert Join(fs, Dot) == fs[0];
    } else if |fs| > 1 {
      var head, tail := fs[0], fs[1..];
      JoinFields(tail);
      var rest := Join(tail, Dot);
      assert fs == [head] + tail;
      JoinCons(head, tail, Dot);
      ConcatAssoc(head, Dot, rest);
      var r := head + (Dot + rest);
      assert Join(fs, Dot) == r;
      forall k | 0 <= k < |fs| ensures r[5 * k..5 * k + 2] == fs[k] {
        if k == 0 {
          assert r[..2] == head;
        } else {
          ShiftFields(head, rest, r, k);
          assert tail[k - 1] == fs[k];
        }
      }
    }
  }

  /** A table row. */
  datatype Row = Row(
    id: string,
    custName: string,
    phone: string,
    date: Option<int>,
    dateStr: string,
    timeStr: string,
    bidNumber: string,
    count: int,
    amount: int,
    status: Status,
    slotType: string)

  /** `Number(b.count) || 1`. */
  function CountOf(x: Option<int>): int
  {
    if x.None? || x.value == 0 then 1 else x.value
  }

  /** `Number(b.amount) || 0`. */
  function AmountOf(x: Option<int>): int
  {
    if x.None? then 0 else x.value
  }

  /** One bid as a row. */
  function RowOf(b: RawBid, showDate: int -> string, showTime: int -> string): (r: Row)
  {
    var slot := SlotOf(b);
    Row(b.uniqueBidId, b.customerName,
        if b.customerPhone == "" then "—" else b.customerPhone,
        slot.slotTime,
        if slot.slotTime.Some? then showDate(slot.slotTime.value) else "—",
        if slot.slotTime.Some? then showTime(slot.slotTime.value) else "",
        BidNumberText(slot.kind, b),
        CountOf(b.count), AmountOf(b.amount),
        BidStatus(b),
        if slot.kind == "" then "LD" else slot.kind)
  }

  /**
   * The bid-number text of a decided JP bid whose numbers are `0..99`: one
   * two-digit field per number, five characters apart, in ascending order
   * and holding exactly the bid's numbers.
   */
  lemma DecidedJpRowAscending(b: RawBid, showDate: int -> string, showTime: int -> string)
    requires SortedInPlace(b)
    requires forall k :: 0 <= k < |b.jpNumbers.value| ==> 0 <= b.jpNumbers.value[k] < 100
    ensures var sorted := SortBy(b.jpNumbers.value, IntCmp());
      var r := Join(PaddedPairs(sorted), Dot);
      && RowOf(b, showDate, showTime).bidNumber == r
      && Ascending(sorted) && multiset(sorted) == multiset(b.jpNumbers.value)
      && |r| == (if |sorted| == 0 then 0 else 5 * |sorted| - 3)
      && forall k :: 0 <= k < |sorted| ==> 0 <= sorted[k] < 100 && r[5 * k..5 * k + 2] == Pad2(sorted[k] as nat)
  {
    var jp := b.jpNumbers.value;
    var sorted := SortBy(jp, IntCmp());
    SortIntsAscending(jp);
    SortedStaysInRange(jp, sorted);
    assert RowOf(b, showDate, showTime).bidNumber == Join(PaddedPairs(sorted), Dot);
    JpNumbersAsPairs(sorted);
  }

  lemma SortedStaysInRange(jp: seq<int>, sorted: seq<int>)
    requires multiset(sorted) == multiset(jp)
    requires forall k :: 0 <= k < |jp| ==> 0 <= jp[k] < 100
    ensures forall k :: 0 <= k < |sorted| ==> 0 <= sorted[k] < 100
  {
    forall k | 0 <= k < |sorted| ensures 0 <= sorted[k] < 100 {
      assert sorted[k] in multiset(jp);
    }
  }

  /** Any JP row not sorted by the winner check shows its numbers in the order the answer sent them. */
  lemma UndecidedJpRowInBidOrder(b: RawBid, showDate: int -> string, showTime: int -> string)
    requires SlotOf(b).kind != "LD" && !SortedInPlace(b)
    ensures RowOf(b, showDate, showTime).bidNumber ==
      Join(PaddedPairs(if b.jpNumbers.Some? then b.jpNumbers.value else []), Dot)
  {
  }

  /** Quantity defaults to 1 and amount to 0 when missing, zero or not a number. */
  lemma RowDefaults(b: RawBid, showDate: int -> string, showTime: int -> string)
    ensures var r := RowOf(b, showDate, showTime);
      && (r.count == 1 <==> b.count.None? || b.count == Some(0) || b.count == Some(1))
      && (r.amount == 0 <==> b.amount.None? || b.amount == Some(0))
      && r.status == BidStatus(b)
      && (r.date.None? ==> r.dateStr == "—" && r.timeStr == "")
  {
  }

  function Rows(items: seq<RawBid>, showDate: int -> string, showTime: int -> string): (r: seq<Row>)
    ensures |r| == |items|
    ensures forall k :: 0 <= k < |items| ==> r[k] == RowOf(items[k], showDate, showTime)
  {
    if |items| == 0 then [] else [RowOf(items[0], showDate, showTime)] + Rows(items[1..], showDate, showTime)
  }

  // ---------------------------------------------------------------------
  // Days filter and the two tables
  // ---------------------------------------------------------------------

  /**
   * The days filter: "all" keeps every row; otherwise a row needs a date no
   * more than `Number(days)` days before now (the division by a day's
   * milliseconds is exact, so the comparison is done on milliseconds).
   */
  function Recent(days: string, now: int): Row -> bool
  {
    (r: Row) => days == "all" || (r.date.Some? && ToNumber(days).Some? && now - r.date.value <= ToNumber(days).value * DayMs)
  }

  function IsType(t: string): Row -> bool
  {
    (r: Row) => r.slotType == t
  }

  /** The filtered rows hold exactly the rows whose age passes the filter; "all" keeps every row in order. */
  lemma RecentRows(rows: seq<Row>, days: string, now: int)
    ensures forall x :: (x in Filter(rows, Recent(days, now)) <==> x in rows && Recent(days, now)(x))
    ensures days == "all" ==> Filter(rows, Recent(days, now)) == rows
    ensures forall x :: x in Filter(rows, Recent(days, now)) && days != "all" ==> x.date.Some?
  {
    FilterMembers(rows, Recent(days, now));
    if days == "all" {
      FilterAll(rows, Recent(days, now));
    }
  }

  /** When every row is LD or JP, the two tables together hold every row exactly once. */
  lemma TablesPartition(rows: seq<Row>)
    requires forall k :: 0 <= k < |rows| ==> rows[k].slotType == "LD" || rows[k].slotType == "JP"
    ensures multiset(Filter(rows, IsType("LD"))) + multiset(Filter(rows, IsType("JP"))) == multiset(rows)
  {
    FilterSplit(rows, IsType("LD"), IsType("JP"));
  }

  /** The outcome of `getMyBids`; `None` items is an answer without `items`. */
  datatype FetchResult = Failed | Fetched(items: Option<seq<RawBid>>)

  class BidHistoryPage {
    var luckyData: seq<Row>
    var jackpotData: seq<Row>
    var loading: bool

    constructor()
      ensures luckyData == [] && jackpotData == [] && loading
    {
      luckyData := [];
      jackpotData := [];
      loading := true;
    }

    /**
     * `fetchData`: on an answer, both tables are replaced by the rows of
     * their type that pass the days filter, in answer order; on a failure
     * they keep what they showed.  Loading ends either way.
     */
    method FetchData(res: FetchResult, days: string, now: int, showDate: int -> string, showTime: int -> string)
      modifies this
      ensures !loading
      ensures res.Failed? ==> luckyData == old(luckyData) && jackpotData == old(jackpotData)
      ensures res.Fetched? ==>
        var filtered := Filter(Rows(if res.items.Some? then res.items.value else [], showDate, showTime), Recent(days, now));
        luckyData == Filter(filtered, IsType("LD")) && jackpotData == Filter(filtered, IsType("JP"))
    {
      loading := true;
      if res.Fetched? {
        var items := if res.items.Some? then res.items.value else [];
        var mapped := Rows(items, showDate, showTime);
        var filtered := Filter(mapped, Recent(days, now));
        luckyData := Filter(filtered, IsType("LD"));
        jackpotData := Filter(filtered, IsType("JP"));
      }
      loading := false;
    }
  }
}
