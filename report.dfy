/**
 * The admin report page: the per-slot financial rows, which request the
 * filters select, the CSV export and its file name.
 */
module Report {
  import opened Common

  /** The twelve numeric columns of a report row, over any representation of a number. */
  datatype Figures<T> = Figures(
    totalCollected: T,
    profitPct: T,
    profitAmount: T,
    payoutToReal: T,
    winningAmountDisplay: T,
    winningAmountConfigured: T,
    realUnits: T,
    dummyUnits: T,
    totalUnits: T,
    unitPayout: T,
    remainingForPayout: T,
    netProfit: T)

  /** A number of the page: `None` is NaN. */
  type Num = Option<int>

  /** A report row as the backend sends it. */
  datatype RawReport = RawReport(
    slotId: string,
    uniqueSlotId: string,
    kind: string,
    date: string,
    time: string,
    winningNumber: Option<int>,
    winningCombo: Option<seq<int>>,
    figures: Figures<RawNumber>)

  /** `SlotResult`. */
  datatype SlotResult = SlotResult(
    slotId: string,
    uniqueSlotId: string,
    kind: string,
    date: string,
    time: string,
    winningNumber: Option<int>,
    winningCombo: Option<seq<int>>,
    figures: Figures<Num>)

  /** `Number(x ?? 0)`: a missing value is 0, a text that is not a number is NaN. */
  function NumberOf(x: RawNumber): (r: Num)
    ensures x.Undefined? ==> r == Some(0)
    ensures x.Num? ==> r == Some(x.n)
    ensures x.Text? ==> r == ToNumber(x.s)
  {
    match x
    case Undefined => Some(0)
    case Num(n) => Some(n)
    case Text(s) => ToNumber(s)
  }

  function MapFigures(f: Figures<RawNumber>): Figures<Num>
  {
    Figures(NumberOf(f.totalCollected), NumberOf(f.profitPct), NumberOf(f.profitAmount), NumberOf(f.payoutToReal),
      NumberOf(f.winningAmountDisplay), NumberOf(f.winningAmountConfigured), NumberOf(f.realUnits), NumberOf(f.dummyUnits),
      NumberOf(f.totalUnits), NumberOf(f.unitPayout), NumberOf(f.remainingForPayout), NumberOf(f.netProfit))
  }

  function AllFigures<T>(f: Figures<T>): seq<T>
  {
    [f.totalCollected, f.profitPct, f.profitAmount, f.payoutToReal, f.winningAmountDisplay, f.winningAmountConfigured,
     f.realUnits, f.dummyUnits, f.totalUnits, f.unitPayout, f.remainingForPayout, f.netProfit]
  }

  /** Each of the twelve numbers is read on its own: a missing one is 0 and a present number is kept. */
  lemma MapFiguresShape(f: Figures<RawNumber>)
    ensures |AllFigures(MapFigures(f))| == |AllFigures(f)| == 12
    ensures forall k :: 0 <= k < 12 ==> AllFigures(MapFigures(f))[k] == NumberOf(AllFigures(f)[k])
  {
  }

  /** A row without any numbers reads as all zeros. */
  lemma MissingFiguresAreZero(f: Figures<RawNumber>)
    requires forall k :: 0 <= k < 12 ==> AllFigures(f)[k].Undefined?
    ensures MapFigures(f) == Zero
  {
    var a := AllFigures(f);
    assert a[0].Undefined? && a[1].Undefined? && a[2].Undefined? && a[3].Undefined?;
    assert a[4].Undefined? && a[5].Undefined? && a[6].Undefined? && a[7].Undefined?;
    assert a[8].Undefined? && a[9].Undefined? && a[10].Undefined? && a[11].Undefined?;
  }

  const Zero: Figures<Num> := Figures(Some(0), Some(0), Some(0), Some(0), Some(0), Some(0), Some(0), Some(0), Some(0), Some(0), Some(0), Some(0))

  /** `normalizeAdminReport`: the identity columns and the winning values are copied, the numbers read. */
  function NormalizeAdminReport(r: RawReport): (s: SlotResult)
    ensures s.slotId == r.slotId && s.uniqueSlotId == r.uniqueSlotId && s.kind == r.kind
    ensures s.date == r.date && s.time == r.time
    ensures s.winningNumber == r.winningNumber && s.winningCombo == r.winningCombo
    ensures s.figures == MapFigures(r.figures)
  {
    SlotResult(r.slotId, r.uniqueSlotId, r.kind, r.date, r.time, r.winningNumber, r.winningCombo, MapFigures(r.figures))
  }

  function NormalizeAll(rs: seq<RawReport>): (r: seq<SlotResult>)
    ensures |r| == |rs| && forall k :: 0 <= k < |rs| ==> r[k] == NormalizeAdminReport(rs[k])
  {
    seq(|rs|, k requires 0 <= k < |rs| => NormalizeAdminReport(rs[k]))
  }

  /** A row of the by-date answer: no financial data. */
  function ByDateEntry(e: RawReport): SlotResult
  {
    SlotResult(e.slotId, e.uniqueSlotId, e.kind, e.date, e.time, e.winningNumber, None, Zero)
  }

  function OrEmpty(xs: Option<seq<RawReport>>): seq<RawReport>
  {
    if xs.Some? then xs.value else []
  }

  /** `normalizeResultsByDate`: the LD entries, then the JP entries. */
  function NormalizeResultsByDate(ld: Option<seq<RawReport>>, jp: Option<seq<RawReport>>): (r: seq<SlotResult>)
    ensures |r| == |OrEmpty(ld)| + |OrEmpty(jp)|
    ensures forall k :: 0 <= k < |r| ==> r[k] == ByDateEntry((OrEmpty(ld) + OrEmpty(jp))[k])
  {
    var all := OrEmpty(ld) + OrEmpty(jp);
    seq(|all|, k requires 0 <= k < |all| => ByDateEntry(all[k]))
  }

  /** The LD answer comes first, in its order. */
  lemma ByDateLdFirst(ld: Option<seq<RawReport>>, jp: Option<seq<RawReport>>, k: nat)
    requires k < |OrEmpty(ld)|
    ensures NormalizeResultsByDate(ld, jp)[k] == ByDateEntry(OrEmpty(ld)[k])
  {
    assert (OrEmpty(ld) + OrEmpty(jp))[k] == OrEmpty(ld)[k];
  }

  /** The JP answer follows, in its order. */
  lemma ByDateJpAfter(ld: Option<seq<RawReport>>, jp: Option<seq<RawReport>>, k: nat)
    requires k < |OrEmpty(jp)|
    ensures NormalizeResultsByDate(ld, jp)[|OrEmpty(ld)| + k] == ByDateEntry(OrEmpty(jp)[k])
  {
    assert (OrEmpty(ld) + OrEmpty(jp))[|OrEmpty(ld)| + k] == OrEmpty(jp)[k];
  }

  /** Every by-date row keeps its identity and winning number, and has no financial data and no combo. */
  lemma ByDateEntryShape(e: RawReport)
    ensures var r := ByDateEntry(e);
      && r.uniqueSlotId == e.uniqueSlotId && r.kind == e.kind && r.date == e.date && r.time == e.time
      && r.winningNumber == e.winningNumber && r.winningCombo.None? && r.figures == Zero
  {
  }

  // ---------------------------------------------------------------------
  // Filters and the request they select
  // ---------------------------------------------------------------------

  /** `RangeOption`: all time or one of the listed spans of days. */
  datatype Range = AllTime | LastDays(days: nat)

  /** The three report requests; a date is the day of the picked instant in Malaysian time. */
  datatype Request = ByDate(date: string) | ByRange(days: Option<nat>)

  /** `fetchData`'s choice: a picked date wins over a range, a range over all time. */
  function RequestFor(selectedDate: Option<int>, range: Range, mytDateOf: int -> string): (q: Request)
    ensures selectedDate.Some? ==> q == ByDate(mytDateOf(selectedDate.value))
    ensures selectedDate.None? && range.LastDays? ==> q == ByRange(Some(range.days))
    ensures selectedDate.None? && range.AllTime? ==> q == ByRange(None)
  {
    if selectedDate.Some? then ByDate(mytDateOf(selectedDate.value))
    else if range.LastDays? then ByRange(Some(range.days))
    else ByRange(None)
  }

  // ---------------------------------------------------------------------
  // CSV export
  // ---------------------------------------------------------------------

  const Headers: seq<string> := ["Slot ID", "Type", "Date", "Time", "Winning", "Collected", "Profit %", "Profit", "Paid",
                                 "Displayed W", "Real Units", "Dummy Units", "Net Profit"]

  /**
   * The Winning column: for LD the number or "-", for JP the combo joined
   * with `sep` ("-" in the export, " - " on screen) or "-".
   */
  function WinningCell(r: SlotResult, sep: string): (c: string)
    ensures r.kind == "LD" && r.winningNumber.None? ==> c == "-"
    ensures r.kind == "LD" && r.winningNumber.Some? ==> c == IntToString(r.winningNumber.value)
    ensures r.kind != "LD" && r.winningCombo.None? ==> c == "-"
    ensures r.kind != "LD" && r.winningCombo.Some? ==> c == Join(IntTexts(r.winningCombo.value), sep)
  {
    if r.kind == "LD" then
      if r.winningNumber.Some? then IntToString(r.winningNumber.value) else "-"
    else if r.winningCombo.Some? then Join(IntTexts(r.winningCombo.value), sep) else "-"
  }

  /** `formatNumber` on a whole amount: two decimals, NaN as "0.00". */
  function FormatNumber(x: Num): (s: string)
    ensures x.None? ==> s == "0.00"
    ensures x.Some? ==> s == IntToString(x.value) + ".00"
  {
    if x.Some? then IntToString(x.value) + ".00" else "0.00"
  }

  /** The cells of one row; the profit percentage is a fraction, so its text (`toFixed` of a product) is given. */
  function CsvRow(r: SlotResult, pctText: Num -> string): (cells: seq<string>)
    ensures |cells| == 13
    ensures cells[0] == r.uniqueSlotId && cells[1] == r.kind && cells[2] == r.date && cells[3] == r.time
    ensures cells[4] == WinningCell(r, "-")
  {
    var f := r.figures;
    [r.uniqueSlotId, r.kind, r.date, r.time, WinningCell(r, "-")]
    + [FormatNumber(f.totalCollected), pctText(f.profitPct), FormatNumber(f.profitAmount), FormatNumber(f.payoutToReal)]
    + [FormatNumber(f.winningAmountDisplay), NumText(f.realUnits), NumText(f.dummyUnits), FormatNumber(f.netProfit)]
  }

  /** The header has as many names as every row has cells. */
  lemma HeadersCount()
    ensures |Headers| == 13
  {
  }

  function CsvLines(data: seq<SlotResult>, pctText: Num -> string): (lines: seq<string>)
    ensures |lines| == |data| + 1
  {
    [Join(Headers, ",")] + seq(|data|, k requires 0 <= k < |data| => Join(CsvRow(data[k], pctText), ","))
  }

  const Bom: char := '\U{FEFF}'

  /** The exported text: a byte-order mark, then the header line and one line per row. */
  function Csv(data: seq<SlotResult>, pctText: Num -> string): (s: string)
    ensures |s| > 0 && s[0] == Bom
  {
    [Bom] + Join(CsvLines(data, pctText), "\n")
  }

  /** No cell of the table contains a comma or a line break. */
  predicate PlainCells(data: seq<SlotResult>, pctText: Num -> string)
  {
    forall k :: 0 <= k < |data| ==> PlainRow(CsvRow(data[k], pctText))
  }

  predicate PlainRow(cells: seq<string>)
  {
    forall j :: 0 <= j < |cells| ==> NoChar(cells[j], ',') && NoChar(cells[j], '\n')
  }

  /**
   * Without a comma or a line break in any cell the export reads back:
   * split on line breaks it gives the header line and one line per row,
   * and each line split on commas gives its thirteen cells.
   */
  lemma CsvReadsBack(data: seq<SlotResult>, pctText: Num -> string)
    requires PlainCells(data, pctText)
    ensures Split(Csv(data, pctText)[1..], "\n") == CsvLines(data, pctText)
    ensures Split(CsvLines(data, pctText)[0], ",") == Headers
    ensures forall k :: 0 <= k < |data| ==> Split(CsvLines(data, pctText)[k + 1], ",") == CsvRow(data[k], pctText)
  {
    var lines := CsvLines(data, pctText);
    LinesPlain(data, pctText);
    assert Csv(data, pctText)[1..] == Join(lines, "\n");
    SplitJoin(lines, '\n');
    HeaderLine();
    forall k | 0 <= k < |data| ensures Split(lines[k + 1], ",") == CsvRow(data[k], pctText) {
      RowLine(data, pctText, k);
    }
  }

  lemma RowLine(data: seq<SlotResult>, pctText: Num -> string, k: nat)
    requires k < |data| && PlainRow(CsvRow(data[k], pctText))
    ensures Split(CsvLines(data, pctText)[k + 1], ",") == CsvRow(data[k], pctText)
  {
    var cells := CsvRow(data[k], pctText);
    assert CsvLines(data, pctText)[k + 1] == Join(cells, ",");
    SplitJoin(cells, ',');
  }

  /** No line holds a line break. */
  lemma LinesPlain(data: seq<SlotResult>, pctText: Num -> string)
    requires PlainCells(data, pctText)
    ensures forall i :: 0 <= i < |CsvLines(data, pctText)| ==> NoChar(CsvLines(data, pctText)[i], '\n')
  {
    forall i | 0 <= i < |CsvLines(data, pctText)| ensures NoChar(CsvLines(data, pctText)[i], '\n') {
      LinePlain(data, pctText, i);
    }
  }

  lemma {:induction false} LinePlain(data: seq<SlotResult>, pctText: Num -> string, i: nat)
    requires PlainCells(data, pctText) && i < |CsvLines(data, pctText)|
    ensures NoChar(CsvLines(data, pctText)[i], '\n')
  {
    if i == 0 {
      HeaderLinePlain(data, pctText);
    } else {
      RowLinePlain(data, pctText, i - 1);
    }
  }

  lemma HeaderLinePlain(data: seq<SlotResult>, pctText: Num -> string)
    ensures NoChar(CsvLines(data, pctText)[0], '\n')
  {
    assert CsvLines(data, pctText)[0] == Join(Headers, ",");
    HeadersPlain();
    PlainLine(Headers);
  }

  lemma RowLinePlain(data: seq<SlotResult>, pctText: Num -> string, k: nat)
    requires k < |data| && PlainCells(data, pctText)
    ensures NoChar(CsvLines(data, pctText)[k + 1], '\n')
  {
    assert CsvLines(data, pctText)[k + 1] == Join(CsvRow(data[k], pctText), ",");
    PlainLine(CsvRow(data[k], pctText));
  }

  lemma PlainLine(cells: seq<string>)
    requires PlainRow(cells)
    ensures NoChar(Join(cells, ","), '\n')
  {
    JoinNoChar(cells, ',', '\n');
  }

  lemma HeaderLine()
    ensures Split(Join(Headers, ","), ",") == Headers
  {
    HeadersPlain();
    SplitJoin(Headers, ',');
  }

  lemma HeadersPlain()
    ensures PlainRow(Headers)
  {
    forall j | 0 <= j < |Headers| ensures NoChar(Headers[j], ',') && NoChar(Headers[j], '\n') {
      var h := Headers[j];
      assert forall i :: 0 <= i < |h| ==> h[i] != ',' && h[i] != '\n';
    }
  }

  /** Joining pieces without `d` on a separator other than `d` gives a text without `d`. */
  lemma {:induction false} JoinNoChar(parts: seq<string>, c: char, d: char)
    requires c != d
    requires forall j :: 0 <= j < |parts| ==> NoChar(parts[j], d)
    ensures NoChar(Join(parts, [c]), d)
    decreases |parts|
  {
    if |parts| > 1 {
      JoinNoChar(parts[1..], c, d);
      NoCharAppend(parts[0], [c], d);
      NoCharAppend(parts[0] + [c], Join(parts[1..], [c]), d);
    }
  }

  function CountChar(s: string, c: char): nat
  {
    if |s| == 0 then 0 else (if s[0] == c then 1 else 0) + CountChar(s[1..], c)
  }

  function CountAll(cells: seq<string>, c: char): nat
  {
    if |cells| == 0 then 0 else CountChar(cells[0], c) + CountAll(cells[1..], c)
  }

  /** A text splits into one piece more than it holds separators. */
  lemma {:induction false} SplitCount(s: string, c: char)
    ensures |Split(s, [c])| == 1 + CountChar(s, c)
    decreases |s|
  {
    if |s| >= 1 {
      SplitCount(s[1..], c);
      if s[..1] == [c] {
        assert s[0] == c by { assert s[..1][0] == s[0]; }
        assert s[|[c]|..] == s[1..];
      } else {
        assert s[0] != c by { assert s[..1][0] == s[0]; }
      }
    }
  }

  lemma {:induction false} CountAppend(a: string, b: string, c: char)
    ensures CountChar(a + b, c) == CountChar(a, c) + CountChar(b, c)
    decreases |a|
  {
    if |a| > 0 {
      assert (a + b)[1..] == a[1..] + b;
      CountAppend(a[1..], b, c);
    } else {
      assert a + b == b;
    }
  }

  lemma {:induction false} CountJoin(cells: seq<string>, c: char)
    requires |cells| >= 1
    ensures CountChar(Join(cells, [c]), c) == |cells| - 1 + CountAll(cells, c)
    decreases |cells|
  {
    if |cells| > 1 {
      CountJoin(cells[1..], c);
      CountAppend(cells[0], [c], c);
      CountAppend(cells[0] + [c], Join(cells[1..], [c]), c);
      assert CountChar([c], c) == 1 by { assert [c][1..] == []; }
    } else {
      assert cells[1..] == [];
    }
  }

  /**
   * The cells are not quoted: a line reads back as one field per cell plus
   * one more for every comma inside a cell, so a comma in a time or a slot
   * id shifts every later column.
   */
  lemma FieldsPerLine(cells: seq<string>)
    requires |cells| >= 1
    ensures |Split(Join(cells, ","), ",")| == |cells| + CountAll(cells, ',')
  {
    SplitCount(Join(cells, ","), ',');
    CountJoin(cells, ',');
  }

  /** The part of the file name that names the filter. */
  function FilenameTag(selectedDate: Option<int>, range: Range, localYmd: int -> string): (t: string)
    ensures selectedDate.Some? ==> t == localYmd(selectedDate.value)
    ensures selectedDate.None? && range.LastDays? ==> t == "Last_" + NatToString(range.days) + "_Days"
    ensures selectedDate.None? && range.AllTime? ==> t == "All_Time"
  {
    if selectedDate.Some? then localYmd(selectedDate.value)
    else if range.LastDays? then "Last_" + NatToString(range.days) + "_Days"
    else "All_Time"
  }

  function CsvFilename(selectedDate: Option<int>, range: Range, localYmd: int -> string, today: string): string
  {
    "Results_" + FilenameTag(selectedDate, range, localYmd) + "_" + today + ".csv"
  }

  /** The file name and the request always describe the same filter. */
  lemma FilenameMatchesRequest(selectedDate: Option<int>, range: Range, mytDateOf: int -> string, localYmd: int -> string)
    ensures RequestFor(selectedDate, range, mytDateOf) == ByRange(None) <==> selectedDate.None? && FilenameTag(selectedDate, range, localYmd) == "All_Time"
  {
    if selectedDate.None? && range.LastDays? {
      var t := FilenameTag(selectedDate, range, localYmd);
      assert t[0] == 'L';
      assert "All_Time"[0] == 'A';
    }
  }

  // ---------------------------------------------------------------------
  // The page
  // ---------------------------------------------------------------------

  datatype Fetch<T> = Failed | Loaded(value: T)

  class ReportPage {
    var data: seq<SlotResult>
    var loading: bool
    var range: Range
    var selectedDate: Option<int>

    /** At most one filter is active: a picked date always comes with the range "all". */
    predicate Valid()
      reads this
    {
      selectedDate.Some? ==> range.AllTime?
    }

    constructor()
      ensures Valid()
      ensures data == [] && loading && range == AllTime && selectedDate == None
    {
      data := [];
      loading := true;
      range := AllTime;
      selectedDate := None;
    }

    /** The calendar: picking a date resets the range; clearing it leaves no filter. */
    method SelectDate(d: Option<int>)
      modifies this
      ensures Valid()
      ensures range == AllTime && selectedDate == d && data == old(data) && loading == old(loading)
    {
      range := AllTime;
      selectedDate := d;
    }

    /** A range button clears the picked date. */
    method SelectRange(r: Range)
      modifies this
      ensures Valid()
      ensures range == r && selectedDate == None && data == old(data) && loading == old(loading)
    {
      selectedDate := None;
      range := r;
    }

    /** `fetchData`: the request the filters select; a failure leaves an empty table. */
    method FetchData(mytDateOf: int -> string, res: Fetch<seq<RawReport>>) returns (req: Request)
      modifies this
      ensures req == RequestFor(selectedDate, range, mytDateOf)
      ensures res.Loaded? ==> data == NormalizeAll(res.value)
      ensures res.Failed? ==> data == []
      ensures !loading
      ensures range == old(range) && selectedDate == old(selectedDate)
    {
      loading := true;
      req := RequestFor(selectedDate, range, mytDateOf);
      data := if res.Loaded? then NormalizeAll(res.value) else [];
      loading := false;
    }

    method ExportCsv(pctText: Num -> string, localYmd: int -> string, today: string) returns (text: string, filename: string)
      ensures text == Csv(data, pctText)
      ensures filename == CsvFilename(selectedDate, range, localYmd, today)
    {
      text := Csv(data, pctText);
      filename := CsvFilename(selectedDate, range, localYmd, today);
    }
  }
}
