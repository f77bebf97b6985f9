/**
 * The admin settings page: numeric settings read with `Number(x) || 0`, the
 * four Lucky Draw times and the Jackpot time normalised to "HH:mm", and the
 * save payload.
 */
module Settings {
  import opened Common

  const DefaultLdTimes: seq<string> := ["00:00", "12:00", "16:00", "20:00"]
  const DefaultJpTime: string := "20:00"

  /** `formatTimeToHHMM`: "" is "00:00"; otherwise the first two `:` fields ("undefined" when there is no second). */
  function FormatTimeToHHMM(time: string): (r: string)
  {
    if time == "" then "00:00"
    else
      var parts := Split(time, ":");
      parts[0] + ":" + (if |parts| >= 2 then parts[1] else "undefined")
  }

  /** The two fields of a formatted time. */
  function Fields(time: string): (string, string)
  {
    if time == "" then ("00", "00")
    else
      var parts := Split(time, ":");
      (parts[0], if |parts| >= 2 then parts[1] else "undefined")
  }

  lemma FieldsFree(time: string)
    ensures NoChar(Fields(time).0, ':') && NoChar(Fields(time).1, ':')
    ensures FormatTimeToHHMM(time) == Fields(time).0 + ":" + Fields(time).1
  {
    SplitPiecesNoSep(time, ':');
  }

  /** Every formatted time is two `:`-free fields around one `:`. */
  lemma FormattedShape(time: string)
    ensures Split(FormatTimeToHHMM(time), ":") == [Fields(time).0, Fields(time).1]
  {
    FieldsFree(time);
    SplitPair(Fields(time).0, Fields(time).1, ':');
  }

  /** "HH:mm" is kept, "HH:mm:ss" loses its seconds. */
  lemma DropsSeconds(h: string, m: string, sec: string)
    requires NoChar(h, ':') && NoChar(m, ':') && NoChar(sec, ':')
    ensures FormatTimeToHHMM(h + ":" + m) == h + ":" + m
    ensures FormatTimeToHHMM(h + ":" + m + ":" + sec) == h + ":" + m
  {
    SplitPair(h, m, ':');
    ConcatAssoc(h, ":", m);
    SplitAtFirst(h, ':', m + ":" + sec);
    SplitPair(m, sec, ':');
    assert h + ":" + m + ":" + sec == h + [':'] + (m + ":" + sec);
  }

  /** Formatting twice is formatting once. */
  lemma FormatIdempotent(time: string)
    ensures FormatTimeToHHMM(FormatTimeToHHMM(time)) == FormatTimeToHHMM(time)
  {
    var r := FormatTimeToHHMM(time);
    FormattedShape(time);
    assert r != "" by { FieldsFree(time); }
  }

  datatype Numbers = Numbers(
    slotAutoGenerateCount: RawNumber,
    defaultCommissionPct: RawNumber,
    agentNegativeBalanceLimt: RawNumber,
    bidPrizeLD: RawNumber,
    bidPrizeJP: RawNumber,
    minProfitPct: RawNumber,
    winningPrizeLD: RawNumber,
    winningPrizeJP: RawNumber)

  /** The eight numeric settings, each read with `Number(x) || 0`. */
  function NormalizeNumbers(n: Numbers): (r: Numbers)
  {
    Numbers(Num(NumberOrZero(n.slotAutoGenerateCount)), Num(NumberOrZero(n.defaultCommissionPct)),
            Num(NumberOrZero(n.agentNegativeBalanceLimt)), Num(NumberOrZero(n.bidPrizeLD)),
            Num(NumberOrZero(n.bidPrizeJP)), Num(NumberOrZero(n.minProfitPct)),
            Num(NumberOrZero(n.winningPrizeLD)), Num(NumberOrZero(n.winningPrizeJP)))
  }

  predicate AllNums(n: Numbers)
  {
    n.slotAutoGenerateCount.Num? && n.defaultCommissionPct.Num? && n.agentNegativeBalanceLimt.Num?
    && n.bidPrizeLD.Num? && n.bidPrizeJP.Num? && n.minProfitPct.Num? && n.winningPrizeLD.Num? && n.winningPrizeJP.Num?
  }

  /** Normalising leaves numbers only, an unreadable text becomes 0, and normalising again changes nothing. */
  lemma NormalizeShape(n: Numbers)
    ensures AllNums(NormalizeNumbers(n))
    ensures NormalizeNumbers(NormalizeNumbers(n)) == NormalizeNumbers(n)
    ensures n.bidPrizeLD.Text? && ToNumber(n.bidPrizeLD.s).None? ==> NormalizeNumbers(n).bidPrizeLD == Num(0)
  {
  }

  /** The settings as `getSettings` returns them; `None` lists are missing. */
  datatype SettingsData = SettingsData(numbers: Numbers, timezone: string, defaultLdTimes: Option<seq<string>>, defaultJpTimes: Option<seq<string>>)

  /** `ldTimesData[i] || DEFAULT_LD_TIMES[i]`, formatted. */
  function LdTimeAt(raw: seq<string>, i: nat): string
    requires i < 4
  {
    FormatTimeToHHMM(if i < |raw| && raw[i] != "" then raw[i] else DefaultLdTimes[i])
  }

  function LoadedLdTimes(raw: Option<seq<string>>): (r: seq<string>)
  {
    var data := if raw.Some? then raw.value else [];
    [LdTimeAt(data, 0), LdTimeAt(data, 1), LdTimeAt(data, 2), LdTimeAt(data, 3)]
  }

  function LoadedJpTime(raw: Option<seq<string>>): string
  {
    FormatTimeToHHMM(if raw.Some? && |raw.value| > 0 && raw.value[0] != "" then raw.value[0] else DefaultJpTime)
  }

  /**
   * After a load there are exactly four LD times, and a missing or empty
   * entry is taken from the defaults.
   */
  lemma LoadedLdDefaults(raw: Option<seq<string>>)
    ensures |LoadedLdTimes(raw)| == 4
    ensures forall i :: 0 <= i < 4 ==>
      (raw.None? || i >= |raw.value| || raw.value[i] == "" ==> LoadedLdTimes(raw)[i] == DefaultLdTimes[i])
  {
    var data := if raw.Some? then raw.value else [];
    var r := LoadedLdTimes(raw);
    forall i | 0 <= i < 4
      ensures raw.None? || i >= |raw.value| || raw.value[i] == "" ==> r[i] == DefaultLdTimes[i]
    {
      assert r[i] == LdTimeAt(data, i);
      LdTimeAtShape(data, i);
    }
  }

  /** Every loaded LD time is already in formatted form. */
  lemma LoadedLdFormatted(raw: Option<seq<string>>)
    ensures forall i :: 0 <= i < |LoadedLdTimes(raw)| ==> FormatTimeToHHMM(LoadedLdTimes(raw)[i]) == LoadedLdTimes(raw)[i]
  {
    var data := if raw.Some? then raw.value else [];
    var r := LoadedLdTimes(raw);
    forall i | 0 <= i < |r| ensures FormatTimeToHHMM(r[i]) == r[i] {
      assert r[i] == LdTimeAt(data, i);
      LdTimeAtShape(data, i);
    }
  }

  /** A missing or empty first JP time is the default, and the loaded JP time is formatted. */
  lemma JpTimeShape(jp: Option<seq<string>>)
    ensures (jp.None? || |jp.value| == 0 || jp.value[0] == "") ==> LoadedJpTime(jp) == DefaultJpTime
    ensures FormatTimeToHHMM(LoadedJpTime(jp)) == LoadedJpTime(jp)
  {
    DefaultsFormatted();
    FormatIdempotent(if jp.Some? && |jp.value| > 0 && jp.value[0] != "" then jp.value[0] else DefaultJpTime);
  }

  lemma LdTimeAtShape(data: seq<string>, i: nat)
    requires i < 4
    ensures FormatTimeToHHMM(LdTimeAt(data, i)) == LdTimeAt(data, i)
    ensures (i >= |data| || data[i] == "") ==> LdTimeAt(data, i) == DefaultLdTimes[i]
  {
    DefaultsFormatted();
    FormatIdempotent(if i < |data| && data[i] != "" then data[i] else DefaultLdTimes[i]);
  }

  /** The built-in times are already in "HH:mm" form. */
  lemma DefaultsFormatted()
    ensures forall i :: 0 <= i < 4 ==> FormatTimeToHHMM(DefaultLdTimes[i]) == DefaultLdTimes[i]
    ensures FormatTimeToHHMM(DefaultJpTime) == DefaultJpTime
  {
    forall i | 0 <= i < 4 ensures FormatTimeToHHMM(DefaultLdTimes[i]) == DefaultLdTimes[i] {
      var t := DefaultLdTimes[i];
      assert t == t[..2] + ":" + t[3..];
      DropsSeconds(t[..2], t[3..], "");
    }
    var t := DefaultJpTime;
    assert t == t[..2] + ":" + t[3..];
    DropsSeconds(t[..2], t[3..], "");
  }

  /** The body of `updateSettings`. */
  datatype Payload = Payload(
    slotAutoGenerateCount: int,
    timezone: string,
    defaultCommissionPct: int,
    agentNegativeBalanceLimt: int,
    bidPrizeLD: int,
    bidPrizeJP: int,
    minProfitPct: int,
    winningPrizeLD: int,
    winningPrizeJP: int,
    defaultLdTimes: seq<string>,
    defaultJpTimes: seq<string>)

  function SavePayload(form: Numbers, timezone: string, ldTimes: seq<string>, jpTime: string): (p: Payload)
  {
    Payload(NumberOrZero(form.slotAutoGenerateCount), timezone, NumberOrZero(form.defaultCommissionPct),
            NumberOrZero(form.agentNegativeBalanceLimt), NumberOrZero(form.bidPrizeLD), NumberOrZero(form.bidPrizeJP),
            NumberOrZero(form.minProfitPct), NumberOrZero(form.winningPrizeLD), NumberOrZero(form.winningPrizeJP),
            ldTimes, [jpTime])
  }

  /** Saving what was loaded sends back the eight normalised numbers, all four LD times and exactly one JP time. */
  lemma SaveAfterLoad(d: SettingsData)
    ensures var p := SavePayload(NormalizeNumbers(d.numbers), d.timezone, LoadedLdTimes(d.defaultLdTimes), LoadedJpTime(d.defaultJpTimes));
      && |p.defaultLdTimes| == 4 && |p.defaultJpTimes| == 1
      && p.bidPrizeLD == NumberOrZero(d.numbers.bidPrizeLD) && p.bidPrizeJP == NumberOrZero(d.numbers.bidPrizeJP)
      && p.winningPrizeLD == NumberOrZero(d.numbers.winningPrizeLD) && p.winningPrizeJP == NumberOrZero(d.numbers.winningPrizeJP)
      && p.slotAutoGenerateCount == NumberOrZero(d.numbers.slotAutoGenerateCount)
      && p.defaultCommissionPct == NumberOrZero(d.numbers.defaultCommissionPct)
      && p.agentNegativeBalanceLimt == NumberOrZero(d.numbers.agentNegativeBalanceLimt)
      && p.minProfitPct == NumberOrZero(d.numbers.minProfitPct)
  {
  }

  const EmptyNumbers: Numbers := Numbers(Undefined, Undefined, Undefined, Undefined, Undefined, Undefined, Undefined, Undefined)

  datatype Fetch<T> = Failed | Loaded(value: T)

  class SettingsPage {
    var loading: bool
    var saving: bool
    var formNumbers: Numbers
    var timezone: string
    var ldTimes: seq<string>
    var jpTime: string

    constructor()
      ensures loading && !saving && formNumbers == EmptyNumbers && timezone == ""
      ensures ldTimes == DefaultLdTimes && jpTime == DefaultJpTime
    {
      loading := true;
      saving := false;
      formNumbers := EmptyNumbers;
      timezone := "";
      ldTimes := DefaultLdTimes;
      jpTime := DefaultJpTime;
    }

    /** `fetchSettings`: a load replaces the form and both times; a failure keeps them. */
    method FetchSettings(res: Fetch<SettingsData>)
      modifies this
      ensures !loading && saving == old(saving)
      ensures res.Failed? ==> (formNumbers == old(formNumbers) && timezone == old(timezone)
        && ldTimes == old(ldTimes) && jpTime == old(jpTime))
      ensures res.Loaded? ==> (formNumbers == NormalizeNumbers(res.value.numbers) && timezone == res.value.timezone
        && ldTimes == LoadedLdTimes(res.value.defaultLdTimes) && jpTime == LoadedJpTime(res.value.defaultJpTimes))
    {
      loading := true;
      if res.Loaded? {
        formNumbers := NormalizeNumbers(res.value.numbers);
        timezone := res.value.timezone;
        ldTimes := LoadedLdTimes(res.value.defaultLdTimes);
        jpTime := LoadedJpTime(res.value.defaultJpTimes);
      }
      loading := false;
    }

    /** `handleLdTimeChange`: only entry `index` changes, to the formatted value. */
    method HandleLdTimeChange(index: nat, value: string)
      requires index < |ldTimes|
      modifies this
      ensures ldTimes == old(ldTimes)[index := FormatTimeToHHMM(value)]
      ensures |ldTimes| == |old(ldTimes)|
      ensures forall i :: 0 <= i < |ldTimes| && i != index ==> ldTimes[i] == old(ldTimes)[i]
      ensures jpTime == old(jpTime) && formNumbers == old(formNumbers) && timezone == old(timezone)
      ensures loading == old(loading) && saving == old(saving)
    {
      var newTimes := ldTimes;
      newTimes := newTimes[index := FormatTimeToHHMM(value)];
      ldTimes := newTimes;
    }

    method HandleJpTimeChange(value: string)
      modifies this
      ensures jpTime == FormatTimeToHHMM(value)
      ensures ldTimes == old(ldTimes) && formNumbers == old(formNumbers) && timezone == old(timezone)
      ensures loading == old(loading) && saving == old(saving)
    {
      jpTime := FormatTimeToHHMM(value);
    }

    /**
     * `handleSave`: the payload is built from the form and the times; after
     * the server accepts it the settings are loaded again.
     */
    method HandleSave(accepted: bool, reloaded: Fetch<SettingsData>) returns (sent: Payload)
      modifies this
      ensures sent == SavePayload(old(formNumbers), old(timezone), old(ldTimes), old(jpTime))
      ensures |sent.defaultJpTimes| == 1
      ensures !saving
      ensures !accepted || reloaded.Failed? ==> formNumbers == old(formNumbers) && ldTimes == old(ldTimes) && jpTime == old(jpTime)
      ensures accepted && reloaded.Loaded? ==> (ldTimes == LoadedLdTimes(reloaded.value.defaultLdTimes)
        && jpTime == LoadedJpTime(reloaded.value.defaultJpTimes))
    {
      saving := true;
      sent := SavePayload(formNumbers, timezone, ldTimes, jpTime);
      if accepted {
        FetchSettings(reloaded);
      }
      saving := false;
    }
  }
}
