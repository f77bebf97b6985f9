/**
 * `getNextDrawTime`: the next draw instant after now, from the fixed list
 * of daily draw times. Instants are in milliseconds; a draw time is given
 * as its offset from local midnight, and `midnight` is the local midnight
 * of today (a day is 24 hours in the Malaysian zone, which has no daylight
 * saving).
 */
module GetTime {
  import opened Common

  /** The draw times of `TIME_SLOT`, as offsets within a day. */
  predicate ValidSlots(slotTimes: seq<int>)
  {
    |slotTimes| > 0 && forall k :: 0 <= k < |slotTimes| ==> 0 <= slotTimes[k] < DayMs
  }

  function SlotDates(midnight: int, slotTimes: seq<int>): (r: seq<int>)
    ensures |r| == |slotTimes| && forall k :: 0 <= k < |slotTimes| ==> r[k] == midnight + slotTimes[k]
  {
    seq(|slotTimes|, k requires 0 <= k < |slotTimes| => midnight + slotTimes[k])
  }

  function After(now: int): int -> bool { (t: int) => t > now }

  /** The first of today's draws, in list order, that is later than now; else the first draw time tomorrow. */
  function NextDrawTime(now: int, midnight: int, slotTimes: seq<int>): int
    requires |slotTimes| > 0
  {
    var dates := SlotDates(midnight, slotTimes);
    var i := FindFirst(dates, After(now));
    if i.Some? then dates[i.value] else midnight + slotTimes[0] + DayMs
  }

  /** The answer is always strictly later than now. */
  lemma NextDrawAfterNow(now: int, midnight: int, slotTimes: seq<int>)
    requires ValidSlots(slotTimes) && midnight <= now < midnight + DayMs
    ensures NextDrawTime(now, midnight, slotTimes) > now
  {
  }

  /** Only draw times of the list are returned, today or tomorrow. */
  lemma NextDrawIsSlot(now: int, midnight: int, slotTimes: seq<int>)
    requires |slotTimes| > 0
    ensures var t := NextDrawTime(now, midnight, slotTimes);
      exists k :: 0 <= k < |slotTimes| && (t == midnight + slotTimes[k] || t == midnight + DayMs + slotTimes[k])
  {
    var dates := SlotDates(midnight, slotTimes);
    var i := FindFirst(dates, After(now));
    if i.Some? {
      assert NextDrawTime(now, midnight, slotTimes) == midnight + slotTimes[i.value];
    } else {
      assert NextDrawTime(now, midnight, slotTimes) == midnight + DayMs + slotTimes[0];
    }
  }

  /**
   * The answer is the first listed time still ahead today, which need not
   * be the earliest one ahead; only when every time has passed is it the
   * first listed time tomorrow.
   */
  lemma NextDrawIsFirstAhead(now: int, midnight: int, slotTimes: seq<int>, k: nat)
    requires k < |slotTimes| && midnight + slotTimes[k] > now
    requires forall j :: 0 <= j < k ==> midnight + slotTimes[j] <= now
    ensures NextDrawTime(now, midnight, slotTimes) == midnight + slotTimes[k]
  {
    FindFirstAt(SlotDates(midnight, slotTimes), After(now), k);
  }

  lemma NextDrawTomorrow(now: int, midnight: int, slotTimes: seq<int>)
    requires |slotTimes| > 0
    requires forall j :: 0 <= j < |slotTimes| ==> midnight + slotTimes[j] <= now
    ensures NextDrawTime(now, midnight, slotTimes) == midnight + DayMs + slotTimes[0]
  {
    var dates := SlotDates(midnight, slotTimes);
    assert forall j :: 0 <= j < |dates| ==> !After(now)(dates[j]);
  }

  /** With an unsorted list a later time listed first is chosen over an earlier one also ahead. */
  lemma ListOrderNotTimeOrder()
    ensures NextDrawTime(0, 0, [20 * 3600000, 12 * 3600000]) == 20 * 3600000
  {
    NextDrawIsFirstAhead(0, 0, [20 * 3600000, 12 * 3600000], 0);
  }
}
