/**
 * The shared draw-times store: four Lucky Draw times and one Jackpot time,
 * loaded from the settings with a fall-back to built-in defaults.
 */
module DrawTimesStore {
  import opened Common

  const DefaultLd: seq<string> := ["00:00", "12:00", "16:00", "20:00"]
  const DefaultJp: seq<string> := ["00:15"]
  const FallbackError: string := "Using default draw times"

  /** The LD times are taken only when there are exactly four. */
  function AcceptLd(raw: Option<seq<string>>): (r: seq<string>)
    ensures |r| == 4
    ensures raw.Some? && |raw.value| == 4 ==> r == raw.value
    ensures !(raw.Some? && |raw.value| == 4) ==> r == DefaultLd
  {
    if raw.Some? && |raw.value| == 4 then raw.value else DefaultLd
  }

  /** The first JP time when there is one. */
  function AcceptJp(raw: Option<seq<string>>): (r: seq<string>)
    ensures |r| == 1
    ensures raw.Some? && |raw.value| >= 1 ==> r == [raw.value[0]]
    ensures !(raw.Some? && |raw.value| >= 1) ==> r == DefaultJp
  {
    if raw.Some? && |raw.value| >= 1 then [raw.value[0]] else DefaultJp
  }

  /** The outcome of `getSettings`: its two time lists, or a failure. */
  datatype Fetched = Failed | Settings(defaultLdTimes: Option<seq<string>>, defaultJpTimes: Option<seq<string>>)

  class DrawTimes {
    var ldTimes: seq<string>
    var jpTime: seq<string>
    var loading: bool
    var error: Option<string>

    /** The tuple types of the store: four LD times, one JP time. */
    predicate Valid()
      reads this
    {
      |ldTimes| == 4 && |jpTime| == 1
    }

    constructor()
      ensures Valid()
      ensures ldTimes == DefaultLd && jpTime == DefaultJp && loading && error == None
    {
      ldTimes := DefaultLd;
      jpTime := DefaultJp;
      loading := true;
      error := None;
    }

    /** The first `set` of `fetchTimes`. */
    method BeginFetch()
      requires Valid()
      modifies this
      ensures Valid()
      ensures loading && error == None && ldTimes == old(ldTimes) && jpTime == old(jpTime)
    {
      loading := true;
      error := None;
    }

    /** The second `set`: accepted times on success, the defaults and a message on failure. */
    method FinishFetch(res: Fetched)
      requires Valid()
      modifies this
      ensures Valid() && !loading
      ensures res.Settings? ==> (ldTimes == AcceptLd(res.defaultLdTimes) && jpTime == AcceptJp(res.defaultJpTimes)
        && error == old(error))
      ensures res.Failed? ==> ldTimes == DefaultLd && jpTime == DefaultJp && error == Some(FallbackError)
    {
      if res.Settings? {
        ldTimes := AcceptLd(res.defaultLdTimes);
        jpTime := AcceptJp(res.defaultJpTimes);
        loading := false;
      } else {
        ldTimes := DefaultLd;
        jpTime := DefaultJp;
        loading := false;
        error := Some(FallbackError);
      }
    }

    /** `fetchTimes`: the error is cleared first, so it is set afterwards exactly when the load failed. */
    method FetchTimes(res: Fetched)
      requires Valid()
      modifies this
      ensures Valid() && !loading
      ensures error.Some? <==> res.Failed?
      ensures res.Settings? ==> ldTimes == AcceptLd(res.defaultLdTimes) && jpTime == AcceptJp(res.defaultJpTimes)
      ensures res.Failed? ==> ldTimes == DefaultLd && jpTime == DefaultJp && error == Some(FallbackError)
    {
      BeginFetch();
      FinishFetch(res);
    }
  }

  /** A list of any other length than four falls back to all four defaults, never to a mix. */
  lemma LdAllOrNothing(raw: seq<string>)
    ensures AcceptLd(Some(raw)) == raw || AcceptLd(Some(raw)) == DefaultLd
    ensures |raw| != 4 ==> AcceptLd(Some(raw)) == DefaultLd
  {
  }
}
