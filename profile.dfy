/**
 * The user profile page: the editable form with its change tracking, the
 * update payload, and the list of signed-in devices with revocation.
 */
module Profile {
  import opened Common

  /** The user object as a map of its text fields (`user.firstName` is `Get(user, "firstName")`). */
  type User = map<string, string>

  function Get(user: User, key: string): Option<string>
  {
    if key in user then Some(user[key]) else None
  }

  /** `x || ""` on a field that may be missing. */
  function OrEmpty(v: Option<string>): (r: string)
    ensures v.Some? ==> r == v.value
    ensures v.None? ==> r == ""
  {
    if v.Some? && v.value != "" then v.value else ""
  }

  /** `dob ? dob.split("T")[0] : ""`: the date part of an ISO timestamp. */
  function DatePart(dob: Option<string>): (r: string)
  {
    if dob.Some? && dob.value != "" then Split(dob.value, "T")[0] else ""
  }

  /** The date part never holds a "T", and of `date + "T" + time` it is `date`. */
  lemma DatePartShape(dob: Option<string>)
    ensures NoChar(DatePart(dob), 'T')
  {
    if dob.Some? && dob.value != "" {
      SplitPiecesNoSep(dob.value, 'T');
    }
  }

  lemma DatePartOfTimestamp(date: string, time: string)
    requires NoChar(date, 'T')
    ensures DatePart(Some(date + "T" + time)) == date
  {
    SplitAtFirst(date, 'T', time);
  }

  /** A date that is already only a date is kept as it is. */
  lemma DatePartOfDate(date: string)
    requires NoChar(date, 'T')
    ensures DatePart(Some(date)) == date
  {
    if date != "" { SplitNoSep(date, 'T'); }
  }

  datatype Form = Form(firstName: string, lastName: string, gender: string, dob: string)

  const EmptyForm := Form("", "", "", "")

  function InitialForm(user: User): (f: Form)
    ensures f.firstName == OrEmpty(Get(user, "firstName")) && f.lastName == OrEmpty(Get(user, "lastName"))
    ensures f.gender == OrEmpty(Get(user, "gender")) && f.dob == DatePart(Get(user, "dob"))
  {
    Form(OrEmpty(Get(user, "firstName")), OrEmpty(Get(user, "lastName")), OrEmpty(Get(user, "gender")), DatePart(Get(user, "dob")))
  }

  /** The inputs that go through `handleChange`, by their `name` attribute. */
  datatype Field = FirstName | LastName | Dob

  function WithField(f: Form, field: Field, value: string): (r: Form)
    ensures field == FirstName ==> r == f.(firstName := value)
    ensures field == LastName ==> r == f.(lastName := value)
    ensures field == Dob ==> r == f.(dob := value)
  {
    match field
    case FirstName => f.(firstName := value)
    case LastName => f.(lastName := value)
    case Dob => f.(dob := value)
  }

  /** Typing back the original value of the only changed field clears `hasChanges`. */
  lemma ChangeBack(original: Form, field: Field, value: string)
    ensures WithField(WithField(original, field, value), field, OrigField(original, field)) == original
  {
  }

  function OrigField(f: Form, field: Field): string
  {
    match field
    case FirstName => f.firstName
    case LastName => f.lastName
    case Dob => f.dob
  }

  /** The update body; `None` is a field left `undefined` and so not sent. */
  datatype Payload = Payload(firstName: Option<string>, lastName: Option<string>, gender: Option<string>, dob: Option<string>)

  /** `name.trim() || undefined`. */
  function TrimmedOrNone(s: string): Option<string>
  {
    if Trim(s) != "" then Some(Trim(s)) else None
  }

  /**
   * The payload of `handleSave`: names trimmed and dropped when blank,
   * gender dropped when empty, and a date sent only when filled in, as the
   * ISO text of midnight local time on that date (`toIso` stands for
   * `new Date(...).toISOString()`).
   */
  function PayloadOf(f: Form, toIso: string -> string): Payload
  {
    Payload(TrimmedOrNone(f.firstName), TrimmedOrNone(f.lastName), NonEmpty(f.gender), DobPayload(f.dob, toIso))
  }

  /** `value || undefined`. */
  function NonEmpty(s: string): Option<string>
  {
    if s != "" then Some(s) else None
  }

  const Midnight := "T00:00:00"

  /** The date is sent only when filled in. */
  function DobPayload(dob: string, toIso: string -> string): Option<string>
  {
    if dob != "" then Some(toIso(dob + Midnight)) else None
  }

  lemma PayloadShape(f: Form, toIso: string -> string)
    ensures var p := PayloadOf(f, toIso);
      && (p.firstName.None? <==> Blank(f.firstName))
      && (p.firstName.Some? ==> p.firstName.value == Trim(f.firstName) != "")
      && (p.lastName.None? <==> Blank(f.lastName))
      && (p.lastName.Some? ==> p.lastName.value == Trim(f.lastName) != "")
      && (p.gender.None? <==> f.gender == "")
      && (p.gender.Some? ==> p.gender.value == f.gender)
      && (p.dob.Some? <==> f.dob != "")
      && (p.dob.Some? ==> p.dob.value == toIso(f.dob + Midnight))
  {
  }

  /** Names that differ only in surrounding white space give the same payload. */
  lemma PayloadIgnoresPadding(f: Form, toIso: string -> string)
    ensures PayloadOf(f.(firstName := Trim(f.firstName), lastName := Trim(f.lastName)), toIso) == PayloadOf(f, toIso)
  {
    var g := f.(firstName := Trim(f.firstName), lastName := Trim(f.lastName));
    TrimmedOrNoneOfTrim(f.firstName);
    TrimmedOrNoneOfTrim(f.lastName);
    assert PayloadOf(g, toIso) == Payload(TrimmedOrNone(g.firstName), TrimmedOrNone(g.lastName), NonEmpty(f.gender), DobPayload(f.dob, toIso));
  }

  lemma TrimmedOrNoneOfTrim(s: string)
    ensures TrimmedOrNone(Trim(s)) == TrimmedOrNone(s)
  {
    TrimIdempotent(s);
  }

  lemma TrimIdempotent(s: string)
    ensures Trim(Trim(s)) == Trim(s)
  {
    var t := Trim(s);
    if |t| > 0 {
      TrimEdges(t);
    }
  }

  /** A text with no white space at either end trims to itself. */
  lemma TrimEdges(t: string)
    requires |t| > 0 && !IsWs(t[0]) && !IsWs(t[|t| - 1])
    ensures Trim(t) == t
  {
    assert TrimStart(t) == t;
  }

  /** A signed-in device. */
  datatype Device = Device(deviceId: string, userAgent: string, createdAt: string)

  predicate Other(d: Device, id: string) { d.deviceId != id }

  function OtherThan(id: string): Device -> bool { (d: Device) => Other(d, id) }

  /** The list after revoking `id`: every device with that id is gone, the others are kept in order. */
  function Revoked(devices: seq<Device>, id: string): seq<Device>
  {
    Filter(devices, OtherThan(id))
  }

  lemma RevokedShape(devices: seq<Device>, id: string)
    ensures forall d :: d in Revoked(devices, id) <==> d in devices && d.deviceId != id
    ensures |Revoked(devices, id)| <= |devices|
    ensures (forall k :: 0 <= k < |devices| ==> devices[k].deviceId != id) ==> Revoked(devices, id) == devices
  {
    FilterMembers(devices, OtherThan(id));
    if forall k :: 0 <= k < |devices| ==> devices[k].deviceId != id {
      FilterAll(devices, OtherThan(id));
    }
  }

  /** The icon of a device, chosen from its lower-cased user agent. */
  datatype DeviceIcon = PhoneIcon | TabletIcon | LaptopIcon

  predicate LooksMobile(ua: string)
  {
    var l := ToLower(ua);
    Contains(l, "mobile") || Contains(l, "android") || Contains(l, "iphone")
  }

  predicate LooksTablet(ua: string)
  {
    var l := ToLower(ua);
    Contains(l, "tablet") || Contains(l, "ipad")
  }

  /** `getDeviceIcon`: the phone words are tested before the tablet words. */
  function DeviceIconOf(ua: string): (r: DeviceIcon)
    ensures r == PhoneIcon <==> LooksMobile(ua)
    ensures r == TabletIcon <==> !LooksMobile(ua) && LooksTablet(ua)
    ensures r == LaptopIcon <==> !LooksMobile(ua) && !LooksTablet(ua)
  {
    if LooksMobile(ua) then PhoneIcon
    else if LooksTablet(ua) then TabletIcon
    else LaptopIcon
  }

  /** An iPad agent that also says "Mobile" (as iPad Safari does) gets the phone icon. */
  lemma MobileIpadIsPhone(ua: string, pre: string, post: string)
    requires ToLower(ua) == pre + "mobile" + post
    ensures DeviceIconOf(ua) == PhoneIcon
  {
    ContainsAt(ToLower(ua), "mobile", |pre|);
  }

  datatype Fetch<T> = Failed | Loaded(value: T)

  datatype Loaded = Loaded(user: User, wallet: Option<int>, devices: Option<seq<Device>>)

  class ProfilePage {
    var loading: bool
    var saving: bool
    var loadingDevices: bool
    var profile: User
    var wallet: Option<int>
    var devices: seq<Device>
    var formData: Form
    var originalData: Form

    constructor()
      ensures loading && !saving && loadingDevices && profile == map[] && wallet == None && devices == []
      ensures formData == EmptyForm && originalData == EmptyForm
    {
      loading := true;
      saving := false;
      loadingDevices := true;
      profile := map[];
      wallet := None;
      devices := [];
      formData := EmptyForm;
      originalData := EmptyForm;
    }

    /**
     * `hasChanges`, which an effect keeps equal to comparing the JSON texts
     * of the two forms; the texts of two forms with the same keys in the
     * same order differ exactly when some field differs.
     */
    predicate HasChanges()
      reads this
    {
      formData != originalData
    }

    /** `loadData`: the form and its original copy start out equal. */
    method LoadData(res: Fetch<Loaded>)
      modifies this
      ensures !loading && !loadingDevices
      ensures res.Loaded? ==> profile == res.value.user && wallet == res.value.wallet
      ensures res.Loaded? ==> devices == (if res.value.devices.Some? then res.value.devices.value else [])
      ensures res.Loaded? ==> formData == InitialForm(res.value.user) && originalData == formData && !HasChanges()
      ensures res.Failed? ==> (profile == old(profile) && wallet == old(wallet) && devices == old(devices)
        && formData == old(formData) && originalData == old(originalData))
      ensures saving == old(saving)
    {
      loading := true;
      if res.Loaded? {
        profile := res.value.user;
        wallet := res.value.wallet;
        devices := if res.value.devices.Some? then res.value.devices.value else [];
        var initial := InitialForm(res.value.user);
        formData := initial;
        originalData := initial;
      }
      loading := false;
      loadingDevices := false;
    }

    method HandleChange(field: Field, value: string)
      modifies this
      ensures formData == WithField(old(formData), field, value)
      ensures originalData == old(originalData) && devices == old(devices) && profile == old(profile)
      ensures loading == old(loading) && saving == old(saving) && wallet == old(wallet) && loadingDevices == old(loadingDevices)
    {
      formData := WithField(formData, field, value);
    }

    method HandleGenderChange(value: string)
      modifies this
      ensures formData == old(formData).(gender := value)
      ensures originalData == old(originalData) && devices == old(devices) && profile == old(profile)
      ensures loading == old(loading) && saving == old(saving) && wallet == old(wallet) && loadingDevices == old(loadingDevices)
    {
      formData := formData.(gender := value);
    }

    /**
     * `handleSave`: nothing is sent without changes; after an accepted
     * update the answer is merged into the profile and the form becomes
     * the new original, so nothing is left to save; after a refusal the
     * form still counts as changed.
     */
    method HandleSave(toIso: string -> string, answer: Option<User>) returns (sent: Option<Payload>)
      modifies this
      ensures old(formData) == old(originalData) ==> sent == None
      ensures old(formData) != old(originalData) ==> sent == Some(PayloadOf(old(formData), toIso))
      ensures sent.Some? && answer.Some? ==> profile == Merged(old(profile), answer.value) && originalData == old(formData)
      ensures !(sent.Some? && answer.Some?) ==> profile == old(profile) && originalData == old(originalData)
      ensures saving == (if sent.Some? then false else old(saving))
      ensures formData == old(formData) && devices == old(devices) && wallet == old(wallet)
      ensures loading == old(loading) && loadingDevices == old(loadingDevices)
    {
      sent := None;
      if formData != originalData {
        var payload := PayloadOf(formData, toIso);
        sent := Some(payload);
        saving := true;
        if answer.Some? {
          profile := Merged(profile, answer.value);
          originalData := formData;
        }
        saving := false;
      }
    }

    /** `handleDeviceRevoke`: nothing without confirmation; on success only that device leaves the list. */
    method HandleDeviceRevoke(id: string, confirmed: bool, revoked: bool) returns (called: bool)
      modifies this
      ensures called == confirmed
      ensures confirmed && revoked ==> devices == Revoked(old(devices), id)
      ensures !(confirmed && revoked) ==> devices == old(devices)
      ensures formData == old(formData) && originalData == old(originalData) && profile == old(profile)
      ensures loading == old(loading) && saving == old(saving) && wallet == old(wallet) && loadingDevices == old(loadingDevices)
    {
      if !confirmed {
        return false;
      }
      called := true;
      if revoked {
        devices := Revoked(devices, id);
      }
    }
  }

  /** The keys the update answer carries replace the profile's; the rest of the profile is kept. */
  function Merged(prev: User, updated: User): User
  {
    prev + updated
  }

  lemma MergeShape(prev: User, updated: User)
    ensures forall k :: k in updated ==> Get(Merged(prev, updated), k) == Some(updated[k])
    ensures forall k :: k in prev && k !in updated ==> Get(Merged(prev, updated), k) == Some(prev[k])
    ensures Merged(prev, updated).Keys == prev.Keys + updated.Keys
  {
  }
}
