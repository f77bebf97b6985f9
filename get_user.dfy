/**
 * Reading the signed-in user in the browser: the `app_user` cookie of
 * `document.cookie`, URI-decoded and parsed as JSON.  The decoder and the
 * parser are partial functions (`None` when they throw).
 */
module GetUser {
  import opened Common

  const Prefix: string := "app_user="

  function IsUserRow(): string -> bool { (row: string) => StartsWith(row, Prefix) }

  /** The cookie's text: everything between the first and the second `=` of the row. */
  function RawValue(row: string): string
  {
    var parts := Split(row, "=");
    if |parts| >= 2 then parts[1] else ""
  }

  /** `getUserFromBrowser`; `hasDocument` is false during server rendering. */
  function GetUserFromBrowser(hasDocument: bool, cookie: string, decode: string -> Option<string>, parse: string -> Option<Json>): Option<Json>
  {
    if !hasDocument then None
    else
      var rows := Split(cookie, "; ");
      var i := FindFirst(rows, IsUserRow());
      if i.None? || rows[i.value] == "" then None
      else
        var d := decode(RawValue(rows[i.value]));
        if d.None? then None else parse(d.value)
  }

  /** Without a document, or without an `app_user=` row, there is no user. */
  lemma NoUser(hasDocument: bool, cookie: string, decode: string -> Option<string>, parse: string -> Option<Json>)
    ensures !hasDocument ==> GetUserFromBrowser(hasDocument, cookie, decode, parse).None?
    ensures (forall k :: 0 <= k < |Split(cookie, "; ")| ==> !StartsWith(Split(cookie, "; ")[k], Prefix)) ==>
      GetUserFromBrowser(hasDocument, cookie, decode, parse).None?
  {
  }

  /**
   * The first `app_user=` row is the one read, its value is decoded and then
   * parsed, and a failure of either gives no user.
   */
  lemma FirstRowRead(cookie: string, decode: string -> Option<string>, parse: string -> Option<Json>, i: nat)
    requires var rows := Split(cookie, "; ");
      i < |rows| && StartsWith(rows[i], Prefix) && forall j :: 0 <= j < i ==> !StartsWith(rows[j], Prefix)
    ensures var d := decode(RawValue(Split(cookie, "; ")[i]));
      GetUserFromBrowser(true, cookie, decode, parse) == (if d.None? then None else parse(d.value))
  {
    var rows := Split(cookie, "; ");
    FindFirstAt(rows, IsUserRow(), i);
  }

  /** A row `app_user=v`, or `app_user=v=...`, with no `=` in `v` yields `v`. */
  lemma RawValueBetweenEquals(v: string, rest: string)
    requires NoChar(v, '=')
    ensures RawValue(Prefix + v) == v
    ensures RawValue(Prefix + v + "=" + rest) == v
  {
    var key := "app_user";
    assert NoChar(key, '=');
    assert Prefix + v == key + "=" + v;
    SplitAtFirst(key, '=', v);
    SplitNoSep(v, '=');
    ConcatAssoc(Prefix, v, "=" + rest);
    assert Prefix + v + "=" + rest == key + "=" + (v + "=" + rest);
    SplitAtFirst(key, '=', v + "=" + rest);
    SplitAtFirst(v, '=', rest);
  }
}
