/**
 * The two admin settlement pages: commission owed to agents and winnings
 * the admin pays out to agents. Both list rows with a search box and an
 * action cell that is a "Locked" notice, a "No Pending" notice or a settle
 * button; they differ in which check comes first and in how the search
 * treats white space.
 */
module AdminWalletService {
  /** The payload of a settle call and the endpoint it is posted to. */
  datatype SettleRequest = SettleRequest(endpoint: string, userId: string, amount: int, transId: string, note: string)

  const CommissionEndpoint := "/wallet/admin/commission/settle-to-agent"
  const WinningEndpoint := "/wallet/admin/win/settle-to-agent"

  /** What the action column shows for a row. */
  datatype Action = Locked | NoPending | Settle(request: SettleRequest)
}

module CommissionSettlement {
  import opened Common
  import opened AdminWalletService

  datatype CommissionRow = CommissionRow(
    agentId: string,
    name: string,
    phone: Option<string>,
    walletBalance: int,
    earned: int,
    settled: int,
    pending: int,
    lockedPending: int)

  /** A phone that is present, not empty, and whose lower-cased text contains `s`. */
  predicate PhoneHas(phone: Option<string>, s: string)
  {
    phone.Some? && phone.value != "" && Contains(ToLower(phone.value), s)
  }

  predicate Matches(r: CommissionRow, search: string)
  {
    var s := ToLower(search);
    Contains(ToLower(r.name), s) || PhoneHas(r.phone, s)
  }

  function MatchesSearch(search: string): CommissionRow -> bool
  {
    (r: CommissionRow) => Matches(r, search)
  }

  /** `filteredRows`: a blank search (only white space) shows every row. */
  function FilteredRows(rows: seq<CommissionRow>, search: string): seq<CommissionRow>
  {
    if Blank(search) then rows else Filter(rows, MatchesSearch(search))
  }

  /** A search of only white space keeps every row; any other keeps exactly the matching rows, in order. */
  lemma FilteredRowsShape(rows: seq<CommissionRow>, search: string)
    ensures (forall i :: 0 <= i < |search| ==> IsWs(search[i])) ==> FilteredRows(rows, search) == rows
    ensures !Blank(search) ==> forall r :: r in FilteredRows(rows, search) <==> r in rows && Matches(r, search)
    ensures |FilteredRows(rows, search)| <= |rows|
  {
    BlankIffAllWs(search);
    FilterMembers(rows, MatchesSearch(search));
  }

  /** The action column: a negative wallet locks the row before pending is looked at. */
  function ActionFor(row: CommissionRow, now: int): (a: Action)
    ensures a == Locked <==> row.walletBalance < 0
    ensures a == NoPending <==> row.walletBalance >= 0 && row.pending <= 0
    ensures a.Settle? ==> a.request.userId == row.agentId && a.request.amount == row.pending > 0
    ensures a.Settle? ==> a.request.endpoint == CommissionEndpoint && a.request.transId == "COMM-" + IntToString(now)
  {
    if row.walletBalance < 0 then Locked
    else if row.pending <= 0 then NoPending
    else Settle(SettleRequest(CommissionEndpoint, row.agentId, row.pending, "COMM-" + IntToString(now), "Commission settlement by admin"))
  }

  /** The pending and locked columns: a positive amount as it is, anything else as "RM 0". */
  function AmountCell(v: int): (r: string)
    ensures v > 0 ==> r == "RM " + NatToString(v)
    ensures v <= 0 ==> r == "RM 0"
  {
    "RM " + (if v > 0 then IntToString(v) else "0")
  }

  class Page {
    var rows: seq<CommissionRow>
    var search: string

    constructor()
      ensures rows == [] && search == ""
    {
      rows := [];
      search := "";
    }

    method Load(data: seq<CommissionRow>)
      modifies this
      ensures rows == data && search == old(search)
    {
      rows := data;
    }

    method SetSearch(s: string)
      modifies this
      ensures search == s && rows == old(rows)
    {
      search := s;
    }

    function Visible(): seq<CommissionRow>
      reads this
    {
      FilteredRows(rows, search)
    }

    /**
     * The settle button: it exists only for a row whose action is Settle;
     * once the call succeeds the summary is loaded again.
     */
    method ClickSettle(row: CommissionRow, now: int, succeeded: bool, reloaded: seq<CommissionRow>) returns (sent: Option<SettleRequest>)
      modifies this
      ensures sent.Some? <==> ActionFor(row, now).Settle?
      ensures sent.Some? ==> sent.value == ActionFor(row, now).request
      ensures sent.Some? && succeeded ==> rows == reloaded
      ensures !(sent.Some? && succeeded) ==> rows == old(rows)
      ensures search == old(search)
    {
      var action := ActionFor(row, now);
      if !action.Settle? {
        return None;
      }
      sent := Some(action.request);
      if succeeded {
        rows := reloaded;
      }
    }
  }
}

module WinningSettlement {
  import opened Common
  import opened AdminWalletService
  import CommissionSettlement

  datatype WinningRow = WinningRow(
    agentId: string,
    name: string,
    phone: Option<string>,
    reservedWinning: int,
    walletBalance: int,
    pending: int)

  predicate Matches(r: WinningRow, search: string)
  {
    var lower := ToLower(search);
    Contains(ToLower(r.name), lower) || CommissionSettlement.PhoneHas(r.phone, lower)
  }

  function MatchesSearch(search: string): WinningRow -> bool
  {
    (r: WinningRow) => Matches(r, search)
  }

  /** `filteredRows`: the search is applied as typed, white space included. */
  function FilteredRows(rows: seq<WinningRow>, search: string): seq<WinningRow>
  {
    Filter(rows, MatchesSearch(search))
  }

  /** The empty search keeps every row (every name contains ""); any search keeps exactly the matching rows. */
  lemma FilteredRowsShape(rows: seq<WinningRow>, search: string)
    ensures search == "" ==> FilteredRows(rows, search) == rows
    ensures forall r :: r in FilteredRows(rows, search) <==> r in rows && Matches(r, search)
    ensures |FilteredRows(rows, search)| <= |rows|
  {
    FilterMembers(rows, MatchesSearch(search));
    if search == "" {
      forall r | r in rows ensures Matches(r, search) {
        ContainsEmpty(ToLower(r.name));
      }
      FilterAll(rows, MatchesSearch(search));
    }
  }

  /** A single space is not blank here: a row whose name and phone have no space is hidden by it. */
  lemma SpaceSearchHides(r: WinningRow)
    requires forall i :: 0 <= i < |r.name| ==> r.name[i] != ' '
    requires r.phone.None?
    ensures FilteredRows([r], " ") == []
  {
    var lower := ToLower(r.name);
    forall i | 0 <= i < |lower| ensures lower[i] != ' ' {
      assert lower[i] == LowerChar(r.name[i]);
    }
    NoSpaceNotContained(lower);
    assert ToLower(" ") == " ";
    assert !MatchesSearch(" ")(r);
  }

  lemma {:induction false} NoSpaceNotContained(s: string)
    requires forall i :: 0 <= i < |s| ==> s[i] != ' '
    ensures !Contains(s, " ")
    decreases |s|
  {
    if |s| > 0 {
      NoSpaceNotContained(s[1..]);
      assert s[..1][0] == s[0];
    }
  }

  /** The action column: pending is looked at first, the wallet only when something is pending. */
  function ActionFor(row: WinningRow, now: int): (a: Action)
    ensures a == NoPending <==> row.pending <= 0
    ensures a == Locked <==> row.pending > 0 && row.walletBalance < 0
    ensures a.Settle? ==> a.request.userId == row.agentId && a.request.amount == row.pending > 0
    ensures a.Settle? ==> a.request.endpoint == WinningEndpoint && a.request.transId == "WIN-" + IntToString(now)
  {
    if row.pending > 0 then
      if row.walletBalance < 0 then Locked
      else Settle(SettleRequest(WinningEndpoint, row.agentId, row.pending, "WIN-" + IntToString(now), "Winning settlement by admin"))
    else NoPending
  }

  /**
   * The two pages order their checks differently: with a negative wallet
   * and nothing pending the commission page says Locked and this page says
   * No Pending; whenever something is pending they agree on whether the
   * row is locked.
   */
  lemma CheckOrderDiffers(c: CommissionSettlement.CommissionRow, w: WinningRow, now: int)
    requires c.walletBalance == w.walletBalance && c.pending == w.pending
    ensures c.walletBalance < 0 && c.pending <= 0 ==>
      CommissionSettlement.ActionFor(c, now) == Locked && ActionFor(w, now) == NoPending
    ensures c.pending > 0 ==>
      (CommissionSettlement.ActionFor(c, now) == Locked <==> ActionFor(w, now) == Locked)
    ensures c.walletBalance >= 0 ==>
      (CommissionSettlement.ActionFor(c, now) == NoPending <==> ActionFor(w, now) == NoPending)
  {
  }

  class Page {
    var rows: seq<WinningRow>
    var search: string

    constructor()
      ensures rows == [] && search == ""
    {
      rows := [];
      search := "";
    }

    method Load(data: seq<WinningRow>)
      modifies this
      ensures rows == data && search == old(search)
    {
      rows := data;
    }

    method SetSearch(s: string)
      modifies this
      ensures search == s && rows == old(rows)
    {
      search := s;
    }

    function Visible(): seq<WinningRow>
      reads this
    {
      FilteredRows(rows, search)
    }

    /** The settle button of a row whose action is Settle; the list is loaded again after the call. */
    method ClickSettle(row: WinningRow, now: int, succeeded: bool, reloaded: seq<WinningRow>) returns (sent: Option<SettleRequest>)
      modifies this
      ensures sent.Some? <==> ActionFor(row, now).Settle?
      ensures sent.Some? ==> sent.value == ActionFor(row, now).request
      ensures sent.Some? && succeeded ==> rows == reloaded
      ensures !(sent.Some? && succeeded) ==> rows == old(rows)
      ensures search == old(search)
    {
      var action := ActionFor(row, now);
      if !action.Settle? {
        return None;
      }
      sent := Some(action.request);
      if succeeded {
        rows := reloaded;
      }
    }
  }
}
