/**
 * The admin agents page: the user list split into approved agents and
 * pending requests, with the row formatting and the search box.
 */
module Agents {
  import opened Common

  /** A user as `getAllUsers` returns it. */
  datatype AgentResponse = AgentResponse(
    id: string,
    firstName: string,
    lastName: string,
    gender: string,
    phone: string,
    dob: string,
    role: string,
    isApproved: bool,
    commissionPct: Option<int>)

  /** The columns both tables share. */
  datatype AgentInfo = AgentInfo(id: string, name: string, gender: string, phoneNumber: string, dob: string)

  datatype ApprovedAgent = ApprovedAgent(info: AgentInfo, commission: string, agentStatus: string)

  /** `g.charAt(0) + g.slice(1).toLowerCase()`. */
  function Capitalized(g: string): (r: string)
    ensures |r| == |g|
    ensures |g| > 0 ==> r[0] == g[0] && r[1..] == ToLower(g[1..])
  {
    if |g| == 0 then "" else [g[0]] + ToLower(g[1..])
  }

  /** Formatting an already formatted gender changes nothing ("MALE" and "Male" both give "Male"). */
  lemma CapitalizedIdempotent(g: string)
    ensures Capitalized(Capitalized(g)) == Capitalized(g)
  {
    if |g| > 0 {
      ToLowerIdempotent(g[1..]);
    }
  }

  lemma {:induction false} ToLowerIdempotent(s: string)
    ensures ToLower(ToLower(s)) == ToLower(s)
    decreases |s|
  {
    if |s| > 0 {
      ToLowerIdempotent(s[1..]);
    }
  }

  /** `${n}%` of a commission that may be absent ("undefined%"). */
  function PctText(p: Option<int>): string
  {
    (if p.Some? then IntToString(p.value) else "undefined") + "%"
  }

  /** The shared columns; the date of birth goes through the locale formatter given. */
  function InfoOf(a: AgentResponse, formatDob: string -> string): (r: AgentInfo)
    ensures r.id == a.id && r.phoneNumber == a.phone && r.gender == Capitalized(a.gender)
    ensures r.name == a.firstName + " " + a.lastName
  {
    AgentInfo(a.id, a.firstName + " " + a.lastName, Capitalized(a.gender), a.phone, formatDob(a.dob))
  }

  function ApprovedRow(a: AgentResponse, formatDob: string -> string): ApprovedAgent
  {
    ApprovedAgent(InfoOf(a, formatDob), PctText(a.commissionPct), "Completed")
  }

  predicate IsApprovedAgent(a: AgentResponse) { a.role == "AGENT" && a.isApproved }
  predicate IsPendingAgent(a: AgentResponse) { a.role == "AGENT" && !a.isApproved }

  /** The approved table, in response order. */
  function ApprovedRows(rs: seq<AgentResponse>, formatDob: string -> string): (r: seq<ApprovedAgent>)
  {
    if |rs| == 0 then []
    else ApprovedRows(rs[..|rs| - 1], formatDob) + (if IsApprovedAgent(rs[|rs| - 1]) then [ApprovedRow(rs[|rs| - 1], formatDob)] else [])
  }

  /** The pending table, in response order. */
  function PendingRows(rs: seq<AgentResponse>, formatDob: string -> string): (r: seq<AgentInfo>)
  {
    if |rs| == 0 then []
    else PendingRows(rs[..|rs| - 1], formatDob) + (if IsPendingAgent(rs[|rs| - 1]) then [InfoOf(rs[|rs| - 1], formatDob)] else [])
  }

  function AgentCount(rs: seq<AgentResponse>): nat
  {
    if |rs| == 0 then 0 else AgentCount(rs[..|rs| - 1]) + (if rs[|rs| - 1].role == "AGENT" then 1 else 0)
  }

  /**
   * Every agent lands in exactly one table: the two tables together are as
   * long as the number of agents, and only agents appear, each row built
   * from a response of its own kind.
   */
  lemma {:induction false} PartitionAgents(rs: seq<AgentResponse>, formatDob: string -> string)
    ensures |ApprovedRows(rs, formatDob)| + |PendingRows(rs, formatDob)| == AgentCount(rs)
    ensures forall x :: x in ApprovedRows(rs, formatDob) ==>
      (exists i :: 0 <= i < |rs| && IsApprovedAgent(rs[i]) && x == ApprovedRow(rs[i], formatDob))
    ensures forall x :: x in PendingRows(rs, formatDob) ==>
      (exists i :: 0 <= i < |rs| && IsPendingAgent(rs[i]) && x == InfoOf(rs[i], formatDob))
    decreases |rs|
  {
    if |rs| > 0 {
      var init := rs[..|rs| - 1];
      PartitionAgents(init, formatDob);
      forall x | x in ApprovedRows(init, formatDob)
        ensures exists i :: 0 <= i < |rs| && IsApprovedAgent(rs[i]) && x == ApprovedRow(rs[i], formatDob)
      {
        var i :| 0 <= i < |init| && IsApprovedAgent(init[i]) && x == ApprovedRow(init[i], formatDob);
        assert rs[i] == init[i];
      }
      forall x | x in PendingRows(init, formatDob)
        ensures exists i :: 0 <= i < |rs| && IsPendingAgent(rs[i]) && x == InfoOf(rs[i], formatDob)
      {
        var i :| 0 <= i < |init| && IsPendingAgent(init[i]) && x == InfoOf(init[i], formatDob);
        assert rs[i] == init[i];
      }
    }
  }

  /** An approved agent's row shows its commission with a percent sign and the status "Completed". */
  lemma ApprovedRowShape(a: AgentResponse, formatDob: string -> string, p: nat)
    requires a.commissionPct == Some(p as int)
    ensures ApprovedRow(a, formatDob).commission == NatToString(p) + "%"
    ensures ApprovedRow(a, formatDob).agentStatus == "Completed"
  {
  }

  // ---------------------------------------------------------------------
  // Search
  // ---------------------------------------------------------------------

  /** The lower-cased query found in the lower-cased name or id, or in the phone as it is. */
  predicate Matches(info: AgentInfo, query: string)
  {
    var q := ToLower(query);
    Contains(ToLower(info.name), q) || Contains(info.phoneNumber, q) || Contains(ToLower(info.id), q)
  }

  function MatchesQuery<T>(info: T -> AgentInfo, query: string): T -> bool
  {
    (x: T) => Matches(info(x), query)
  }

  /** `filterData`: all rows for an empty query, else the matching ones in order. */
  function FilterData<T>(data: seq<T>, info: T -> AgentInfo, query: string): seq<T>
  {
    if query == "" then data else Filter(data, MatchesQuery(info, query))
  }

  /** An empty query keeps every row; otherwise a row is kept exactly when it matches. */
  lemma FilterDataShape<T>(data: seq<T>, info: T -> AgentInfo, query: string)
    ensures query == "" ==> FilterData(data, info, query) == data
    ensures query != "" ==> forall x :: x in FilterData(data, info, query) <==> x in data && Matches(info(x), query)
    ensures |FilterData(data, info, query)| <= |data|
  {
    FilterMembers(data, MatchesQuery(info, query));
  }

  /** Searching is case-blind on names and ids: an upper-case query finds the same rows. */
  lemma SearchCaseBlind<T>(data: seq<T>, info: T -> AgentInfo, query: string)
    requires query != ""
    ensures FilterData(data, info, ToLower(query)) == FilterData(data, info, query)
  {
    ToLowerIdempotent(query);
    assert ToLower(query) != "" by { assert |ToLower(query)| == |query|; }
    assert forall x :: MatchesQuery(info, ToLower(query))(x) == MatchesQuery(info, query)(x);
    FilterSame(data, MatchesQuery(info, ToLower(query)), MatchesQuery(info, query));
  }

  lemma {:induction false} FilterSame<T>(s: seq<T>, p: T -> bool, q: T -> bool)
    requires forall x :: p(x) == q(x)
    ensures Filter(s, p) == Filter(s, q)
    decreases |s|
  {
    if |s| > 0 {
      FilterSame(s[1..], p, q);
    }
  }

  function ApprovedInfo(): ApprovedAgent -> AgentInfo { (a: ApprovedAgent) => a.info }
  function PendingInfo(): AgentInfo -> AgentInfo { (a: AgentInfo) => a }

  // ---------------------------------------------------------------------
  // The page
  // ---------------------------------------------------------------------

  datatype Fetch<T> = Failed | Loaded(value: T)

  class AgentsPage {
    var approvedAgents: seq<ApprovedAgent>
    var pendingAgents: seq<AgentInfo>
    var loading: bool
    var searchQuery: string
    var deleteId: Option<string>
    var confirmOpen: bool

    constructor()
      ensures approvedAgents == [] && pendingAgents == [] && loading && searchQuery == ""
      ensures deleteId == None && !confirmOpen
    {
      approvedAgents := [];
      pendingAgents := [];
      loading := true;
      searchQuery := "";
      deleteId := None;
      confirmOpen := false;
    }

    /** `fetchAgents`: one pass over the users, pushing each agent into its table. */
    method FetchAgents(res: Fetch<seq<AgentResponse>>, formatDob: string -> string)
      modifies this
      ensures !loading
      ensures res.Loaded? ==> approvedAgents == ApprovedRows(res.value, formatDob) && pendingAgents == PendingRows(res.value, formatDob)
      ensures res.Failed? ==> approvedAgents == old(approvedAgents) && pendingAgents == old(pendingAgents)
      ensures searchQuery == old(searchQuery) && deleteId == old(deleteId) && confirmOpen == old(confirmOpen)
    {
      loading := true;
      if res.Loaded? {
        var rs := res.value;
        var approved: seq<ApprovedAgent> := [];
        var pending: seq<AgentInfo> := [];
        var i := 0;
        while i < |rs|
          invariant 0 <= i <= |rs|
          invariant approved == ApprovedRows(rs[..i], formatDob)
          invariant pending == PendingRows(rs[..i], formatDob)
        {
          assert rs[..i + 1][..i] == rs[..i];
          var agent := rs[i];
          if agent.role == "AGENT" {
            if agent.isApproved {
              approved := approved + [ApprovedRow(agent, formatDob)];
            } else {
              pending := pending + [InfoOf(agent, formatDob)];
            }
          }
          i := i + 1;
        }
        assert rs[..i] == rs;
        approvedAgents := approved;
        pendingAgents := pending;
      }
      loading := false;
    }

    method OpenDeleteConfirm(id: string)
      modifies this
      ensures deleteId == Some(id) && confirmOpen
      ensures approvedAgents == old(approvedAgents) && pendingAgents == old(pendingAgents)
      ensures loading == old(loading) && searchQuery == old(searchQuery)
    {
      deleteId := Some(id);
      confirmOpen := true;
    }

    /**
     * `handleDelete`: nothing without an id; after a successful delete the
     * tables are fetched again; the dialog closes and the id is cleared.
     */
    method HandleDelete(deleted: bool, refetched: Fetch<seq<AgentResponse>>, formatDob: string -> string) returns (called: bool)
      modifies this
      ensures called <==> old(deleteId).Some? && old(deleteId).value != ""
      ensures !called ==> (approvedAgents == old(approvedAgents) && pendingAgents == old(pendingAgents)
        && deleteId == old(deleteId) && confirmOpen == old(confirmOpen))
      ensures called ==> !confirmOpen && deleteId == None
      ensures called && deleted && refetched.Loaded? ==>
        (approvedAgents == ApprovedRows(refetched.value, formatDob) && pendingAgents == PendingRows(refetched.value, formatDob))
      ensures called && !deleted ==> approvedAgents == old(approvedAgents) && pendingAgents == old(pendingAgents)
    {
      if deleteId.None? || deleteId.value == "" {
        return false;
      }
      called := true;
      if deleted {
        FetchAgents(refetched, formatDob);
      }
      confirmOpen := false;
      deleteId := None;
    }

    /** `handleApprove`: the tables are fetched again after a successful approval. */
    method HandleApprove(approved: bool, refetched: Fetch<seq<AgentResponse>>, formatDob: string -> string)
      modifies this
      ensures approved && refetched.Loaded? ==>
        (approvedAgents == ApprovedRows(refetched.value, formatDob) && pendingAgents == PendingRows(refetched.value, formatDob))
      ensures !approved ==> approvedAgents == old(approvedAgents) && pendingAgents == old(pendingAgents) && loading == old(loading)
      ensures searchQuery == old(searchQuery) && deleteId == old(deleteId) && confirmOpen == old(confirmOpen)
    {
      if approved {
        FetchAgents(refetched, formatDob);
      }
    }

    method VisibleApproved() returns (rows: seq<ApprovedAgent>)
      ensures rows == FilterData(approvedAgents, ApprovedInfo(), searchQuery)
    {
      rows := FilterData(approvedAgents, ApprovedInfo(), searchQuery);
    }

    method VisiblePending() returns (rows: seq<AgentInfo>)
      ensures rows == FilterData(pendingAgents, PendingInfo(), searchQuery)
    {
      rows := FilterData(pendingAgents, PendingInfo(), searchQuery);
    }
  }
}
