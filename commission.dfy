/**
 * The admin commission page: the approved agents with their commission
 * percentage, inline editing of one row at a time, and the search box.
 */
module Commission {
  import opened Common

  /** An approved agent as the backend sends it; the percentage is any JSON value. */
  datatype AgentRecord = AgentRecord(id: string, firstName: string, lastName: string, phone: string, commissionPct: RawNumber, createdAt: string)

  /** An agent as the page keeps it. */
  datatype Agent = Agent(id: string, firstName: string, lastName: string, phone: string, commissionPct: int, createdAt: string)

  /** The row `loadAgents` builds: everything copied, the percentage read as `Number(x) || 0`. */
  function Formatted(a: AgentRecord): (r: Agent)
    ensures r.id == a.id && r.firstName == a.firstName && r.lastName == a.lastName
    ensures r.phone == a.phone && r.createdAt == a.createdAt
    ensures a.commissionPct.Undefined? ==> r.commissionPct == 0
  {
    Agent(a.id, a.firstName, a.lastName, a.phone, NumberOrZero(a.commissionPct), a.createdAt)
  }

  function FormatAll(rs: seq<AgentRecord>): (r: seq<Agent>)
    ensures |r| == |rs|
    ensures forall i :: 0 <= i < |rs| ==> r[i] == Formatted(rs[i])
  {
    seq(|rs|, i requires 0 <= i < |rs| => Formatted(rs[i]))
  }

  /** `prev.map(...)`: the agent with the id gets the new percentage, every other agent is left as it was. */
  function UpdatePct(agents: seq<Agent>, id: string, pct: int): (r: seq<Agent>)
  {
    if |agents| == 0 then []
    else [if agents[0].id == id then agents[0].(commissionPct := pct) else agents[0]] + UpdatePct(agents[1..], id, pct)
  }

  /** Only the percentage of the matching agents changes; order, ids and every other column are kept. */
  lemma {:induction false} UpdatePctShape(agents: seq<Agent>, id: string, pct: int)
    ensures |UpdatePct(agents, id, pct)| == |agents|
    ensures forall i :: 0 <= i < |agents| ==>
      UpdatePct(agents, id, pct)[i] == (if agents[i].id == id then agents[i].(commissionPct := pct) else agents[i])
    decreases |agents|
  {
    if |agents| > 0 {
      UpdatePctShape(agents[1..], id, pct);
      var r := UpdatePct(agents, id, pct);
      forall i | 0 <= i < |agents|
        ensures r[i] == (if agents[i].id == id then agents[i].(commissionPct := pct) else agents[i])
      {
        if i > 0 { assert r[i] == UpdatePct(agents[1..], id, pct)[i - 1]; }
      }
    }
  }

  /** Saving the same value twice is the same as saving it once. */
  lemma UpdatePctIdempotent(agents: seq<Agent>, id: string, pct: int)
    ensures UpdatePct(UpdatePct(agents, id, pct), id, pct) == UpdatePct(agents, id, pct)
  {
    var once := UpdatePct(agents, id, pct);
    UpdatePctShape(agents, id, pct);
    UpdatePctShape(once, id, pct);
  }

  /** An id that no agent has changes nothing. */
  lemma UpdatePctAbsent(agents: seq<Agent>, id: string, pct: int)
    requires forall i :: 0 <= i < |agents| ==> agents[i].id != id
    ensures UpdatePct(agents, id, pct) == agents
  {
    UpdatePctShape(agents, id, pct);
  }

  /** The lower-cased query in the lower-cased first or last name or id, or in the phone as it is. */
  predicate Matches(a: Agent, query: string)
  {
    var q := ToLower(query);
    Contains(ToLower(a.firstName), q) || Contains(ToLower(a.lastName), q) || Contains(a.phone, q) || Contains(ToLower(a.id), q)
  }

  function MatchesQuery(query: string): Agent -> bool
  {
    (a: Agent) => Matches(a, query)
  }

  /** `filteredAgents`. */
  function Search(agents: seq<Agent>, query: string): seq<Agent>
  {
    if query == "" then agents else Filter(agents, MatchesQuery(query))
  }

  /** An empty query shows every agent; otherwise exactly the matching agents, in order. */
  lemma SearchShape(agents: seq<Agent>, query: string)
    ensures query == "" ==> Search(agents, query) == agents
    ensures query != "" ==> forall a :: a in Search(agents, query) <==> a in agents && Matches(a, query)
    ensures |Search(agents, query)| <= |agents|
  {
    FilterMembers(agents, MatchesQuery(query));
  }

  /** A query that is part of an agent's phone number always finds that agent. */
  lemma PhoneFound(agents: seq<Agent>, query: string, i: nat)
    requires i < |agents| && query != ""
    requires Contains(agents[i].phone, ToLower(query))
    ensures agents[i] in Search(agents, query)
  {
    SearchShape(agents, query);
  }

  datatype Fetch<T> = Failed | Loaded(value: T)

  class CommissionPage {
    var agents: seq<Agent>
    var loading: bool
    var searchQuery: string
    var editingId: Option<string>
    var editedCommission: int

    constructor()
      ensures agents == [] && loading && searchQuery == "" && editingId == None && editedCommission == 0
    {
      agents := [];
      loading := true;
      searchQuery := "";
      editingId := None;
      editedCommission := 0;
    }

    /** `loadAgents`: the formatted list on success; a failed request leaves the list as it was. */
    method LoadAgents(res: Fetch<seq<AgentRecord>>)
      modifies this
      ensures !loading
      ensures res.Loaded? ==> agents == FormatAll(res.value)
      ensures res.Failed? ==> agents == old(agents)
      ensures searchQuery == old(searchQuery) && editingId == old(editingId) && editedCommission == old(editedCommission)
    {
      loading := true;
      if res.Loaded? {
        agents := FormatAll(res.value);
      }
      loading := false;
    }

    /** `handleEdit`: the row being edited and the value in its input. */
    method HandleEdit(id: string, value: int)
      modifies this
      ensures editingId == Some(id) && editedCommission == value
      ensures agents == old(agents) && loading == old(loading) && searchQuery == old(searchQuery)
    {
      editingId := Some(id);
      editedCommission := value;
    }

    /** The number input: `parseFloat(value) || 0`, with `None` for an unreadable entry. */
    method HandleInput(value: Option<int>)
      modifies this
      ensures editedCommission == (if value.Some? then value.value else 0)
      ensures agents == old(agents) && editingId == old(editingId) && searchQuery == old(searchQuery) && loading == old(loading)
    {
      editedCommission := if value.Some? then value.value else 0;
    }

    /**
     * `handleSave`: after the backend accepts, the matching agent gets the
     * edited percentage and editing ends; after a refusal nothing changes.
     */
    method HandleSave(id: string, accepted: bool) returns (sentPct: int)
      modifies this
      ensures sentPct == old(editedCommission)
      ensures accepted ==> agents == UpdatePct(old(agents), id, old(editedCommission)) && editingId == None
      ensures !accepted ==> agents == old(agents) && editingId == old(editingId)
      ensures editedCommission == old(editedCommission) && searchQuery == old(searchQuery) && loading == old(loading)
    {
      sentPct := editedCommission;
      if accepted {
        agents := UpdatePct(agents, id, editedCommission);
        editingId := None;
      }
    }

    /** `handleCancel`. */
    method HandleCancel()
      modifies this
      ensures editingId == None && editedCommission == 0
      ensures agents == old(agents) && searchQuery == old(searchQuery) && loading == old(loading)
    {
      editingId := None;
      editedCommission := 0;
    }

    method SetSearchQuery(q: string)
      modifies this
      ensures searchQuery == q
      ensures agents == old(agents) && editingId == old(editingId) && editedCommission == old(editedCommission) && loading == old(loading)
    {
      searchQuery := q;
    }

    function Visible(): seq<Agent>
      reads this
    {
      Search(agents, searchQuery)
    }
  }

  /**
   * Editing a row and saving it with the value it already showed leaves
   * the list as it was.
   */
  lemma SaveUnchangedValue(agents: seq<Agent>, i: nat)
    requires i < |agents|
    requires forall j :: 0 <= j < |agents| && agents[j].id == agents[i].id ==> agents[j].commissionPct == agents[i].commissionPct
    ensures UpdatePct(agents, agents[i].id, agents[i].commissionPct) == agents
  {
    UpdatePctShape(agents, agents[i].id, agents[i].commissionPct);
  }
}
