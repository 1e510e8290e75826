/** Pure rules over the server's two pieces of state: the `conversations`
    object (agent id to turns) and the `config.agents` registry. */
module Store {
  import opened Wrappers
  import opened Records
  import opened Gateway

  type Conversations = map<string, seq<Turn>>

  const DEFAULT_COLOR := "#3B82F6"

  /** `conversations[id] || []`: a stored history, or an empty one for an id
      that has none. Stored histories are arrays, hence always truthy. */
  function History(conversations: Conversations, id: string): (h: seq<Turn>)
    ensures id in conversations ==> h == conversations[id]
    ensures id !in conversations ==> h == []
  {
    if id in conversations then conversations[id] else []
  }

  /** Clearing leaves an empty history for that id and every other history
      as it was. */
  lemma HistoryAfterClear(conversations: Conversations, id: string, other: string)
    ensures History(conversations[id := []], id) == []
    ensures other != id ==> History(conversations[id := []], other) == History(conversations, other)
  {
  }

  /** `config.agents.find(a => a.id === id)`, as the index of the first
      registry entry with that id. */
  function FindAgent(agents: seq<Agent>, id: string): (r: Option<nat>)
    ensures r.Some? ==> r.value < |agents| && agents[r.value].id == id
    ensures r.Some? ==> forall j :: 0 <= j < r.value ==> agents[j].id != id
    ensures r.None? <==> forall j :: 0 <= j < |agents| ==> agents[j].id != id
  {
    if |agents| == 0 then None
    else if agents[0].id == id then Some(0)
    else
      match FindAgent(agents[1..], id)
      case None => None
      case Some(i) => Some(i + 1)
  }

  function AgentIds(agents: seq<Agent>): set<string> {
    set a | a in agents :: a.id
  }

  /** The `forEach` of loadConfig over `agents`, in order: every id still
      without a history gets an empty one. */
  function SeedHistories(conversations: Conversations, agents: seq<Agent>): (m: Conversations)
    ensures m.Keys == conversations.Keys + AgentIds(agents)
    ensures forall id :: id in conversations ==> m[id] == conversations[id]
    ensures forall id :: id in m && id !in conversations ==> m[id] == []
    decreases |agents|
  {
    if agents == [] then conversations
    else
      var before := SeedHistories(conversations, agents[..|agents| - 1]);
      var id := agents[|agents| - 1].id;
      assert agents == agents[..|agents| - 1] + [agents[|agents| - 1]];
      if id in before then before else before[id := []]
  }

  /** The settings handler's edit of one entry. It never touches the id or
      the connection fields, and takes each display field from the body
      exactly when the body's value is truthy. */
  function ApplySettings(a: Agent, body: RequestBody): (b: Agent)
    ensures b.id == a.id && b.host == a.host && b.port == a.port && b.token == a.token
    ensures Truthy(body.name) ==> b.name == body.name.value
    ensures !Truthy(body.name) ==> b.name == a.name
    ensures Truthy(body.color) ==> b.color == body.color
    ensures !Truthy(body.color) ==> b.color == a.color
  {
    a.(name := if Truthy(body.name) then body.name.value else a.name,
       color := if Truthy(body.color) then body.color else a.color)
  }

  /** Sending the same settings twice is the same as sending them once. */
  lemma SettingsIdempotent(a: Agent, body: RequestBody)
    ensures ApplySettings(ApplySettings(a, body), body) == ApplySettings(a, body)
  {
  }

  /** One listing element: the display colour defaults to #3B82F6 and the
      message count is the length of the history GET .../conversation
      would return. */
  function Summary(a: Agent, health: Probe, conversations: Conversations): (s: AgentSummary)
    ensures s.id == a.id && s.name == a.name && s.host == a.host && s.port == a.port
    ensures s.color != ""
    ensures Truthy(a.color) ==> s.color == a.color.value
    ensures !Truthy(a.color) ==> s.color == DEFAULT_COLOR
    ensures s.online == health.online
    ensures s.messageCount == |History(conversations, a.id)|
  {
    AgentSummary(a.id, a.name, if Truthy(a.color) then a.color.value else DEFAULT_COLOR,
                 a.host, a.port, health.online, |History(conversations, a.id)|)
  }

  /** GET /api/agents: one summary per registry entry, in registry order,
      each with the probe outcome of that entry. */
  function Summaries(agents: seq<Agent>, probes: seq<ProbeOutcome>, conversations: Conversations): (r: seq<AgentSummary>)
    requires |probes| == |agents|
    ensures |r| == |agents|
    ensures forall i :: 0 <= i < |r| ==> r[i] == Summary(agents[i], Classify(probes[i]), conversations)
  {
    seq(|agents|, i requires 0 <= i < |agents| => Summary(agents[i], Classify(probes[i]), conversations))
  }

  /** One GET /api/health element: id, name and the probe's own result. */
  function HealthOf(a: Agent, health: Probe): (h: HealthEntry)
    ensures h.id == a.id && h.name == a.name
    ensures h.online == health.online && h.statusCode == health.statusCode
  {
    HealthEntry(a.id, a.name, health.online, health.statusCode)
  }

  /** GET /api/health: one entry per registry entry, in registry order. */
  function HealthReport(agents: seq<Agent>, probes: seq<ProbeOutcome>): (r: seq<HealthEntry>)
    requires |probes| == |agents|
    ensures |r| == |agents|
    ensures forall i :: 0 <= i < |r| ==> r[i] == HealthOf(agents[i], Classify(probes[i]))
  {
    seq(|agents|, i requires 0 <= i < |agents| => HealthOf(agents[i], Classify(probes[i])))
  }

  /** On the same probe outcomes, the listing and the health report agree
      on which agents are online, and the health report carries a status
      code exactly for the agents that answered. */
  lemma ListingAgreesWithHealth(agents: seq<Agent>, probes: seq<ProbeOutcome>, conversations: Conversations, i: nat)
    requires |probes| == |agents| && i < |agents|
    ensures Summaries(agents, probes, conversations)[i].online == HealthReport(agents, probes)[i].online
    ensures Summaries(agents, probes, conversations)[i].online ==> HealthReport(agents, probes)[i].statusCode.Some?
    ensures HealthReport(agents, probes)[i].statusCode.Some? <==> probes[i].Status?
  {
  }
}
