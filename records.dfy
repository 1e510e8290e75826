/** The values server.js stores and exchanges: conversation turns, registry
    entries, decoded request bodies and the JSON responses it writes. */
module Records {
  import opened Wrappers

  datatype Role = User | Assistant

  /** One `{role, content}` entry of a conversation. */
  datatype Turn = Turn(role: Role, content: string)

  /** One entry of `config.agents`, as agents.json holds it. `color` and
      `port` may be missing there. */
  datatype Agent = Agent(
    id: string,
    name: string,
    color: Option<string>,
    host: string,
    port: Option<nat>,
    token: string)

  /** JavaScript truthiness of an optional string: present and non-empty. */
  predicate Truthy(s: Option<string>) {
    s.Some? && s.value != ""
  }

  /** The fields of a decoded request body that the handlers read. A field
      that is missing, null or not a string is None. */
  datatype RequestBody = RequestBody(message: Option<string>, name: Option<string>, color: Option<string>)

  /** What `await readBody(req)` produces: the decoded body, or the message
      of the error it threw ("Invalid JSON" when the text is not JSON). */
  datatype BodyRead = Parsed(fields: RequestBody) | Unreadable(reason: string)

  const INVALID_JSON := "Invalid JSON"

  /** The gateway's `usage` object, relayed to the client untouched. */
  type Usage = string

  /** One element of the GET /api/agents listing; the token is not part of it. */
  datatype AgentSummary = AgentSummary(
    id: string,
    name: string,
    color: string,
    host: string,
    port: Option<nat>,
    online: bool,
    messageCount: nat)

  /** One element of the GET /api/health answer; `statusCode` is missing when
      the probe got no HTTP answer. */
  datatype HealthEntry = HealthEntry(id: string, name: string, online: bool, statusCode: Option<int>)

  /** The bodies the server writes. */
  datatype Payload =
    | NoContent                                  // `{}` on a preflight answer
    | Page(html: string)                         // index.html
    | PageMissing                                // the text "index.html not found"
    | Error(error: string)                       // `{error}`
    | Ok                                         // `{ok: true}`
    | Reply(response: string, usage: Option<Usage>)
    | Messages(messages: seq<Turn>)
    | Agents(agents: seq<AgentSummary>)
    | Probes(results: seq<HealthEntry>)

  datatype Response = Response(status: int, payload: Payload)

  const AGENT_NOT_FOUND := "Agent not found"
  const MESSAGE_REQUIRED := "Message required"
  const NOT_FOUND := "Not found"
}
