# OpenClaw multi-agent dashboard server, modelled in Dafny

`server.js` is a small HTTP backend for a dashboard that talks to several
OpenClaw gateways ("agents") through their OpenAI-compatible chat API. Under
its I/O plumbing sits a small state machine, which this project models and
proves properties of:

- the state: the in-memory `conversations` object (agent id to a sequence
  of `{role, content}` turns) and the `config.agents` registry read from
  agents.json, held as the two fields of the class `Server.Dashboard`;
- the handlers that change it: load-time initialisation (`LoadConfig`),
  buffered chat (`Chat`), clear (`Clear`) and the display-settings update
  (`UpdateSettings`), plus the read-only handlers (`GetConversation`,
  `ListAgents`, `HealthCheck`) and the request callback that dispatches to
  them (`Handle`);
- the pure rules around them: route dispatch on method and path
  (`Routes.Route`, with `Paths.Split` for `p.split('/')`), the result
  mapping of `callGateway` (`Gateway.GatewayResult`), reply-text extraction
  (`Gateway.ReplyText`), health classification (`Gateway.Classify`) and the
  listing projection (`Store.Summary`, `Store.Summaries`).

Everything the server awaits from outside is a parameter of the handler that
awaits it: how the gateway exchange ended (`GatewayReply`), one probe outcome
per agent (`ProbeOutcome`), whether agents.json was written
(`WriteOutcome`), what reading the request body gave (`BodyRead`), and
index.html if it could be read.

Modules, one per concern: `Wrappers` (Option, Result), `Paths`, `Routes`,
`Records` (turns, agents, request and response values), `Gateway`, `Store`
(pure rules over the conversations map and the registry), `Server` (the
class and its handlers).

A few facts about server.js that shape the model:

- There is no streaming chat endpoint, no event-stream framing and no
  "commit once" of a streamed reply; the only chat path is the buffered one
  (server.js:149-171), and that is what `Chat` models.
- Upstream errors are not distinguished by kind in the response: every
  failure of `callGateway` (unreachable, timeout, unparsable body, error
  object) becomes a 500 answer carrying the error's message text.
- The health answer uses the field `online` (true on status 200 or 401), and
  `statusCode` is absent when no HTTP answer came back.
- Fetching and clearing a conversation do not check that the agent exists:
  an unknown id gives an empty conversation, and clearing an unknown id
  creates an empty history for it.

## Model

| member | source | states |
|---|---|---|
| Paths.Split | server.js:144 | `p.split('/')` gives at least one piece and no piece contains '/' |
| Paths.SplitJoin | server.js:144 | splitting a '/'-join of separator-free segments gives back exactly those segments |
| Paths.JoinSplit | server.js:144 | joining the pieces of a split with '/' gives back the path: splitting loses nothing |
| Routes.MatchIffSegments | server.js:143-144 | the per-agent regular expression `^/api/agents/[^/]+TAIL$` accepts a path exactly when its split is `["", "api", "agents", id, ...tail]` with a non-empty id |
| Routes.MatchSplits | server.js:143-144 | when the regular expression matches, piece 3 of the split is exactly the text matched by `[^/]+` |
| Routes.SplitMatches | server.js:143-144 | a path whose split has the per-agent shape is accepted by the regular expression |
| Routes.AgentId | server.js:144 | the id `p.split('/')[3]` taken after a match is the text between "/api/agents/" and the tail, non-empty and free of '/' |
| Routes.Route | server.js:112-205 | an OPTIONS request is answered as a preflight whatever its path; every per-agent route carries a non-empty id without '/' |
| Routes.RouteAgreesWithSegments | server.js:112-205 | dispatching by regular expressions and exact paths on the raw path agrees, for every method and path, with an independent route table over the path's segments; in particular every request matching no route gets the 404 answer |
| Routes.RouteOfPath | server.js:112-205 | every endpoint is reached by its own method and path (e.g. POST /api/agents/{id}/chat routes to chat for {id}), for every id that fits in one path segment |
| Gateway.GatewayPort | server.js:55 | the gateway port is the agent's port when that is present and non-zero, and 18789 exactly when it is missing, 0 or 18789 itself; never 0 |
| Gateway.CompletionRequest | server.js:47-63 | the chat call is a POST to /v1/chat/completions on the agent's host and gateway port, with the agent's token as bearer credential and the given messages as body |
| Gateway.HealthRequest | server.js:91-97 | the probe is a GET of /v1/models on the agent's host and gateway port with the agent's token as bearer credential and no body |
| Gateway.ProbeTargetsChatGateway | server.js:53-63 | the health probe and the chat request go to the same host and port with the same bearer credential; the chat body carries the given messages |
| Gateway.Decimal | server.js:81 | the decimal numeral of a port: digits only, no leading zero |
| Gateway.DecimalRoundTrip | server.js:81 | reading the numeral back gives the number |
| Gateway.GatewayResult | server.js:68-82 | `callGateway` resolves exactly when a JSON body without a truthy `error` arrives, with that body; otherwise it rejects with the error object's `message` (or its serialisation), "Failed to parse gateway response", "Request timed out (120s)" or, on a transport error, the as-written "Cannot reach host:${agent.port} — cause" |
| Gateway.UnreachableMessageAsWritten | server.js:81 | the transport-error message as written opens with "Cannot reach host:" and the text of `agent.port` ("undefined" when absent) and ends with the cause |
| Gateway.UnreachableMessage | server.js:81 | the corrected transport-error message opens with "Cannot reach host:" and the numeral of the port actually dialled, and ends with the cause |
| Gateway.AsWrittenMessageMisnamesPort | server.js:81 | as written, the 500 message of `callGateway` for an agent without a port says "undefined" where the port belongs, although the request went to port 18789 |
| Gateway.UnreachableNamesGateway | server.js:81 | the corrected unreachable message starts with "Cannot reach host:" followed by a numeral that reads back as the port the request was sent to |
| Gateway.ReplyText | server.js:162 | the reply text is the first choice's message content when that is a non-empty string, otherwise "No response"; never empty |
| Gateway.Classify | server.js:102-105 | a probe is online exactly when an HTTP answer with status 200 or 401 came back; it carries a status code exactly when an HTTP answer came back, and that code |
| Store.History | server.js:145 | `conversations[id] \|\| []`: the stored sequence of an id with a history, the empty sequence otherwise |
| Store.HistoryAfterClear | server.js:191-195 | after a clear, fetching that id gives the empty sequence and every other id's history is unchanged |
| Store.FindAgent | server.js:151 | the lookup finds the first registry entry with the id, and finds none exactly when no entry has it |
| Store.SeedHistories | server.js:13-15 | after the `forEach`, the ids with a history are the old ones plus every agent's id; existing histories are kept and new ones are empty |
| Store.ApplySettings | server.js:180-181 | a settings edit keeps id, host, port and token; name and color are taken from the body exactly when the body's value is truthy |
| Store.SettingsIdempotent | server.js:180-181 | applying the same settings twice is the same as applying them once |
| Store.Summary | server.js:132-137 | a listing entry copies id, name, host and port, shows the colour or #3B82F6 when there is none, the probe's online flag, and as messageCount the length of the history the conversation endpoint returns (0 without one) |
| Store.Summaries | server.js:130-138 | the listing has one entry per registry entry, in registry order, each built from that entry's probe |
| Store.HealthOf | server.js:200 | a health entry carries the agent's id and name and the probe's online flag and status code |
| Store.HealthReport | server.js:199-201 | the health answer has one `{id, name, online, statusCode}` entry per registry entry, in order, from that entry's probe |
| Store.ListingAgreesWithHealth | server.js:129-140 | on the same probe outcomes the listing and the health answer agree on which agents are online |
| Server.Dashboard.constructor | server.js:8-22 | the state before loading: no agents and no conversations |
| Server.Dashboard.LoadConfig | server.js:10-19 | on a failed read nothing changes; otherwise the registry is replaced and every agent lacking a history gets an empty one while existing histories are kept; every registered agent then has a history |
| Server.Dashboard.GetConversation | server.js:143-146 | answers 200 with the stored sequence, or the empty sequence for an id without history; never errors and changes nothing |
| Server.Dashboard.ListAgents | server.js:129-140 | answers 200 with one summary per registry entry, built from that entry's probe; changes nothing |
| Server.Dashboard.HealthCheck | server.js:198-203 | answers 200 with one health entry per registry entry; changes nothing |
| Server.Dashboard.Chat | server.js:149-171 | unknown agent: 404, nothing changes; unreadable body: 500 with its message; falsy message: 400 "Message required", nothing changes; otherwise the gateway is sent the prior history plus the new user turn, and on failure exactly that user turn is appended and 500 carries the error message, on success the user turn and then the assistant turn with the reply text are appended (history grows by 2) and 200 carries the text and usage; the registry never changes |
| Server.Dashboard.UpdateSettings | server.js:174-188 | unknown agent: 404; unreadable body: 500; otherwise the first matching entry is edited by the settings rule and no other entry changes; the answer is 200 when agents.json was written, 500 with the write error otherwise, the edit staying in memory either way; conversations never change |
| Server.Dashboard.Clear | server.js:191-195 | the history of the id becomes empty, registered or not; every other history and the registry are unchanged; answers 200 `{ok: true}` |
| Server.Dashboard.Handle | server.js:111-206 | OPTIONS gets 204, a request matching no route gets 404 "Not found", the dashboard paths serve the page, the listing, conversation and health routes answer 200 with the listing, the stored history and the health report, clear empties its id's history and answers 200; only chat and clear change conversations and only their own id's entry, only the settings update changes the registry, only chat calls the gateway |

## Left out

- Streaming relay and event-stream framing: they do not exist in this source.
- Sockets, `http.createServer`, `http.request`, `res.writeHead`/`res.end` and the CORS headers: network I/O. The model returns the status and the JSON value written.
- The 120 s and 5 s timers and `req.destroy`: only their outcome (`TimedOut`, `ProbeTimedOut`) is modelled.
- `Promise.all` probing of all agents in parallel: the probes' outcomes are given as one sequence, one per agent.
- Interleaving of concurrent requests across `await` points (for instance a clear arriving between the user-turn push and the assistant-turn push of a chat): each handler runs to completion in the model.
- `JSON.parse`/`JSON.stringify`: bodies and gateway answers are already-decoded values; body fields that are missing, null or not strings are `None`, and a truthy non-string `message`, `name` or `color` is not modelled.
- `readBody`'s cut-off at 1e6 characters (`req.destroy()`, after which the request never ends): not modelled.
- Reading and writing agents.json: the read is an optional registry, the write an outcome (`Saved` or `SaveFailed`). A config that parses but has no `agents` array, or a malformed entry that makes the `forEach` throw half-way, is not modelled; neither is `config.port` and the listen step.
- Serving index.html: file I/O. The model answers with the page or with the 500 text "index.html not found" of the catch block; it does not model what Node does with the second `writeHead` there.
- `new URL(req.url).pathname` normalisation (percent-encoding, dot segments): the path is taken as already normalised.
- `conversations` is a plain JavaScript object, so ids such as "constructor" or "__proto__" hit inherited properties; the model uses a map without them.
- Server.Dashboard.Handle: for the chat and settings routes it states only which state may change; the full outcome of those routes is the contract of `Chat` and `UpdateSettings`.
- The transport-error message is modelled as written (`Gateway.UnreachableMessageAsWritten`, used by `Gateway.GatewayResult`); the corrected `Gateway.UnreachableMessage` is not used by the handlers.

## Findings

| source | as written | input that shows it | evidently intended | confidence | as-written member | corrected member |
|---|---|---|---|---|---|---|
| server.js:81 | the transport-error message prints `agent.port`, not the port actually dialled (`agent.port \|\| 18789`, server.js:55) | an agent with no `port` whose host refuses connections: the message reads "Cannot reach host:undefined — …" while the request went to port 18789 | name the port the request used, as the startup log at server.js:211 does with `a.port \|\| 18789` | medium, not executed | Gateway.AsWrittenMessageMisnamesPort (on Gateway.UnreachableMessageAsWritten) | Gateway.UnreachableNamesGateway (on Gateway.UnreachableMessage) |
