/** The request dispatcher of server.js: which handler answers a request,
    from its method and its URL path. Per-agent routes are recognised by
    regular expressions of the form /^\/api\/agents\/[^/]+TAIL$/ and take
    the agent id from `p.split('/')[3]`. */
module Routes {
  import opened Paths

  datatype Endpoint =
    | Preflight                    // any OPTIONS request: 204 with an empty body
    | IndexPage                    // "/" or "/index.html", whatever the method
    | ListAgents                   // GET /api/agents
    | GetConversation(id: string)  // GET /api/agents/{id}/conversation
    | Chat(id: string)             // POST /api/agents/{id}/chat
    | UpdateSettings(id: string)   // PUT /api/agents/{id}
    | Clear(id: string)            // POST /api/agents/{id}/clear
    | Health                       // GET /api/health
    | NoRoute                      // everything else: 404 "Not found"
  {
    predicate HasId() {
      GetConversation? || Chat? || UpdateSettings? || Clear?
    }
  }

  const AGENTS_PREFIX := "/api/agents/"

  /** What may follow the id in a per-agent pattern: nothing, or "/" and one
      separator-free word ("/conversation", "/chat", "/clear"). */
  predicate IsTail(tail: string) {
    tail == "" || (tail[0] == '/' && NoSlash(tail[1..]))
  }

  /** Whether `p` matches the regular expression /^\/api\/agents\/[^/]+TAIL$/:
      the fixed prefix, at least one character other than '/', the tail. */
  predicate MatchesAgentPattern(p: string, tail: string) {
    && |p| > |AGENTS_PREFIX| + |tail|
    && p[..|AGENTS_PREFIX|] == AGENTS_PREFIX
    && p[|p| - |tail|..] == tail
    && NoSlash(p[|AGENTS_PREFIX|..|p| - |tail|])
  }

  function TailSegments(tail: string): seq<string>
    requires IsTail(tail)
  {
    if tail == "" then [] else [tail[1..]]
  }

  /** The same shape seen through `split('/')`. */
  predicate AgentSegments(segs: seq<string>, tail: string)
    requires IsTail(tail)
  {
    && |segs| == 4 + |TailSegments(tail)|
    && segs[..3] == ["", "api", "agents"]
    && segs[3] != ""
    && segs[4..] == TailSegments(tail)
  }

  lemma JoinAgentPath(id: string, tail: string)
    requires IsTail(tail)
    ensures Join(["", "api", "agents", id] + TailSegments(tail)) == AGENTS_PREFIX + id + tail
  {
    var segs := ["", "api", "agents", id] + TailSegments(tail);
    var last := if tail == "" then id else id + "/" + tail[1..];
    if tail == "" {
      assert segs[3..] == [id];
    } else {
      assert segs[3..] == [id, tail[1..]];
      assert segs[4..] == [tail[1..]];
      assert tail == "/" + tail[1..];
    }
    assert Join(segs[3..]) == last;
    assert segs[2..][1..] == segs[3..];
    assert Join(segs[2..]) == "agents/" + last;
    assert segs[1..][1..] == segs[2..];
    assert Join(segs[1..]) == "api/agents/" + last;
    assert Join(segs) == "/api/agents/" + last;
  }

  lemma SplitAgentPath(p: string, id: string, tail: string)
    requires IsTail(tail) && NoSlash(id) && p == AGENTS_PREFIX + id + tail
    ensures Split(p) == ["", "api", "agents", id] + TailSegments(tail)
  {
    var segs := ["", "api", "agents", id] + TailSegments(tail);
    assert AllNoSlash(segs);
    JoinAgentPath(id, tail);
    SplitJoin(segs);
  }

  lemma MatchedPathShape(p: string, tail: string)
    requires MatchesAgentPattern(p, tail)
    ensures p == AGENTS_PREFIX + p[|AGENTS_PREFIX|..|p| - |tail|] + tail
  {
  }

  /** A path the per-agent regular expression accepts splits into the
      per-agent shape, and piece 3 is the text `[^/]+` matched. */
  lemma MatchSplits(p: string, tail: string)
    requires IsTail(tail) && MatchesAgentPattern(p, tail)
    ensures AgentSegments(Split(p), tail)
    ensures Split(p)[3] == p[|AGENTS_PREFIX|..|p| - |tail|]
  {
    var id := p[|AGENTS_PREFIX|..|p| - |tail|];
    MatchedPathShape(p, tail);
    SplitAgentPath(p, id, tail);
    var segs := ["", "api", "agents", id] + TailSegments(tail);
    assert segs[..3] == ["", "api", "agents"] && segs[4..] == TailSegments(tail);
  }

  /** Conversely, a path with the per-agent split is accepted by the
      regular expression. */
  lemma SplitMatches(p: string, tail: string)
    requires IsTail(tail) && AgentSegments(Split(p), tail)
    ensures MatchesAgentPattern(p, tail)
  {
    var segs := Split(p);
    var id := segs[3];
    assert NoSlash(id);
    assert segs == segs[..3] + [id] + segs[4..];
    assert segs == ["", "api", "agents", id] + TailSegments(tail);
    JoinSplit(p);
    JoinAgentPath(id, tail);
    assert p == AGENTS_PREFIX + id + tail;
    assert p[..|AGENTS_PREFIX|] == AGENTS_PREFIX;
    assert p[|p| - |tail|..] == tail;
    assert p[|AGENTS_PREFIX|..|p| - |tail|] == id;
  }

  lemma MatchIffSegments(p: string, tail: string)
    requires IsTail(tail)
    ensures MatchesAgentPattern(p, tail) <==> AgentSegments(Split(p), tail)
  {
    if MatchesAgentPattern(p, tail) {
      MatchSplits(p, tail);
    }
    if AgentSegments(Split(p), tail) {
      SplitMatches(p, tail);
    }
  }

  /** `p.split('/')[3]` once a per-agent pattern has matched: the id the
      pattern's `[^/]+` group covers, never empty and free of '/'. */
  function AgentId(p: string, tail: string): (id: string)
    requires IsTail(tail) && MatchesAgentPattern(p, tail)
    ensures id == p[|AGENTS_PREFIX|..|p| - |tail|]
    ensures id != "" && NoSlash(id)
  {
    MatchSplits(p, tail);
    Split(p)[3]
  }

  /** The dispatcher, with its conditions in the source's order: OPTIONS before
      any path, the dashboard page for any method, then each API route. */
  function Route(verb: string, p: string): (r: Endpoint)
    ensures verb == "OPTIONS" ==> r == Preflight
    ensures r.HasId() ==> r.id != "" && NoSlash(r.id)
  {
    if verb == "OPTIONS" then Preflight
    else if p == "/" || p == "/index.html" then IndexPage
    else if p == "/api/agents" && verb == "GET" then ListAgents
    else if MatchesAgentPattern(p, "/conversation") && verb == "GET" then GetConversation(AgentId(p, "/conversation"))
    else if MatchesAgentPattern(p, "/chat") && verb == "POST" then Chat(AgentId(p, "/chat"))
    else if MatchesAgentPattern(p, "") && verb == "PUT" then UpdateSettings(AgentId(p, ""))
    else if MatchesAgentPattern(p, "/clear") && verb == "POST" then Clear(AgentId(p, "/clear"))
    else if p == "/api/health" && verb == "GET" then Health
    else NoRoute
  }

  /** An independent statement of the route table over path segments. */
  function RouteBySegments(verb: string, segs: seq<string>): Endpoint {
    if verb == "OPTIONS" then Preflight
    else if segs == ["", ""] || segs == ["", "index.html"] then IndexPage
    else if verb == "GET" && segs == ["", "api", "agents"] then ListAgents
    else if verb == "GET" && AgentSegments(segs, "/conversation") then GetConversation(segs[3])
    else if verb == "POST" && AgentSegments(segs, "/chat") then Chat(segs[3])
    else if verb == "PUT" && AgentSegments(segs, "") then UpdateSettings(segs[3])
    else if verb == "POST" && AgentSegments(segs, "/clear") then Clear(segs[3])
    else if verb == "GET" && segs == ["", "api", "health"] then Health
    else NoRoute
  }

  lemma LiteralPath(p: string, lit: string, segs: seq<string>)
    requires |segs| >= 1 && AllNoSlash(segs) && lit == Join(segs)
    ensures p == lit <==> Split(p) == segs
  {
    PathIsJoin(p, segs);
  }

  lemma LiteralPaths(p: string)
    ensures p == "/" <==> Split(p) == ["", ""]
    ensures p == "/index.html" <==> Split(p) == ["", "index.html"]
    ensures p == "/api/agents" <==> Split(p) == ["", "api", "agents"]
    ensures p == "/api/health" <==> Split(p) == ["", "api", "health"]
  {
    LiteralPath(p, "/", ["", ""]);
    LiteralPath(p, "/index.html", ["", "index.html"]);
    LiteralPath(p, "/api/agents", ["", "api", "agents"]);
    LiteralPath(p, "/api/health", ["", "api", "health"]);
  }

  lemma AgentPattern(p: string, tail: string)
    requires IsTail(tail)
    ensures MatchesAgentPattern(p, tail) <==> AgentSegments(Split(p), tail)
    ensures MatchesAgentPattern(p, tail) ==> AgentId(p, tail) == Split(p)[3]
  {
    MatchIffSegments(p, tail);
    if MatchesAgentPattern(p, tail) {
      MatchSplits(p, tail);
    }
  }

  /** Matching regular expressions on the raw path and splitting the path
      into segments dispatch every request the same way. */
  lemma RouteAgreesWithSegments(verb: string, p: string)
    ensures Route(verb, p) == RouteBySegments(verb, Split(p))
  {
    LiteralPaths(p);
    AgentPattern(p, "/conversation");
    AgentPattern(p, "/chat");
    AgentPattern(p, "");
    AgentPattern(p, "/clear");
  }

  /** The method and path a client uses to reach an endpoint. */
  function Verb(e: Endpoint): string {
    match e
    case Preflight => "OPTIONS"
    case IndexPage | ListAgents | GetConversation(_) | Health | NoRoute => "GET"
    case Chat(_) | Clear(_) => "POST"
    case UpdateSettings(_) => "PUT"
  }

  function PathOf(e: Endpoint): string {
    match e
    case Preflight | IndexPage => "/"
    case ListAgents => "/api/agents"
    case GetConversation(id) => AGENTS_PREFIX + id + "/conversation"
    case Chat(id) => AGENTS_PREFIX + id + "/chat"
    case UpdateSettings(id) => AGENTS_PREFIX + id
    case Clear(id) => AGENTS_PREFIX + id + "/clear"
    case Health => "/api/health"
    case NoRoute => "/api"
  }

  lemma RouteOfAgentPath(e: Endpoint)
    requires e.HasId() && e.id != "" && NoSlash(e.id)
    ensures Route(Verb(e), PathOf(e)) == e
  {
    RouteAgreesWithSegments(Verb(e), PathOf(e));
    var tail := if e.GetConversation? then "/conversation" else if e.Chat? then "/chat"
                else if e.Clear? then "/clear" else "";
    SplitAgentPath(PathOf(e), e.id, tail);
  }

  /** A fixed path whose split has none of the per-agent shapes. */
  lemma RouteOfFixedPath(verb: string, p: string, segs: seq<string>)
    requires |segs| >= 1 && AllNoSlash(segs) && p == Join(segs)
    requires !AgentSegments(segs, "/conversation") && !AgentSegments(segs, "/chat")
    requires !AgentSegments(segs, "") && !AgentSegments(segs, "/clear")
    ensures Route(verb, p) == RouteBySegments(verb, segs)
  {
    LiteralPath(p, p, segs);
    RouteAgreesWithSegments(verb, p);
  }

  /** Every endpoint is reached by its own method and path, for every id
      that can stand in one path segment. */
  lemma RouteOfPath(e: Endpoint)
    requires e.HasId() ==> e.id != "" && NoSlash(e.id)
    ensures Route(Verb(e), PathOf(e)) == e
  {
    if e.HasId() {
      RouteOfAgentPath(e);
    } else if e.Health? {
      RouteOfFixedPath("GET", "/api/health", ["", "api", "health"]);
    } else if e.NoRoute? {
      RouteOfFixedPath("GET", "/api", ["", "api"]);
    }
  }
}
