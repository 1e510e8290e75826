/** The state of server.js and its request handlers. The `conversations`
    object and `config.agents` are fields of one Dashboard object; each
    handler is a method that updates them the way the source mutates them
    in place. Whatever a handler awaits from outside (the gateway's reply,
    health probes, the write of agents.json, index.html) is a parameter. */
module Server {
  import opened Wrappers
  import opened Records
  import opened Gateway
  import opened Store
  import Routes

  /** An incoming request: method, URL path, and what reading its body gives. */
  datatype Request = Request(verb: string, path: string, body: BodyRead)

  /** How `fs.writeFileSync` of agents.json ended. */
  datatype WriteOutcome = Saved | SaveFailed(message: string)

  /** The outside world's answers during one request: the gateway's reply to a
      chat, one probe outcome per registry entry, the write of agents.json,
      and the contents of index.html if it could be read. */
  datatype World = World(reply: GatewayReply, probes: seq<ProbeOutcome>, saved: WriteOutcome, page: Option<string>)

  class Dashboard {
    /** `config.agents`. */
    var agents: seq<Agent>
    /** The `conversations` object: agent id to its turns. */
    var conversations: Conversations

    /** Every registered agent has a history (loadConfig seeds them and no
        handler removes one). */
    ghost predicate Valid()
      reads this
    {
      forall i :: 0 <= i < |agents| ==> agents[i].id in conversations
    }

    /** The state before loadConfig: no agents, no conversations. */
    constructor ()
      ensures Valid()
      ensures agents == [] && conversations == map[]
    {
      agents := [];
      conversations := map[];
    }

    /** loadConfig: `loaded` is the registry read from agents.json, or None
        when reading or parsing failed (the error is only logged). */
    method LoadConfig(loaded: Option<seq<Agent>>)
      requires Valid()
      modifies this
      ensures Valid()
      ensures loaded.None? ==> agents == old(agents) && conversations == old(conversations)
      ensures loaded.Some? ==> agents == loaded.value
      ensures loaded.Some? ==> conversations == SeedHistories(old(conversations), loaded.value)
    {
      if loaded.Some? {
        var list := loaded.value;
        agents := list;
        var i := 0;
        while i < |list|
          invariant 0 <= i <= |list|
          invariant agents == list
          invariant conversations == SeedHistories(old(conversations), list[..i])
        {
          var id := list[i].id;
          if id !in conversations {
            conversations := conversations[id := []];
          }
          assert list[..i + 1][..i] == list[..i];
          i := i + 1;
        }
        assert list[..i] == list;
        forall k | 0 <= k < |agents|
          ensures agents[k].id in conversations
        {
          assert agents[k] in list;
        }
      }
    }

    /** GET /api/agents/{id}/conversation: never fails, changes nothing. */
    method GetConversation(id: string) returns (res: Response)
      ensures res.status == 200 && res.payload.Messages?
      ensures id in conversations ==> res.payload.messages == conversations[id]
      ensures id !in conversations ==> res.payload.messages == []
    {
      res := Response(200, Messages(History(conversations, id)));
    }

    /** GET /api/agents, given one probe outcome per registry entry. */
    method ListAgents(probes: seq<ProbeOutcome>) returns (res: Response)
      requires |probes| == |agents|
      ensures res.status == 200 && res.payload.Agents?
      ensures |res.payload.agents| == |agents|
      ensures forall i :: 0 <= i < |agents| ==>
                res.payload.agents[i] == Summary(agents[i], Classify(probes[i]), conversations)
    {
      res := Response(200, Agents(Summaries(agents, probes, conversations)));
    }

    /** GET /api/health, given one probe outcome per registry entry. */
    method HealthCheck(probes: seq<ProbeOutcome>) returns (res: Response)
      requires |probes| == |agents|
      ensures res.status == 200 && res.payload.Probes?
      ensures |res.payload.results| == |agents|
      ensures forall i :: 0 <= i < |agents| ==>
                res.payload.results[i] == HealthOf(agents[i], Classify(probes[i]))
    {
      res := Response(200, Probes(HealthReport(agents, probes)));
    }

    /** POST /api/agents/{id}/chat. `reply` is how the gateway exchange ends;
        `call` is the request sent to the gateway, None when none is sent. */
    method Chat(id: string, body: BodyRead, reply: GatewayReply) returns (res: Response, call: Option<UpstreamRequest>)
      modifies this
      ensures agents == old(agents)
      ensures old(conversations).Keys <= conversations.Keys
      // unknown agent: 404 before the body is read; nothing changes
      ensures FindAgent(agents, id).None? ==>
                res == Response(404, Error(AGENT_NOT_FOUND)) && call.None? && conversations == old(conversations)
      // unreadable body: 500 with the reader's message; nothing changes
      ensures FindAgent(agents, id).Some? && body.Unreadable? ==>
                res == Response(500, Error(body.reason)) && call.None? && conversations == old(conversations)
      // missing or empty message: 400; nothing changes
      ensures FindAgent(agents, id).Some? && body.Parsed? && !Truthy(body.fields.message) ==>
                res == Response(400, Error(MESSAGE_REQUIRED)) && call.None? && conversations == old(conversations)
      // accepted message: the gateway gets the prior history and the new user turn
      ensures FindAgent(agents, id).Some? && body.Parsed? && Truthy(body.fields.message) ==>
                var agent := agents[FindAgent(agents, id).value];
                var sent := History(old(conversations), id) + [Turn(User, body.fields.message.value)];
                && call == Some(CompletionRequest(agent, sent))
                && match GatewayResult(agent, reply)
                   case Failure(e) =>
                     // the user turn stays, no assistant turn
                     && conversations == old(conversations)[id := sent]
                     && res == Response(500, Error(e))
                   case Success(c) =>
                     // the user turn and then the assistant turn
                     && conversations == old(conversations)[id := sent + [Turn(Assistant, ReplyText(c))]]
                     && res == Response(200, Reply(ReplyText(c), c.usage))
    {
      call := None;
      var found := FindAgent(agents, id);
      if found.None? {
        res := Response(404, Error(AGENT_NOT_FOUND));
        return;
      }
      var agent := agents[found.value];
      match body
      case Unreadable(reason) =>
        res := Response(500, Error(reason));
      case Parsed(fields) =>
        if !Truthy(fields.message) {
          res := Response(400, Error(MESSAGE_REQUIRED));
          return;
        }
        if id !in conversations {
          conversations := conversations[id := []];
        }
        conversations := conversations[id := conversations[id] + [Turn(User, fields.message.value)]];
        call := Some(CompletionRequest(agent, conversations[id]));
        match GatewayResult(agent, reply)
        case Failure(e) =>
          res := Response(500, Error(e));
        case Success(c) =>
          var text := ReplyText(c);
          conversations := conversations[id := conversations[id] + [Turn(Assistant, text)]];
          res := Response(200, Reply(text, c.usage));
    }

    /** PUT /api/agents/{id}: edit the display name and colour of the first
        entry with that id, then save the registry. A failed save is
        reported, but the edit stays in memory. */
    method UpdateSettings(id: string, body: BodyRead, saved: WriteOutcome) returns (res: Response)
      requires Valid()
      modifies this
      ensures Valid() && conversations == old(conversations)
      ensures FindAgent(old(agents), id).None? ==>
                agents == old(agents) && res == Response(404, Error(AGENT_NOT_FOUND))
      ensures FindAgent(old(agents), id).Some? && body.Unreadable? ==>
                agents == old(agents) && res == Response(500, Error(body.reason))
      ensures FindAgent(old(agents), id).Some? && body.Parsed? ==>
                var i := FindAgent(old(agents), id).value;
                && agents == old(agents)[i := ApplySettings(old(agents)[i], body.fields)]
                && res == (if saved.Saved? then Response(200, Ok) else Response(500, Error(saved.message)))
    {
      var found := FindAgent(agents, id);
      if found.None? {
        res := Response(404, Error(AGENT_NOT_FOUND));
        return;
      }
      match body
      case Unreadable(reason) =>
        res := Response(500, Error(reason));
      case Parsed(fields) =>
        var i := found.value;
        agents := agents[i := ApplySettings(agents[i], fields)];
        assert forall k :: 0 <= k < |agents| ==> agents[k].id == old(agents)[k].id;
        match saved
        case Saved => res := Response(200, Ok);
        case SaveFailed(message) => res := Response(500, Error(message));
    }

    /** POST /api/agents/{id}/clear: the history of `id` becomes empty,
        whether or not `id` is a registered agent. */
    method Clear(id: string) returns (res: Response)
      requires Valid()
      modifies this
      ensures Valid() && agents == old(agents)
      ensures conversations == old(conversations)[id := []]
      ensures res == Response(200, Ok)
    {
      conversations := conversations[id := []];
      res := Response(200, Ok);
    }

    /** The request callback of `http.createServer`: route, then run the
        handler. Only chat and clear touch the conversations, and only the
        entry of their own id; only the settings update touches the registry. */
    method Handle(req: Request, world: World) returns (res: Response, call: Option<UpstreamRequest>)
      requires Valid() && |world.probes| == |agents|
      modifies this
      ensures Valid()
      ensures var e := Routes.Route(req.verb, req.path);
              && (e.Preflight? ==> res == Response(204, NoContent))
              && (e.NoRoute? ==> res == Response(404, Error(NOT_FOUND)))
              && (e.IndexPage? ==> res == if world.page.Some? then Response(200, Page(world.page.value))
                                          else Response(500, PageMissing))
              && (!e.Chat? ==> call.None?)
              && (!e.UpdateSettings? ==> agents == old(agents))
              && (!e.Chat? && !e.Clear? ==> conversations == old(conversations))
              && (e.Chat? || e.Clear? ==> conversations - {e.id} == old(conversations) - {e.id})
              && (e.ListAgents? ==> res == Response(200, Agents(Summaries(agents, world.probes, conversations))))
              && (e.GetConversation? ==> res == Response(200, Messages(History(conversations, e.id))))
              && (e.Health? ==> res == Response(200, Probes(HealthReport(agents, world.probes))))
              && (e.Clear? ==> res == Response(200, Ok) && conversations == old(conversations)[e.id := []])
    {
      call := None;
      var e := Routes.Route(req.verb, req.path);
      match e
      case Preflight =>
        res := Response(204, NoContent);
      case IndexPage =>
        res := if world.page.Some? then Response(200, Page(world.page.value)) else Response(500, PageMissing);
      case ListAgents =>
        res := ListAgents(world.probes);
      case GetConversation(id) =>
        res := GetConversation(id);
      case Chat(id) =>
        res, call := Chat(id, req.body, world.reply);
      case UpdateSettings(id) =>
        res := UpdateSettings(id, req.body, world.saved);
      case Clear(id) =>
        res := Clear(id);
      case Health =>
        res := HealthCheck(world.probes);
      case NoRoute =>
        res := Response(404, Error(NOT_FOUND));
    }
  }

  /** A client of the handlers' contracts: agent "a1" starts with an empty
      history, a chat "hi" answered with "Hello" leaves the user turn and the
      assistant turn, and after a clear the conversation reads back empty. */
  method ChatThenClear()
  {
    var d := new Dashboard();
    var a1 := Agent("a1", "One", None, "127.0.0.1", None, "secret");
    d.LoadConfig(Some([a1]));
    assert "a1" in d.conversations && d.conversations["a1"] == [];
    assert FindAgent(d.agents, "a1") == Some(0);
    assert History(d.conversations, "a1") == [];
    var reply := Answered(Completion(None, [Choice(Some("Hello"))], None));
    assert GatewayResult(a1, reply).Success? && ReplyText(reply.body) == "Hello";
    assert History(d.conversations, "a1") + [Turn(User, "hi")] == [Turn(User, "hi")];
    var res, call := d.Chat("a1", Parsed(RequestBody(Some("hi"), None, None)), reply);
    assert call == Some(CompletionRequest(a1, [Turn(User, "hi")]));
    assert call.value.port == DEFAULT_GATEWAY_PORT;
    assert d.conversations["a1"] == [Turn(User, "hi"), Turn(Assistant, "Hello")];
    assert res == Response(200, Reply("Hello", None));
    res := d.Clear("a1");
    res := d.GetConversation("a1");
    assert res.payload.messages == [];
    // a body that is not JSON is answered 500 with the parser's message
    res, call := d.Chat("a1", Unreadable(INVALID_JSON), reply);
    assert res == Response(500, Error(INVALID_JSON)) && call.None?;
  }
}
