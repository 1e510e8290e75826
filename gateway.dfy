/** The upstream side of server.js: the requests `callGateway` and
    `checkHealth` send, how a gateway answer becomes a reply or an error,
    and how a health probe is classified. The exchange itself is not
    modelled; its outcome is given as a value. */
module Gateway {
  import opened Wrappers
  import opened Records

  const DEFAULT_GATEWAY_PORT: nat := 18789
  const COMPLETIONS_PATH := "/v1/chat/completions"
  const MODELS_PATH := "/v1/models"
  const NO_RESPONSE := "No response"
  const PARSE_FAILED := "Failed to parse gateway response"
  const TIMED_OUT := "Request timed out (120s)"

  /** An HTTP request to a gateway. `messages` is the JSON body
      `{messages, stream: false}`; None means no body. */
  datatype UpstreamRequest = UpstreamRequest(
    verb: string,
    host: string,
    port: nat,
    path: string,
    authorization: string,
    messages: Option<seq<Turn>>)

  /** `agent.port || 18789`: a missing or zero port falls back to the default. */
  function GatewayPort(a: Agent): (port: nat)
    ensures port != 0
    ensures a.port.Some? && a.port.value != 0 ==> port == a.port.value
    ensures port == DEFAULT_GATEWAY_PORT <==> a.port.None? || a.port == Some(0) || a.port == Some(DEFAULT_GATEWAY_PORT)
  {
    if a.port.Some? && a.port.value != 0 then a.port.value else DEFAULT_GATEWAY_PORT
  }

  /** The chat-completion request of `callGateway`. */
  function CompletionRequest(a: Agent, messages: seq<Turn>): (r: UpstreamRequest)
    ensures r.verb == "POST" && r.path == COMPLETIONS_PATH
    ensures r.host == a.host && r.port == GatewayPort(a)
    ensures r.authorization == "Bearer " + a.token
    ensures r.messages == Some(messages)
  {
    UpstreamRequest("POST", a.host, GatewayPort(a), COMPLETIONS_PATH, "Bearer " + a.token, Some(messages))
  }

  /** The probe request of `checkHealth`. */
  function HealthRequest(a: Agent): (r: UpstreamRequest)
    ensures r.verb == "GET" && r.path == MODELS_PATH
    ensures r.host == a.host && r.port == GatewayPort(a)
    ensures r.authorization == "Bearer " + a.token
    ensures r.messages.None?
  {
    UpstreamRequest("GET", a.host, GatewayPort(a), MODELS_PATH, "Bearer " + a.token, None)
  }

  /** Chat and probe reach the same gateway with the same credential, so a
      probe speaks for the endpoint chat will use. */
  lemma ProbeTargetsChatGateway(a: Agent, messages: seq<Turn>)
    ensures HealthRequest(a).host == CompletionRequest(a, messages).host == a.host
    ensures HealthRequest(a).port == CompletionRequest(a, messages).port != 0
    ensures HealthRequest(a).authorization == CompletionRequest(a, messages).authorization
    ensures CompletionRequest(a, messages).messages == Some(messages)
  {
  }

  // ---- decimal text of a port, as a template literal writes it ----

  function DigitChar(d: nat): (c: char)
    requires d < 10
    ensures '0' <= c <= '9'
  {
    "0123456789"[d]
  }

  function DigitValue(c: char): nat
    requires '0' <= c <= '9'
  {
    (c as int - '0' as int) as nat
  }

  /** The decimal numeral of `n`, without leading zeros. */
  function Decimal(n: nat): (s: string)
    ensures |s| >= 1
    ensures forall k :: 0 <= k < |s| ==> '0' <= s[k] <= '9'
    ensures |s| > 1 ==> s[0] != '0'
  {
    if n < 10 then [DigitChar(n)] else Decimal(n / 10) + [DigitChar(n % 10)]
  }

  /** The number a string of digits denotes. */
  function DecimalValue(s: string): nat
    requires forall k :: 0 <= k < |s| ==> '0' <= s[k] <= '9'
  {
    if s == [] then 0 else 10 * DecimalValue(s[..|s| - 1]) + DigitValue(s[|s| - 1])
  }

  /** Reading the numeral back gives the number: the port in an error
      message is the agent's port. */
  lemma {:induction false} DecimalRoundTrip(n: nat)
    ensures DecimalValue(Decimal(n)) == n
  {
    var s := Decimal(n);
    if n >= 10 {
      DecimalRoundTrip(n / 10);
      assert s[..|s| - 1] == Decimal(n / 10);
    }
    assert DigitValue(DigitChar(n % 10)) == n % 10;
  }

  /** `${agent.port}`: a missing port prints as "undefined". */
  function PortText(port: Option<nat>): string {
    if port.None? then "undefined" else Decimal(port.value)
  }

  // ---- the gateway's answer ----

  /** `parsed.error` when it is truthy. */
  datatype ErrorObject = ErrorObject(message: Option<string>, serialized: string)

  /** `choices[i].message.content`; None when the message or its content is missing. */
  datatype Choice = Choice(content: Option<string>)

  /** A decoded chat-completion body. */
  datatype Completion = Completion(error: Option<ErrorObject>, choices: seq<Choice>, usage: Option<Usage>)

  /** How the exchange of `callGateway` ended. */
  datatype GatewayReply =
    | Answered(body: Completion)     // the whole body arrived and is JSON
    | Garbled                        // the body is not JSON
    | Unreachable(cause: string)     // the request emitted 'error'
    | TimedOut                       // 120 s passed

  /** The transport-error message of `callGateway` as written: it prints
      `agent.port` itself, so an agent without a port is reported as
      "host:undefined" although the request went to port 18789. */
  function UnreachableMessageAsWritten(a: Agent, cause: string): (msg: string)
    ensures var head := "Cannot reach " + a.host + ":" + PortText(a.port);
            |msg| > |head| + |cause| && msg[..|head|] == head && msg[|msg| - |cause|..] == cause
  {
    "Cannot reach " + a.host + ":" + PortText(a.port) + " \U{2014} " + cause
  }

  /** The transport-error message naming the host and the port the request
      was actually sent to (`agent.port || 18789`). */
  function UnreachableMessage(a: Agent, cause: string): (msg: string)
    ensures var head := "Cannot reach " + a.host + ":" + Decimal(GatewayPort(a));
            |msg| > |head| + |cause| && msg[..|head|] == head && msg[|msg| - |cause|..] == cause
  {
    "Cannot reach " + a.host + ":" + Decimal(GatewayPort(a)) + " \U{2014} " + cause
  }

  /** What the promise of `callGateway` settles to: the decoded body, or the
      message of the error it rejects with. */
  function GatewayResult(a: Agent, reply: GatewayReply): (r: Result<Completion, string>)
    ensures r.Success? <==> reply.Answered? && reply.body.error.None?
    ensures r.Success? ==> r.value == reply.body
    ensures reply.Answered? && reply.body.error.Some? ==>
              r.error == (var e := reply.body.error.value; if Truthy(e.message) then e.message.value else e.serialized)
    ensures reply.Garbled? ==> r == Failure(PARSE_FAILED)
    ensures reply.TimedOut? ==> r == Failure(TIMED_OUT)
    ensures reply.Unreachable? ==> r == Failure(UnreachableMessageAsWritten(a, reply.cause))
  {
    match reply
    case Answered(body) =>
      if body.error.Some? then
        var e := body.error.value;
        Failure(if Truthy(e.message) then e.message.value else e.serialized)
      else Success(body)
    case Garbled => Failure(PARSE_FAILED)
    case Unreachable(cause) => Failure(UnreachableMessageAsWritten(a, cause))
    case TimedOut => Failure(TIMED_OUT)
  }

  /** An agent without a port: the chat's 500 message says "undefined"
      where the port belongs, while the request it reports on was sent to
      port 18789. */
  lemma AsWrittenMessageMisnamesPort(a: Agent, messages: seq<Turn>, cause: string)
    requires a.port.None?
    ensures var head := "Cannot reach " + a.host + ":";
            var msg := GatewayResult(a, Unreachable(cause)).error;
            && msg[|head|..|head| + 9] == "undefined"
            && CompletionRequest(a, messages).port == DEFAULT_GATEWAY_PORT
            && Decimal(CompletionRequest(a, messages).port) != "undefined"
  {
    var head := "Cannot reach " + a.host + ":";
    var msg := UnreachableMessageAsWritten(a, cause);
    assert msg == head + "undefined" + (" \U{2014} " + cause);
    assert msg[|head|..|head| + 9] == "undefined";
    assert Decimal(DEFAULT_GATEWAY_PORT)[0] != 'u';
  }

  /** The corrected message reports an unreachable gateway with the host and
      port the chat request was sent to: it opens with "Cannot reach host:",
      followed by a numeral that reads back as that port. */
  lemma UnreachableNamesGateway(a: Agent, messages: seq<Turn>, cause: string)
    ensures var msg := UnreachableMessage(a, cause);
            var head := "Cannot reach " + a.host + ":";
            var digits := Decimal(CompletionRequest(a, messages).port);
            && msg[..|head|] == head
            && msg[|head|..|head| + |digits|] == digits
            && DecimalValue(digits) == CompletionRequest(a, messages).port
  {
    var head := "Cannot reach " + a.host + ":";
    var digits := Decimal(GatewayPort(a));
    var msg := head + digits + (" \U{2014} " + cause);
    assert UnreachableMessage(a, cause) == msg;
    assert msg[..|head|] == head;
    assert msg[|head|..|head| + |digits|] == digits;
    DecimalRoundTrip(GatewayPort(a));
  }

  /** `response.choices?.[0]?.message?.content || 'No response'`. */
  function ReplyText(c: Completion): (text: string)
    ensures text != ""
    ensures |c.choices| > 0 && Truthy(c.choices[0].content) ==> text == c.choices[0].content.value
    ensures !(|c.choices| > 0 && Truthy(c.choices[0].content)) ==> text == NO_RESPONSE
  {
    if |c.choices| > 0 && Truthy(c.choices[0].content) then c.choices[0].content.value else NO_RESPONSE
  }

  // ---- health probe ----

  /** How the probe of `checkHealth` ended: an HTTP answer with its status
      code, a transport error, or the 5 s timeout. */
  datatype ProbeOutcome = Status(code: int) | ProbeFailed | ProbeTimedOut

  /** The value `checkHealth` resolves with. */
  datatype Probe = Probe(online: bool, statusCode: Option<int>)

  /** Online exactly on 200 or 401 (a wrong token still shows a live
      gateway); no status code without an HTTP answer. */
  function Classify(o: ProbeOutcome): (h: Probe)
    ensures h.online <==> o.Status? && (o.code == 200 || o.code == 401)
    ensures h.statusCode.Some? <==> o.Status?
    ensures o.Status? ==> h.statusCode == Some(o.code)
  {
    match o
    case Status(code) => Probe(code == 200 || code == 401, Some(code))
    case ProbeFailed | ProbeTimedOut => Probe(false, None)
  }
}
