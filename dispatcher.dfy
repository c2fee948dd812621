/** The request loop of `main` and `respond`: each input line, decoded or not, gets exactly one
    JSON-RPC 2.0 response envelope on the output. The decision which response a line gets is the
    pure function `Route`; `Server` holds the state the loop changes (the output and the pool). */
module Dispatcher {
  import opened Wrappers
  import opened JsValues
  import opened Serialiser
  import opened JsonReader
  import opened RoundTrip
  import opened Uuid
  import opened HandlePool
  import opened Tools

  const JsonRpcVersion: string := "2.0"
  const LatestProtocolVersion: string := "2024-11-05"

  /** The error codes of section 5.1 of the JSON-RPC 2.0 specification. `InternalError` is
      declared by the server but never sent. */
  const ParseError: int := -32700
  const InvalidRequest: int := -32600
  const MethodNotFound: int := -32601
  const InvalidParams: int := -32602
  const InternalError: int := -32603

  /** What `JSON.parse(line)` comes to: a value, or the exception it threw. */
  datatype Decoded = Parsed(request: Value) | Unparsable(error: Exception)

  /** The `id` `respond` writes: the request id when it is a number or a string, otherwise `""`. */
  function ResponseId(id: Value): (r: Value)
    ensures r.Number? || r.Str?
  {
    if id.Number? || id.Str? then id else Str("")
  }

  /** The object `respond` serialises: the body with `jsonrpc` and then `id` assigned. */
  function Envelope(id: Value, body: seq<Member>): (r: Value)
    ensures r.Object?
    ensures Lookup(r.members, "jsonrpc") == Str(JsonRpcVersion)
    ensures Lookup(r.members, "id") == ResponseId(id)
    ensures forall k :: k != "jsonrpc" && k != "id" ==> Lookup(r.members, k) == Lookup(body, k)
  {
    Object(SetProperty(SetProperty(body, "jsonrpc", Str(JsonRpcVersion)), "id", ResponseId(id)))
  }

  function ErrorObject(code: int, message: string): Value {
    Object([Member("code", Number(code)), Member("message", Str(message))])
  }

  function ErrorBody(code: int, message: string): seq<Member> {
    [Member("error", ErrorObject(code, message))]
  }

  function ResultBody(result: Value): seq<Member> {
    [Member("result", result)]
  }

  /** `(e instanceof Error && e.message) || ""`. */
  function ErrorMessage(e: Exception): string {
    match e
    case Error(m) => m
    case Raised(_) => ""
  }

  /** `"PARSE_ERROR: " + (e instanceof Error && e.message) || ""`: the concatenation binds first,
      so the text always starts with the prefix, and a non-`Error` exception gives `false`. */
  function ParseMessage(e: Exception): (m: string)
    ensures |m| >= 13 && m[..13] == "PARSE_ERROR: "
  {
    "PARSE_ERROR: " + (match e case Error(msg) => msg case Raised(_) => "false")
  }

  /** `typeof v`. A host value (`Other`) is taken to be an object; nothing below depends on it, as
      such a value has no `name` property either. */
  function TypeOf(v: Value): string {
    match v
    case Undefined => "undefined"
    case Bool(_) => "boolean"
    case Number(_) => "number"
    case Str(_) => "string"
    case _ => "object"
  }

  /** The `params` check of `tools/call`: the tool name, when `params` is a non-null object whose
      `name` is a string. */
  function ParamsName(params: Value): (r: Option<string>)
    ensures r.Some? ==> params.Object? && Lookup(params.members, "name") == Str(r.value)
  {
    if TypeOf(params) != "object" || params.Null? then None
    else match Get(params, "name")
      case Some(Str(name)) => Some(name)
      case _ => None
  }

  const ServerInfo: Value := Object([Member("name", Str("jscript-excel-mcp-server")), Member("version", Str("0.1.0"))])

  /** The result of `initialize`. */
  const InitializeResult: Value := Object([
    Member("protocolVersion", Str(LatestProtocolVersion)),
    Member("capabilities", Object([Member("tools", Object([]))])),
    Member("serverInfo", ServerInfo)])

  /** The result of `tools/list`. */
  function ToolsListResult(): Value {
    Object([Member("tools", ToolList())])
  }

  /** What the loop does with one line: answer at once, or run a tool and answer with its outcome. */
  datatype Action = Reply(id: Value, body: seq<Member>) | CallTool(id: Value, name: string, args: Value)

  /** The `switch` on `request.method` for a request that is neither undefined nor null. */
  function Dispatch(request: Value): (a: Action)
    requires !request.Undefined? && !request.Null?
    ensures a.id == Get(request, "id").value
  {
    var id := Get(request, "id").value;
    var name := Get(request, "method").value;
    if !name.Str? then Reply(id, ErrorBody(InvalidRequest, "INVALID_REQUEST: " + Stringify(request)))
    else if name.s == "initialize" then Reply(id, ResultBody(InitializeResult))
    else if name.s == "tools/list" then Reply(id, ResultBody(ToolsListResult()))
    else if name.s == "tools/call" then
      var params := Get(request, "params").value;
      match ParamsName(params)
      case None => Reply(id, ErrorBody(InvalidParams, "INVALID_PARAMS: " + Stringify(request)))
      case Some(tool) => CallTool(id, tool, Get(params, "arguments").value)
    else Reply(id, ErrorBody(MethodNotFound, "METHOD_NOT_FOUND: " + Stringify(request)))
  }

  /** A `tools/call` request whose `params` are accepted runs the tool it names on its
      `arguments`, answered under the request's id. */
  lemma ToolCallRoutes(request: Value, name: string)
    requires request.Object? && Lookup(request.members, "method") == Str("tools/call")
    requires ParamsName(Lookup(request.members, "params")) == Some(name)
    ensures Route(Parsed(request))
      == CallTool(Lookup(request.members, "id"), name, Lookup(Lookup(request.members, "params").members, "arguments"))
  {
  }

  /** The loop body as written. A parse failure leaves `request` at `{}`, whose `id` is undefined.
      A line that decodes to undefined or null makes `request.method` throw outside any `try`,
      which ends the script: None. */
  function RouteAsWritten(d: Decoded): Option<Action> {
    match d
    case Unparsable(e) => Some(Reply(Undefined, ErrorBody(ParseError, ParseMessage(e))))
    case Parsed(request) =>
      if request.Undefined? || request.Null? then None else Some(Dispatch(request))
  }

  /** The loop body with undefined and null requests answered as invalid requests, like every other
      request without a string `method`. */
  function Route(d: Decoded): Action {
    match d
    case Unparsable(e) => Reply(Undefined, ErrorBody(ParseError, ParseMessage(e)))
    case Parsed(request) =>
      if request.Undefined? || request.Null? then
        Reply(Undefined, ErrorBody(InvalidRequest, "INVALID_REQUEST: " + Stringify(request)))
      else Dispatch(request)
  }

  /** The result of a tool call that returned `ret`. */
  function SuccessBody(ret: Value): seq<Member> {
    ResultBody(Object([Member("content", Array([Object([Member("type", Str("text")), Member("text", Str(Stringify(ret)))])]))]))
  }

  /** The result of a tool call that threw `e`. */
  function FailureBody(e: Exception): seq<Member> {
    ResultBody(Object([
      Member("content", Array([Object([Member("type", Str("text")), Member("message", Str(ErrorMessage(e)))])])),
      Member("isError", Bool(true))]))
  }

  function OutcomeBody<O>(outcome: Outcome<O>, newId: string): seq<Member> {
    match outcome
    case Returned(v) => SuccessBody(v)
    case Minted(_) => SuccessBody(Str(newId))
    case Threw(e) => FailureBody(e)
  }

  /** The body of the response to line `d`, given the pool's entries and the host; `newId` is the
      identifier a newly pooled object receives. */
  function Body<O>(d: Decoded, entries: map<string, O>, host: Host<O>, newId: string): seq<Member> {
    ActionBody(Route(d), entries, host, newId)
  }

  function ActionBody<O>(action: Action, entries: map<string, O>, host: Host<O>, newId: string): seq<Member> {
    match action
    case Reply(_, body) => body
    case CallTool(_, name, args) => OutcomeBody(Call(name, args, entries, host), newId)
  }

  /** The response to line `d`. */
  function Response<O>(d: Decoded, entries: map<string, O>, host: Host<O>, newId: string): Value {
    Envelope(Route(d).id, Body(d, entries, host, newId))
  }

  /** The object line `d` adds to the pool, if any. */
  function Effect<O>(d: Decoded, entries: map<string, O>, host: Host<O>): Option<O> {
    ActionEffect(Route(d), entries, host)
  }

  function ActionEffect<O>(action: Action, entries: map<string, O>, host: Host<O>): Option<O> {
    match action
    case Reply(_, _) => None
    case CallTool(_, name, args) => OutcomeEffect(Call(name, args, entries, host))
  }

  /** The object a tool call adds to the pool, if any. */
  function OutcomeEffect<O>(outcome: Outcome<O>): Option<O> {
    if outcome.Minted? then Some(outcome.obj) else None
  }

  /** The id the response to line `d` carries before normalisation. */
  function RequestId(d: Decoded): Value {
    match d
    case Unparsable(_) => Undefined
    case Parsed(request) => if request.Undefined? || request.Null? then Undefined else Get(request, "id").value
  }

  predicate Present(members: seq<Member>, key: string) {
    !Lookup(members, key).Undefined?
  }

  /** What every output line is: the text of a JSON object with `jsonrpc` "2.0", a number or string
      `id`, and exactly one of `result` and `error`. */
  predicate WellFormed(line: string) {
    match Read(line)
    case Some(Object(ms)) =>
      && Lookup(ms, "jsonrpc") == Str(JsonRpcVersion)
      && (Lookup(ms, "id").Number? || Lookup(ms, "id").Str?)
      && (Present(ms, "result") <==> !Present(ms, "error"))
    case _ => false
  }

  // ---------------------------------------------------------------- properties of the routing

  /** Every body holds exactly one member, `result` or `error`, whose value is an object. */
  lemma BodyShape<O>(d: Decoded, entries: map<string, O>, host: Host<O>, newId: string)
    ensures var body := Body(d, entries, host, newId);
      |body| == 1 && (body[0].key == "result" || body[0].key == "error") && body[0].value.Object?
  {
    match d
    case Unparsable(_) =>
    case Parsed(request) =>
      if !request.Undefined? && !request.Null? {
        DispatchShape(request);
        if Route(d).CallTool? {
          match Call(Route(d).name, Route(d).args, entries, host)
          case Returned(_) =>
          case Minted(_) =>
          case Threw(_) =>
        }
      }
  }

  lemma DispatchShape(request: Value)
    requires !request.Undefined? && !request.Null?
    ensures Dispatch(request).Reply? ==>
      var body := Dispatch(request).body;
      |body| == 1 && (body[0].key == "result" || body[0].key == "error") && body[0].value.Object?
  {
  }

  /** Every response is an envelope: `jsonrpc` is "2.0", the id is the request's when that is a
      number or string and `""` otherwise, and exactly one of `result` and `error` is set. */
  lemma ResponseEnvelope<O>(d: Decoded, entries: map<string, O>, host: Host<O>, newId: string)
    ensures var r := Response(d, entries, host, newId);
      && r.Object?
      && Lookup(r.members, "jsonrpc") == Str("2.0")
      && Lookup(r.members, "id") == ResponseId(RequestId(d))
      && (Present(r.members, "result") <==> !Present(r.members, "error"))
  {
    BodyShape(d, entries, host, newId);
    EnvelopeShape(Route(d).id, Body(d, entries, host, newId));
    RouteId(d);
  }

  lemma EnvelopeShape(id: Value, body: seq<Member>)
    requires |body| == 1 && (body[0].key == "result" || body[0].key == "error") && body[0].value.Object?
    ensures var r := Envelope(id, body);
      && Lookup(r.members, "jsonrpc") == Str("2.0")
      && Lookup(r.members, "id") == ResponseId(id)
      && (Present(r.members, "result") <==> !Present(r.members, "error"))
  {
    var r := Envelope(id, body);
    assert Lookup(body[1..], "result") == Undefined && Lookup(body[1..], "error") == Undefined;
    assert Lookup(r.members, "result") == Lookup(body, "result");
    assert Lookup(r.members, "error") == Lookup(body, "error");
  }

  lemma RouteId(d: Decoded)
    ensures Route(d).id == RequestId(d)
  {
  }

  /** A line that does not parse gets error -32700 with id `""` and a message starting with
      `PARSE_ERROR: `, and touches nothing. */
  lemma ParseFailure<O>(e: Exception, entries: map<string, O>, host: Host<O>, newId: string)
    ensures var r := Response(Unparsable(e), entries, host, newId);
      && Lookup(r.members, "id") == Str("")
      && Lookup(r.members, "error") == ErrorObject(ParseError, ParseMessage(e))
      && Lookup(r.members, "result") == Undefined
    ensures Effect(Unparsable(e), entries, host).None?
    ensures ParseMessage(e)[..13] == "PARSE_ERROR: "
  {
    var body := ErrorBody(ParseError, ParseMessage(e));
    assert Lookup(body, "result") == Undefined;
  }

  /** A request whose `method` is not a string is an invalid request, -32600, answered with its id. */
  lemma MethodNotString(request: Value)
    requires !request.Undefined? && !request.Null? && !Get(request, "method").value.Str?
    ensures Route(Parsed(request))
      == Reply(Get(request, "id").value, ErrorBody(InvalidRequest, "INVALID_REQUEST: " + Stringify(request)))
  {
  }

  /** A string method other than the three the server knows is -32601, answered with its id. */
  lemma UnknownMethod(request: Value, name: string)
    requires !request.Undefined? && !request.Null? && Get(request, "method").value == Str(name)
    requires name != "initialize" && name != "tools/list" && name != "tools/call"
    ensures Route(Parsed(request))
      == Reply(Get(request, "id").value, ErrorBody(MethodNotFound, "METHOD_NOT_FOUND: " + Stringify(request)))
  {
  }

  /** `initialize` and `tools/list` answer with their fixed results, whatever the pool and host,
      and leave the pool alone; the tools listed are the fourteen registered ones. */
  lemma FixedResults<O>(request: Value, entries: map<string, O>, host: Host<O>, newId: string)
    requires !request.Undefined? && !request.Null?
    requires Get(request, "method").value == Str("initialize") || Get(request, "method").value == Str("tools/list")
    ensures var r := Response(Parsed(request), entries, host, newId);
      Lookup(r.members, "result")
        == (if Get(request, "method").value == Str("initialize") then InitializeResult else ToolsListResult())
    ensures Effect(Parsed(request), entries, host).None?
    ensures |ToolsListResult().members[0].value.items| == 14
  {
    var body := Route(Parsed(request)).body;
    assert Lookup(body, "result") == body[0].value;
  }

  /** The `params` check accepts exactly the non-null objects whose `name` is a string. */
  lemma ParamsNameExact(params: Value)
    ensures ParamsName(params).Some? <==> params.Object? && Lookup(params.members, "name").Str?
    ensures ParamsName(params).Some? ==> ParamsName(params).value == Lookup(params.members, "name").s
  {
  }

  /** A `tools/call` with bad `params` is -32602; no handler runs, so neither the host nor the pool
      plays any part. */
  lemma BadParams<O>(request: Value, entries: map<string, O>, host: Host<O>, other: Host<O>, newId: string)
    requires !request.Undefined? && !request.Null? && Get(request, "method").value == Str("tools/call")
    requires ParamsName(Get(request, "params").value).None?
    ensures Route(Parsed(request))
      == Reply(Get(request, "id").value, ErrorBody(InvalidParams, "INVALID_PARAMS: " + Stringify(request)))
    ensures Response(Parsed(request), entries, host, newId) == Response(Parsed(request), map[], other, newId)
    ensures Effect(Parsed(request), entries, host).None?
  {
  }

  /** The result object of a tool call: one text item, and `isError` exactly when the handler
      threw. The item holds the error message, the serialised return value, or the serialised
      handle `newId` under which a new host object was pooled. */
  predicate CallResult<O>(result: Value, outcome: Outcome<O>, newId: string) {
    && result.Object?
    && Lookup(result.members, "content").Array?
    && |Lookup(result.members, "content").items| == 1
    && (Lookup(result.members, "isError") == Bool(true) <==> outcome.Threw?)
    && (outcome.Threw? ==>
          Lookup(result.members, "content").items[0]
            == Object([Member("type", Str("text")), Member("message", Str(ErrorMessage(outcome.error)))]))
    && (outcome.Returned? ==>
          Lookup(result.members, "content").items[0]
            == Object([Member("type", Str("text")), Member("text", Str(Stringify(outcome.value)))]))
    && (outcome.Minted? ==>
          Lookup(result.members, "content").items[0]
            == Object([Member("type", Str("text")), Member("text", Str(Stringify(Str(newId))))]))
  }

  lemma OutcomeBodyResult<O>(outcome: Outcome<O>, newId: string)
    ensures Lookup(OutcomeBody(outcome, newId), "error") == Undefined
    ensures CallResult(Lookup(OutcomeBody(outcome, newId), "result"), outcome, newId)
  {
    var body := OutcomeBody(outcome, newId);
    assert Lookup(body[1..], "error") == Undefined;
    var result := body[0].value;
    assert Lookup(body, "result") == result;
    if outcome.Threw? {
      assert Lookup(result.members[1..], "isError") == Bool(true);
    } else {
      assert Lookup(result.members[1..], "isError") == Undefined;
    }
  }

  /** A tool call always answers with a `result`, never a top-level `error`; the result holds one
      text item, with the serialised return value or new handle, or with the exception's message
      and `isError` set. */
  lemma CallOutcome<O>(d: Decoded, entries: map<string, O>, host: Host<O>, newId: string)
    requires Route(d).CallTool?
    ensures var r := Response(d, entries, host, newId);
      && Lookup(r.members, "error") == Undefined
      && CallResult(Lookup(r.members, "result"), Call(Route(d).name, Route(d).args, entries, host), newId)
  {
    OutcomeEnvelope(Route(d).id, Call(Route(d).name, Route(d).args, entries, host), newId);
  }

  lemma OutcomeEnvelope<O>(id: Value, outcome: Outcome<O>, newId: string)
    ensures var r := Envelope(id, OutcomeBody(outcome, newId));
      && Lookup(r.members, "error") == Undefined
      && CallResult(Lookup(r.members, "result"), outcome, newId)
  {
    var body := OutcomeBody(outcome, newId);
    OutcomeBodyResult(outcome, newId);
    var r := Envelope(id, body);
    assert Lookup(r.members, "error") == Lookup(body, "error");
    assert Lookup(r.members, "result") == Lookup(body, "result");
  }

  /** A call of a name `HANDLERS` does not hold is answered in band with `isError`. */
  lemma UnknownTool<O>(d: Decoded, entries: map<string, O>, host: Host<O>, newId: string)
    requires Route(d).CallTool? && HandlerNamed(Route(d).name).None?
    ensures Response(d, entries, host, newId) == Envelope(Route(d).id, FailureBody(host.notCallable))
    ensures Effect(d, entries, host).None?
  {
  }

  /** A line decoding to null stops the script as written; the corrected loop answers -32600. */
  lemma NullRequest()
    ensures RouteAsWritten(Parsed(Null)).None?
    ensures Route(Parsed(Null)) == Reply(Undefined, ErrorBody(InvalidRequest, "INVALID_REQUEST: null"))
  {
    assert Stringify(Null) == "null";
    assert "INVALID_REQUEST: " + "null" == "INVALID_REQUEST: null";
  }

  /** Wherever the script as written goes on, it does what the corrected loop does. */
  lemma RouteAgrees(d: Decoded)
    ensures RouteAsWritten(d).Some? ==> RouteAsWritten(d).value == Route(d)
    ensures RouteAsWritten(d).None? <==> d.Parsed? && (d.request.Undefined? || d.request.Null?)
  {
  }

  // ---------------------------------------------------------------- the response on the wire

  predicate MembersPlain(members: seq<Member>) {
    forall i :: 0 <= i < |members| ==> Plain(members[i].value)
  }

  lemma SchemaPlain(ps: seq<Param>, required: seq<string>)
    ensures Plain(Schema(ps, required))
  {
    var props := ParamMembers(ps);
    forall i | 0 <= i < |props| ensures Plain(props[i].value) {
      assert Plain(props[i].value.members[0].value);
    }
    var schema := Schema(ps, required);
    assert Plain(schema.members[0].value);
    assert Plain(schema.members[1].value);
    assert Plain(schema.members[2].value);
  }

  lemma ToolsListPlain()
    ensures Plain(ToolsListResult())
  {
    var items := ToolList().items;
    forall i | 0 <= i < |items| ensures Plain(items[i]) {
      var t := Registered[i];
      SchemaPlain(Params(t), Required(t));
      assert Plain(Entry(t).members[0].value);
      assert Plain(Entry(t).members[1].value);
    }
    assert Plain(ToolList());
  }

  lemma InitializePlain()
    ensures Plain(InitializeResult)
  {
    assert Plain(ServerInfo.members[0].value) && Plain(ServerInfo.members[1].value);
    assert Plain(InitializeResult.members[1].value.members[0].value);
    assert Plain(InitializeResult.members[1].value);
  }

  lemma ErrorBodyPlain(code: int, message: string)
    ensures MembersPlain(ErrorBody(code, message))
  {
    var v := ErrorObject(code, message);
    assert Plain(v.members[0].value) && Plain(v.members[1].value);
  }

  lemma OutcomeBodyPlain<O>(outcome: Outcome<O>, newId: string)
    ensures MembersPlain(OutcomeBody(outcome, newId))
  {
    var v := OutcomeBody(outcome, newId)[0].value;
    var content := v.members[0].value;
    var item := content.items[0];
    assert Plain(item.members[0].value) && Plain(item.members[1].value);
    assert Plain(item);
    assert Plain(content);
    assert |v.members| == 2 ==> Plain(v.members[1].value);
  }

  lemma DispatchPlain(request: Value)
    requires !request.Undefined? && !request.Null? && Dispatch(request).Reply?
    ensures MembersPlain(Dispatch(request).body)
  {
    var body := Dispatch(request).body;
    if body[0].key == "error" {
      ErrorBodyPlain(body[0].value.members[0].value.n, body[0].value.members[1].value.s);
    } else if body[0].value == InitializeResult {
      InitializePlain();
    } else {
      ToolsListPlain();
    }
  }

  lemma BodyPlain<O>(d: Decoded, entries: map<string, O>, host: Host<O>, newId: string)
    ensures MembersPlain(Body(d, entries, host, newId))
  {
    match Route(d)
    case CallTool(_, name, args) => OutcomeBodyPlain(Call(name, args, entries, host), newId);
    case Reply(_, body) =>
      match d
      case Unparsable(e) => ErrorBodyPlain(ParseError, ParseMessage(e));
      case Parsed(request) =>
        if request.Undefined? || request.Null? {
          ErrorBodyPlain(InvalidRequest, "INVALID_REQUEST: " + Stringify(request));
        } else {
          DispatchPlain(request);
        }
  }

  lemma SetPropertyPlain(members: seq<Member>, key: string, value: Value)
    requires Plain(value) && MembersPlain(members)
    ensures MembersPlain(SetProperty(members, key, value))
    decreases |members|
  {
    if members != [] && members[0].key != key {
      SetPropertyPlain(members[1..], key, value);
    }
  }

  /** The response text reads back, with the JSON reader, as exactly the response object. */
  lemma ResponseOnWire<O>(d: Decoded, entries: map<string, O>, host: Host<O>, newId: string)
    ensures Read(Stringify(Response(d, entries, host, newId))) == Some(Response(d, entries, host, newId))
    ensures WellFormed(Stringify(Response(d, entries, host, newId)))
  {
    var r := Response(d, entries, host, newId);
    var id := Route(d).id;
    var body := Body(d, entries, host, newId);
    BodyPlain(d, entries, host, newId);
    SetPropertyPlain(body, "jsonrpc", Str(JsonRpcVersion));
    SetPropertyPlain(SetProperty(body, "jsonrpc", Str(JsonRpcVersion)), "id", ResponseId(id));
    assert r == Envelope(id, body);
    assert Plain(r);
    ReadStringifyPlain(r);
    ResponseEnvelope(d, entries, host, newId);
  }

  // ---------------------------------------------------------------- the loop

  lemma AppendAssoc<T>(a: seq<T>, b: seq<T>, c: seq<T>)
    ensures a + b + c == a + (b + c)
  {
  }

  /** One pass of the loop, seen from outside. The pool held `before`; line `d` was answered with
      `line`, the well-formed response to `d` in which `newId` is the identifier of anything pooled;
      and the pool now holds `after`: `before` itself when the line pools nothing (and `newId` is
      `""`), otherwise `before` with the new object under `newId`, a UUID it did not hold. */
  ghost predicate Step<O>(d: Decoded, host: Host<O>, before: map<string, O>, newId: string, after: map<string, O>, line: string) {
    && line == Stringify(Response(d, before, host, newId))
    && WellFormed(line)
    && Pools(before, Effect(d, before, host), newId, after)
  }

  /** The pool change of one pass: none when there is nothing to pool, otherwise the object stored
      under a fresh UUID. */
  ghost predicate Pools<O>(before: map<string, O>, effect: Option<O>, newId: string, after: map<string, O>) {
    if effect.None? then newId == "" && after == before
    else IsUuid(newId) && newId !in before && after == before[newId := effect.value]
  }

  /** The passes over the first `|written|` lines, each related by `step`: the pool went through
      `states`, pass `k` minting `ids[k]` and writing `written[k]`. */
  ghost predicate Steps<O>(step: (Decoded, Host<O>, map<string, O>, string, map<string, O>, string) -> bool,
                           lines: seq<Decoded>, hosts: seq<Host<O>>, states: seq<map<string, O>>, ids: seq<string>,
                           written: seq<string>)
    decreases |written|
  {
    && |written| <= |lines| && |written| <= |hosts|
    && |states| == |written| + 1 && |ids| == |written|
    && (|written| > 0 ==>
         var n := |written| - 1;
         Steps(step, lines, hosts, states[..n + 1], ids[..n], written[..n])
         && step(lines[n], hosts[n], states[n], ids[n], states[n + 1], written[n]))
  }

  lemma StepsSnoc<O>(step: (Decoded, Host<O>, map<string, O>, string, map<string, O>, string) -> bool,
                     lines: seq<Decoded>, hosts: seq<Host<O>>, states: seq<map<string, O>>, ids: seq<string>,
                     written: seq<string>, id: string, after: map<string, O>, line: string)
    requires Steps(step, lines, hosts, states, ids, written) && |written| < |lines| && |written| < |hosts|
    requires step(lines[|written|], hosts[|written|], states[|written|], id, after, line)
    ensures Steps(step, lines, hosts, states + [after], ids + [id], written + [line])
  {
    SnocPrefix(states, after);
    SnocPrefix(ids, id);
    SnocPrefix(written, line);
  }

  lemma {:induction false} StepsAt<O>(step: (Decoded, Host<O>, map<string, O>, string, map<string, O>, string) -> bool,
                                      lines: seq<Decoded>, hosts: seq<Host<O>>, states: seq<map<string, O>>,
                                      ids: seq<string>, written: seq<string>, k: nat)
    requires Steps(step, lines, hosts, states, ids, written) && k < |written|
    ensures step(lines[k], hosts[k], states[k], ids[k], states[k + 1], written[k])
    decreases |written|
  {
    var n := |written| - 1;
    if k < n {
      StepsAt(step, lines, hosts, states[..n + 1], ids[..n], written[..n], k);
      assert states[..n + 1][k] == states[k] && states[..n + 1][k + 1] == states[k + 1];
    }
  }

  lemma SnocPrefix<T>(s: seq<T>, x: T)
    ensures (s + [x])[..|s|] == s && (s + [x])[|s|] == x
    ensures forall k :: 0 <= k < |s| ==> (s + [x])[k] == s[k]
  {
  }

  /** The server: the output lines written so far and the handle pool. */
  class Server<O> {
    const pool: Pool<O>
    var output: seq<string>

    constructor (pool: Pool<O>)
      ensures this.pool == pool && output == []
    {
      this.pool := pool;
      output := [];
    }

    /** `respond`: assign `jsonrpc` and `id` into the body, serialise it, write the line. */
    method Respond(id: Value, body: seq<Member>)
      modifies this
      ensures output == old(output) + [Stringify(Envelope(id, body))]
    {
      var response := body;
      response := SetProperty(response, "jsonrpc", Str(JsonRpcVersion));
      response := SetProperty(response, "id", ResponseId(id));
      var text := StringifyValue(Object(response));
      output := output + [text];
    }

    /** One pass of the loop body. `minted` is the identifier of the object the line pooled, if
        any. */
    method HandleLine(d: Decoded, host: Host<O>) returns (minted: Option<string>)
      requires pool.Valid() && pool.CanGrow()
      modifies this, pool, pool.ids
      ensures pool.Valid()
      ensures pool.Recorded(old(pool.entries), old(pool.issued), old(pool.ids.draws), minted, Effect(d, old(pool.entries), host))
      ensures output == old(output) + [Stringify(Response(d, old(pool.entries), host, if minted.Some? then minted.value else ""))]
    {
      minted := Perform(Route(d), host);
    }

    /** Carry out what the loop body decided for one line: answer at once, or call the tool and
        answer with its result. */
    method Perform(action: Action, host: Host<O>) returns (minted: Option<string>)
      requires pool.Valid() && pool.CanGrow()
      modifies this, pool, pool.ids
      ensures pool.Valid()
      ensures pool.Recorded(old(pool.entries), old(pool.issued), old(pool.ids.draws), minted, ActionEffect(action, old(pool.entries), host))
      ensures output == old(output)
        + [Stringify(Envelope(action.id, ActionBody(action, old(pool.entries), host, if minted.Some? then minted.value else "")))]
    {
      if action.Reply? {
        minted := None;
        Respond(action.id, action.body);
      } else {
        var outcome := Call(action.name, action.args, pool.entries, host);
        minted := Answer(action.id, outcome);
      }
    }

    /** The `tools/call` branch once the handler has run: pool the object it made, if any, and
        answer with the result. */
    method Answer(id: Value, outcome: Outcome<O>) returns (minted: Option<string>)
      requires pool.Valid() && pool.CanGrow()
      modifies this, pool, pool.ids
      ensures pool.Valid()
      ensures pool.Recorded(old(pool.entries), old(pool.issued), old(pool.ids.draws), minted, OutcomeEffect(outcome))
      ensures output == old(output) + [Stringify(Envelope(id, OutcomeBody(outcome, if minted.Some? then minted.value else "")))]
    {
      if outcome.Minted? {
        var newId := pool.Add(outcome.obj);
        minted := Some(newId);
        assert pool.Recorded(old(pool.entries), old(pool.issued), old(pool.ids.draws), minted, OutcomeEffect(outcome));
        Respond(id, OutcomeBody(outcome, newId));
      } else {
        minted := None;
        Respond(id, OutcomeBody(outcome, ""));
      }
    }

    /** `main`, with the corrections of `Route` and `Call`: one response per line, in order. Line
        `k` is answered against the pool `states[k]` left by the lines before it and takes the pool
        to `states[k + 1]`, as `Step` describes. The generator has to be able to serve one new
        identifier per line; its draws may still repeat or collide with the pool, and `Add` retries
        those. */
    method Serve(lines: seq<Decoded>, hosts: seq<Host<O>>) returns (ghost states: seq<map<string, O>>, ghost ids: seq<string>)
      requires |hosts| == |lines| && pool.Valid() && EnoughFresh(pool.ids.entropy, pool.ids.draws, pool.entries.Keys, |lines|)
      modifies this, pool, pool.ids
      ensures pool.Valid()
      ensures |states| == |lines| + 1 && |ids| == |lines|
      ensures states[0] == old(pool.entries) && states[|lines|] == pool.entries
      ensures |output| == |old(output)| + |lines| && output[..|old(output)|] == old(output)
      ensures forall k :: 0 <= k < |lines| ==>
        Step(lines[k], hosts[k], states[k], ids[k], states[k + 1], output[|old(output)| + k])
    {
      var i := 0;
      states := [pool.entries];
      ids := [];
      ghost var written: seq<string> := [];
      while i < |lines|
        invariant 0 <= i <= |lines| && |written| == i
        invariant pool.Valid() && EnoughFresh(pool.ids.entropy, pool.ids.draws, pool.entries.Keys, |lines| - i)
        invariant output == old(output) + written
        invariant Steps(Step, lines, hosts, states, ids, written)
        invariant states[0] == old(pool.entries) && states[i] == pool.entries
      {
        ghost var id, line := Advance(lines, hosts, i, states, ids, written, |lines| - i - 1);
        AppendAssoc(old(output), written, [line]);
        ghost var after := pool.entries;
        states := states + [after];
        ids := ids + [id];
        written := written + [line];
        i := i + 1;
      }
      assert output[..|old(output)|] == old(output);
      forall k | 0 <= k < |lines|
        ensures Step(lines[k], hosts[k], states[k], ids[k], states[k + 1], output[|old(output)| + k])
      {
        StepsAt(Step, lines, hosts, states, ids, written, k);
        assert output[|old(output)| + k] == written[k];
      }
    }

    /** The pass of `Serve` over line `i`, appended to the passes over the lines before it. */
    method Advance(lines: seq<Decoded>, hosts: seq<Host<O>>, i: nat, ghost states: seq<map<string, O>>, ghost ids: seq<string>,
                   ghost written: seq<string>, ghost n: nat) returns (ghost id: string, ghost line: string)
      requires |hosts| == |lines| && i == |written| < |lines|
      requires pool.Valid() && EnoughFresh(pool.ids.entropy, pool.ids.draws, pool.entries.Keys, n + 1)
      requires Steps(Step, lines, hosts, states, ids, written) && states[|written|] == pool.entries
      modifies this, pool, pool.ids
      ensures pool.Valid() && EnoughFresh(pool.ids.entropy, pool.ids.draws, pool.entries.Keys, n)
      ensures output == old(output) + [line]
      ensures Steps(Step, lines, hosts, states + [pool.entries], ids + [id], written + [line])
    {
      id, line := ServeLine(lines[i], hosts[i], n);
      StepsSnoc(Step, lines, hosts, states, ids, written, id, pool.entries, line);
    }

    /** One pass of the loop of `main`: the line written is `Step`'s, and a generator with room
        for `n + 1` more identifiers has room for `n` afterwards. */
    method ServeLine(d: Decoded, host: Host<O>, ghost n: nat) returns (ghost newId: string, ghost line: string)
      requires pool.Valid() && EnoughFresh(pool.ids.entropy, pool.ids.draws, pool.entries.Keys, n + 1)
      modifies this, pool, pool.ids
      ensures pool.Valid() && EnoughFresh(pool.ids.entropy, pool.ids.draws, pool.entries.Keys, n)
      ensures output == old(output) + [line]
      ensures Step(d, host, old(pool.entries), newId, pool.entries, line)
    {
      ghost var start := pool.ids.draws;
      ghost var issued := pool.issued;
      ghost var before := pool.entries;
      pool.EnoughFreshCanGrow(n);
      var minted := HandleLine(d, host);
      newId := if minted.Some? then minted.value else "";
      line := Stringify(Response(d, before, host, newId));
      ResponseOnWire(d, before, host, newId);
      pool.RecordedFresh(before, issued, start, minted, Effect(d, before, host), n);
    }
  }
}
