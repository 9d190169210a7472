/**
 * The Gmail MCP server's tool catalogue (the ListTools handler) and its
 * CallTool handler: a switch on the tool name, a call into the backend, and
 * a try/catch that shapes every failure as an `McpError`.
 */
module McpServer {
  import opened Wrappers
  import opened Json
  import opened GmailService

  /** JSON-RPC 2.0 error codes (section 5.1 of the JSON-RPC 2.0 specification). */
  const MethodNotFound: int := -32601
  const InternalError: int := -32603

  /** An error already in protocol shape: a code and a message. */
  datatype McpError = McpError(code: int, message: string)

  /** What the handler's body can throw: an `McpError`, or any other error, given by its string form. */
  datatype Thrown = Protocol(error: McpError) | Other(cause: string)

  // ---------------------------------------------------------------- catalogue

  datatype PropertyType = StringType | NumberType

  datatype PropertySchema = PropertySchema(name: string, propertyType: PropertyType, description: string, default: Option<Json>)

  datatype InputSchema = InputSchema(schemaType: string, properties: seq<PropertySchema>, required: seq<string>)

  datatype ToolDescriptor = ToolDescriptor(name: string, description: string, inputSchema: InputSchema)

  function ToolNames(tools: seq<ToolDescriptor>): (names: seq<string>)
    ensures |names| == |tools|
    ensures forall i :: 0 <= i < |tools| ==> names[i] == tools[i].name
  {
    seq(|tools|, i requires 0 <= i < |tools| => tools[i].name)
  }

  function PropertyNames(schema: InputSchema): (names: seq<string>)
    ensures |names| == |schema.properties|
    ensures forall i :: 0 <= i < |names| ==> names[i] == schema.properties[i].name
  {
    seq(|schema.properties|, i requires 0 <= i < |schema.properties| => schema.properties[i].name)
  }

  /** Every required field of the schema is one of its declared properties. */
  predicate RequiredDeclared(schema: InputSchema)
  {
    forall k :: 0 <= k < |schema.required| ==> schema.required[k] in PropertyNames(schema)
  }

  function StringProperty(name: string, description: string): PropertySchema
  {
    PropertySchema(name, StringType, description, None)
  }

  /** The tools the ListTools handler advertises, in order. */
  function ListTools(): (tools: seq<ToolDescriptor>)
    ensures ToolNames(tools) == ["search_emails", "get_email", "send_email", "delete_email"]
    ensures forall i, j :: 0 <= i < j < |tools| ==> tools[i].name != tools[j].name
    ensures forall i :: 0 <= i < |tools| ==> tools[i].inputSchema.schemaType == "object"
    ensures tools[0].inputSchema.required == ["query"]
    ensures tools[1].inputSchema.required == ["emailId"]
    ensures tools[2].inputSchema.required == ["to", "subject", "body"]
    ensures tools[3].inputSchema.required == ["emailId"]
  {
    [ ToolDescriptor("search_emails", "Search for emails in Gmail",
        InputSchema("object",
          [ StringProperty("query", "Search query for emails"),
            PropertySchema("maxResults", NumberType, "Maximum number of results to return", Some(JNum(10))) ],
          ["query"])),
      ToolDescriptor("get_email", "Get details of a specific email",
        InputSchema("object", [StringProperty("emailId", "The ID of the email to retrieve")], ["emailId"])),
      ToolDescriptor("send_email", "Send a new email",
        InputSchema("object",
          [ StringProperty("to", "Recipient email address"),
            StringProperty("subject", "Email subject"),
            StringProperty("body", "Email body content") ],
          ["to", "subject", "body"])),
      ToolDescriptor("delete_email", "Delete a specific email",
        InputSchema("object", [StringProperty("emailId", "The ID of the email to delete")], ["emailId"])) ]
  }

  /** Every tool's required fields are among its declared properties. */
  lemma CatalogueRequiredDeclared()
    ensures forall i :: 0 <= i < |ListTools()| ==> RequiredDeclared(ListTools()[i].inputSchema)
  {
    var tools := ListTools();
    assert PropertyNames(tools[0].inputSchema) == ["query", "maxResults"];
    assert PropertyNames(tools[1].inputSchema) == ["emailId"];
    assert PropertyNames(tools[2].inputSchema) == ["to", "subject", "body"];
    assert PropertyNames(tools[3].inputSchema) == ["emailId"];
  }

  // ---------------------------------------------------------------- dispatch

  /** The arguments object of a call: JSON members, or `undefined` (None) when the client sent none. */
  type Arguments = Option<map<string, Json>>

  datatype CallToolParams = CallToolParams(name: string, arguments: Arguments)

  datatype ContentBlock = ContentBlock(blockType: string, text: string)

  datatype CallToolResult = CallToolResult(content: seq<ContentBlock>)

  /** A call into the backend, with the argument values the handler passed to it. */
  datatype BackendCall =
    | SearchEmailsCall(query: Option<Json>, maxResults: Json)
    | GetEmailCall(emailId: Option<Json>)
    | SendEmailCall(to: Option<Json>, subject: Option<Json>, body: Option<Json>)
    | DeleteEmailCall(emailId: Option<Json>)

  /** The outcome of the handler's try block and the backend calls it made. */
  datatype Attempt = Attempt(outcome: Result<CallToolResult, Thrown>, calls: seq<BackendCall>)

  /** What the CallTool handler returns or throws, and the backend calls it made. */
  datatype Handled = Handled(result: Result<CallToolResult, McpError>, calls: seq<BackendCall>)

  /** The tool whose case of the switch makes this backend call. */
  function ToolOf(call: BackendCall): string
  {
    match call
    case SearchEmailsCall(_, _) => "search_emails"
    case GetEmailCall(_) => "get_email"
    case SendEmailCall(_, _, _) => "send_email"
    case DeleteEmailCall(_) => "delete_email"
  }

  /** The backend method a call runs: its result as `JSON.stringify` sees it, or what it throws. */
  function Execute(call: BackendCall, clock: Clock): Result<Json, string>
  {
    match call
    case SearchEmailsCall(query, maxResults) => Ok(SummariesJson(SearchEmails(query, Some(maxResults), clock)))
    case GetEmailCall(emailId) => Ok(DetailJson(GetEmail(emailId, clock)))
    case SendEmailCall(to, subject, body) =>
      (match SendEmail(to, subject, body, clock) case Ok(r) => Ok(SendJson(r)) case Err(e) => Err(e))
    case DeleteEmailCall(emailId) =>
      (match DeleteEmail(emailId) case Ok(r) => Ok(DeleteJson(r)) case Err(e) => Err(e))
  }

  /** The backend method throws while logging its arguments. */
  predicate CallThrows(call: BackendCall)
  {
    match call
    case SendEmailCall(to, subject, _) => LogThrows(to) || LogThrows(subject)
    case DeleteEmailCall(emailId) => LogThrows(emailId)
    case _ => false
  }

  /** A property read from the arguments object: `undefined` (None) when absent. */
  function Prop(args: map<string, Json>, key: string): Option<Json>
  {
    if key in args then Some(args[key]) else None
  }

  /** The string form of the TypeError thrown when destructuring an undefined arguments object. */
  function DestructureError(property: string): string
  {
    "TypeError: Cannot destructure property '" + property + "' of 'args' as it is undefined."
  }

  /** The property each case of the switch destructures first. */
  function FirstDestructured(name: string): string
  {
    if name == "search_emails" then "query"
    else if name == "send_email" then "to"
    else "emailId"
  }

  /** The backend call the switch's case for a known tool makes, its arguments read without any check. */
  function Route(name: string, args: map<string, Json>): BackendCall
    requires name in ToolNames(ListTools())
  {
    if name == "search_emails" then
      var maxResults := match Prop(args, "maxResults") case Some(m) => m case None => JNum(10);
      SearchEmailsCall(Prop(args, "query"), maxResults)
    else if name == "get_email" then GetEmailCall(Prop(args, "emailId"))
    else if name == "send_email" then SendEmailCall(Prop(args, "to"), Prop(args, "subject"), Prop(args, "body"))
    else DeleteEmailCall(Prop(args, "emailId"))
  }

  /** The try block: the switch on the tool name, with each result wrapped as one text block. */
  function RunTool(name: string, args: Arguments, clock: Clock): Attempt
  {
    if name !in ToolNames(ListTools()) then
      Attempt(Err(Protocol(McpError(MethodNotFound, "Unknown tool: " + name))), [])
    else
      match args
      case None => Attempt(Err(Other(DestructureError(FirstDestructured(name)))), [])
      case Some(a) =>
        var call := Route(name, a);
        match Execute(call, clock)
        case Ok(result) => Attempt(Ok(CallToolResult([ContentBlock("text", Stringify(result))])), [call])
        case Err(cause) => Attempt(Err(Other(cause)), [call])
  }

  /**
   * The catch block: an `McpError` is rethrown as it is, anything else becomes
   * an InternalError naming the cause.
   */
  function Catch(t: Thrown): (e: McpError)
    ensures t.Protocol? ==> e == t.error
    ensures t.Other? ==> e.code == InternalError && e.message == "Tool execution failed: " + t.cause
  {
    match t
    case Protocol(err) => err
    case Other(cause) => McpError(InternalError, "Tool execution failed: " + cause)
  }

  /** The CallTool handler. */
  function CallTool(params: CallToolParams, clock: Clock): (h: Handled)
    // unknown names: MethodNotFound naming the tool, no backend call
    ensures params.name !in ToolNames(ListTools()) ==>
              h == Handled(Err(McpError(MethodNotFound, "Unknown tool: " + params.name)), [])
    // a known name with no arguments object: the destructuring TypeError, reshaped
    ensures params.name in ToolNames(ListTools()) && params.arguments.None? ==>
              h.calls == [] && h.result.Err? && h.result.error.code == InternalError
              && h.result.error.message == "Tool execution failed: " + DestructureError(FirstDestructured(params.name))
    // a known name with an arguments object enters exactly one backend method, the one bound to the name
    ensures h.calls != [] <==> params.name in ToolNames(ListTools()) && params.arguments.Some?
    ensures h.calls != [] ==>
              h.calls == [Route(params.name, params.arguments.value)] && ToolOf(h.calls[0]) == params.name
    // success exactly when that backend method does not throw while logging
    ensures h.result.Ok? <==>
              params.name in ToolNames(ListTools()) && params.arguments.Some?
              && !CallThrows(Route(params.name, params.arguments.value))
    // a throwing log line becomes an InternalError naming the TypeError
    ensures h.calls != [] && CallThrows(h.calls[0]) ==>
              h.result == Err(McpError(InternalError, "Tool execution failed: " + ToPrimitiveError))
    // a success returns the backend's result as one text block
    ensures h.result.Ok? ==>
              Execute(h.calls[0], clock).Ok?
              && h.result.value.content == [ContentBlock("text", Stringify(Execute(h.calls[0], clock).value))]
    // the error code is MethodNotFound exactly for unknown names, so that error is never rewrapped
    ensures h.result.Err? ==> (h.result.error.code == MethodNotFound <==> params.name !in ToolNames(ListTools()))
  {
    var attempt := RunTool(params.name, params.arguments, clock);
    match attempt.outcome
    case Ok(r) => Handled(Ok(r), attempt.calls)
    case Err(t) => Handled(Err(Catch(t)), attempt.calls)
  }

  // ---------------------------------------------------------------- properties

  /** Shaping an error that is already shaped changes nothing: errors are never wrapped twice. */
  lemma CatchIdempotent(t: Thrown)
    ensures Catch(Protocol(Catch(t))) == Catch(t)
  {
  }

  /**
   * The default advertised for `maxResults` is the value dispatch passes when
   * the argument is absent, and the default `searchEmails` itself applies.
   */
  lemma MaxResultsDefaultsAgree(args: map<string, Json>, clock: Clock)
    requires "maxResults" !in args
    ensures var advertised := ListTools()[0].inputSchema.properties[1];
            && advertised.name == "maxResults" && advertised.default.Some?
            && CallTool(CallToolParams("search_emails", Some(args)), clock).calls
               == [SearchEmailsCall(Prop(args, "query"), advertised.default.value)]
            && ServiceMaxResults(None) == advertised.default.value
  {
  }

  /** A `maxResults` the caller does give reaches the backend unchanged, whatever its JSON type. */
  lemma MaxResultsPassedThrough(args: map<string, Json>, clock: Clock)
    requires "maxResults" in args
    ensures CallTool(CallToolParams("search_emails", Some(args)), clock).calls
            == [SearchEmailsCall(Prop(args, "query"), args["maxResults"])]
  {
  }

  /** `get_email` answers with the requested id: the rendered record's `id` is the `emailId` argument. */
  lemma GetEmailEchoesId(args: map<string, Json>, clock: Clock)
    ensures var h := CallTool(CallToolParams("get_email", Some(args)), clock);
            && h.calls == [GetEmailCall(Prop(args, "emailId"))]
            && GetEmail(Prop(args, "emailId"), clock).id == Prop(args, "emailId")
            && h.result == Ok(CallToolResult([ContentBlock("text", Stringify(DetailJson(GetEmail(Prop(args, "emailId"), clock))))]))
  {
  }

  /** The arguments are not validated: a call missing every required field still reaches the backend. */
  lemma NoArgumentValidation(name: string, clock: Clock)
    requires name in ToolNames(ListTools())
    ensures CallTool(CallToolParams(name, Some(map[])), clock).result.Ok?
  {
  }

  /** `send_email` forwards `to`, `subject` and `body` to `sendEmail`, each read without a check. */
  lemma SendEmailForwardsArguments(args: map<string, Json>, clock: Clock)
    ensures var h := CallTool(CallToolParams("send_email", Some(args)), clock);
            var sent := SendEmail(Prop(args, "to"), Prop(args, "subject"), Prop(args, "body"), clock);
            && h.calls == [SendEmailCall(Prop(args, "to"), Prop(args, "subject"), Prop(args, "body"))]
            && h.result == if sent.Ok? then Ok(CallToolResult([ContentBlock("text", Stringify(SendJson(sent.value)))]))
                           else Err(McpError(InternalError, "Tool execution failed: " + sent.error))
  {
  }

  /** `delete_email` forwards `emailId` to `deleteEmail`. */
  lemma DeleteEmailForwardsId(args: map<string, Json>, clock: Clock)
    ensures var h := CallTool(CallToolParams("delete_email", Some(args)), clock);
            var deleted := DeleteEmail(Prop(args, "emailId"));
            && h.calls == [DeleteEmailCall(Prop(args, "emailId"))]
            && h.result == if deleted.Ok? then Ok(CallToolResult([ContentBlock("text", Stringify(DeleteJson(deleted.value)))]))
                           else Err(McpError(InternalError, "Tool execution failed: " + deleted.error))
  {
  }

  /**
   * A recipient object with its own `toString` member makes `sendEmail`'s log line
   * throw: the backend method is entered, and the call fails with an InternalError.
   */
  lemma SendEmailUnprintableRecipient(clock: Clock)
    ensures var args := map["to" := JObj([("toString", JNum(0))]), "subject" := JStr("s"), "body" := JStr("b")];
            var h := CallTool(CallToolParams("send_email", Some(args)), clock);
            && h.calls == [SendEmailCall(Some(args["to"]), Some(JStr("s")), Some(JStr("b")))]
            && h.result == Err(McpError(InternalError, "Tool execution failed: " + ToPrimitiveError))
  {
    var recipient := JObj([("toString", JNum(0))]);
    var args := map["to" := recipient, "subject" := JStr("s"), "body" := JStr("b")];
    assert recipient.members[0].0 == "toString";
    assert Prop(args, "to") == Some(recipient);
    assert CallThrows(Route("send_email", args));
  }

  /** An array is converted by joining its elements, so one unprintable element makes `deleteEmail` throw too. */
  lemma DeleteEmailUnprintableElement(clock: Clock, inner: Json)
    requires ToStringThrows(inner)
    ensures var h := CallTool(CallToolParams("delete_email", Some(map["emailId" := JArr([JStr("1"), inner])])), clock);
            h.result == Err(McpError(InternalError, "Tool execution failed: " + ToPrimitiveError))
  {
    assert JArr([JStr("1"), inner]).items[1] == inner;
  }
}
