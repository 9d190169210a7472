# Gmail MCP server and client: a Dafny model

This project models the two pieces of logic that sit around the Model Context
Protocol (MCP) SDK calls in a small Gmail tool server and its client:

- **The server** (`src/server/mcp-server.ts`). The server advertises a fixed,
  ordered catalogue of four tools: `search_emails`, `get_email`, `send_email`
  and `delete_email`. A CallTool request goes through a switch on the tool
  name. A known name calls one method of the mock `GmailService` backend and
  wraps the `JSON.stringify(result, null, 2)` text as a single `text` content
  block. An unknown name throws `MethodNotFound` (JSON-RPC 2.0 code −32601,
  section 5.1 of the JSON-RPC 2.0 specification). The catch block rethrows a
  protocol error (`McpError`) unchanged and wraps any other error as
  `InternalError` (−32603).
- **The client** (`src/client/mcp-client.ts`). `MCPClientManager` keeps a
  `clients` list. `getTools` merges every client's tool map by ordered
  overwrite (`Object.assign`), so the last client wins on a shared name and a
  client whose listing fails is skipped. `closeAllClients` closes every
  client, swallowing individual failures, and then empties the list.
  `runAIWithMCPTools` always ends by closing its clients.

Files:

- `wrappers.dfy`: `Option` (a value or `undefined`), `Result`, `Outcome`.
- `json.dfy`: JSON values and `Stringify`, the two-space layout of `JSON.stringify(v, null, 2)`.
- `gmail_service.dfy`: the mock backend's records and methods, and their JSON form.
- `mcp_server.dfy`: the catalogue (`ListTools`), the dispatch (`CallTool`) and the error shaping (`Catch`).
- `mcp_client.dfy`: the merge specification `Merge`, the class `MCPClientManager` and `RunAIWithMCPTools`.

Modelling choices:

- The arguments object is `Option<map<string, Json>>`. MCP lets a client omit
  `arguments`, and the handler destructures it unchecked. A missing property
  becomes `undefined` (`None`) and is passed on to the backend. A missing
  arguments object makes the destructuring throw a `TypeError`, which the
  catch block turns into `InternalError`. No argument is validated. There is
  no `InvalidParams` path, so a call missing every required field still
  reaches the backend (`NoArgumentValidation`).
- `CallTool` returns the backend methods it entered next to its result. This
  is how the model states that an unknown name or a missing arguments object
  enters no backend method, and that every other call enters exactly one.
- `sendEmail` and `deleteEmail` interpolate their arguments into a log line.
  An argument with no string form makes that line throw a `TypeError`, which
  the catch block turns into `InternalError`. No string form means an object
  with its own `toString` member, or an array holding such a value.
- The clock readings (`new Date().toISOString()` and `Date.now()`) are
  parameters (`Clock`).
- A client is a value: its id, the outcome of its `tools()` call (a tool map
  or an error) and the outcome of its `close()` call. The `close()` calls are
  returned as a log, one entry per client in order.

What the code does not do:

- The dispatcher checks no required field and has no `InvalidParams` path.
- The mock `getEmail` answers every id, so there is no NotFound.
- The mock `searchEmails` ignores `query` and `maxResults` and always returns two summaries.

## Model

| member | source | states |
|---|---|---|
| `McpServer.ListTools` | src/server/mcp-server.ts:86-159 | The names, in order, are exactly `search_emails`, `get_email`, `send_email`, `delete_email`. They are pairwise distinct. Every schema is of type `object`, and the required lists are `query`; `emailId`; `to`, `subject`, `body`; `emailId`. |
| `McpServer.CatalogueRequiredDeclared` | src/server/mcp-server.ts:92-156 | Every tool's required fields are among the properties it declares. |
| `McpServer.MaxResultsDefaultsAgree` | src/server/mcp-server.ts:99-103 | The advertised `maxResults` default is the value dispatch passes to `searchEmails` when the argument is absent (line 169). It is also the default `searchEmails` itself applies (line 15). |
| `McpServer.MaxResultsPassedThrough` | src/server/mcp-server.ts:169-170 | A `maxResults` the caller gives reaches the backend unchanged. |
| `McpServer.CallTool` | src/server/mcp-server.ts:163-235 | An unknown name yields `MethodNotFound` with message `"Unknown tool: " + name` and enters no backend method. A known name without an arguments object yields `InternalError` carrying the destructuring `TypeError`, with no backend method entered. A known name with an arguments object enters exactly one backend method, the one bound to the name, with the arguments the switch reads. The call succeeds exactly when that method does not throw while logging its arguments, and then returns one `text` block holding the serialised result. A throwing log line yields `InternalError` naming the `TypeError`. The error code is `MethodNotFound` exactly for unknown names, so that error is never rewrapped as `InternalError`. |
| `McpServer.Catch` | src/server/mcp-server.ts:226-234 | An `McpError` passes through unchanged. Any other error becomes `InternalError` with message `"Tool execution failed: " + cause`. |
| `McpServer.CatchIdempotent` | src/server/mcp-server.ts:226-229 | Shaping an already shaped error leaves it as it is: no error is wrapped twice. |
| `McpServer.GetEmailEchoesId` | src/server/mcp-server.ts:181-191 | `get_email` passes the `emailId` argument to `getEmail`. The record's `id` is that argument, and the content is that record serialised. |
| `McpServer.SendEmailForwardsArguments` | src/server/mcp-server.ts:194-204 | `send_email` passes the `to`, `subject` and `body` arguments to `sendEmail`, in that order. It returns the receipt serialised, or `InternalError` with the error `sendEmail` throws. |
| `McpServer.DeleteEmailForwardsId` | src/server/mcp-server.ts:207-217 | `delete_email` passes the `emailId` argument to `deleteEmail`. It returns the result serialised, or `InternalError` with the error `deleteEmail` throws. |
| `McpServer.SendEmailUnprintableRecipient` | src/server/mcp-server.ts:47-49 | A recipient object with its own `toString` member makes the log line throw `TypeError: Cannot convert object to primitive value`. `sendEmail` is entered, and the call fails with `InternalError` naming that error. |
| `McpServer.DeleteEmailUnprintableElement` | src/server/mcp-server.ts:56-58 | An `emailId` array with an element that has no string form makes `deleteEmail`'s log line throw, and the call fails with `InternalError`. |
| `McpServer.NoArgumentValidation` | src/server/mcp-server.ts:168-218 | For every known tool, a call with an empty arguments object still succeeds: required fields are not checked. |
| `GmailService.SearchEmails` | src/server/mcp-server.ts:15-33 | Two summaries with distinct non-empty ids. Their dates are the first and second clock readings. |
| `GmailService.GetEmail` | src/server/mcp-server.ts:35-45 | The record's `id` is the requested `emailId`, `undefined` included, and its date is the clock reading. |
| `GmailService.SendEmail` | src/server/mcp-server.ts:47-54 | The method throws `TypeError: Cannot convert object to primitive value` exactly when `to` or `subject` has no string form for the log line (line 49). Otherwise the status is `"sent"` and the id is `"sent_"` followed by the decimal digits of `Date.now()`. |
| `GmailService.DeleteEmail` | src/server/mcp-server.ts:56-60 | The method throws the same `TypeError` exactly when `emailId` has no string form for the log line (line 58). Otherwise `success = true`. |
| `GmailService.ObjectOfMembers` | src/server/mcp-server.ts:188 | The object `JSON.stringify` renders keeps exactly the members whose value is defined. |
| `GmailService.DetailJsonMembers` | src/server/mcp-server.ts:37-44 | The rendered detail record's members are `id` (only when defined), `subject`, `from`, `to`, `date` and `body`, in that order. |
| `GmailService.DetailJsonId` | src/server/mcp-server.ts:37-38 | The rendered detail has an `id` member exactly when the requested id is defined, and then it is that id. |
| `McpClient.MergeKeys` | src/client/mcp-client.ts:60-66 | A name is in the merged map exactly when some client's `tools()` succeeded and listed it. This holds in both directions. |
| `McpClient.MergeLastWins` | src/client/mcp-client.ts:62-65 | On a collision, the merged entry is the tool of the last client in `clients` order that lists the name. |
| `McpClient.MergeRoutesToLastLister` | src/client/mcp-client.ts:62-65 | When every client's tools run on that client, a merged name runs on the last client in order that lists it. |
| `McpClient.MergeSkipsFailures` | src/client/mcp-client.ts:63-68 | Merging every client gives the same map as merging only the clients whose listing succeeded. |
| `McpClient.MergeFailedClient` | src/client/mcp-client.ts:66-68 | Appending a client whose `tools()` throws leaves the merged map unchanged. |
| `McpClient.CloseLogCoversAll` | src/client/mcp-client.ts:75-81 | `close()` is called once on every client, in order. A failing close does not stop the others. |
| `McpClient.MCPClientManager.constructor` | src/client/mcp-client.ts:17 | A new manager has no clients. |
| `McpClient.MCPClientManager.InitializeClients` | src/client/mcp-client.ts:19-57 | On success, exactly one client is appended and the updated list is returned. On failure, the error is rethrown and the list is unchanged. |
| `McpClient.MCPClientManager.GetTools` | src/client/mcp-client.ts:59-72 | Returns `Merge(clients)`, which is the empty map when there are no clients. It never throws and does not modify `clients`. |
| `McpClient.MCPClientManager.CloseAllClients` | src/client/mcp-client.ts:74-83 | The close log is one attempt per client, in order. The method never fails, and afterwards `clients` is empty. |
| `McpClient.RunAIWithMCPTools` | src/client/mcp-client.ts:86-119 | If initialization fails, its error is rethrown and nothing needs closing. Otherwise the model's outcome is returned, success or error, and the client is closed in either case. |

## Left out

- Transports and connection setup (`StdioServerTransport`, `server.connect`, `run()`, `StdioClientTransport`, `experimental_createMCPClient`): these are foreign SDK calls. A client is modelled only by its `tools()` and `close()` outcomes.
- The MCP SDK's conversion of a thrown `McpError` into a JSON-RPC error response is not part of this model. In particular, the SDK's `McpError` prefixes its message with `MCP error <code>: `. The model keeps the message the handler passes to the constructor.
- `McpServer.CallTool`: the texts of the destructuring `TypeError` and of the `TypeError: Cannot convert object to primitive value` follow Node's V8 wording, which this model approximates.
- `generateText` and its `maxSteps: 5` loop: this is the external AI SDK. It is the `generate` parameter of `RunAIWithMCPTools`, and invoking tools through the merged namespace happens inside it.
- `McpClient.MCPClientManager.CloseAllClients`: `Promise.all` runs the closes concurrently. The model runs them as a sequential loop with per-client failure isolation, so it does not capture interleaving.
- A client's `tools()` and `close()` outcomes are fixed per client value. A client whose listing would succeed on one call and fail on the next is not modelled.
- The text that `console.log` and `console.error` print is not modelled. The one effect of logging that is modelled is the `TypeError` that the log lines of `sendEmail` and `deleteEmail` throw when an argument has no string form (`Json.ToStringThrows`).
- The CLI entry point of `mcp-client.ts`, `exampleGmailInteraction`, `src/index.ts` and `scripts/get-oauth-token.ts`: these are I/O and bootstrap only.
- JSON numbers are integers. A fractional `maxResults` reaches the backend unchanged and is never rendered. The `emailId` that `get_email` echoes can be any JSON value, however, and it is rendered.
- `GmailService.DetailJson`: the echoed `emailId` is rendered as `JSON.stringify` renders it only for integers of magnitude below 2^53 (which JavaScript holds exactly and prints in full), strings of Unicode scalar values and objects whose members are given in JavaScript property order. Fractional numbers, exponent notation (`1e+21`), lone surrogates and the moving of index-like keys to the front are not modelled.
- `McpClient.MCPClientManager.GetTools`: the merged tool set is a `map`. The key order of the JavaScript object, which follows first insertion under `Object.assign` and is what `Object.keys(tools)` and `generateText` see, is not modelled.
- `McpClient.MCPClientManager.InitializeClients`: the method returns the `clients` list as a value. The source returns the array itself, an alias that later `push` calls would grow. That aliasing is not modelled.
- `Json.Stringify` models `JSON.stringify(v, null, 2)` for the values the backend returns. It does not model `toJSON` methods, non-finite numbers or cyclic values, because none of them occur here.
