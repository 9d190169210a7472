/**
 * The client side: `MCPClientManager` holds the connected MCP clients, merges
 * their tool sets into one namespace (a later client overwrites an earlier one
 * on a shared name) and closes them all; `RunAIWithMCPTools` always ends by
 * closing the clients, whether the model call succeeds or not.
 */
module McpClient {
  import opened Wrappers

  type ClientId = nat

  /** A tool as the AI SDK exposes it; `server` names the client whose connection runs it. */
  datatype Tool = Tool(server: ClientId, description: string)

  type ToolSet = map<string, Tool>

  /**
   * An MCP client, abstractly: what its `tools()` call yields (a tool set, or the
   * error it throws) and what its `close()` call does.
   */
  datatype Client = Client(id: ClientId, listing: Result<ToolSet, string>, closing: Outcome<string>)

  /** The client's `tools()` call succeeds and lists `name`. */
  predicate Lists(c: Client, name: string)
  {
    c.listing.Ok? && name in c.listing.value
  }

  /** `Object.assign` of each listed tool set, in order, into an empty object; failed listings are skipped. */
  function Merge(clients: seq<Client>): ToolSet
    decreases |clients|
  {
    if |clients| == 0 then map[]
    else
      var prior := Merge(clients[..|clients| - 1]);
      match clients[|clients| - 1].listing
      case Ok(tools) => prior + tools
      case Err(_) => prior
  }

  /** The clients whose `tools()` call succeeds, in their order. */
  function Listed(clients: seq<Client>): (r: seq<Client>)
    ensures forall i :: 0 <= i < |r| ==> r[i].listing.Ok? && r[i] in clients
    decreases |clients|
  {
    if |clients| == 0 then []
    else
      var prior := Listed(clients[..|clients| - 1]);
      if clients[|clients| - 1].listing.Ok? then prior + [clients[|clients| - 1]] else prior
  }

  /** A name is in the merged namespace exactly when some client lists it. */
  lemma {:induction false} MergeKeys(clients: seq<Client>, name: string)
    ensures name in Merge(clients) <==> exists i :: 0 <= i < |clients| && Lists(clients[i], name)
    decreases |clients|
  {
    if |clients| > 0 {
      var init := clients[..|clients| - 1];
      MergeKeys(init, name);
      if exists i :: 0 <= i < |init| && Lists(init[i], name) {
        var i :| 0 <= i < |init| && Lists(init[i], name);
        assert clients[i] == init[i];
      }
      if exists i :: 0 <= i < |clients| && Lists(clients[i], name) {
        var i :| 0 <= i < |clients| && Lists(clients[i], name);
        if i < |init| { assert init[i] == clients[i]; }
      }
    }
  }

  /** On a shared name the last client in order that lists it wins: the merged entry is that client's tool. */
  lemma {:induction false} MergeLastWins(clients: seq<Client>, name: string, i: nat)
    requires i < |clients| && Lists(clients[i], name)
    requires forall j :: i < j < |clients| ==> !Lists(clients[j], name)
    ensures name in Merge(clients) && Merge(clients)[name] == clients[i].listing.value[name]
    decreases |clients|
  {
    var init := clients[..|clients| - 1];
    if i < |clients| - 1 {
      forall j | i < j < |init| ensures !Lists(init[j], name) {
        assert init[j] == clients[j];
      }
      MergeLastWins(init, name, i);
    }
  }

  /** Every tool the client lists runs on that client's own connection. */
  predicate ToolsRunOn(c: Client)
  {
    c.listing.Ok? ==> forall name :: name in c.listing.value ==> c.listing.value[name].server == c.id
  }

  /** On a shared name the merged tool runs on the last client that lists it. */
  lemma MergeRoutesToLastLister(clients: seq<Client>, name: string, i: nat)
    requires forall j :: 0 <= j < |clients| ==> ToolsRunOn(clients[j])
    requires i < |clients| && Lists(clients[i], name)
    requires forall j :: i < j < |clients| ==> !Lists(clients[j], name)
    ensures name in Merge(clients) && Merge(clients)[name].server == clients[i].id
  {
    MergeLastWins(clients, name, i);
    assert ToolsRunOn(clients[i]);
  }

  /** A client whose listing fails contributes nothing: merging only the listed clients gives the same namespace. */
  lemma {:induction false} MergeSkipsFailures(clients: seq<Client>)
    ensures Merge(Listed(clients)) == Merge(clients)
    decreases |clients|
  {
    if |clients| > 0 {
      var init := clients[..|clients| - 1];
      var last := clients[|clients| - 1];
      MergeSkipsFailures(init);
      if last.listing.Ok? {
        var r := Listed(init) + [last];
        assert r[..|r| - 1] == Listed(init);
      }
    }
  }

  /** Appending a client whose listing fails leaves the namespace as it was. */
  lemma MergeFailedClient(clients: seq<Client>, failed: Client)
    requires failed.listing.Err?
    ensures Merge(clients + [failed]) == Merge(clients)
  {
    assert (clients + [failed])[..|clients|] == clients;
  }

  /** One `close()` call and how it went; a failure is logged and swallowed. */
  datatype CloseAttempt = CloseAttempt(client: ClientId, outcome: Outcome<string>)

  /** The `close()` calls made on `clients`, one per client, in order. */
  function CloseLog(clients: seq<Client>): seq<CloseAttempt>
    decreases |clients|
  {
    if |clients| == 0 then []
    else
      var last := clients[|clients| - 1];
      CloseLog(clients[..|clients| - 1]) + [CloseAttempt(last.id, last.closing)]
  }

  /** Every client is closed exactly once, in order, whether or not an earlier close failed. */
  lemma {:induction false} CloseLogCoversAll(clients: seq<Client>)
    ensures |CloseLog(clients)| == |clients|
    ensures forall i :: 0 <= i < |clients| ==>
              CloseLog(clients)[i] == CloseAttempt(clients[i].id, clients[i].closing)
    decreases |clients|
  {
    if |clients| > 0 {
      var init := clients[..|clients| - 1];
      CloseLogCoversAll(init);
      forall i | 0 <= i < |init| ensures init[i] == clients[i] { }
    }
  }

  /** `MCPClientManager`: the list of connected clients it owns. */
  class MCPClientManager {
    var clients: seq<Client>

    constructor ()
      ensures clients == []
    {
      clients := [];
    }

    /**
     * `initializeClients`: `created` is the outcome of creating the Gmail client
     * over its stdio transport. On success the client is appended and the updated
     * list returned; on failure the error is rethrown and the list is unchanged.
     */
    method InitializeClients(created: Result<Client, string>) returns (r: Result<seq<Client>, string>)
      modifies this
      ensures created.Ok? ==> clients == old(clients) + [created.value] && r == Ok(clients)
      ensures created.Err? ==> clients == old(clients) && r == Err(created.error)
    {
      match created
      case Ok(client) =>
        clients := clients + [client];
        r := Ok(clients);
      case Err(e) =>
        r := Err(e);
    }

    /** `getTools`: the merged namespace of all clients; it never throws and changes nothing. */
    method GetTools() returns (allTools: ToolSet)
      ensures allTools == Merge(clients)
    {
      allTools := map[];
      for i := 0 to |clients|
        invariant allTools == Merge(clients[..i])
      {
        assert clients[..i + 1][..i] == clients[..i];
        match clients[i].listing
        case Ok(toolSet) =>
          allTools := allTools + toolSet;
        case Err(_) =>
      }
      assert clients[..|clients|] == clients;
    }

    /** `closeAllClients`: calls `close()` on every client, swallowing failures, then empties the list. */
    method CloseAllClients() returns (log: seq<CloseAttempt>)
      modifies this
      ensures log == CloseLog(old(clients))
      ensures clients == []
    {
      log := [];
      for i := 0 to |clients|
        invariant log == CloseLog(clients[..i])
      {
        assert clients[..i + 1][..i] == clients[..i];
        log := log + [CloseAttempt(clients[i].id, clients[i].closing)];
      }
      assert clients[..|clients|] == clients;
      clients := [];
    }
  }

  /**
   * `runAIWithMCPTools`: initialize, merge the tools, hand them to the model
   * (`generate`, the external AI SDK call with the user's message) and, in a
   * `finally`, close every client. Returns the model's response or the error
   * thrown, and the `close()` calls made.
   */
  method RunAIWithMCPTools<R>(userMessage: string, created: Result<Client, string>,
                              generate: (string, ToolSet) -> Result<R, string>)
    returns (r: Result<R, string>, closed: seq<CloseAttempt>)
    ensures created.Err? ==> r == Err(created.error) && closed == []
    ensures created.Ok? ==> r == generate(userMessage, Merge([created.value]))
    ensures created.Ok? ==> closed == [CloseAttempt(created.value.id, created.value.closing)]
  {
    var manager := new MCPClientManager();
    var initialized := manager.InitializeClients(created);
    match initialized {
      case Err(e) =>
        r := Err(e);
      case Ok(_) =>
        var tools := manager.GetTools();
        r := generate(userMessage, tools);
    }
    // finally: always close the clients
    closed := manager.CloseAllClients();
    CloseLogCoversAll(if created.Ok? then [created.value] else []);
  }
}
