/** The state logic of the connection view (src/components/Connection.tsx):
    the remembered server URL, the tool list with its paging cursor, the
    tool result, the notification list, the progress-token counter, and the
    connect/disconnect toggle. Rendering is not modelled. */
module ConnectionComponent {
  import opened Base
  import opened Types
  import opened Constants
  import opened Storage
  import opened Sdk
  import opened UseConnection

  /** The server URL the view starts with: the remembered one if it is
      non-empty, the default otherwise; never empty. */
  function InitialServerUrl(stored: Option<string>): (r: string)
    ensures r != ""
    ensures Truthy(stored) ==> r == stored.value
    ensures !Truthy(stored) ==> r == DEFAULT_SERVER_URL
  {
    if Truthy(stored) then stored.value else DEFAULT_SERVER_URL
  }

  /** Remounting after the URL was remembered starts from that URL again. */
  lemma RememberedUrlRestored(items: map<string, string>, url: string)
    requires url != ""
    ensures InitialServerUrl(Lookup(items[SERVER_URL_KEY := url], SERVER_URL_KEY)) == url
  {
  }

  /** The cursor `listTools` sends: the next cursor when it is a non-empty
      string, no cursor (empty params) otherwise. */
  function ListToolsCursor(nextCursor: Option<string>): (c: Option<string>)
    ensures c.Some? <==> Truthy(nextCursor)
    ensures c.Some? ==> c == nextCursor
  {
    if Truthy(nextCursor) then nextCursor else None
  }

  /** The result shown when a tool call throws: one text item holding the
      error's message, flagged as an error. */
  function ToolErrorResult(e: JsError): (r: CallToolResult)
    ensures r.isError && |r.content| == 1 && r.content[0].text == e.message
  {
    CallToolResult([TextContent(e.message)], true)
  }

  predicate StrictlyIncreasing(s: seq<nat>)
  {
    forall i, j :: 0 <= i < j < |s| ==> s[i] < s[j]
  }

  class ConnectionView {
    const storage: SessionStorage
    const hook: ConnectionHook
    var serverUrl: string
    var tools: seq<Tool>
    var toolResult: Option<CallToolResult>
    var selectedTool: Option<Tool>
    var nextToolCursor: Option<string>
    var notifications: seq<Notification>
    var progressToken: nat
    /** Every progress token handed out so far, in order. */
    ghost var issuedTokens: seq<nat>

    /** The hook is the one this view renders with (its server URL, the
        default configuration, a notification sink), and the progress tokens
        handed out are strictly increasing and below the counter. */
    ghost predicate Valid()
      reads this, hook
    {
      && hook.storage == storage && hook.serverUrl == serverUrl
      && hook.hasSink && hook.config == DEFAULT_CONFIG
      && hook.Valid()
      && StrictlyIncreasing(issuedTokens)
      && (forall i :: 0 <= i < |issuedTokens| ==> issuedTokens[i] < progressToken)
    }

    /** Mounting: the server URL starts from the remembered one, and the
        mount effect writes it back; the counter starts at 0. */
    constructor (storage: SessionStorage, clientCodec: Codec<ClientInformation>, tokensCodec: Codec<OAuthTokens>)
      modifies storage
      ensures Valid() && fresh(hook) && this.storage == storage
      ensures serverUrl == InitialServerUrl(Lookup(old(storage.items), SERVER_URL_KEY))
      ensures storage.items == old(storage.items)[SERVER_URL_KEY := serverUrl]
      ensures hook.State() == InitialState
      ensures tools == [] && toolResult == None && selectedTool == None && nextToolCursor == None
      ensures notifications == [] && progressToken == 0 && issuedTokens == []
    {
      var url := InitialServerUrl(Lookup(storage.items, SERVER_URL_KEY));
      this.storage := storage;
      serverUrl := url;
      hook := new ConnectionHook(url, DEFAULT_CONFIG, true, storage, clientCodec, tokensCodec);
      tools, toolResult, selectedTool, nextToolCursor := [], None, None, None;
      notifications, progressToken, issuedTokens := [], 0, [];
      new;
      storage.SetItem(SERVER_URL_KEY, serverUrl);
    }

    /** Changing the server URL; the effect on `serverUrl` remembers it. */
    method SetServerUrl(url: string)
      requires Valid()
      modifies this, hook, storage
      ensures Valid()
      ensures serverUrl == url && storage.items == old(storage.items)[SERVER_URL_KEY := url]
      ensures hook.State() == old(hook.State())
      ensures tools == old(tools) && toolResult == old(toolResult) && selectedTool == old(selectedTool)
      ensures nextToolCursor == old(nextToolCursor) && notifications == old(notifications)
      ensures progressToken == old(progressToken) && issuedTokens == old(issuedTokens)
    {
      serverUrl := url;
      hook.serverUrl := url;
      storage.SetItem(SERVER_URL_KEY, url);
    }

    /** `onOAuthConnect`: take the callback's server URL, then connect. */
    method OnOAuthConnect(url: string, sdk: SdkScript) returns (result: ConnectResult)
      requires Valid()
      modifies this, hook, storage
      ensures Valid() && serverUrl == url
      ensures var run := ConnectSpec(old(hook.Environment()).(serverUrl := url), old(hook.State()),
                                     old(storage.items)[SERVER_URL_KEY := url], sdk, 0);
        hook.State() == run.state && storage.items == run.items && result == run.result
      ensures tools == old(tools) && toolResult == old(toolResult) && nextToolCursor == old(nextToolCursor)
      ensures selectedTool == old(selectedTool) && notifications == old(notifications)
      ensures progressToken == old(progressToken) && issuedTokens == old(issuedTokens)
    {
      SetServerUrl(url);
      var rest;
      result, rest := hook.Connect(0, sdk);
    }

    /** The connect button: disconnect when connected, connect otherwise. */
    method ToggleConnection(sdk: SdkScript) returns (result: Option<ConnectResult>)
      requires Valid()
      modifies hook, storage
      ensures Valid()
      ensures old(hook.connectionStatus) == Connected ==>
        result == None && hook.State() == InitialState
        && storage.items == UseConnection.DisconnectedItems(old(storage.items), serverUrl)
      ensures old(hook.connectionStatus) != Connected ==>
        var run := ConnectSpec(old(hook.Environment()), old(hook.State()), old(storage.items), sdk, 0);
        result == Some(run.result) && hook.State() == run.state && storage.items == run.items
    {
      if hook.connectionStatus == Connected {
        hook.Disconnect();
        result := None;
      } else {
        var r, rest := hook.Connect(0, sdk);
        result := Some(r);
      }
    }

    /** `listTools`: asks for the next page when there is a cursor, then
        replaces the tools and the cursor with the response's; a failing
        request (`reply`, or no client) changes nothing and is rethrown. */
    method ListTools(reply: Result<ListToolsResult>, newSignal: Signal) returns (sent: Option<SentRequest>, outcome: Outcome)
      requires Valid()
      modifies this
      ensures Valid()
      ensures sent == if hook.client.Some?
        then Some(SentRequest(ToolsList(ListToolsCursor(old(nextToolCursor))), MergeOptions(None, DEFAULT_CONFIG, newSignal)))
        else None
      ensures hook.client.Some? && reply.Ok? ==>
        outcome == Pass && tools == reply.value.tools && nextToolCursor == reply.value.nextCursor
      ensures hook.client.None? ==> outcome == Fail(NotConnected)
      ensures hook.client.Some? && reply.Err? ==> outcome == Fail(reply.error)
      ensures outcome.Fail? ==> tools == old(tools) && nextToolCursor == old(nextToolCursor)
      ensures toolResult == old(toolResult) && notifications == old(notifications) && selectedTool == old(selectedTool)
      ensures serverUrl == old(serverUrl) && progressToken == old(progressToken) && issuedTokens == old(issuedTokens)
    {
      var request := ToolsList(ListToolsCursor(nextToolCursor));
      var r;
      sent, r := hook.MakeRequest(request, None, newSignal, reply);
      if r.Err? {
        return sent, Fail(r.error);
      }
      tools := r.value.tools;
      nextToolCursor := r.value.nextCursor;
      outcome := Pass;
    }

    /** `callTool`: the request carries the current progress token and the
        counter moves on before the request is made, so a token is used up
        even when the request then fails; the result shown is the response,
        or the error turned into an error result. */
    method CallTool(name: string, arguments: map<string, string>, reply: Result<CallToolResult>, newSignal: Signal)
      returns (sent: Option<SentRequest>)
      requires Valid()
      modifies this
      ensures Valid()
      ensures progressToken == old(progressToken) + 1 && issuedTokens == old(issuedTokens) + [old(progressToken)]
      ensures sent == if hook.client.Some?
        then Some(SentRequest(ToolsCall(name, arguments, old(progressToken)), MergeOptions(None, DEFAULT_CONFIG, newSignal)))
        else None
      ensures toolResult == Some(if hook.client.None? then ToolErrorResult(NotConnected)
                                 else if reply.Ok? then reply.value
                                 else ToolErrorResult(reply.error))
      ensures tools == old(tools) && nextToolCursor == old(nextToolCursor) && notifications == old(notifications)
      ensures serverUrl == old(serverUrl) && selectedTool == old(selectedTool)
    {
      var token := progressToken;
      progressToken := progressToken + 1;
      issuedTokens := issuedTokens + [token];
      var r;
      sent, r := hook.MakeRequest(ToolsCall(name, arguments, token), None, newSignal, reply);
      toolResult := Some(if r.Ok? then r.value else ToolErrorResult(r.error));
    }

    /** `clearTools`: tools, cursor, result, selection and notifications are emptied. */
    method ClearTools()
      requires Valid()
      modifies this
      ensures Valid()
      ensures tools == [] && nextToolCursor == None && toolResult == None && selectedTool == None && notifications == []
      ensures serverUrl == old(serverUrl) && progressToken == old(progressToken) && issuedTokens == old(issuedTokens)
    {
      tools, nextToolCursor, toolResult, selectedTool, notifications := [], None, None, None, [];
    }

    /** A notification arriving at the connected client: the client forwards
        every notification to the view, which appends it in arrival order. */
    method ReceiveNotification(n: Notification)
      requires Valid()
      modifies this
      ensures Valid()
      ensures notifications == if hook.client.Some? then old(notifications) + [n] else old(notifications)
      ensures tools == old(tools) && toolResult == old(toolResult) && nextToolCursor == old(nextToolCursor)
      ensures serverUrl == old(serverUrl) && selectedTool == old(selectedTool)
      ensures progressToken == old(progressToken) && issuedTokens == old(issuedTokens)
    {
      if hook.client.Some? && Forwards(hook.client.value, n) {
        notifications := notifications + [n];
      }
    }
  }
}
