/** The values exchanged with the MCP SDK, which this model does not
    re-implement: the outcome of its OAuth flow driver `auth`, the outcome of
    `Client.connect`, the client and transport configuration the hook builds,
    and the request and result envelopes. */
module Sdk {
  import opened Base
  import opened Types

  /** The tag `auth` resolves with. */
  datatype AuthResult = Authorized | Redirect

  function AuthResultText(r: AuthResult): string
  {
    match r
    case Authorized => "AUTHORIZED"
    case Redirect => "REDIRECT"
  }

  /** One call of the SDK's `auth`: what it saves through the provider it is
      given (registration, PKCE verifier, tokens), then how it ends. */
  datatype AuthCall = AuthCall(
    savedClientInformation: Option<ClientInformation>,
    savedCodeVerifier: Option<string>,
    savedTokens: Option<OAuthTokens>,
    result: Result<AuthResult>)

  /** One call of `Client.connect`: the handshake either succeeds, leaving
      the server's (possibly missing) capabilities, or throws. */
  datatype ConnectAttempt = Handshake(capabilities: Option<ServerCapabilities>) | HandshakeFailed(error: JsError)

  datatype Implementation = Implementation(name: string, version: string)
  datatype ClientCapabilities = ClientCapabilities(sampling: bool, rootsListChanged: bool)
  datatype Transport = Transport(url: string, sessionId: Option<string>, headers: seq<(string, string)>)

  /** A protocol client as the hook configures it: identity, declared
      capabilities, transport, the notification methods with a handler, and
      whether a fallback handler is set. */
  datatype Client = Client(
    info: Implementation,
    capabilities: ClientCapabilities,
    transport: Transport,
    handlers: set<string>,
    fallback: bool)

  /** The methods of the six notification schemas the hook subscribes to. */
  const NotificationMethods: set<string> := {
    "notifications/cancelled",
    "notifications/message",
    "notifications/resources/updated",
    "notifications/resources/list_changed",
    "notifications/tools/list_changed",
    "notifications/prompts/list_changed"
  }

  /** The client the hook builds for a server: every request carries the JSON
      media type and the access token as bearer credential; the notification
      handlers are installed only when a sink is given. */
  function NewClient(serverUrl: string, accessToken: string, hasSink: bool): (c: Client)
    ensures c.transport.url == serverUrl && c.transport.sessionId == None
    ensures ("Authorization", "Bearer " + accessToken) in c.transport.headers
    ensures ("Content-Type", "application/json") in c.transport.headers
    ensures ("Accept", "application/json") in c.transport.headers
  {
    Client(
      Implementation("Pulley", "1.0.0"),
      ClientCapabilities(sampling := true, rootsListChanged := true),
      Transport(serverUrl, None, [
        ("Content-Type", "application/json"),
        ("Accept", "application/json"),
        ("Authorization", "Bearer " + accessToken)]),
      if hasSink then NotificationMethods else {},
      hasSink)
  }

  /** Whether a notification received by the client reaches the sink: through
      its method's handler or through the fallback. */
  predicate Forwards(c: Client, n: Notification)
  {
    n.methodName in c.handlers || c.fallback
  }

  /** A client built with a sink forwards every notification, whatever its
      method; one built without forwards none. */
  lemma ForwardsIffSink(serverUrl: string, accessToken: string, hasSink: bool, n: Notification)
    ensures Forwards(NewClient(serverUrl, accessToken, hasSink), n) <==> hasSink
  {
  }

  /** An abort signal; requests carry one so that they can be cancelled. */
  datatype Signal = Signal(id: nat)

  /** The per-call options a caller may pass to `makeRequest`. */
  datatype RequestOptions = RequestOptions(
    signal: Option<Signal>,
    resetTimeoutOnProgress: Option<bool>,
    timeout: Option<int>,
    maxTotalTimeout: Option<int>)

  /** The options handed to `client.request`. The configuration's values are
      cast, not converted, so they keep whatever type the configuration gives. */
  datatype MergedOptions = MergedOptions(
    signal: Signal,
    resetTimeoutOnProgress: ConfigValue,
    timeout: ConfigValue,
    maxTotalTimeout: ConfigValue)

  datatype ClientRequest =
    | ToolsList(cursor: Option<string>)
    | ToolsCall(name: string, arguments: map<string, string>, progressToken: nat)

  datatype Tool = Tool(name: string, description: string)
  datatype ListToolsResult = ListToolsResult(tools: seq<Tool>, nextCursor: Option<string>)
  datatype Content = TextContent(text: string)
  datatype CallToolResult = CallToolResult(content: seq<Content>, isError: bool)
}
