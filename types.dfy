/** The data declarations of the client: connection status, configuration
    items, and the OAuth values the credential store keeps. */
module Types {
  import opened Base

  datatype ConnectionStatus = Disconnected | Connected | Error | Unauthenticated

  /** A configuration value is a string, a number or a boolean. */
  datatype ConfigValue = Str(s: string) | Num(n: int) | Bool(b: bool)

  datatype ConfigItem = ConfigItem(displayLabel: string, description: string, value: ConfigValue)

  datatype Config = Config(
    maxRetryAttempts: ConfigItem,
    requestTimeout: ConfigItem,
    timeoutResetOnProgress: ConfigItem,
    maxTotalTimeout: ConfigItem)

  /** What a server declares it supports, as far as the client reads it. */
  datatype ServerCapabilities = ServerCapabilities(tools: bool, prompts: bool, resources: bool)

  /** The token set obtained by the code exchange (section 5.1 of RFC 6749). */
  datatype OAuthTokens = OAuthTokens(
    access_token: string,
    token_type: string,
    expires_in: Option<int>,
    refresh_token: Option<string>)

  /** The client registration issued by the authorization server. */
  datatype ClientInformation = ClientInformation(client_id: string, client_secret: Option<string>)

  /** JSON serialisation of a stored value (`JSON.stringify`) together with the
      schema-checked parse that reads it back (`JSON.parse` then a schema's
      `parseAsync`, which may throw). */
  datatype Codec<!T> = Codec(stringify: T -> string, parse: string -> Result<T>)

  /** What JSON and the schema guarantee: a stringified value is never empty
      and parses back to itself. */
  ghost predicate RoundTrips<T(!new)>(c: Codec<T>)
  {
    forall t: T :: c.stringify(t) != "" && c.parse(c.stringify(t)) == Ok(t)
  }

  /** An MCP notification: its method name and its (serialised) parameters. */
  datatype Notification = Notification(methodName: string, params: string)
}
