# mcp_oauth_client_web in Dafny

A model of the OAuth bookkeeping and connection lifecycle of Pulley, a
browser client for Model Context Protocol (MCP) servers, with proofs about it.

- **Key scoping** (`constants.dfy`). Storage keys are scoped per server URL:
  `"[" + url + "] " + baseKey`, or the base key itself when the URL is
  missing or empty. The file also holds the session-storage key names and
  the default configuration.
- **Credential store** (`auth.dfy`). The OAuth client provider is a class
  over the shared session storage (`storage.dfy`, a `map<string, string>`
  field). It holds client registration, tokens and the PKCE verifier
  (RFC 7636) under keys scoped to its server. It also has two unscoped slots,
  one for the server URL and one for the current access token. Reads are
  stated as functions of the storage contents. The methods are proved
  against those functions. Lemmas prove:
  - save-then-read round trips;
  - isolation between servers;
  - that `clear` only touches the unscoped slots.
- **Connection hook** (`use_connection.dfy`). The hook's state is a class
  with the status, the client and the capabilities.
  - `connect` is recursive. Mode 1: with no access token, authorize and
    recurse. Mode 2: build a client, connect, and on failure re-authorize
    and recurse. `ConnectSpec`/`EstablishSpec` state it as a pair of
    mutually recursive functions, and the methods are proved equal to them.
  - The SDK's `auth` and `Client.connect` are not re-implemented. Their
    outcomes come in an `SdkScript`, which `connect` consumes in order. A run
    that needs more outcomes than the script holds ends as `Unfinished`.
  - `disconnect` and `makeRequest` are methods. `makeRequest`'s option merge
    (`??`) is a pure function.
- **OAuth callback** (`oauth_callback.dfy`). `handleCallback` is stated as
  `HandleCallbackSpec`:
  - it runs at most once per mount;
  - it has early exits for failed parameters, a missing server URL, a
    throwing exchange and a non-AUTHORIZED result;
  - on success it calls `onConnect` with the remembered URL.

  The class method logs every side effect and resets the history in every
  case.
- **Connection view** (`connection.dfy`). This is the non-rendering state of
  the main component:
  - the remembered server URL;
  - tool-list paging;
  - the progress-token counter, whose tokens are strictly increasing (a
    class invariant);
  - turning a failed tool call into an error result;
  - the connect/disconnect toggle;
  - `clearTools` and incoming notifications.

JSON serialisation with zod parsing is a `Codec` parameter (`stringify`,
`parse`). `RoundTrips(codec)` states the one property the round-trip lemmas
need from it.

Some behaviour follows the code even where its comments suggest otherwise:

- `clear` removes only the four unscoped keys (src/auth.ts:78-83). For a
  non-empty URL, client information, tokens and the verifier are saved under
  server-scoped keys; only the access-token mirror goes to an unscoped slot.
  So `disconnect` removes the access token but keeps every server's tokens,
  client information and verifier, although the comment at
  src/hooks/useConnection.tsx:146 expects it to clear the session's tokens.
  `Auth.ClearKeepsScopedEntries` and `UseConnection.DisconnectIdempotent`
  state this.
- `connect` never compares `retryCount` with anything, and the configured
  maximum of retry attempts is never read. `UseConnection.RetriesUnbounded`
  shows a run with any number of recursive calls.
- `listTools` sends a cursor when the stored cursor is a non-empty string
  (a truthiness test). An empty-string cursor is dropped.
- A successful handshake may leave the capabilities unset.
- A provider bound to the empty URL uses the unscoped keys themselves.

## Model

| member | source | states |
|---|---|---|
| Constants.ServerSpecificKey | src/constants.ts:13-19 | the key is unchanged exactly when the URL is missing or empty; otherwise it is bracket-prefixed and three characters longer than URL plus base key |
| Constants.ServerOfKeyInverts | src/constants.ts:18 | the URL can be read back from any key scoped to a non-empty URL |
| Constants.ServerSpecificKeyInjective | src/constants.ts:13-19 | for a fixed base key, distinct non-empty URLs give distinct keys |
| Constants.BaseKeyShapes | src/constants.ts:4-10 | no session key starts with '['; any two differ in their last two characters |
| Constants.ScopedKeysCollide | src/constants.ts:4-19 | two keys built from session keys are equal iff they have the same base key and the same server scope |
| Constants.ScopedKeyIsNotUnscoped | src/constants.ts:4-26 | a key scoped to a non-empty URL is never one of the unscoped keys, including the view's last-server-URL key |
| Constants.SessionKeysDistinct | src/constants.ts:4-26 | the five session keys are pairwise distinct, and the view's key is none of them |
| Constants.DefaultConfigValues | src/constants.ts:29-51 | default configuration: 3 retries, 5000 ms timeout, reset on progress, 60000 ms total timeout |
| Sdk.NewClient | src/hooks/useConnection.tsx:66-105 | the transport targets the server URL with no session id, and sends JSON content type and accept headers and the access token as bearer credential |
| Sdk.ForwardsIffSink | src/hooks/useConnection.tsx:72-90 | a client built with a notification sink forwards every notification; one built without a sink forwards none |
| Auth.ProviderKeysDistinct | src/auth.ts:32-82 | a provider's three scoped keys differ from each other and from the unscoped access-token and server-URL slots |
| Auth.TokensRoundTrip | src/auth.ts:45-58 | saved tokens read back as themselves, and the access token is mirrored into the unscoped slot |
| Auth.ClientInformationRoundTrip | src/auth.ts:31-43 | saved client information reads back as itself |
| Auth.CodeVerifierRoundTrip | src/auth.ts:64-76 | a saved verifier reads back as itself; an empty one reads as missing |
| Auth.MissingEntriesReadAsAbsent | src/auth.ts:31-76 | an entry is missing or empty iff tokens, or client information, read as absent, and iff the verifier read fails with the missing-verifier error |
| Auth.WriteElsewhereInvisible | src/auth.ts:31-76 | a write to none of a provider's scoped keys changes none of its reads |
| Auth.OtherServerWriteInvisible | src/auth.ts:31-76 | writing a key scoped to server a changes no read of a provider for server b ≠ a |
| Auth.UnscopedWriteInvisible | src/auth.ts:13-57 | writing the access-token, server-URL or last-server-URL slot changes no provider read |
| Auth.SavesIsolated | src/auth.ts:40-67 | saves through a provider for a (client information, tokens with mirrored access token, verifier) leave every read of a provider for b ≠ a unchanged |
| Auth.ClearKeepsScopedEntries | src/auth.ts:78-83 | clear removes exactly the four unscoped keys and leaves every other entry, hence every read of a provider for a non-empty URL, unchanged |
| Auth.ClearWipesEmptyUrlProvider | src/auth.ts:78-83 | for a provider bound to the empty URL, clear does remove everything it reads |
| Auth.TokensRequiredIffStored | src/auth.ts:85-97 | refresh/revoke pass iff tokens are stored and parse; no tokens fails with "No tokens saved for this session"; a parse error is rethrown |
| Auth.AuthSavesAccessToken | src/auth.ts:54-58 | after the flow driver's saves, the access-token slot holds the new access token if tokens were saved, and is untouched otherwise |
| Auth.AuthSavesTokens | src/auth.ts:45-58 | tokens saved by the flow driver are read back by the provider |
| Auth.PulleyOAuthClientProvider.constructor | src/auth.ts:12-14 | building a provider writes its URL to the unscoped server-URL slot and changes nothing else |
| Auth.PulleyOAuthClientProvider.RedirectUrl | src/auth.ts:16-18 | the redirect URL is the origin followed by "/oauth/callback" |
| Auth.PulleyOAuthClientProvider.Metadata | src/auth.ts:20-29 | the redirect URL is the only redirect URI; a public client (auth method "none") using only the authorization code grant and the "code" response type |
| Auth.PulleyOAuthClientProvider.ClientInformation | src/auth.ts:31-38 | returns the stored client information read as ReadClientInformation: absent for a missing or empty entry, the parse otherwise |
| Auth.PulleyOAuthClientProvider.SaveClientInformation | src/auth.ts:40-43 | only the scoped client-information key changes, to the serialised value |
| Auth.PulleyOAuthClientProvider.Tokens | src/auth.ts:45-52 | returns the stored tokens read as ReadTokens: absent for a missing or empty entry, the parse otherwise |
| Auth.PulleyOAuthClientProvider.SaveTokens | src/auth.ts:54-58 | the scoped tokens key and the unscoped access-token slot change, and nothing else |
| Auth.PulleyOAuthClientProvider.SaveCodeVerifier | src/auth.ts:64-67 | only the scoped verifier key changes |
| Auth.PulleyOAuthClientProvider.CodeVerifier | src/auth.ts:69-76 | the stored verifier, or the missing-verifier error when the entry is missing or empty |
| Auth.PulleyOAuthClientProvider.Clear | src/auth.ts:78-83 | the storage loses exactly the four unscoped credential keys |
| Auth.PulleyOAuthClientProvider.RefreshTokens | src/auth.ts:85-90 | the outcome is TokensRequired of the storage, which is left unchanged |
| Auth.PulleyOAuthClientProvider.RevokeTokens | src/auth.ts:92-97 | the outcome is TokensRequired of the storage, which is left unchanged |
| Auth.Authorize | src/hooks/useConnection.tsx:46-47 | the SDK's auth acting through a provider: the storage gets exactly the call's saves, made through the provider's save operations, and its result is returned |
| UseConnection.ConnectSpec | src/hooks/useConnection.tsx:35-141 | the functional model of connect: a run leaves no more SDK outcomes than it was given, the URL outcome unchanged, and its first recorded count is the call's retryCount |
| UseConnection.EstablishSpec | src/hooks/useConnection.tsx:56-135 | the functional model of connect's mode 2, with the same script and count guarantees |
| UseConnection.ConnectSuffix | src/hooks/useConnection.tsx:35-141 | connect takes SDK outcomes only from the front of the script, in order: what is left of the auth and handshake lists is a suffix of each |
| UseConnection.EstablishSuffix | src/hooks/useConnection.tsx:56-135 | the same for mode 2 |
| UseConnection.RetriedFrom | src/hooks/useConnection.tsx:52 | a recursive call's retry counts, prefixed with the caller's, run consecutively from the caller's count |
| UseConnection.ConnectGuarantees | src/hooks/useConnection.tsx:35-141 | connect keeps the hook invariant (client iff connected, capabilities only with a client, never unauthenticated); with a client set, the state is unchanged; every nested call gets retryCount + 1; a resolved run leaves the hook connected |
| UseConnection.EstablishGuarantees | src/hooks/useConnection.tsx:56-135 | the same guarantees for mode 2 |
| UseConnection.RetryCountIgnored | src/hooks/useConnection.tsx:35-141 | apart from the recorded counts, a connect run is the same whatever retryCount it starts from |
| UseConnection.EstablishRetryCountIgnored | src/hooks/useConnection.tsx:56-135 | the same for mode 2 |
| UseConnection.ConnectIdleWhenConnected | src/hooks/useConnection.tsx:43-58 | with a token and a client, connect resolves, changes nothing and makes no SDK call |
| UseConnection.NoTokenRedirectThrows | src/hooks/useConnection.tsx:44-62 | with no token, a non-AUTHORIZED auth that saves no tokens makes connect throw "No bearer token available", leaving the hook state unchanged |
| UseConnection.HandshakeConnects | src/hooks/useConnection.tsx:107-134 | a successful handshake sets connected, the client built with the stored token as bearer, and the reported (possibly missing) capabilities |
| UseConnection.HandshakeFailureReauthorizes | src/hooks/useConnection.tsx:116-129 | a failed handshake sets error and calls auth once: on AUTHORIZED it recurses with retryCount + 1; on redirect it rethrows the handshake's error; if auth throws, it throws auth's error |
| UseConnection.RetriesUnbounded | src/hooks/useConnection.tsx:116-129 | for every n, a script of n + 1 failed handshakes answered by n AUTHORIZED results and then a REDIRECT makes n + 1 calls of connect, counted retryCount to retryCount + n, and rethrows the handshake error; no bound stops them |
| UseConnection.DisconnectIdempotent | src/hooks/useConnection.tsx:143-151 | disconnect's storage effect is idempotent, removes the access token, records the server URL, and keeps every other entry |
| UseConnection.Nullish | src/hooks/useConnection.tsx:168-178 | `??`: the caller's value whenever present, the fallback only when absent |
| UseConnection.MergeOptions | src/hooks/useConnection.tsx:166-179 | each option is the caller's value when given, and the configuration's value otherwise; the signal is the caller's, or the new one |
| UseConnection.FalsyCallerOptionsKept | src/hooks/useConnection.tsx:170-178 | a caller's false and 0 are kept, not replaced by defaults |
| UseConnection.DefaultRequestOptions | src/hooks/useConnection.tsx:166-179 | with no options and the default configuration: reset on progress, 5000 ms, 60000 ms, new signal |
| UseConnection.ConnectionHook.constructor | src/hooks/useConnection.tsx:31-33 | the hook starts disconnected, with no client and no capabilities |
| UseConnection.ConnectionHook.Connect | src/hooks/useConnection.tsx:35-141 | new state, storage, result and unused script equal ConnectSpec of the old ones; the invariant is kept |
| UseConnection.ConnectionHook.Establish | src/hooks/useConnection.tsx:56-135 | new state, storage, result and unused script equal EstablishSpec of the old ones |
| UseConnection.ConnectionHook.Disconnect | src/hooks/useConnection.tsx:143-151 | the hook is back to disconnected, no client, no capabilities; the storage is DisconnectedItems of the old one |
| UseConnection.ConnectionHook.MakeRequest | src/hooks/useConnection.tsx:153-190 | with no client it throws "MCP client not connected" and sends nothing; otherwise it sends the request once with the merged options and returns or rethrows the reply unchanged; no state changes |
| OAuthCallback.HandleCallbackSpec | src/components/OAuthCallback.tsx:20-63 | the functional model of handleCallback: without an auth call, the storage, onConnect and the token state are untouched; onConnect only follows an auth call, receives the URL auth was called with, and comes with no error notification |
| OAuthCallback.UnexpectedErrorText | src/components/OAuthCallback.tsx:54-56 | an unexpected error is reported by its class name, followed by ": " and its message when the message is non-empty; `new Error("")` shows as "Error" |
| OAuthCallback.HandledAtMostOnce | src/components/OAuthCallback.tsx:21-24 | a second invocation on the same mount has no effect and no storage change |
| OAuthCallback.FailedParamsReported | src/components/OAuthCallback.tsx:32-35 | unsuccessful parameters are reported with their description, with no auth call, no onConnect and no storage change |
| OAuthCallback.MissingServerUrlReported | src/components/OAuthCallback.tsx:37-40 | a missing or empty remembered URL is reported as "Missing Server URL" and nothing else happens |
| OAuthCallback.AuthUsesStoredUrlAndCode | src/components/OAuthCallback.tsx:42-48 | auth is called iff the parameters succeeded and a URL is remembered, and then with that URL and the callback's code |
| OAuthCallback.OnConnectExactlyWhenAuthorized | src/components/OAuthCallback.tsx:42-62 | onConnect(remembered URL) happens iff the exchange is AUTHORIZED and the token read does not throw; a first invocation ends in exactly one of onConnect or an error notification |
| OAuthCallback.ExchangeFailuresReported | src/components/OAuthCallback.tsx:54-60 | a throwing exchange is reported as an unexpected error; a non-AUTHORIZED result is reported; neither reaches onConnect |
| OAuthCallback.SuccessfulExchange | src/components/OAuthCallback.tsx:43-62 | when auth saves tokens and is AUTHORIZED: onConnect with the remembered URL, no notification, the tokens read back for that server, the access token mirrored, and the component's token set |
| OAuthCallback.OAuthCallbackView.constructor | src/components/OAuthCallback.tsx:14-17 | nothing is processed yet; the access-token state starts from the stored slot when it holds a non-empty token |
| OAuthCallback.OAuthCallbackView.HandleCallback | src/components/OAuthCallback.tsx:20-65 | storage and logged effects are those of HandleCallbackSpec; the flag is set; the history is reset exactly once, whatever the outcome |
| OAuthCallback.OAuthCallbackView.Process | src/components/OAuthCallback.tsx:20-63 | the handler body with its early returns equals HandleCallbackSpec |
| ConnectionComponent.InitialServerUrl | src/components/Connection.tsx:11-13 | the initial URL is the remembered one if non-empty, else the default; never empty |
| ConnectionComponent.RememberedUrlRestored | src/components/Connection.tsx:11-43 | after a non-empty URL is remembered, a remount starts from that URL |
| ConnectionComponent.ListToolsCursor | src/components/Connection.tsx:77 | a cursor is sent iff the stored cursor is non-empty, and it is then that cursor |
| ConnectionComponent.ToolErrorResult | src/components/Connection.tsx:105-116 | a failed call becomes a result flagged as an error, with one text item holding the error message |
| ConnectionComponent.ConnectionView.constructor | src/components/Connection.tsx:10-43 | the URL starts as InitialServerUrl of the storage and is written back; empty tools, result, selection, cursor and notifications; counter 0; hook disconnected |
| ConnectionComponent.ConnectionView.SetServerUrl | src/components/Connection.tsx:41-43 | every URL change is written to the last-server-URL key; nothing else changes |
| ConnectionComponent.ConnectionView.OnOAuthConnect | src/components/Connection.tsx:45-51 | sets the URL (remembering it), then connects, with the outcome of ConnectSpec for the new URL |
| ConnectionComponent.ConnectionView.ToggleConnection | src/components/Connection.tsx:131-137 | disconnects iff connected; otherwise connects with the outcome of ConnectSpec |
| ConnectionComponent.ConnectionView.ListTools | src/components/Connection.tsx:73-83 | sends tools/list with ListToolsCursor and default options; on success replaces tools and cursor with the response's; on failure rethrows and changes nothing |
| ConnectionComponent.ConnectionView.CallTool | src/components/Connection.tsx:89-117 | sends the current token and increments the counter even when the request fails; issued tokens stay strictly increasing; the result is the reply or the error result |
| ConnectionComponent.ConnectionView.ClearTools | src/components/Connection.tsx:162 | tools, cursor, result, selection and notifications are emptied; URL and counter are kept |
| ConnectionComponent.ConnectionView.ReceiveNotification | src/components/Connection.tsx:36-38 | while a client is set, every notification is appended in arrival order |

## Left out

- Rendering: the JSX of Connection.tsx and OAuthCallback.tsx, ToolsTab.tsx, ListPane.tsx and Layout.tsx, and the tab enabling by capabilities.
- ToolForm.tsx is not part of this model. Its default values come from a utility that is not available. The `callTool` wrapper it receives (clear error, reset result, call) ends in the same state as `CallTool`.
- The `errors` state and `clearError` in Connection.tsx are not modelled. They are only ever reset to null, never set.
- `redirectToAuthorization` is left out. It navigates the browser window. The SDK's `auth` is represented only by its saves and its result (`AuthCall`).
- The SDK's internals are outside the model: registration, the PKCE challenge, the token exchange, `Client.connect`, `client.request` and `StreamableHTTPClientTransport`. They enter as script entries (`SdkScript`) or as the `reply` parameter.
- JSON stringify/parse and zod validation enter as a `Codec` parameter. Only the round-trip property is assumed of it, as a lemma precondition.
- `parseOAuthCallbackParams` and `generateOAuthErrorDescription` are not part of this model. Their result is the `CallbackParams` input.
- `new URL(serverUrl)` is not modelled. Whether it throws is the script's `urlError`.
- Console logging, the toaster and `window.history.replaceState` are not modelled as browser effects. The view class records notifications and history resets as counters and logs.
- Async scheduling is not modelled: Promise ordering, React state batching and stale closures. In the code, the `connectToServer` that `onOAuthConnect` calls may still see the URL of an earlier render. The model runs each handler to completion with immediate field updates.
- `AbortController` cancellation, request timeouts and progress callbacks are left out. Only the options handed to the client are modelled.
- UseConnection.ConnectSpec: a run that needs more SDK outcomes than the script holds ends as `Unfinished`. This bounds each run without inventing a retry limit. Runs beyond the script's horizon are not described.
- Thrown values that are not `Error` objects are left out. Their `String(e)` rendering in the tool result and in the callback's message is not modelled. Errors are `JsError(name, message)`, rendered as `Error.prototype.toString` renders them.
- UseConnection.ConnectionHook.Disconnect: `client.close()` is assumed to resolve. In the code a rejected close would skip `clear`, the removal of the access token and the state reset, leaving the hook as it was.
- ConnectionComponent.ConnectionView.CallTool: the counter is an unbounded natural number. The code's counter is a JavaScript number, which stops increasing at 2^53, so "strictly increasing" matches the code only below that value.
- Sdk.ForwardsIffSink: the model assumes the client has no notification handlers of its own. Handlers that the SDK's protocol layer may register internally, such as one for progress notifications, are not part of this model. A notification with such a method would not reach the view, whereas ConnectionComponent.ConnectionView.ReceiveNotification appends it.
- `LOCAL_STORAGE_KEY` is declared but never used by the core. It is kept only as a constant.
