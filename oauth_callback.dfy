/** The OAuth callback handler (src/components/OAuthCallback.tsx): runs at
    most once per mount, checks the callback parameters and the remembered
    server URL, completes the code exchange (section 4.1.3 of RFC 6749)
    through the SDK's `auth`, and either hands the server URL to `onConnect`
    or reports an error. The browser history is reset afterwards in every case. */
module OAuthCallback {
  import opened Base
  import opened Types
  import opened Constants
  import opened Storage
  import opened Sdk
  import opened Auth

  /** The parsed callback query: a code, or an already generated error description. */
  datatype CallbackParams = Success(code: string) | Failure(description: string)

  /** The arguments `auth` is called with besides the provider. */
  datatype AuthRequest = AuthRequest(serverUrl: string, authorizationCode: Option<string>)

  /** What one invocation does outside the storage: the error notification
      shown, the `auth` call made, the `onConnect` call made, and the access
      token put into the component's state. */
  datatype Effects = Effects(
    notification: Option<string>,
    authRequest: Option<AuthRequest>,
    onConnect: Option<string>,
    accessToken: Option<string>)

  const NoEffects := Effects(None, None, None, None)

  datatype CallbackRun = CallbackRun(items: map<string, string>, effects: Effects)

  const MissingServerUrl := "Missing Server URL"

  function UnexpectedError(e: JsError): string
  {
    "Unexpected error occurred: " + ErrorText(e)
  }

  /** How an unexpected error is reported: the error's class name, then its
      message when it has one, so `new Error("")` shows as just "Error" and
      an error subclass shows its own name. */
  lemma UnexpectedErrorText(name: string, message: string)
    requires name != ""
    ensures message == "" ==> UnexpectedError(JsError(name, message)) == "Unexpected error occurred: " + name
    ensures message != "" ==> UnexpectedError(JsError(name, message)) == "Unexpected error occurred: " + name + ": " + message
    ensures UnexpectedError(PlainError("")) == "Unexpected error occurred: Error"
  {
  }

  function NotAuthorized(r: AuthResult): string
  {
    "Expected to be authorized after providing auth code, got: " + AuthResultText(r)
  }

  /** One invocation of `handleCallback`, given whether the mount already
      processed a callback, the parsed parameters, the storage and what the
      exchange does. */
  function HandleCallbackSpec(processed: bool, params: CallbackParams, items: map<string, string>, call: AuthCall,
                              clientCodec: Codec<ClientInformation>, tokensCodec: Codec<OAuthTokens>): (r: CallbackRun)
    ensures r.effects.authRequest.None? ==> r.items == items && r.effects.onConnect.None? && r.effects.accessToken.None?
    ensures r.effects.onConnect.Some? ==>
      && r.effects.authRequest.Some?
      && r.effects.onConnect.value == r.effects.authRequest.value.serverUrl
      && r.effects.notification.None?
  {
    if processed then CallbackRun(items, NoEffects)
    else match params
      case Failure(description) => CallbackRun(items, Effects(Some(description), None, None, None))
      case Success(code) =>
        var stored := Lookup(items, SERVER_URL_KEY);
        if !Truthy(stored) then CallbackRun(items, Effects(Some(MissingServerUrl), None, None, None))
        else
          var url := stored.value;
          var items1 := NewProviderSaves(items, url, call, clientCodec, tokensCodec);
          var request := Some(AuthRequest(url, Some(code)));
          if call.result.Err? then
            CallbackRun(items1, Effects(Some(UnexpectedError(call.result.error)), request, None, None))
          else match ReadTokens(items1, url, tokensCodec)
            case Err(e) => CallbackRun(items1, Effects(Some(UnexpectedError(e)), request, None, None))
            case Ok(tokens) =>
              var token := if tokens.Some? && tokens.value.access_token != "" then Some(tokens.value.access_token) else None;
              if call.result.value != Authorized then
                CallbackRun(items1, Effects(Some(NotAuthorized(call.result.value)), request, None, token))
              else
                CallbackRun(items1, Effects(None, request, Some(url), token))
  }

  /** A second invocation on the same mount does nothing. */
  lemma HandledAtMostOnce(params: CallbackParams, items: map<string, string>, call: AuthCall,
                          clientCodec: Codec<ClientInformation>, tokensCodec: Codec<OAuthTokens>)
    ensures HandleCallbackSpec(true, params, items, call, clientCodec, tokensCodec) == CallbackRun(items, NoEffects)
  {
  }

  /** Unsuccessful callback parameters are reported with their description;
      there is no `auth` call, no `onConnect` and no storage change. */
  lemma FailedParamsReported(description: string, items: map<string, string>, call: AuthCall,
                             clientCodec: Codec<ClientInformation>, tokensCodec: Codec<OAuthTokens>)
    ensures HandleCallbackSpec(false, Failure(description), items, call, clientCodec, tokensCodec)
            == CallbackRun(items, Effects(Some(description), None, None, None))
  {
  }

  /** Without a remembered server URL the handler reports "Missing Server URL"
      and does nothing else. */
  lemma MissingServerUrlReported(code: string, items: map<string, string>, call: AuthCall,
                                 clientCodec: Codec<ClientInformation>, tokensCodec: Codec<OAuthTokens>)
    requires !Truthy(Lookup(items, SERVER_URL_KEY))
    ensures HandleCallbackSpec(false, Success(code), items, call, clientCodec, tokensCodec)
            == CallbackRun(items, Effects(Some(MissingServerUrl), None, None, None))
  {
  }

  /** `auth` is called exactly when the parameters succeeded and a server URL
      is remembered, and then with that URL and the callback's code. */
  lemma AuthUsesStoredUrlAndCode(processed: bool, params: CallbackParams, items: map<string, string>, call: AuthCall,
                                 clientCodec: Codec<ClientInformation>, tokensCodec: Codec<OAuthTokens>)
    ensures var run := HandleCallbackSpec(processed, params, items, call, clientCodec, tokensCodec);
      && (run.effects.authRequest.Some? <==> !processed && params.Success? && Truthy(Lookup(items, SERVER_URL_KEY)))
      && (run.effects.authRequest.Some? ==>
            run.effects.authRequest.value == AuthRequest(Lookup(items, SERVER_URL_KEY).value, Some(params.code)))
  {
  }

  /** `onConnect` is called, with the remembered URL, exactly when the
      exchange returned AUTHORIZED and reading the tokens did not throw; a
      first invocation ends either in `onConnect` or in an error
      notification, never both and never neither. */
  lemma OnConnectExactlyWhenAuthorized(params: CallbackParams, items: map<string, string>, call: AuthCall,
                                       clientCodec: Codec<ClientInformation>, tokensCodec: Codec<OAuthTokens>)
    ensures var run := HandleCallbackSpec(false, params, items, call, clientCodec, tokensCodec);
      var stored := Lookup(items, SERVER_URL_KEY);
      && (run.effects.onConnect.Some? <==>
            && params.Success? && Truthy(stored) && call.result == Ok(Authorized)
            && ReadTokens(NewProviderSaves(items, stored.value, call, clientCodec, tokensCodec), stored.value, tokensCodec).Ok?)
      && (run.effects.onConnect.Some? ==> run.effects.onConnect.value == stored.value)
      && (run.effects.notification.Some? <==> run.effects.onConnect.None?)
  {
  }

  /** A throwing exchange is reported as an unexpected error and does not
      reach `onConnect`; neither does a result other than AUTHORIZED. */
  lemma ExchangeFailuresReported(code: string, items: map<string, string>, call: AuthCall,
                                 clientCodec: Codec<ClientInformation>, tokensCodec: Codec<OAuthTokens>)
    requires Truthy(Lookup(items, SERVER_URL_KEY))
    ensures var run := HandleCallbackSpec(false, Success(code), items, call, clientCodec, tokensCodec);
      && (call.result.Err? ==> run.effects.notification == Some(UnexpectedError(call.result.error)))
      && (call.result == Ok(Redirect) ==> run.effects.notification.Some?)
      && (call.result != Ok(Authorized) ==> run.effects.onConnect.None?)
  {
  }

  /** The successful exchange: when `auth` saves tokens and returns
      AUTHORIZED, `onConnect` receives the remembered URL, the tokens read
      back for that server, and the access token the connection will use as
      bearer credential is the one just obtained. */
  lemma SuccessfulExchange(code: string, items: map<string, string>, call: AuthCall,
                           clientCodec: Codec<ClientInformation>, tokensCodec: Codec<OAuthTokens>)
    requires RoundTrips(tokensCodec)
    requires Truthy(Lookup(items, SERVER_URL_KEY))
    requires call.result == Ok(Authorized) && call.savedTokens.Some?
    ensures var url := Lookup(items, SERVER_URL_KEY).value;
      var t := call.savedTokens.value;
      var run := HandleCallbackSpec(false, Success(code), items, call, clientCodec, tokensCodec);
      && run.effects.onConnect == Some(url) && run.effects.notification.None?
      && ReadTokens(run.items, url, tokensCodec) == Ok(Some(t))
      && Lookup(run.items, ACCESS_TOKEN) == Some(t.access_token)
      && run.effects.accessToken == (if t.access_token != "" then Some(t.access_token) else None)
  {
    var url := Lookup(items, SERVER_URL_KEY).value;
    AuthSavesTokens(items[SERVER_URL := url], url, call, clientCodec, tokensCodec);
    AuthSavesAccessToken(items[SERVER_URL := url], url, call, clientCodec, tokensCodec);
  }

  function AsSeq<T>(o: Option<T>): seq<T>
  {
    if o.Some? then [o.value] else []
  }

  /** The mounted callback view: the processed flag, the access-token state,
      and logs of the side effects (notifications shown, `auth` calls,
      `onConnect` calls, history resets). */
  class OAuthCallbackView {
    const storage: SessionStorage
    const clientCodec: Codec<ClientInformation>
    const tokensCodec: Codec<OAuthTokens>
    var hasProcessed: bool
    var accessToken: Option<string>
    var notifications: seq<string>
    var authRequests: seq<AuthRequest>
    var connectCalls: seq<string>
    var historyResets: nat

    /** Mounting: nothing processed yet; the access-token state starts from
        the stored slot when it holds a non-empty token. */
    constructor (storage: SessionStorage, clientCodec: Codec<ClientInformation>, tokensCodec: Codec<OAuthTokens>)
      ensures this.storage == storage && this.clientCodec == clientCodec && this.tokensCodec == tokensCodec
      ensures !hasProcessed
      ensures accessToken == if Truthy(Lookup(storage.items, ACCESS_TOKEN)) then Lookup(storage.items, ACCESS_TOKEN) else None
      ensures notifications == [] && authRequests == [] && connectCalls == [] && historyResets == 0
    {
      this.storage := storage;
      this.clientCodec := clientCodec;
      this.tokensCodec := tokensCodec;
      hasProcessed := false;
      var stored := Lookup(storage.items, ACCESS_TOKEN);
      accessToken := if Truthy(stored) then stored else None;
      notifications, authRequests, connectCalls, historyResets := [], [], [], 0;
    }

    /** `handleCallback().finally(reset history)`: the effects are those of
        HandleCallbackSpec, the flag is set, and the history is reset once,
        whatever the outcome. */
    method HandleCallback(params: CallbackParams, call: AuthCall)
      modifies this, storage
      ensures hasProcessed
      ensures historyResets == old(historyResets) + 1
      ensures var run := HandleCallbackSpec(old(hasProcessed), params, old(storage.items), call, clientCodec, tokensCodec);
        && storage.items == run.items
        && notifications == old(notifications) + AsSeq(run.effects.notification)
        && authRequests == old(authRequests) + AsSeq(run.effects.authRequest)
        && connectCalls == old(connectCalls) + AsSeq(run.effects.onConnect)
        && accessToken == (if run.effects.accessToken.Some? then run.effects.accessToken else old(accessToken))
    {
      Process(params, call);
      historyResets := historyResets + 1;
    }

    /** The body of `handleCallback`, with its early returns. */
    method Process(params: CallbackParams, call: AuthCall)
      modifies this, storage
      ensures hasProcessed && historyResets == old(historyResets)
      ensures var run := HandleCallbackSpec(old(hasProcessed), params, old(storage.items), call, clientCodec, tokensCodec);
        && storage.items == run.items
        && notifications == old(notifications) + AsSeq(run.effects.notification)
        && authRequests == old(authRequests) + AsSeq(run.effects.authRequest)
        && connectCalls == old(connectCalls) + AsSeq(run.effects.onConnect)
        && accessToken == (if run.effects.accessToken.Some? then run.effects.accessToken else old(accessToken))
    {
      if hasProcessed {
        return;
      }
      hasProcessed := true;
      if params.Failure? {
        notifications := notifications + [params.description];
        return;
      }
      var serverUrl := storage.GetItem(SERVER_URL_KEY);
      if !Truthy(serverUrl) {
        notifications := notifications + [MissingServerUrl];
        return;
      }
      var url := serverUrl.value;
      var provider := new PulleyOAuthClientProvider(url, storage, clientCodec, tokensCodec);
      authRequests := authRequests + [AuthRequest(url, Some(params.code))];
      var result := Authorize(provider, call);
      if result.Err? {
        notifications := notifications + [UnexpectedError(result.error)];
        return;
      }
      var tokens := provider.Tokens();
      if tokens.Err? {
        notifications := notifications + [UnexpectedError(tokens.error)];
        return;
      }
      if tokens.value.Some? && tokens.value.value.access_token != "" {
        accessToken := Some(tokens.value.value.access_token);
      }
      if result.value != Authorized {
        notifications := notifications + [NotAuthorized(result.value)];
        return;
      }
      connectCalls := connectCalls + [url];
    }
  }
}
