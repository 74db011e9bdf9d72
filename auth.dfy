/** The OAuth client provider (src/auth.ts): a credential store for one
    server over the shared session storage. Client registration, tokens and
    the PKCE verifier (RFC 7636) live under keys scoped to the provider's
    server URL; the server URL and the current access token live in unscoped
    slots. */
module Auth {
  import opened Base
  import opened Types
  import opened Constants
  import opened Storage
  import opened Sdk

  const NoCodeVerifier := PlainError("No code verifier saved for this session")
  const NoTokens := PlainError("No tokens saved for this session")

  function ClientInformationKey(serverUrl: string): string
  {
    ServerSpecificKey(CLIENT_INFORMATION, Some(serverUrl))
  }

  function TokensKey(serverUrl: string): string
  {
    ServerSpecificKey(TOKENS, Some(serverUrl))
  }

  function CodeVerifierKey(serverUrl: string): string
  {
    ServerSpecificKey(CODE_VERIFIER, Some(serverUrl))
  }

  /** The keys `clear` removes: the base keys themselves, not the scoped ones. */
  const ClearedKeys: set<string> := {CLIENT_INFORMATION, TOKENS, CODE_VERIFIER, ACCESS_TOKEN}

  // ---------------------------------------------------------------------
  // The provider's operations as functions of the storage contents.

  /** Reading a JSON entry: absent or empty means no value; anything else is
      parsed, and a failing parse throws. */
  function ReadJson<T>(items: map<string, string>, key: string, codec: Codec<T>): Result<Option<T>>
  {
    var stored := Lookup(items, key);
    if !Truthy(stored) then Ok(None)
    else match codec.parse(stored.value)
      case Ok(v) => Ok(Some(v))
      case Err(e) => Err(e)
  }

  function ReadClientInformation(items: map<string, string>, serverUrl: string, codec: Codec<ClientInformation>)
    : Result<Option<ClientInformation>>
  {
    ReadJson(items, ClientInformationKey(serverUrl), codec)
  }

  function ReadTokens(items: map<string, string>, serverUrl: string, codec: Codec<OAuthTokens>): Result<Option<OAuthTokens>>
  {
    ReadJson(items, TokensKey(serverUrl), codec)
  }

  function ReadCodeVerifier(items: map<string, string>, serverUrl: string): Result<string>
  {
    var stored := Lookup(items, CodeVerifierKey(serverUrl));
    if Truthy(stored) then Ok(stored.value) else Err(NoCodeVerifier)
  }

  /** `saveTokens`: the serialised tokens under the scoped key, and the access
      token mirrored into the unscoped slot. */
  function WithTokens(items: map<string, string>, serverUrl: string, tokens: OAuthTokens, codec: Codec<OAuthTokens>)
    : map<string, string>
  {
    items[TokensKey(serverUrl) := codec.stringify(tokens)][ACCESS_TOKEN := tokens.access_token]
  }

  /** `clear`: the four unscoped credential keys are removed. */
  function Cleared(items: map<string, string>): map<string, string>
  {
    items - ClearedKeys
  }

  /** `refreshTokens` and `revokeTokens`: both only demand that tokens exist. */
  function TokensRequired(items: map<string, string>, serverUrl: string, codec: Codec<OAuthTokens>): Outcome
  {
    match ReadTokens(items, serverUrl, codec)
    case Err(e) => Fail(e)
    case Ok(None) => Fail(NoTokens)
    case Ok(Some(_)) => Pass
  }

  /** The storage after the SDK's `auth` has run through a provider bound to
      `serverUrl`: what the call saved, in the order the flow saves it. */
  function AuthSaves(items: map<string, string>, serverUrl: string, call: AuthCall,
                     clientCodec: Codec<ClientInformation>, tokensCodec: Codec<OAuthTokens>): map<string, string>
  {
    var m1 := if call.savedClientInformation.Some?
      then items[ClientInformationKey(serverUrl) := clientCodec.stringify(call.savedClientInformation.value)]
      else items;
    var m2 := if call.savedCodeVerifier.Some?
      then m1[CodeVerifierKey(serverUrl) := call.savedCodeVerifier.value]
      else m1;
    if call.savedTokens.Some? then WithTokens(m2, serverUrl, call.savedTokens.value, tokensCodec) else m2
  }

  /** The storage once a fresh provider for `serverUrl` has been built,
      recording the server URL, and `auth` has saved through it. */
  function NewProviderSaves(items: map<string, string>, serverUrl: string, call: AuthCall,
                            clientCodec: Codec<ClientInformation>, tokensCodec: Codec<OAuthTokens>): map<string, string>
  {
    AuthSaves(items[SERVER_URL := serverUrl], serverUrl, call, clientCodec, tokensCodec)
  }

  /** Everything a provider for `serverUrl` reads. */
  predicate ReadsAgree(m: map<string, string>, m': map<string, string>, serverUrl: string,
                       clientCodec: Codec<ClientInformation>, tokensCodec: Codec<OAuthTokens>)
  {
    && ReadClientInformation(m, serverUrl, clientCodec) == ReadClientInformation(m', serverUrl, clientCodec)
    && ReadTokens(m, serverUrl, tokensCodec) == ReadTokens(m', serverUrl, tokensCodec)
    && ReadCodeVerifier(m, serverUrl) == ReadCodeVerifier(m', serverUrl)
  }

  // ---------------------------------------------------------------------
  // Properties of the credential store.

  /** The scoped keys of one provider are distinct from each other and from
      the two unscoped slots it writes. */
  lemma ProviderKeysDistinct(serverUrl: string)
    ensures TokensKey(serverUrl) != ACCESS_TOKEN && ClientInformationKey(serverUrl) != ACCESS_TOKEN
    ensures CodeVerifierKey(serverUrl) != ACCESS_TOKEN
    ensures TokensKey(serverUrl) != SERVER_URL && ClientInformationKey(serverUrl) != SERVER_URL
    ensures CodeVerifierKey(serverUrl) != SERVER_URL
    ensures TokensKey(serverUrl) != ClientInformationKey(serverUrl)
    ensures TokensKey(serverUrl) != CodeVerifierKey(serverUrl)
    ensures ClientInformationKey(serverUrl) != CodeVerifierKey(serverUrl)
  {
    ScopedKeysCollide(TOKENS, Some(serverUrl), ACCESS_TOKEN, None);
    ScopedKeysCollide(CLIENT_INFORMATION, Some(serverUrl), ACCESS_TOKEN, None);
    ScopedKeysCollide(CODE_VERIFIER, Some(serverUrl), ACCESS_TOKEN, None);
    ScopedKeysCollide(TOKENS, Some(serverUrl), SERVER_URL, None);
    ScopedKeysCollide(CLIENT_INFORMATION, Some(serverUrl), SERVER_URL, None);
    ScopedKeysCollide(CODE_VERIFIER, Some(serverUrl), SERVER_URL, None);
    ScopedKeysCollide(TOKENS, Some(serverUrl), CLIENT_INFORMATION, Some(serverUrl));
    ScopedKeysCollide(TOKENS, Some(serverUrl), CODE_VERIFIER, Some(serverUrl));
    ScopedKeysCollide(CLIENT_INFORMATION, Some(serverUrl), CODE_VERIFIER, Some(serverUrl));
  }

  /** Saved tokens read back as themselves, and the access token is mirrored
      into the unscoped slot. */
  lemma TokensRoundTrip(items: map<string, string>, serverUrl: string, tokens: OAuthTokens, codec: Codec<OAuthTokens>)
    requires RoundTrips(codec)
    ensures ReadTokens(WithTokens(items, serverUrl, tokens, codec), serverUrl, codec) == Ok(Some(tokens))
    ensures Lookup(WithTokens(items, serverUrl, tokens, codec), ACCESS_TOKEN) == Some(tokens.access_token)
  {
    ProviderKeysDistinct(serverUrl);
    assert codec.parse(codec.stringify(tokens)) == Ok(tokens);
  }

  /** Saved client information reads back as itself. */
  lemma ClientInformationRoundTrip(items: map<string, string>, serverUrl: string, info: ClientInformation,
                                   codec: Codec<ClientInformation>)
    requires RoundTrips(codec)
    ensures ReadClientInformation(items[ClientInformationKey(serverUrl) := codec.stringify(info)], serverUrl, codec)
            == Ok(Some(info))
  {
    assert codec.parse(codec.stringify(info)) == Ok(info);
  }

  /** A saved verifier reads back as itself; an empty one reads as missing. */
  lemma CodeVerifierRoundTrip(items: map<string, string>, serverUrl: string, verifier: string)
    ensures ReadCodeVerifier(items[CodeVerifierKey(serverUrl) := verifier], serverUrl)
            == if verifier == "" then Err(NoCodeVerifier) else Ok(verifier)
  {
  }

  /** A missing or empty entry reads as no value, before anything is parsed. */
  lemma MissingEntriesReadAsAbsent(items: map<string, string>, serverUrl: string,
                                   clientCodec: Codec<ClientInformation>, tokensCodec: Codec<OAuthTokens>)
    ensures !Truthy(Lookup(items, TokensKey(serverUrl))) <==> ReadTokens(items, serverUrl, tokensCodec) == Ok(None)
    ensures !Truthy(Lookup(items, ClientInformationKey(serverUrl)))
            <==> ReadClientInformation(items, serverUrl, clientCodec) == Ok(None)
    ensures !Truthy(Lookup(items, CodeVerifierKey(serverUrl))) <==> ReadCodeVerifier(items, serverUrl).Err?
  {
  }

  /** A write to a key that is none of `b`'s three scoped keys changes no
      read of a provider for `b`. */
  lemma WriteElsewhereInvisible(m: map<string, string>, b: string, key: string, value: string,
                                clientCodec: Codec<ClientInformation>, tokensCodec: Codec<OAuthTokens>)
    requires key != TokensKey(b) && key != ClientInformationKey(b) && key != CodeVerifierKey(b)
    ensures ReadsAgree(m, m[key := value], b, clientCodec, tokensCodec)
  {
    assert Lookup(m[key := value], TokensKey(b)) == Lookup(m, TokensKey(b));
    assert Lookup(m[key := value], ClientInformationKey(b)) == Lookup(m, ClientInformationKey(b));
    assert Lookup(m[key := value], CodeVerifierKey(b)) == Lookup(m, CodeVerifierKey(b));
  }

  /** Writing one key of a provider for `a` changes no read of a provider for
      another server `b`. */
  lemma {:induction false} OtherServerWriteInvisible(m: map<string, string>, a: string, b: string,
                                                     baseKey: string, value: string,
                                                     clientCodec: Codec<ClientInformation>, tokensCodec: Codec<OAuthTokens>)
    requires a != b
    requires baseKey in SessionKeys
    ensures ReadsAgree(m, m[ServerSpecificKey(baseKey, Some(a)) := value], b, clientCodec, tokensCodec)
  {
    ScopedKeysCollide(baseKey, Some(a), TOKENS, Some(b));
    ScopedKeysCollide(baseKey, Some(a), CLIENT_INFORMATION, Some(b));
    ScopedKeysCollide(baseKey, Some(a), CODE_VERIFIER, Some(b));
    WriteElsewhereInvisible(m, b, ServerSpecificKey(baseKey, Some(a)), value, clientCodec, tokensCodec);
  }

  /** Writing an unscoped slot changes no read of a provider. */
  lemma UnscopedWriteInvisible(m: map<string, string>, b: string, key: string, value: string,
                               clientCodec: Codec<ClientInformation>, tokensCodec: Codec<OAuthTokens>)
    requires key == ACCESS_TOKEN || key == SERVER_URL || key == SERVER_URL_KEY
    ensures ReadsAgree(m, m[key := value], b, clientCodec, tokensCodec)
  {
    ProviderKeysDistinct(b);
    if key == SERVER_URL_KEY {
      if b == "" {
        SessionKeysDistinct();
      } else {
        ScopedKeyIsNotUnscoped(TOKENS, b, SERVER_URL_KEY);
        ScopedKeyIsNotUnscoped(CLIENT_INFORMATION, b, SERVER_URL_KEY);
        ScopedKeyIsNotUnscoped(CODE_VERIFIER, b, SERVER_URL_KEY);
      }
    }
    WriteElsewhereInvisible(m, b, key, value, clientCodec, tokensCodec);
  }

  /** Server isolation: whatever a provider for `a` saves (client
      information, tokens with their mirrored access token, verifier), a
      provider for any other server `b` reads exactly what it read before. */
  lemma SavesIsolated(m: map<string, string>, a: string, b: string,
                      info: ClientInformation, tokens: OAuthTokens, verifier: string,
                      clientCodec: Codec<ClientInformation>, tokensCodec: Codec<OAuthTokens>)
    requires a != b
    ensures ReadsAgree(m, m[ClientInformationKey(a) := clientCodec.stringify(info)], b, clientCodec, tokensCodec)
    ensures ReadsAgree(m, WithTokens(m, a, tokens, tokensCodec), b, clientCodec, tokensCodec)
    ensures ReadsAgree(m, m[CodeVerifierKey(a) := verifier], b, clientCodec, tokensCodec)
  {
    OtherServerWriteInvisible(m, a, b, CLIENT_INFORMATION, clientCodec.stringify(info), clientCodec, tokensCodec);
    OtherServerWriteInvisible(m, a, b, CODE_VERIFIER, verifier, clientCodec, tokensCodec);
    var m1 := m[TokensKey(a) := tokensCodec.stringify(tokens)];
    OtherServerWriteInvisible(m, a, b, TOKENS, tokensCodec.stringify(tokens), clientCodec, tokensCodec);
    UnscopedWriteInvisible(m1, b, ACCESS_TOKEN, tokens.access_token, clientCodec, tokensCodec);
  }

  /** `clear` removes exactly the four unscoped keys; every other entry,
      in particular every entry scoped to a server, is left as it was. */
  lemma ClearKeepsScopedEntries(m: map<string, string>, serverUrl: string,
                                clientCodec: Codec<ClientInformation>, tokensCodec: Codec<OAuthTokens>)
    requires serverUrl != ""
    ensures Cleared(m).Keys == m.Keys - ClearedKeys
    ensures forall k :: k in Cleared(m) ==> Cleared(m)[k] == m[k]
    ensures ReadsAgree(m, Cleared(m), serverUrl, clientCodec, tokensCodec)
  {
    ScopedKeyIsNotUnscoped(TOKENS, serverUrl, TOKENS);
    ScopedKeyIsNotUnscoped(TOKENS, serverUrl, ACCESS_TOKEN);
    ScopedKeyIsNotUnscoped(TOKENS, serverUrl, CODE_VERIFIER);
    ScopedKeyIsNotUnscoped(TOKENS, serverUrl, CLIENT_INFORMATION);
    ScopedKeyIsNotUnscoped(CLIENT_INFORMATION, serverUrl, TOKENS);
    ScopedKeyIsNotUnscoped(CLIENT_INFORMATION, serverUrl, ACCESS_TOKEN);
    ScopedKeyIsNotUnscoped(CLIENT_INFORMATION, serverUrl, CODE_VERIFIER);
    ScopedKeyIsNotUnscoped(CLIENT_INFORMATION, serverUrl, CLIENT_INFORMATION);
    ScopedKeyIsNotUnscoped(CODE_VERIFIER, serverUrl, TOKENS);
    ScopedKeyIsNotUnscoped(CODE_VERIFIER, serverUrl, ACCESS_TOKEN);
    ScopedKeyIsNotUnscoped(CODE_VERIFIER, serverUrl, CODE_VERIFIER);
    ScopedKeyIsNotUnscoped(CODE_VERIFIER, serverUrl, CLIENT_INFORMATION);
    assert Lookup(Cleared(m), TokensKey(serverUrl)) == Lookup(m, TokensKey(serverUrl));
    assert Lookup(Cleared(m), ClientInformationKey(serverUrl)) == Lookup(m, ClientInformationKey(serverUrl));
    assert Lookup(Cleared(m), CodeVerifierKey(serverUrl)) == Lookup(m, CodeVerifierKey(serverUrl));
  }

  /** A provider bound to the empty URL uses the unscoped keys themselves, so
      for it `clear` does wipe everything it reads. */
  lemma ClearWipesEmptyUrlProvider(m: map<string, string>,
                                   clientCodec: Codec<ClientInformation>, tokensCodec: Codec<OAuthTokens>)
    ensures ReadTokens(Cleared(m), "", tokensCodec) == Ok(None)
    ensures ReadClientInformation(Cleared(m), "", clientCodec) == Ok(None)
    ensures ReadCodeVerifier(Cleared(m), "") == Err(NoCodeVerifier)
  {
  }

  /** `refreshTokens`/`revokeTokens` succeed exactly when tokens are stored
      for the server; with none stored they fail with "No tokens saved for
      this session", and a stored entry that does not parse throws its
      parse error. */
  lemma TokensRequiredIffStored(m: map<string, string>, serverUrl: string, codec: Codec<OAuthTokens>)
    ensures TokensRequired(m, serverUrl, codec).Pass? <==> ReadTokens(m, serverUrl, codec).Ok? && ReadTokens(m, serverUrl, codec).value.Some?
    ensures ReadTokens(m, serverUrl, codec) == Ok(None) ==> TokensRequired(m, serverUrl, codec) == Fail(NoTokens)
    ensures ReadTokens(m, serverUrl, codec).Err? ==> TokensRequired(m, serverUrl, codec) == Fail(ReadTokens(m, serverUrl, codec).error)
  {
  }

  /** What the flow driver's saves do to the access-token slot: it holds the
      newly saved access token if tokens were saved, and is untouched otherwise. */
  lemma AuthSavesAccessToken(m: map<string, string>, serverUrl: string, call: AuthCall,
                             clientCodec: Codec<ClientInformation>, tokensCodec: Codec<OAuthTokens>)
    ensures Lookup(AuthSaves(m, serverUrl, call, clientCodec, tokensCodec), ACCESS_TOKEN)
            == if call.savedTokens.Some? then Some(call.savedTokens.value.access_token) else Lookup(m, ACCESS_TOKEN)
  {
    ProviderKeysDistinct(serverUrl);
  }

  /** After the flow driver saved tokens, the provider reads them back. */
  lemma AuthSavesTokens(m: map<string, string>, serverUrl: string, call: AuthCall,
                        clientCodec: Codec<ClientInformation>, tokensCodec: Codec<OAuthTokens>)
    requires RoundTrips(tokensCodec) && call.savedTokens.Some?
    ensures ReadTokens(AuthSaves(m, serverUrl, call, clientCodec, tokensCodec), serverUrl, tokensCodec)
            == Ok(call.savedTokens)
  {
    var m1 := if call.savedClientInformation.Some?
      then m[ClientInformationKey(serverUrl) := clientCodec.stringify(call.savedClientInformation.value)]
      else m;
    var m2 := if call.savedCodeVerifier.Some?
      then m1[CodeVerifierKey(serverUrl) := call.savedCodeVerifier.value]
      else m1;
    TokensRoundTrip(m2, serverUrl, call.savedTokens.value, tokensCodec);
  }

  datatype ClientMetadata = ClientMetadata(
    redirect_uris: seq<string>,
    token_endpoint_auth_method: string,
    grant_types: seq<string>,
    response_types: seq<string>,
    client_name: string,
    client_uri: string)

  /** The provider of one server's credentials. */
  class PulleyOAuthClientProvider {
    const serverUrl: string
    const storage: SessionStorage
    const clientCodec: Codec<ClientInformation>
    const tokensCodec: Codec<OAuthTokens>

    /** Binding a provider to a server records that server in the unscoped
        server-URL slot and changes nothing else. */
    constructor (serverUrl: string, storage: SessionStorage,
                 clientCodec: Codec<ClientInformation>, tokensCodec: Codec<OAuthTokens>)
      modifies storage
      ensures this.serverUrl == serverUrl && this.storage == storage
      ensures this.clientCodec == clientCodec && this.tokensCodec == tokensCodec
      ensures storage.items == old(storage.items)[SERVER_URL := serverUrl]
    {
      this.serverUrl := serverUrl;
      this.storage := storage;
      this.clientCodec := clientCodec;
      this.tokensCodec := tokensCodec;
      new;
      storage.SetItem(SERVER_URL, serverUrl);
    }

    /** The redirect target: the page's origin followed by the callback path
        that the connection view routes to the callback handler. */
    function RedirectUrl(origin: string): (r: string)
      ensures |r| == |origin| + |CLIENT_REDIRECT_URL|
      ensures r[..|origin|] == origin && r[|origin|..] == CLIENT_REDIRECT_URL
    {
      origin + CLIENT_REDIRECT_URL
    }

    /** Dynamic registration metadata of a public client (RFC 7591) that uses
        only the authorization code grant (section 4.1 of RFC 6749) and
        redirects only to this page's callback. */
    function Metadata(origin: string): (md: ClientMetadata)
      ensures md.redirect_uris == [RedirectUrl(origin)]
      ensures md.token_endpoint_auth_method == "none"
      ensures md.grant_types == ["authorization_code"] && md.response_types == ["code"]
      ensures md.client_name == CLIENT_NAME && md.client_uri == CLIENT_URI
    {
      ClientMetadata([RedirectUrl(origin)], "none", ["authorization_code"], ["code"], CLIENT_NAME, CLIENT_URI)
    }

    method ClientInformation() returns (r: Result<Option<ClientInformation>>)
      ensures r == ReadClientInformation(storage.items, serverUrl, clientCodec)
    {
      var value := storage.GetItem(ClientInformationKey(serverUrl));
      if !Truthy(value) {
        return Ok(None);
      }
      var parsed := clientCodec.parse(value.value);
      r := if parsed.Ok? then Ok(Some(parsed.value)) else Err(parsed.error);
    }

    method SaveClientInformation(info: ClientInformation)
      modifies storage
      ensures storage.items == old(storage.items)[ClientInformationKey(serverUrl) := clientCodec.stringify(info)]
    {
      storage.SetItem(ClientInformationKey(serverUrl), clientCodec.stringify(info));
    }

    method Tokens() returns (r: Result<Option<OAuthTokens>>)
      ensures r == ReadTokens(storage.items, serverUrl, tokensCodec)
    {
      var value := storage.GetItem(TokensKey(serverUrl));
      if !Truthy(value) {
        return Ok(None);
      }
      var parsed := tokensCodec.parse(value.value);
      r := if parsed.Ok? then Ok(Some(parsed.value)) else Err(parsed.error);
    }

    method SaveTokens(tokens: OAuthTokens)
      modifies storage
      ensures storage.items == WithTokens(old(storage.items), serverUrl, tokens, tokensCodec)
    {
      storage.SetItem(TokensKey(serverUrl), tokensCodec.stringify(tokens));
      storage.SetItem(ACCESS_TOKEN, tokens.access_token);
    }

    method SaveCodeVerifier(verifier: string)
      modifies storage
      ensures storage.items == old(storage.items)[CodeVerifierKey(serverUrl) := verifier]
    {
      storage.SetItem(CodeVerifierKey(serverUrl), verifier);
    }

    method CodeVerifier() returns (r: Result<string>)
      ensures r == ReadCodeVerifier(storage.items, serverUrl)
    {
      var verifier := storage.GetItem(CodeVerifierKey(serverUrl));
      if !Truthy(verifier) {
        return Err(NoCodeVerifier);
      }
      r := Ok(verifier.value);
    }

    method Clear()
      modifies storage
      ensures storage.items == Cleared(old(storage.items))
    {
      storage.RemoveItem(CLIENT_INFORMATION);
      storage.RemoveItem(TOKENS);
      storage.RemoveItem(CODE_VERIFIER);
      storage.RemoveItem(ACCESS_TOKEN);
    }

    method RefreshTokens() returns (r: Outcome)
      ensures r == TokensRequired(storage.items, serverUrl, tokensCodec)
    {
      var tokens := Tokens();
      r := match tokens
        case Err(e) => Fail(e)
        case Ok(None) => Fail(NoTokens)
        case Ok(Some(_)) => Pass;
    }

    method RevokeTokens() returns (r: Outcome)
      ensures r == TokensRequired(storage.items, serverUrl, tokensCodec)
    {
      var tokens := Tokens();
      r := match tokens
        case Err(e) => Fail(e)
        case Ok(None) => Fail(NoTokens)
        case Ok(Some(_)) => Pass;
    }
  }

  /** The SDK's `auth` acting through a provider: it saves what the call
      says through the provider's own save operations and returns the call's
      outcome. */
  method Authorize(provider: PulleyOAuthClientProvider, call: AuthCall) returns (r: Result<AuthResult>)
    modifies provider.storage
    ensures provider.storage.items == AuthSaves(old(provider.storage.items), provider.serverUrl, call,
                                                provider.clientCodec, provider.tokensCodec)
    ensures r == call.result
  {
    if call.savedClientInformation.Some? {
      provider.SaveClientInformation(call.savedClientInformation.value);
    }
    if call.savedCodeVerifier.Some? {
      provider.SaveCodeVerifier(call.savedCodeVerifier.value);
    }
    if call.savedTokens.Some? {
      provider.SaveTokens(call.savedTokens.value);
    }
    r := call.result;
  }
}
