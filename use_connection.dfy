/** The connection hook (src/hooks/useConnection.tsx): the connection status,
    client handle and capabilities snapshot, the recursive `connect`, the
    idempotent `disconnect`, and `makeRequest` with its option merge.

    The SDK is not re-implemented: a `SdkScript` lists, in order, what its
    `auth` calls and `Client.connect` calls will do, and `connect` consumes
    it. A run that needs more SDK calls than the script holds stops as
    `Unfinished`. */
module UseConnection {
  import opened Base
  import opened Types
  import opened Constants
  import opened Storage
  import opened Sdk
  import opened Auth

  const NoBearerToken := PlainError("No bearer token available")
  const NotConnected := PlainError("MCP client not connected")

  datatype HookState = HookState(status: ConnectionStatus, client: Option<Client>, capabilities: Option<ServerCapabilities>)

  const InitialState := HookState(Disconnected, None, None)

  /** What stays fixed during one `connect`: the server, whether a
      notification sink was given, and the provider's JSON codecs. */
  datatype Env = Env(
    serverUrl: string,
    hasSink: bool,
    clientCodec: Codec<ClientInformation>,
    tokensCodec: Codec<OAuthTokens>)

  /** The outcomes of the SDK calls a run will make, in order; `urlError` is
      the error `new URL(serverUrl)` throws, if the URL does not parse. */
  datatype SdkScript = SdkScript(auths: seq<AuthCall>, handshakes: seq<ConnectAttempt>, urlError: Option<JsError>)

  /** How a call of `connect` ends: it resolves, it throws, or it needs more
      SDK calls than the script holds. */
  datatype ConnectResult = Done | Threw(error: JsError) | Unfinished

  /** The end of a `connect` run: the hook state, the storage, the result,
      the unused part of the script, and the `retryCount` of every call of
      `connect` the run made, outermost first. */
  datatype Run = Run(state: HookState, items: map<string, string>, result: ConnectResult, rest: SdkScript, retries: seq<nat>)

  /** A client built by the hook has its handlers installed iff a sink was given. */
  predicate Wired(c: Client, hasSink: bool)
  {
    c.handlers == (if hasSink then NotificationMethods else {}) && c.fallback == hasSink
  }

  /** The hook's invariant: a client exists exactly when the status is
      `connected`, a capabilities snapshot only beside a client, and the
      status `unauthenticated` is never used. */
  predicate ValidState(st: HookState, hasSink: bool)
  {
    && st.status != Unauthenticated
    && (st.client.Some? <==> st.status == Connected)
    && (st.capabilities.Some? ==> st.client.Some?)
    && (st.client.Some? ==> Wired(st.client.value, hasSink))
  }

  function Retried(retryCount: nat, r: Run): Run
  {
    r.(retries := [retryCount] + r.retries)
  }

  function AccessToken(items: map<string, string>): Option<string>
  {
    Lookup(items, ACCESS_TOKEN)
  }

  /** A run only uses up SDK outcomes: what is left of the script is no
      longer than the script, and the URL outcome is unchanged. */
  predicate ScriptConsumed(sdk: SdkScript, rest: SdkScript)
  {
    && rest.urlError == sdk.urlError
    && |rest.auths| <= |sdk.auths|
    && |rest.handshakes| <= |sdk.handshakes|
  }

  /** `connect(_, retryCount)`. Mode 1: with no access token, authorize; on
      AUTHORIZED call `connect` again with `retryCount + 1`, otherwise fall
      through to mode 2. */
  function ConnectSpec(env: Env, st: HookState, items: map<string, string>, sdk: SdkScript, retryCount: nat): (r: Run)
    decreases |sdk.auths|, 1
    ensures ScriptConsumed(sdk, r.rest)
    ensures |r.retries| >= 1 && r.retries[0] == retryCount
  {
    if !Truthy(AccessToken(items)) then
      if sdk.auths == [] then Run(st, items, Unfinished, sdk, [retryCount])
      else
        var call := sdk.auths[0];
        var items1 := NewProviderSaves(items, env.serverUrl, call, env.clientCodec, env.tokensCodec);
        var sdk1 := sdk.(auths := sdk.auths[1..]);
        match call.result
        case Err(e) => Run(st, items1, Threw(e), sdk1, [retryCount])
        case Ok(Authorized) => Retried(retryCount, ConnectSpec(env, st, items1, sdk1, retryCount + 1))
        case Ok(Redirect) => EstablishSpec(env, st, items1, sdk1, retryCount)
    else
      EstablishSpec(env, st, items, sdk, retryCount)
  }

  /** Mode 2 of `connect`: with a client already set nothing happens; else a
      token is required, a client is built and connected; a failed handshake
      sets `error` and authorizes once more, calling `connect` again with
      `retryCount + 1` on AUTHORIZED and rethrowing the handshake's error
      otherwise. */
  function EstablishSpec(env: Env, st: HookState, items: map<string, string>, sdk: SdkScript, retryCount: nat): (r: Run)
    decreases |sdk.auths|, 0
    ensures ScriptConsumed(sdk, r.rest)
    ensures |r.retries| >= 1 && r.retries[0] == retryCount
  {
    if st.client.Some? then Run(st, items, Done, sdk, [retryCount])
    else if !Truthy(AccessToken(items)) then Run(st, items, Threw(NoBearerToken), sdk, [retryCount])
    else if sdk.urlError.Some? then Run(st, items, Threw(sdk.urlError.value), sdk, [retryCount])
    else if sdk.handshakes == [] then Run(st, items, Unfinished, sdk, [retryCount])
    else
      var c := NewClient(env.serverUrl, AccessToken(items).value, env.hasSink);
      var sdk1 := sdk.(handshakes := sdk.handshakes[1..]);
      match sdk.handshakes[0]
      case Handshake(caps) => Run(HookState(Connected, Some(c), caps), items, Done, sdk1, [retryCount])
      case HandshakeFailed(e) =>
        var st1 := st.(status := Error);
        if sdk1.auths == [] then Run(st1, items, Unfinished, sdk1, [retryCount])
        else
          var call := sdk1.auths[0];
          var items1 := NewProviderSaves(items, env.serverUrl, call, env.clientCodec, env.tokensCodec);
          var sdk2 := sdk1.(auths := sdk1.auths[1..]);
          match call.result
          case Err(e2) => Run(st1, items1, Threw(e2), sdk2, [retryCount])
          case Ok(Authorized) => Retried(retryCount, ConnectSpec(env, st1, items1, sdk2, retryCount + 1))
          case Ok(Redirect) => Run(st1, items1, Threw(e), sdk2, [retryCount])
  }

  /** The `retryCount`s of a run's calls: `retryCount`, then one more per
      nested call. */
  predicate RetriesFrom(retries: seq<nat>, retryCount: nat)
  {
    |retries| >= 1 && forall i :: 0 <= i < |retries| ==> retries[i] == retryCount + i
  }

  lemma RetriedFrom(retryCount: nat, r: Run)
    requires RetriesFrom(r.retries, retryCount + 1)
    ensures RetriesFrom(Retried(retryCount, r).retries, retryCount)
  {
    var s := Retried(retryCount, r).retries;
    forall i | 0 <= i < |s| ensures s[i] == retryCount + i {
      if i > 0 {
        assert s[i] == r.retries[i - 1];
      }
    }
  }

  /** What every `connect` run guarantees: the invariant is kept; with a
      client already set the hook state does not change; every nested call
      receives a `retryCount` one larger than its caller's; a resolved run
      leaves the hook connected. */
  lemma {:induction false} ConnectGuarantees(env: Env, st: HookState, items: map<string, string>, sdk: SdkScript, retryCount: nat)
    requires ValidState(st, env.hasSink)
    decreases |sdk.auths|, 1
    ensures var r := ConnectSpec(env, st, items, sdk, retryCount);
      && ValidState(r.state, env.hasSink)
      && (st.client.Some? ==> r.state == st)
      && RetriesFrom(r.retries, retryCount)
      && (r.result == Done ==> r.state.status == Connected && r.state.client.Some?)
  {
    if !Truthy(AccessToken(items)) {
      if sdk.auths != [] {
        var call := sdk.auths[0];
        var items1 := NewProviderSaves(items, env.serverUrl, call, env.clientCodec, env.tokensCodec);
        var sdk1 := sdk.(auths := sdk.auths[1..]);
        match call.result
        case Err(_) =>
        case Ok(Authorized) =>
          ConnectGuarantees(env, st, items1, sdk1, retryCount + 1);
          RetriedFrom(retryCount, ConnectSpec(env, st, items1, sdk1, retryCount + 1));
        case Ok(Redirect) =>
          EstablishGuarantees(env, st, items1, sdk1, retryCount);
      }
    } else {
      EstablishGuarantees(env, st, items, sdk, retryCount);
    }
  }

  lemma {:induction false} EstablishGuarantees(env: Env, st: HookState, items: map<string, string>, sdk: SdkScript, retryCount: nat)
    requires ValidState(st, env.hasSink)
    decreases |sdk.auths|, 0
    ensures var r := EstablishSpec(env, st, items, sdk, retryCount);
      && ValidState(r.state, env.hasSink)
      && (st.client.Some? ==> r.state == st)
      && RetriesFrom(r.retries, retryCount)
      && (r.result == Done ==> r.state.status == Connected && r.state.client.Some?)
  {
    if st.client.None? && Truthy(AccessToken(items)) && sdk.urlError.None? && sdk.handshakes != [] {
      var sdk1 := sdk.(handshakes := sdk.handshakes[1..]);
      match sdk.handshakes[0]
      case Handshake(caps) =>
      case HandshakeFailed(e) =>
        var st1 := st.(status := Error);
        if sdk1.auths != [] {
          var call := sdk1.auths[0];
          var items1 := NewProviderSaves(items, env.serverUrl, call, env.clientCodec, env.tokensCodec);
          var sdk2 := sdk1.(auths := sdk1.auths[1..]);
          if call.result == Ok(Authorized) {
            ConnectGuarantees(env, st1, items1, sdk2, retryCount + 1);
            RetriedFrom(retryCount, ConnectSpec(env, st1, items1, sdk2, retryCount + 1));
          }
        }
    }
  }

  predicate IsSuffix<T(==)>(rest: seq<T>, s: seq<T>)
  {
    |rest| <= |s| && rest == s[|s| - |rest|..]
  }

  lemma SuffixOfTail<T>(rest: seq<T>, s: seq<T>)
    requires s != [] && IsSuffix(rest, s[1..])
    ensures IsSuffix(rest, s)
  {
    assert s[1..][|s| - 1 - |rest|..] == s[|s| - |rest|..];
  }

  /** The SDK calls of a run are taken from the front of the script in
      order: what is left of each list is a suffix of it. */
  lemma {:induction false} ConnectSuffix(env: Env, st: HookState, items: map<string, string>, sdk: SdkScript, retryCount: nat)
    decreases |sdk.auths|, 1
    ensures var r := ConnectSpec(env, st, items, sdk, retryCount);
      IsSuffix(r.rest.auths, sdk.auths) && IsSuffix(r.rest.handshakes, sdk.handshakes)
  {
    if !Truthy(AccessToken(items)) {
      if sdk.auths != [] {
        var call := sdk.auths[0];
        var items1 := NewProviderSaves(items, env.serverUrl, call, env.clientCodec, env.tokensCodec);
        var sdk1 := sdk.(auths := sdk.auths[1..]);
        match call.result
        case Err(_) =>
          SuffixOfTail(sdk1.auths, sdk.auths);
        case Ok(Authorized) =>
          ConnectSuffix(env, st, items1, sdk1, retryCount + 1);
          SuffixOfTail(ConnectSpec(env, st, items1, sdk1, retryCount + 1).rest.auths, sdk.auths);
        case Ok(Redirect) =>
          EstablishSuffix(env, st, items1, sdk1, retryCount);
          SuffixOfTail(EstablishSpec(env, st, items1, sdk1, retryCount).rest.auths, sdk.auths);
      }
    } else {
      EstablishSuffix(env, st, items, sdk, retryCount);
    }
  }

  lemma {:induction false} EstablishSuffix(env: Env, st: HookState, items: map<string, string>, sdk: SdkScript, retryCount: nat)
    decreases |sdk.auths|, 0
    ensures var r := EstablishSpec(env, st, items, sdk, retryCount);
      IsSuffix(r.rest.auths, sdk.auths) && IsSuffix(r.rest.handshakes, sdk.handshakes)
  {
    if st.client.None? && Truthy(AccessToken(items)) && sdk.urlError.None? && sdk.handshakes != [] {
      var sdk1 := sdk.(handshakes := sdk.handshakes[1..]);
      SuffixOfTail(sdk1.handshakes, sdk.handshakes);
      match sdk.handshakes[0]
      case Handshake(caps) =>
      case HandshakeFailed(e) =>
        var st1 := st.(status := Error);
        if sdk1.auths != [] {
          var call := sdk1.auths[0];
          var items1 := NewProviderSaves(items, env.serverUrl, call, env.clientCodec, env.tokensCodec);
          var sdk2 := sdk1.(auths := sdk1.auths[1..]);
          SuffixOfTail(sdk2.auths, sdk.auths);
          if call.result == Ok(Authorized) {
            ConnectSuffix(env, st1, items1, sdk2, retryCount + 1);
            var r := ConnectSpec(env, st1, items1, sdk2, retryCount + 1);
            SuffixOfTail(r.rest.auths, sdk.auths);
            assert IsSuffix(r.rest.handshakes, sdk1.handshakes);
            SuffixOfTail(r.rest.handshakes, sdk.handshakes);
          }
        }
    }
  }

  /** `retryCount` is never compared with anything: apart from the recorded
      counts, a run is the same whatever count it starts from. */
  lemma {:induction false} RetryCountIgnored(env: Env, st: HookState, items: map<string, string>, sdk: SdkScript,
                                             r1: nat, r2: nat)
    decreases |sdk.auths|, 1
    ensures ConnectSpec(env, st, items, sdk, r1).(retries := []) == ConnectSpec(env, st, items, sdk, r2).(retries := [])
  {
    if !Truthy(AccessToken(items)) {
      if sdk.auths != [] {
        var call := sdk.auths[0];
        var items1 := NewProviderSaves(items, env.serverUrl, call, env.clientCodec, env.tokensCodec);
        var sdk1 := sdk.(auths := sdk.auths[1..]);
        match call.result
        case Err(_) =>
        case Ok(Authorized) => RetryCountIgnored(env, st, items1, sdk1, r1 + 1, r2 + 1);
        case Ok(Redirect) => EstablishRetryCountIgnored(env, st, items1, sdk1, r1, r2);
      }
    } else {
      EstablishRetryCountIgnored(env, st, items, sdk, r1, r2);
    }
  }

  lemma {:induction false} EstablishRetryCountIgnored(env: Env, st: HookState, items: map<string, string>, sdk: SdkScript,
                                                      r1: nat, r2: nat)
    decreases |sdk.auths|, 0
    ensures EstablishSpec(env, st, items, sdk, r1).(retries := []) == EstablishSpec(env, st, items, sdk, r2).(retries := [])
  {
    if st.client.None? && Truthy(AccessToken(items)) && sdk.urlError.None? && sdk.handshakes != [] {
      var sdk1 := sdk.(handshakes := sdk.handshakes[1..]);
      match sdk.handshakes[0]
      case Handshake(caps) =>
      case HandshakeFailed(e) =>
        var st1 := st.(status := Error);
        if sdk1.auths != [] {
          var call := sdk1.auths[0];
          var items1 := NewProviderSaves(items, env.serverUrl, call, env.clientCodec, env.tokensCodec);
          var sdk2 := sdk1.(auths := sdk1.auths[1..]);
          if call.result == Ok(Authorized) {
            RetryCountIgnored(env, st1, items1, sdk2, r1 + 1, r2 + 1);
          }
        }
    }
  }

  /** With an access token present and a client already set, `connect`
      changes nothing and makes no SDK call. */
  lemma ConnectIdleWhenConnected(env: Env, st: HookState, items: map<string, string>, sdk: SdkScript, retryCount: nat)
    requires st.client.Some? && Truthy(AccessToken(items))
    ensures ConnectSpec(env, st, items, sdk, retryCount) == Run(st, items, Done, sdk, [retryCount])
  {
  }

  /** With no token, a first `auth` that redirects without saving tokens makes
      mode 2 throw "No bearer token available", leaving the hook state as it
      was. */
  lemma NoTokenRedirectThrows(env: Env, st: HookState, items: map<string, string>, sdk: SdkScript, retryCount: nat)
    requires st.client.None? && !Truthy(AccessToken(items))
    requires sdk.auths != [] && sdk.auths[0].result == Ok(Redirect) && sdk.auths[0].savedTokens.None?
    ensures var r := ConnectSpec(env, st, items, sdk, retryCount);
      r.result == Threw(NoBearerToken) && r.state == st && r.items == NewProviderSaves(items, env.serverUrl, sdk.auths[0], env.clientCodec, env.tokensCodec)
  {
    AuthSavesAccessToken(items[SERVER_URL := env.serverUrl], env.serverUrl, sdk.auths[0], env.clientCodec, env.tokensCodec);
    assert AccessToken(NewProviderSaves(items, env.serverUrl, sdk.auths[0], env.clientCodec, env.tokensCodec)) == AccessToken(items[SERVER_URL := env.serverUrl]);
  }

  /** A successful handshake stores the client, configured with the stored
      access token as bearer credential, and the server's capabilities
      (possibly none), and sets the status to `connected`. */
  lemma HandshakeConnects(env: Env, st: HookState, items: map<string, string>, sdk: SdkScript, retryCount: nat)
    requires st.client.None? && Truthy(AccessToken(items)) && sdk.urlError.None?
    requires sdk.handshakes != [] && sdk.handshakes[0].Handshake?
    ensures var r := ConnectSpec(env, st, items, sdk, retryCount);
      && r.result == Done && r.items == items
      && r.state == HookState(Connected, Some(NewClient(env.serverUrl, AccessToken(items).value, env.hasSink)),
                              sdk.handshakes[0].capabilities)
      && ("Authorization", "Bearer " + AccessToken(items).value) in r.state.client.value.transport.headers
  {
  }

  /** A failed handshake sets `error` and calls `auth` once: an AUTHORIZED
      result repeats `connect` with `retryCount + 1`; a redirect rethrows the
      handshake's error and a throwing `auth` throws its own, in both cases
      with the status `error` and no client. */
  lemma HandshakeFailureReauthorizes(env: Env, st: HookState, items: map<string, string>, sdk: SdkScript, retryCount: nat)
    requires st.client.None? && Truthy(AccessToken(items)) && sdk.urlError.None?
    requires sdk.handshakes != [] && sdk.handshakes[0].HandshakeFailed? && sdk.auths != []
    ensures var r := ConnectSpec(env, st, items, sdk, retryCount);
      var call := sdk.auths[0];
      var items1 := NewProviderSaves(items, env.serverUrl, call, env.clientCodec, env.tokensCodec);
      var rest := SdkScript(sdk.auths[1..], sdk.handshakes[1..], sdk.urlError);
      && (call.result == Ok(Authorized) ==>
            r == Retried(retryCount, ConnectSpec(env, st.(status := Error), items1, rest, retryCount + 1)))
      && (call.result == Ok(Redirect) ==>
            r == Run(st.(status := Error), items1, Threw(sdk.handshakes[0].error), rest, [retryCount]))
      && (call.result.Err? ==> r == Run(st.(status := Error), items1, Threw(call.result.error), rest, [retryCount]))
  {
  }

  function Repeat<T>(x: T, n: nat): (s: seq<T>)
    ensures |s| == n && forall i :: 0 <= i < n ==> s[i] == x
  {
    if n == 0 then [] else [x] + Repeat(x, n - 1)
  }

  /** An `auth` call that saves nothing and ends with the given tag. */
  function PlainAuth(tag: AuthResult): AuthCall
  {
    AuthCall(None, None, None, Ok(tag))
  }

  /** No retry bound: if the server keeps rejecting the handshake while
      `auth` keeps answering AUTHORIZED, `connect` calls itself once per
      AUTHORIZED answer, however many there are (here `n`, for any `n`, also
      beyond the configured maximum of retry attempts), and stops only when
      `auth` answers otherwise. */
  lemma {:induction false} RetriesUnbounded(env: Env, st: HookState, items: map<string, string>, n: nat,
                                            retryCount: nat, e: JsError)
    requires st.client.None? && Truthy(AccessToken(items))
    decreases n
    ensures var sdk := SdkScript(Repeat(PlainAuth(Authorized), n) + [PlainAuth(Redirect)],
                                 Repeat(HandshakeFailed(e), n + 1), None);
      var r := ConnectSpec(env, st, items, sdk, retryCount);
      && r.result == Threw(e) && r.state.status == Error && r.state.client.None?
      && |r.retries| == n + 1 && RetriesFrom(r.retries, retryCount)
  {
    var sdk := SdkScript(Repeat(PlainAuth(Authorized), n) + [PlainAuth(Redirect)],
                         Repeat(HandshakeFailed(e), n + 1), None);
    var items1 := NewProviderSaves(items, env.serverUrl, sdk.auths[0], env.clientCodec, env.tokensCodec);
    assert AccessToken(items1) == AccessToken(items);
    if n > 0 {
      var rest := SdkScript(Repeat(PlainAuth(Authorized), n - 1) + [PlainAuth(Redirect)],
                            Repeat(HandshakeFailed(e), n), None);
      assert sdk.auths[1..] == rest.auths;
      assert sdk.handshakes[1..] == rest.handshakes;
      RetriesUnbounded(env, st.(status := Error), items1, n - 1, retryCount + 1, e);
      RetriedFrom(retryCount, ConnectSpec(env, st.(status := Error), items1, rest, retryCount + 1));
    }
  }

  /** Disconnecting: a fresh provider records the server URL, `clear`
      removes the unscoped credential keys, the access-token slot is removed. */
  function DisconnectedItems(items: map<string, string>, serverUrl: string): map<string, string>
  {
    Cleared(items[SERVER_URL := serverUrl]) - {ACCESS_TOKEN}
  }

  /** `disconnect` is idempotent on storage, never leaves an access token,
      and keeps every entry outside the unscoped credential slots (every
      server-scoped credential in particular). */
  lemma DisconnectIdempotent(items: map<string, string>, serverUrl: string)
    ensures DisconnectedItems(DisconnectedItems(items, serverUrl), serverUrl) == DisconnectedItems(items, serverUrl)
    ensures ACCESS_TOKEN !in DisconnectedItems(items, serverUrl)
    ensures Lookup(DisconnectedItems(items, serverUrl), SERVER_URL) == Some(serverUrl)
    ensures forall k :: k in items && k !in ClearedKeys && k != SERVER_URL ==>
      k in DisconnectedItems(items, serverUrl) && DisconnectedItems(items, serverUrl)[k] == items[k]
  {
    var d := DisconnectedItems(items, serverUrl);
    assert DisconnectedItems(d, serverUrl) == d;
  }

  /** The `??` operator: the caller's value unless it is null or undefined. */
  function Nullish<T>(o: Option<T>, fallback: T): (r: T)
    ensures o.Some? ==> r == o.value
    ensures o.None? ==> r == fallback
  {
    if o.Some? then o.value else fallback
  }

  /** `makeRequest`'s options: each per-call option over the configuration's
      value, and the caller's signal or a new one. */
  function MergeOptions(options: Option<RequestOptions>, config: Config, newSignal: Signal): (r: MergedOptions)
    ensures r.signal == if options.Some? && options.value.signal.Some? then options.value.signal.value else newSignal
    ensures options.Some? && options.value.resetTimeoutOnProgress.Some?
            ==> r.resetTimeoutOnProgress == Bool(options.value.resetTimeoutOnProgress.value)
    ensures options.Some? && options.value.timeout.Some? ==> r.timeout == Num(options.value.timeout.value)
    ensures options.Some? && options.value.maxTotalTimeout.Some?
            ==> r.maxTotalTimeout == Num(options.value.maxTotalTimeout.value)
    ensures (options.None? || options.value.resetTimeoutOnProgress.None?)
            ==> r.resetTimeoutOnProgress == config.timeoutResetOnProgress.value
    ensures (options.None? || options.value.timeout.None?) ==> r.timeout == config.requestTimeout.value
    ensures (options.None? || options.value.maxTotalTimeout.None?) ==> r.maxTotalTimeout == config.maxTotalTimeout.value
  {
    // `options?.field` is undefined for every field when no options are given.
    var o := if options.Some? then options.value else RequestOptions(None, None, None, None);
    MergedOptions(
      Nullish(o.signal, newSignal),
      Nullish(if o.resetTimeoutOnProgress.Some? then Some(Bool(o.resetTimeoutOnProgress.value)) else None,
              config.timeoutResetOnProgress.value),
      Nullish(if o.timeout.Some? then Some(Num(o.timeout.value)) else None, config.requestTimeout.value),
      Nullish(if o.maxTotalTimeout.Some? then Some(Num(o.maxTotalTimeout.value)) else None,
              config.maxTotalTimeout.value))
  }

  /** Because the merge uses `??` and not `||`, a caller's `false` and `0` are
      kept rather than replaced by the configuration's values. */
  lemma FalsyCallerOptionsKept(config: Config, newSignal: Signal, signal: Signal)
    ensures MergeOptions(Some(RequestOptions(Some(signal), Some(false), Some(0), Some(0))), config, newSignal)
            == MergedOptions(signal, Bool(false), Num(0), Num(0))
  {
  }

  /** Without per-call options the default configuration gives: reset on
      progress, a 5000 ms timeout and a 60000 ms total timeout, with the new
      signal. */
  lemma DefaultRequestOptions(newSignal: Signal)
    ensures MergeOptions(None, DEFAULT_CONFIG, newSignal) == MergedOptions(newSignal, Bool(true), Num(5000), Num(60000))
  {
  }

  /** A request as handed to the protocol client, with its merged options. */
  datatype SentRequest = SentRequest(request: ClientRequest, options: MergedOptions)

  /** The hook's state for one mounted component. */
  class ConnectionHook {
    var serverUrl: string
    const config: Config
    const hasSink: bool
    const storage: SessionStorage
    const clientCodec: Codec<ClientInformation>
    const tokensCodec: Codec<OAuthTokens>

    var connectionStatus: ConnectionStatus
    var client: Option<Client>
    var serverCapabilities: Option<ServerCapabilities>

    function State(): HookState
      reads this
    {
      HookState(connectionStatus, client, serverCapabilities)
    }

    function Environment(): Env
      reads this
    {
      Env(serverUrl, hasSink, clientCodec, tokensCodec)
    }

    ghost predicate Valid()
      reads this
    {
      ValidState(State(), hasSink)
    }

    /** A hook starts disconnected, with no client and no capabilities. */
    constructor (serverUrl: string, config: Config, hasSink: bool, storage: SessionStorage,
                 clientCodec: Codec<ClientInformation>, tokensCodec: Codec<OAuthTokens>)
      ensures Valid() && State() == InitialState
      ensures this.serverUrl == serverUrl && this.config == config && this.hasSink == hasSink
      ensures this.storage == storage && this.clientCodec == clientCodec && this.tokensCodec == tokensCodec
    {
      this.serverUrl := serverUrl;
      this.config := config;
      this.hasSink := hasSink;
      this.storage := storage;
      this.clientCodec := clientCodec;
      this.tokensCodec := tokensCodec;
      connectionStatus := Disconnected;
      client := None;
      serverCapabilities := None;
    }

    /** `connect(_, retryCount)`: the new hook state and storage are those of
        ConnectSpec, whose properties are the lemmas above. */
    method Connect(retryCount: nat, sdk: SdkScript) returns (result: ConnectResult, rest: SdkScript)
      modifies this, storage
      decreases |sdk.auths|, 1
      ensures serverUrl == old(serverUrl)
      ensures var run := ConnectSpec(old(Environment()), old(State()), old(storage.items), sdk, retryCount);
        State() == run.state && storage.items == run.items && result == run.result && rest == run.rest
      ensures old(Valid()) ==> Valid()
    {
      ghost var env, st := Environment(), State();
      if Valid() {
        ConnectGuarantees(env, st, storage.items, sdk, retryCount);
      }
      var accessToken := storage.GetItem(ACCESS_TOKEN);
      if !Truthy(accessToken) {
        if sdk.auths == [] {
          return Unfinished, sdk;
        }
        var provider := new PulleyOAuthClientProvider(serverUrl, storage, clientCodec, tokensCodec);
        var outcome := Authorize(provider, sdk.auths[0]);
        var sdk1 := sdk.(auths := sdk.auths[1..]);
        match outcome {
          case Err(e) =>
            return Threw(e), sdk1;
          case Ok(Authorized) =>
            result, rest := Connect(retryCount + 1, sdk1);
          case Ok(Redirect) =>
            result, rest := Establish(retryCount, sdk1);
        }
      } else {
        result, rest := Establish(retryCount, sdk);
      }
    }

    /** Mode 2 of `connect`, as EstablishSpec. */
    method Establish(retryCount: nat, sdk: SdkScript) returns (result: ConnectResult, rest: SdkScript)
      modifies this, storage
      decreases |sdk.auths|, 0
      ensures serverUrl == old(serverUrl)
      ensures var run := EstablishSpec(old(Environment()), old(State()), old(storage.items), sdk, retryCount);
        State() == run.state && storage.items == run.items && result == run.result && rest == run.rest
    {
      if client.Some? {
        return Done, sdk;
      }
      var accessToken := storage.GetItem(ACCESS_TOKEN);
      if !Truthy(accessToken) {
        return Threw(NoBearerToken), sdk;
      }
      var newClient := NewClient(serverUrl, accessToken.value, hasSink);
      if sdk.urlError.Some? {
        return Threw(sdk.urlError.value), sdk;
      }
      if sdk.handshakes == [] {
        return Unfinished, sdk;
      }
      var sdk1 := sdk.(handshakes := sdk.handshakes[1..]);
      match sdk.handshakes[0] {
        case Handshake(capabilities) =>
          serverCapabilities := capabilities;
          client := Some(newClient);
          connectionStatus := Connected;
          return Done, sdk1;
        case HandshakeFailed(e) =>
          connectionStatus := Error;
          if sdk1.auths == [] {
            return Unfinished, sdk1;
          }
          var provider := new PulleyOAuthClientProvider(serverUrl, storage, clientCodec, tokensCodec);
          var outcome := Authorize(provider, sdk1.auths[0]);
          var sdk2 := sdk1.(auths := sdk1.auths[1..]);
          match outcome {
            case Err(e2) =>
              return Threw(e2), sdk2;
            case Ok(Authorized) =>
              result, rest := Connect(retryCount + 1, sdk2);
            case Ok(Redirect) =>
              return Threw(e), sdk2;
          }
      }
    }

    /** `disconnect`: the hook is back in its initial state and the storage
        is DisconnectedItems of the old one, so a second call changes nothing. */
    method Disconnect()
      modifies this, storage
      ensures serverUrl == old(serverUrl)
      ensures Valid() && State() == InitialState
      ensures storage.items == DisconnectedItems(old(storage.items), serverUrl)
    {
      // Closing the old client's transport is outside the model.
      var provider := new PulleyOAuthClientProvider(serverUrl, storage, clientCodec, tokensCodec);
      provider.Clear();
      storage.RemoveItem(ACCESS_TOKEN);
      client := None;
      connectionStatus := Disconnected;
      serverCapabilities := None;
    }

    /** `makeRequest`: without a client it throws "MCP client not connected";
        otherwise it hands the request and the merged options to the client
        once and returns, or rethrows unchanged, what the client's request
        gives (`reply`). It changes neither the hook nor the storage. */
    method MakeRequest<R>(request: ClientRequest, options: Option<RequestOptions>, newSignal: Signal, reply: Result<R>)
      returns (sent: Option<SentRequest>, r: Result<R>)
      ensures client.None? ==> sent == None && r == Err(NotConnected)
      ensures client.Some? ==> sent == Some(SentRequest(request, MergeOptions(options, config, newSignal))) && r == reply
    {
      if client.None? {
        return None, Err(NotConnected);
      }
      sent := Some(SentRequest(request, MergeOptions(options, config, newSignal)));
      r := reply;
    }
  }
}
