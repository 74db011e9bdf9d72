/** Storage key names, the per-server key scoping, and the default
    configuration (src/constants.ts). */
module Constants {
  import opened Base
  import opened Types

  // Session storage keys for the OAuth material.
  const CODE_VERIFIER := "mcp_code_verifier"
  const SERVER_URL := "mcp_server_url"
  const TOKENS := "mcp_tokens"
  const CLIENT_INFORMATION := "mcp_client_information"
  const ACCESS_TOKEN := "mcp_access_token"

  /** The five values of SESSION_KEYS. */
  const SessionKeys: seq<string> := [CODE_VERIFIER, SERVER_URL, TOKENS, CLIENT_INFORMATION, ACCESS_TOKEN]

  const CLIENT_REDIRECT_URL := "/oauth/callback"
  const CLIENT_NAME := "pulley"
  const CLIENT_URI := "https://example.com"

  const LOCAL_STORAGE_KEY := "maker_v1"
  /** The key under which the connection view remembers the last server URL. */
  const SERVER_URL_KEY := "last_server_url"
  const DEFAULT_SERVER_URL := "http://localhost:3001/mcp"

  const DEFAULT_CONFIG := Config(
    ConfigItem("Max Retry Attempts", "Maximum number of retry attempts for failed requests", Num(3)),
    ConfigItem("Request Timeout", "Timeout for requests to the MCP server (ms)", Num(5000)),
    ConfigItem("Reset Timeout on Progress", "Reset timeout on progress notifications", Bool(true)),
    ConfigItem("Maximum Total Timeout",
               "Maximum total timeout for requests sent to the MCP server (ms) (Use with progress notifications)",
               Num(60000)))

  /** The server part of a scoped key: the URL, or "" when the key is unscoped. */
  function Scope(serverUrl: Option<string>): string
  {
    if Truthy(serverUrl) then serverUrl.value else ""
  }

  /** Scopes a storage key to a server: a missing or empty URL leaves the key
      as it is, any other URL is written in brackets in front of it. */
  function ServerSpecificKey(baseKey: string, serverUrl: Option<string>): (r: string)
    ensures !Truthy(serverUrl) <==> r == baseKey
    ensures Truthy(serverUrl) ==> |r| == |serverUrl.value| + 3 + |baseKey| && r[0] == '['
  {
    if !Truthy(serverUrl) then baseKey else "[" + serverUrl.value + "] " + baseKey
  }

  /** Reads back the server URL a scoped key was made for, if the key has the
      scoped shape for this base key. */
  function ServerOfKey(key: string, baseKey: string): Option<string>
  {
    if |key| >= |baseKey| + 4 && key[0] == '[' && key[|key| - |baseKey| - 2..] == "] " + baseKey
    then Some(key[1..|key| - |baseKey| - 2])
    else None
  }

  /** ServerOfKey inverts the scoping of every non-empty URL. */
  lemma {:induction false} ServerOfKeyInverts(baseKey: string, serverUrl: string)
    requires serverUrl != ""
    ensures ServerOfKey(ServerSpecificKey(baseKey, Some(serverUrl)), baseKey) == Some(serverUrl)
  {
    var k := ServerSpecificKey(baseKey, Some(serverUrl));
    assert k == "[" + serverUrl + "] " + baseKey;
    assert k[|k| - |baseKey| - 2..] == "] " + baseKey;
    assert k[1..|k| - |baseKey| - 2] == serverUrl;
  }

  /** For a fixed base key, distinct non-empty URLs give distinct keys. */
  lemma {:induction false} ServerSpecificKeyInjective(baseKey: string, a: string, b: string)
    requires a != "" && b != "" && a != b
    ensures ServerSpecificKey(baseKey, Some(a)) != ServerSpecificKey(baseKey, Some(b))
  {
    ServerOfKeyInverts(baseKey, a);
    ServerOfKeyInverts(baseKey, b);
  }

  /** Facts about the base keys that make scoping collision-free: none starts
      with '[', and no two end in the same two characters. */
  lemma BaseKeyShapes()
    ensures forall b :: b in SessionKeys ==> |b| >= 2 && b[0] == 'm'
    ensures forall b1, b2 {:trigger b1 in SessionKeys, b2 in SessionKeys} ::
      b1 in SessionKeys && b2 in SessionKeys && b1 != b2 ==>
        b1[|b1| - 1] != b2[|b2| - 1] || b1[|b1| - 2] != b2[|b2| - 2]
  {
  }

  /** Two scoped keys built from SESSION_KEYS values coincide exactly when they
      have the same base key and the same server scope: one server's entries
      never alias another server's or an unscoped slot. */
  lemma {:induction false} ScopedKeysCollide(b1: string, u1: Option<string>, b2: string, u2: Option<string>)
    requires b1 in SessionKeys && b2 in SessionKeys
    ensures ServerSpecificKey(b1, u1) == ServerSpecificKey(b2, u2) <==> b1 == b2 && Scope(u1) == Scope(u2)
  {
    BaseKeyShapes();
    var k1, k2 := ServerSpecificKey(b1, u1), ServerSpecificKey(b2, u2);
    if k1 == k2 {
      if Truthy(u1) && Truthy(u2) {
        assert k1 == "[" + u1.value + "] " + b1;
        assert k2 == "[" + u2.value + "] " + b2;
        assert k1[|k1| - 1] == b1[|b1| - 1] && k1[|k1| - 2] == b1[|b1| - 2];
        assert k2[|k2| - 1] == b2[|b2| - 1] && k2[|k2| - 2] == b2[|b2| - 2];
        assert b1 == b2;
        assert u1.value == k1[1..1 + |u1.value|];
        assert u2.value == k2[1..1 + |u2.value|];
      }
    }
  }

  /** A key scoped to a non-empty URL is none of the unscoped keys. */
  lemma ScopedKeyIsNotUnscoped(baseKey: string, serverUrl: string, unscoped: string)
    requires serverUrl != ""
    requires unscoped in SessionKeys || unscoped == SERVER_URL_KEY
    ensures ServerSpecificKey(baseKey, Some(serverUrl)) != unscoped
  {
    BaseKeyShapes();
  }

  /** The five SESSION_KEYS values are pairwise distinct, and the connection
      view's key differs from all of them. */
  lemma SessionKeysDistinct()
    ensures forall i, j :: 0 <= i < j < |SessionKeys| ==> SessionKeys[i] != SessionKeys[j]
    ensures SERVER_URL_KEY !in SessionKeys
  {
  }

  /** The default configuration values. */
  lemma DefaultConfigValues()
    ensures DEFAULT_CONFIG.maxRetryAttempts.value == Num(3)
    ensures DEFAULT_CONFIG.requestTimeout.value == Num(5000)
    ensures DEFAULT_CONFIG.timeoutResetOnProgress.value == Bool(true)
    ensures DEFAULT_CONFIG.maxTotalTimeout.value == Num(60000)
  {
  }
}
