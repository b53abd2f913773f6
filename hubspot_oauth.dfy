/** The HubSpot OAuth 2.0 authorization-code flow of backend/integrations/hubspot.py
    (section 4.1 of RFC 6749, with the `state` check of section 10.12): the
    authorisation step stores a random nonce under `hubspot_state:{org}:{user}`,
    the callback checks it and stores the token response under
    `hubspot_credentials:{org}:{user}`, and the credentials can be read once.
    Redis is a map held by `Store`; JSON and UTF-8 conversions are parameters. */
module HubSpotOAuth {
  import opened Js
  import Base64Url

  /** `json.dumps`, `json.loads` (None when it raises), `str.encode('utf-8')`
      and `bytes.decode('utf-8')` (None when it raises). */
  datatype Codecs = Codecs(
    dumps: Value -> string,
    loads: string -> Option<Value>,
    encodeUtf8: string -> seq<Base64Url.byte>,
    decodeUtf8: seq<Base64Url.byte> -> Option<string>)

  function Digit(d: int): char
    requires 0 <= d < 10
  {
    ('0' as int + d) as char
  }

  function NatText(n: nat): (s: string)
    ensures |s| > 0
  {
    if n < 10 then [Digit(n)] else NatText(n / 10) + [Digit(n % 10)]
  }

  /** How an f-string writes a value read from JSON. */
  function PyText(v: Value): (text: string)
    ensures v.Str? ==> text == v.s
    ensures Nullish(v) ==> text == "None"
  {
    match v
    case Str(s) => s
    case Null => "None"
    case Undefined => "None"
    case Bool(b) => if b then "True" else "False"
    case Num(n) => if n < 0 then "-" + NatText(-n) else NatText(n)
    case Arr(_) => "<list>"
    case Obj(_) => "<dict>"
  }

  /** `d.get(k)` on a dict loaded from JSON: None (here Null) when missing. */
  function PyGet(v: Value, k: string): (r: Value)
    ensures r != Undefined
    ensures r != Null ==> r == Get(v, k)
  {
    var r := Get(v, k);
    if r == Undefined then Null else r
  }

  function StateKey(org: string, user: string): (key: string)
    ensures |key| >= 14 && key[..14] == "hubspot_state:"
  {
    "hubspot_state:" + org + ":" + user
  }

  function VerifierKey(org: string, user: string): string
  {
    "hubspot_verifier:" + org + ":" + user
  }

  function CredentialsKey(org: string, user: string): (key: string)
    ensures |key| >= 20 && key[..20] == "hubspot_credentials:"
  {
    "hubspot_credentials:" + org + ":" + user
  }

  /** The three kinds of key never coincide. */
  lemma KeysDistinct(org: string, user: string, org': string, user': string)
    ensures StateKey(org, user) != CredentialsKey(org', user')
    ensures StateKey(org, user) != VerifierKey(org', user')
    ensures VerifierKey(org, user) != CredentialsKey(org', user')
  {
    assert StateKey(org, user)[8] == 's' && CredentialsKey(org', user')[8] == 'c' && VerifierKey(org', user')[8] == 'v';
  }

  /** `state_data` */
  function StateData(nonce: string, user: string, org: string): (v: Value)
    ensures v.Obj? && Keys(v.fields) == ["state", "user_id", "org_id"]
  {
    Obj([Field("state", Str(nonce)), Field("user_id", Str(user)), Field("org_id", Str(org))])
  }

  /** `encoded_state`: the base64url text of the UTF-8 bytes of the JSON. */
  function EncodedState(c: Codecs, nonce: string, user: string, org: string): (s: string)
    ensures |s| % 4 == 0
  {
    Base64Url.Encode(c.encodeUtf8(c.dumps(StateData(nonce, user, org))))
  }

  /** `auth_url`; the scopes are joined with a space. */
  function AuthUrl(clientId: string, redirectUri: string, encodedState: string): (url: string)
    ensures |url| >= |encodedState| && url[|url| - |encodedState|..] == encodedState
  {
    "https://app-na2.hubspot.com/oauth/authorize?&client_id=" + clientId + "&redirect_uri=" + redirectUri +
    "&scope=oauth&optional_scope=crm.objects.contacts.read crm.objects.contacts.write&state=" + encodedState
  }

  /** The store after `authorize_hubspot`. */
  function AfterAuthorize(data: map<string, string>, c: Codecs, nonce: string, verifier: string,
    user: string, org: string): (d: map<string, string>)
    ensures StateKey(org, user) in d && d[StateKey(org, user)] == c.dumps(StateData(nonce, user, org))
    ensures VerifierKey(org, user) in d && d[VerifierKey(org, user)] == verifier
    ensures forall k :: k != StateKey(org, user) && k != VerifierKey(org, user) ==>
      (k in d <==> k in data) && (k in data ==> d[k] == data[k])
  {
    KeysDistinct(org, user, org, user);
    data[StateKey(org, user) := c.dumps(StateData(nonce, user, org))][VerifierKey(org, user) := verifier]
  }

  /** What the callback answers: the page that closes the window, or an error status. */
  datatype Reply = CloseWindow | Rejected(status: int, detail: string)

  const ServerError: Reply := Rejected(500, "Internal Server Error")

  /** The decoded `state` query parameter as a dict; None where the code raises. */
  function DecodeState(query: map<string, string>, c: Codecs): (r: Option<Value>)
    ensures r.Some? ==> r.value.Obj?
  {
    if "state" !in query then None
    else match Base64Url.Decode(query["state"])
      case None => None
      case Some(bytes) =>
        match c.decodeUtf8(bytes)
        case None => None
        case Some(text) =>
          match c.loads(text)
          case None => None
          case Some(v) => if v.Obj? then Some(v) else None
  }

  /** `oauth2callback_hubspot`: the reply and the new store. `token` is the
      JSON text of the token endpoint's answer, None when that request or its
      decoding raises. */
  function Callback(data: map<string, string>, query: map<string, string>, c: Codecs,
    token: Option<string>): (r: (Reply, map<string, string>))
    ensures r.0.Rejected? && r.0.status == 400 ==> r.1 == data
    ensures r.0 == CloseWindow ==> token.Some?
  {
    if "error" in query && query["error"] != "" then (Rejected(400, query["error"]), data)
    else match DecodeState(query, c)
      case None => (ServerError, data)
      case Some(state) =>
        var user := PyText(PyGet(state, "user_id"));
        var org := PyText(PyGet(state, "org_id"));
        var key := StateKey(org, user);
        if key !in data || data[key] == "" then
          (Rejected(400, "No saved state found. Please try authorizing again."), data)
        else match c.loads(data[key])
          case None => (ServerError, data)
          case Some(saved) =>
            if !saved.Obj? then (ServerError, data)
            else if PyGet(state, "state") != PyGet(saved, "state") then (Rejected(400, "State does not match."), data)
            else match token
              case None => (ServerError, data - {key})
              case Some(t) => (CloseWindow, (data - {key})[CredentialsKey(org, user) := t])
  }

  /** An error reported by HubSpot is passed on as a 400 and changes nothing. */
  lemma CallbackRejectsError(data: map<string, string>, query: map<string, string>, c: Codecs, token: Option<string>)
    requires "error" in query && query["error"] != ""
    ensures Callback(data, query, c, token) == (Rejected(400, query["error"]), data)
  {
  }

  /** With no state saved for the pair named in the returned state, or an
      empty one, the callback answers 400 and changes nothing. */
  lemma CallbackRejectsUnsavedState(data: map<string, string>, query: map<string, string>, c: Codecs,
    token: Option<string>, state: Value)
    requires !("error" in query && query["error"] != "")
    requires DecodeState(query, c) == Some(state)
    requires var key := StateKey(PyText(PyGet(state, "org_id")), PyText(PyGet(state, "user_id")));
      key !in data || data[key] == ""
    ensures Callback(data, query, c, token) == (Rejected(400, "No saved state found. Please try authorizing again."), data)
  {
  }

  /** When the nonce in the returned state differs from the saved one, the
      callback answers 400 and changes nothing. */
  lemma CallbackRejectsMismatch(data: map<string, string>, query: map<string, string>, c: Codecs,
    token: Option<string>, state: Value, saved: Value)
    requires !("error" in query && query["error"] != "")
    requires DecodeState(query, c) == Some(state)
    requires var key := StateKey(PyText(PyGet(state, "org_id")), PyText(PyGet(state, "user_id")));
      key in data && data[key] != "" && c.loads(data[key]) == Some(saved)
    requires saved.Obj? && PyGet(state, "state") != PyGet(saved, "state")
    ensures Callback(data, query, c, token) == (Rejected(400, "State does not match."), data)
  {
  }

  /** When every check passes and the token request succeeds, the callback
      closes the window, drops the saved state and stores the token. */
  lemma CallbackAccepts(data: map<string, string>, query: map<string, string>, c: Codecs,
    token: string, state: Value, saved: Value)
    requires !("error" in query && query["error"] != "")
    requires DecodeState(query, c) == Some(state)
    requires var key := StateKey(PyText(PyGet(state, "org_id")), PyText(PyGet(state, "user_id")));
      key in data && data[key] != "" && c.loads(data[key]) == Some(saved)
    requires saved.Obj? && PyGet(state, "state") == PyGet(saved, "state")
    ensures var org, user := PyText(PyGet(state, "org_id")), PyText(PyGet(state, "user_id"));
      Callback(data, query, c, Some(token)) ==
        (CloseWindow, (data - {StateKey(org, user)})[CredentialsKey(org, user) := token])
  {
  }

  /** A callback that closes the window consumed the saved state and stored
      the token under the credentials key; every other key is untouched. */
  lemma CallbackSuccess(data: map<string, string>, query: map<string, string>, c: Codecs, token: Option<string>)
    requires Callback(data, query, c, token).0 == CloseWindow
    ensures DecodeState(query, c).Some?
    ensures var state := DecodeState(query, c).value;
      var user, org := PyText(PyGet(state, "user_id")), PyText(PyGet(state, "org_id"));
      var d := Callback(data, query, c, token).1;
      StateKey(org, user) in data && StateKey(org, user) !in d &&
      CredentialsKey(org, user) in d && d[CredentialsKey(org, user)] == token.value &&
      c.loads(data[StateKey(org, user)]).Some? &&
      PyGet(state, "state") == PyGet(c.loads(data[StateKey(org, user)]).value, "state") &&
      forall k :: k != StateKey(org, user) && k != CredentialsKey(org, user) ==>
        (k in d <==> k in data) && (k in d ==> d[k] == data[k])
  {
    var state := DecodeState(query, c).value;
    KeysDistinct(PyText(PyGet(state, "org_id")), PyText(PyGet(state, "user_id")),
      PyText(PyGet(state, "org_id")), PyText(PyGet(state, "user_id")));
  }

  /** What `get_hubspot_credentials` returns, or the error it raises. */
  datatype CredentialsReply = Credentials(credentials: Value) | CredentialsError(status: int, detail: string)

  /** `get_hubspot_credentials`: the reply and the new store. */
  function TakeCredentials(data: map<string, string>, user: string, org: string,
    loads: string -> Option<Value>): (r: (CredentialsReply, map<string, string>))
    ensures r.0.Credentials? ==> r.1 == data - {CredentialsKey(org, user)}
    ensures r.0.CredentialsError? ==> r.1 == data
    ensures (CredentialsKey(org, user) !in data || data[CredentialsKey(org, user)] == "") <==>
      r.0 == CredentialsError(400, "No credentials found.")
  {
    var key := CredentialsKey(org, user);
    if key !in data || data[key] == "" then (CredentialsError(400, "No credentials found."), data)
    else match loads(data[key])
      case None => (CredentialsError(500, "Internal Server Error"), data)
      case Some(v) => (Credentials(v), data - {key})
  }

  /** Credentials can be read once: a second read fails with 400. */
  lemma ReadOnce(data: map<string, string>, user: string, org: string, loads: string -> Option<Value>)
    requires TakeCredentials(data, user, org, loads).0.Credentials?
    ensures TakeCredentials(TakeCredentials(data, user, org, loads).1, user, org, loads).0 ==
      CredentialsError(400, "No credentials found.")
  {
  }

  /** The state HubSpot hands back unchanged decodes to the state data. */
  lemma DecodeReturnedState(c: Codecs, nonce: string, user: string, org: string, query: map<string, string>)
    requires var text := c.dumps(StateData(nonce, user, org));
      c.loads(text) == Some(StateData(nonce, user, org)) && c.decodeUtf8(c.encodeUtf8(text)) == Some(text)
    requires "state" in query && query["state"] == EncodedState(c, nonce, user, org)
    ensures DecodeState(query, c) == Some(StateData(nonce, user, org))
  {
    Base64Url.DecodeEncode(c.encodeUtf8(c.dumps(StateData(nonce, user, org))));
  }

  /** The ids in the state data read back as the ids written. */
  lemma StateDataIds(nonce: string, user: string, org: string)
    ensures PyGet(StateData(nonce, user, org), "user_id") == Str(user)
    ensures PyGet(StateData(nonce, user, org), "org_id") == Str(org)
    ensures PyText(Str(user)) == user && PyText(Str(org)) == org
  {
    var f := StateData(nonce, user, org).fields;
    assert f[0].key == "state" && f[0].key != "user_id" && f[0].key != "org_id";
    assert f[1..][0].key == "user_id" && f[1..][0].key != "org_id";
    assert Lookup(f, "user_id") == Lookup(f[1..], "user_id") == Str(user);
    assert Lookup(f, "org_id") == Lookup(f[1..], "org_id") == Lookup(f[1..][1..], "org_id") == Str(org);
  }

  /** Authorising and then coming back with the state HubSpot returns
      unchanged closes the window, and the credentials can then be read
      exactly once. */
  lemma AuthorizeThenCallback(data: map<string, string>, c: Codecs, nonce: string, verifier: string,
    user: string, org: string, code: string, token: string)
    requires var text := c.dumps(StateData(nonce, user, org));
      c.loads(text) == Some(StateData(nonce, user, org)) && c.decodeUtf8(c.encodeUtf8(text)) == Some(text)
    requires c.dumps(StateData(nonce, user, org)) != ""
    requires token != "" && c.loads(token).Some?
    ensures var d1 := AfterAuthorize(data, c, nonce, verifier, user, org);
      var query := map["code" := code, "state" := EncodedState(c, nonce, user, org)];
      var (reply, d2) := Callback(d1, query, c, Some(token));
      reply == CloseWindow &&
      TakeCredentials(d2, user, org, c.loads).0 == Credentials(c.loads(token).value) &&
      TakeCredentials(TakeCredentials(d2, user, org, c.loads).1, user, org, c.loads).0 ==
        CredentialsError(400, "No credentials found.")
  {
    var state := StateData(nonce, user, org);
    var text := c.dumps(state);
    var d1 := AfterAuthorize(data, c, nonce, verifier, user, org);
    var query := map["code" := code, "state" := EncodedState(c, nonce, user, org)];
    DecodeReturnedState(c, nonce, user, org, query);
    StateDataIds(nonce, user, org);
    assert "error" !in query;
    var key := StateKey(org, user);
    assert PyText(PyGet(state, "org_id")) == org && PyText(PyGet(state, "user_id")) == user;
    assert key in d1 && d1[key] == text;
    CallbackAccepts(d1, query, c, token, state, state);
    var d2 := (d1 - {key})[CredentialsKey(org, user) := token];
    assert Callback(d1, query, c, Some(token)) == (CloseWindow, d2);
    assert TakeCredentials(d2, user, org, c.loads).0 == Credentials(c.loads(token).value);
  }

  /** Redis, as far as this flow uses it. */
  class Store {
    var data: map<string, string>

    constructor (data: map<string, string>)
      ensures this.data == data
    {
      this.data := data;
    }

    /** `authorize_hubspot`: stores the state and the PKCE verifier and returns the URL. */
    method Authorize(c: Codecs, nonce: string, verifier: string, user: string, org: string,
      clientId: string, redirectUri: string) returns (authUrl: string)
      modifies this
      ensures data == AfterAuthorize(old(data), c, nonce, verifier, user, org)
      ensures authUrl == AuthUrl(clientId, redirectUri, EncodedState(c, nonce, user, org))
    {
      var stateData := StateData(nonce, user, org);
      var encoded := Base64Url.Encode(c.encodeUtf8(c.dumps(stateData)));
      authUrl := AuthUrl(clientId, redirectUri, encoded);
      data := data[StateKey(org, user) := c.dumps(stateData)];
      data := data[VerifierKey(org, user) := verifier];
    }

    /** `oauth2callback_hubspot` */
    method OAuthCallback(query: map<string, string>, c: Codecs, token: Option<string>) returns (reply: Reply)
      modifies this
      ensures (reply, data) == Callback(old(data), query, c, token)
    {
      if "error" in query && query["error"] != "" {
        return Rejected(400, query["error"]);
      }
      var state := DecodeState(query, c);
      if state.None? {
        return ServerError;
      }
      var user := PyText(PyGet(state.value, "user_id"));
      var org := PyText(PyGet(state.value, "org_id"));
      var key := StateKey(org, user);
      if key !in data || data[key] == "" {
        return Rejected(400, "No saved state found. Please try authorizing again.");
      }
      var saved := c.loads(data[key]);
      if saved.None? || !saved.value.Obj? {
        return ServerError;
      }
      if PyGet(state.value, "state") != PyGet(saved.value, "state") {
        return Rejected(400, "State does not match.");
      }
      data := data - {key};
      if token.None? {
        return ServerError;
      }
      data := data[CredentialsKey(org, user) := token.value];
      reply := CloseWindow;
    }

    /** `get_hubspot_credentials` */
    method GetCredentials(user: string, org: string, loads: string -> Option<Value>) returns (reply: CredentialsReply)
      modifies this
      ensures (reply, data) == TakeCredentials(old(data), user, org, loads)
    {
      var key := CredentialsKey(org, user);
      if key !in data || data[key] == "" {
        return CredentialsError(400, "No credentials found.");
      }
      var parsed := loads(data[key]);
      if parsed.None? {
        return CredentialsError(500, "Internal Server Error");
      }
      data := data - {key};
      reply := Credentials(parsed.value);
    }
  }
}
