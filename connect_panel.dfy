/** The Airtable and HubSpot connect panels (integrations/airtable.js and
    integrations/hubspot.js). Both run the same state machine: a click asks the
    backend for the authorisation URL and opens it in a window, a 200 ms timer
    polls until that window is closed, and the close handler fetches the
    issued credentials and merges them into the form's params. The two files
    differ only in the backend path and the type tag they write. */
module ConnectPanel {
  import opened Js

  datatype Provider = AirtableProvider | HubSpotProvider

  /** The `type` written into the params: `'Airtable'` or `'Hubspot'`. */
  function TypeTag(p: Provider): string
  {
    match p
    case AirtableProvider => "Airtable"
    case HubSpotProvider => "Hubspot"
  }

  function PathSegment(p: Provider): string
  {
    match p
    case AirtableProvider => "airtable"
    case HubSpotProvider => "hubspot"
  }

  /** A form POST carrying `user_id` and `org_id`. */
  datatype PanelRequest = PanelRequest(path: string, userId: string, orgId: string)

  /** The fields of the params object a functional update starts from. */
  function FieldsOf(prev: Value): seq<Field>
  {
    if prev.Obj? then prev.fields else []
  }

  /** `prev => ({ ...prev, credentials: credentials, type: <tag> })` */
  function MergeCredentials(prev: Value, credentials: Value, p: Provider): (merged: Value)
    ensures merged.Obj?
  {
    Obj(Put(Put(FieldsOf(prev), "credentials", credentials), "type", Str(TypeTag(p))))
  }

  /** The merge stores the credentials and the provider's tag and keeps every
      other key of the previous params. */
  lemma {:induction false} MergeCredentialsEffect(prev: Value, credentials: Value, p: Provider, k: string)
    ensures Get(MergeCredentials(prev, credentials, p), "credentials") == credentials
    ensures Get(MergeCredentials(prev, credentials, p), "type") == Str(TypeTag(p))
    ensures k != "credentials" && k != "type" ==> Get(MergeCredentials(prev, credentials, p), k) == Get(prev, k)
  {
    var once := Put(FieldsOf(prev), "credentials", credentials);
    PutLookup(once, "type", Str(TypeTag(p)), "credentials");
    PutLookup(once, "type", Str(TypeTag(p)), "type");
    PutLookup(once, "type", Str(TypeTag(p)), k);
    PutLookup(FieldsOf(prev), "credentials", credentials, "credentials");
    PutLookup(FieldsOf(prev), "credentials", credentials, k);
  }

  /** The HubSpot panel tags the params `'Hubspot'`, the key the data service looks up. */
  lemma HubSpotPanelTag(prev: Value, credentials: Value)
    ensures Get(MergeCredentials(prev, credentials, HubSpotProvider), "type") == Str("Hubspot")
    ensures Get(MergeCredentials(prev, credentials, HubSpotProvider), "credentials") == credentials
  {
    MergeCredentialsEffect(prev, credentials, HubSpotProvider, "");
  }

  /** `newWindow?.closed !== false`: a missing window counts as closed. */
  predicate WindowGone(window: Option<bool>)
  {
    window.None? || window.value
  }

  /** One timer tick: while the timer runs and the window is gone, the timer is
      cleared and then the close handler is called. Returns (timer still running, handler called). */
  function PollStep(timerRunning: bool, window: Option<bool>): (r: (bool, bool))
    ensures r.1 <==> timerRunning && WindowGone(window)
    ensures r.1 ==> !r.0
    ensures !timerRunning ==> !r.0
  {
    if timerRunning && WindowGone(window) then (false, true) else (timerRunning, false)
  }

  /** A connect's timer over a run of ticks, each seeing the window's state:
      the handler runs at most once, exactly when some tick sees the window
      gone, and at the first such tick. */
  method PollTicks(ticks: seq<Option<bool>>) returns (calls: nat, firstGone: int)
    ensures calls <= 1
    ensures calls == 1 <==> exists i :: 0 <= i < |ticks| && WindowGone(ticks[i])
    ensures calls == 1 ==> 0 <= firstGone < |ticks| && WindowGone(ticks[firstGone])
    ensures calls == 1 ==> forall i :: 0 <= i < firstGone ==> !WindowGone(ticks[i])
  {
    var running := true;
    calls, firstGone := 0, -1;
    var n := 0;
    while n < |ticks|
      invariant 0 <= n <= |ticks|
      invariant running <==> calls == 0
      invariant calls <= 1
      invariant calls == 0 <==> forall i :: 0 <= i < n ==> !WindowGone(ticks[i])
      invariant calls == 1 ==> 0 <= firstGone < n && WindowGone(ticks[firstGone])
      invariant calls == 1 ==> forall i :: 0 <= i < firstGone ==> !WindowGone(ticks[i])
    {
      var step := PollStep(running, ticks[n]);
      if step.1 {
        calls := calls + 1;
        firstGone := n;
      }
      running := step.0;
      n := n + 1;
    }
  }

  class Panel {
    const provider: Provider
    const user: string
    const org: string
    var isConnected: bool
    var isConnecting: bool
    var timerRunning: bool

    /** Mounting, with the `useEffect` that runs once:
        connected exactly when the params already hold credentials. */
    constructor (provider: Provider, user: string, org: string, params: Value)
      ensures this.provider == provider && this.user == user && this.org == org
      ensures isConnected == Truthy(Get(params, "credentials"))
      ensures !isConnecting && !timerRunning
    {
      this.provider := provider;
      this.user := user;
      this.org := org;
      isConnected := Truthy(Get(params, "credentials"));
      isConnecting := false;
      timerRunning := false;
    }

    /** The connect button is shown exactly when neither connected nor connecting. */
    predicate ShowConnectButton()
      reads this
    {
      !isConnected && !isConnecting
    }

    /** The request a click sends first, after marking the panel connecting. */
    function AuthorizeRequest(): PanelRequest
    {
      PanelRequest("integrations/" + PathSegment(provider) + "/authorize", user, org)
    }

    /** `handleConnectClick`: `authorized` is the backend's answer (the URL,
        then opened in a window) or the error it threw. */
    method ConnectClick(authorized: Result<Value>) returns (request: PanelRequest, ghost connectingAtRequest: bool)
      modifies this
      ensures request == AuthorizeRequest() && connectingAtRequest
      ensures isConnected == old(isConnected)
      ensures authorized.Ok? ==> isConnecting && timerRunning
      ensures authorized.Err? ==> !isConnecting && timerRunning == old(timerRunning)
    {
      isConnecting := true;
      connectingAtRequest := isConnecting;
      request := AuthorizeRequest();
      if authorized.Err? {
        isConnecting := false;
      } else {
        timerRunning := true;
      }
    }

    /** One tick of the poll timer. */
    method Poll(window: Option<bool>) returns (callHandler: bool)
      modifies this
      ensures (timerRunning, callHandler) == PollStep(old(timerRunning), window)
      ensures isConnected == old(isConnected) && isConnecting == old(isConnecting)
    {
      var step := PollStep(timerRunning, window);
      timerRunning, callHandler := step.0, step.1;
    }

    /** `handleWindowClosed`: `fetched` is the backend's credentials answer or
        the error it threw; the result is the params after the functional update. */
    method WindowClosed(params: Value, fetched: Result<Value>) returns (request: PanelRequest, newParams: Value)
      modifies this
      ensures request == PanelRequest("integrations/" + PathSegment(provider) + "/credentials", user, org)
      ensures !isConnecting && timerRunning == old(timerRunning)
      ensures fetched.Ok? && Truthy(fetched.value) ==>
        isConnected && newParams == MergeCredentials(params, fetched.value, provider)
      ensures !(fetched.Ok? && Truthy(fetched.value)) ==> isConnected == old(isConnected) && newParams == params
    {
      request := PanelRequest("integrations/" + PathSegment(provider) + "/credentials", user, org);
      newParams := params;
      if fetched.Ok? {
        var credentials := fetched.value;
        if Truthy(credentials) {
          isConnecting := false;
          isConnected := true;
          newParams := MergeCredentials(params, credentials, provider);
        }
        isConnecting := false;
      } else {
        isConnecting := false;
      }
    }
  }
}
