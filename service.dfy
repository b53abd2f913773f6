/** `loadIntegrationData`: the request to `integrations/<endpoint>/load` and
    the normalisation of what the server returns. The HTTP call itself is an
    input: `response` is what posting the request produced (a body, or the
    message of the error the client threw). */
module IntegrationService {
  import opened Js
  import Constants

  /** A form POST: the path and the object whose JSON text is sent as `credentials`. */
  datatype Request = Request(path: string, credentials: Value)

  /** `credentials || {}` */
  function CredentialsPayload(credentials: Value): (p: Value)
    ensures Truthy(credentials) ==> p == credentials
    ensures !Truthy(credentials) ==> p == Obj([])
  {
    if Truthy(credentials) then credentials else Obj([])
  }

  /** The request that is sent, or the error thrown before any request. */
  function LoadRequest(integrationType: string, credentials: Value): (r: Result<Request>)
    ensures r.Err? <==> integrationType !in Constants.IntegrationTypes
    ensures r.Err? ==> r.message == "Invalid integration type"
    ensures r.Ok? ==> r.value.path == "integrations/" + Constants.EndpointMapping[integrationType] + "/load"
    ensures r.Ok? ==> r.value.credentials == CredentialsPayload(credentials)
  {
    match Constants.Endpoint(integrationType)
    case None => Err("Invalid integration type")
    case Some(endpoint) => Ok(Request("integrations/" + endpoint + "/load", CredentialsPayload(credentials)))
  }

  /** `items.filter(item => item !== null)`: undefined is kept. */
  function DropNulls(items: seq<Value>): (r: seq<Value>)
    ensures Null !in r
    ensures |r| <= |items|
    ensures forall v :: v != Null ==> multiset(r)[v] == multiset(items)[v]
  {
    if items == [] then []
    else
      assert items == [items[0]] + items[1..];
      if items[0] == Null then DropNulls(items[1..])
      else [items[0]] + DropNulls(items[1..])
  }

  /** The filter keeps order: filtering a concatenation concatenates the filtered parts. */
  lemma {:induction false} DropNullsAppend(a: seq<Value>, b: seq<Value>)
    ensures DropNulls(a + b) == DropNulls(a) + DropNulls(b)
  {
    if a != [] {
      assert (a + b)[0] == a[0] && (a + b)[1..] == a[1..] + b;
      DropNullsAppend(a[1..], b);
      if a[0] != Null {
        assert DropNulls(a + b) == [a[0]] + DropNulls(a[1..] + b);
      }
    } else {
      assert a + b == b;
    }
  }

  /** `Array.isArray(data) ? data.filter(...) : [data].filter(...)` */
  function Normalize(data: Value): (r: seq<Value>)
    ensures data.Arr? ==> r == DropNulls(data.items)
    ensures !data.Arr? && data != Null ==> r == [data]
  {
    if data.Arr? then DropNulls(data.items) else DropNulls([data])
  }

  /** `loadIntegrationData(integrationType, credentials)` given the outcome of the POST. */
  function LoadIntegrationData(integrationType: string, credentials: Value, response: Result<Value>): (r: Result<seq<Value>>)
    ensures integrationType !in Constants.IntegrationTypes ==> r == Err("Invalid integration type")
    ensures integrationType in Constants.IntegrationTypes && response.Err? ==> r == Err(response.message)
    ensures integrationType in Constants.IntegrationTypes && response.Ok? && !Truthy(response.value) ==>
              r == Err("No data received from server")
    ensures r.Ok? ==> |r.value| > 0 && Null !in r.value
    ensures r.Ok? ==> response.Ok? && r.value == Normalize(response.value)
    ensures integrationType in Constants.IntegrationTypes && response.Ok? && Truthy(response.value) ==>
              (r.Err? <==> Normalize(response.value) == []) &&
              (r.Err? ==> r.message == "No valid data found in the response")
  {
    match LoadRequest(integrationType, credentials)
    case Err(m) => Err(m)
    case Ok(_) =>
      match response
      case Err(m) => Err(m)
      case Ok(data) =>
        if !Truthy(data) then Err("No data received from server")
        else
          var items := Normalize(data);
          if items == [] then Err("No valid data found in the response") else Ok(items)
  }

  /** A non-array body that is truthy always loads as a one-element list. */
  lemma SingleObjectLoads(integrationType: string, credentials: Value, body: Value)
    requires integrationType in Constants.IntegrationTypes
    requires Truthy(body) && !body.Arr?
    ensures LoadIntegrationData(integrationType, credentials, Ok(body)) == Ok([body])
  {
  }
}
