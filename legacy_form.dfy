/** The older `IntegrationForm` (integration-form.js): its own state, change
    handlers and `handleLoad`, which looks the endpoint up in a local table
    and posts the request itself. */
module LegacyForm {
  import opened Js
  import IntegrationService

  /** `integrationMapping`: the radio options and the panel shown for each. */
  const IntegrationMapping: map<string, string> :=
    map["Notion" := "NotionIntegration", "Airtable" := "AirtableIntegration", "HubSpot" := "HubSpotIntegration"]

  /** `endpointMapping`: note the key `'Hubspot'`, unlike `'HubSpot'` above. */
  const EndpointMapping: map<string, string> :=
    map["Notion" := "notion", "Airtable" := "airtable", "Hubspot" := "hubspot"]

  /** `endpointMapping[type]`, by exact key. */
  function LegacyEndpoint(t: string): (r: Option<string>)
    ensures r.Some? <==> t in {"Notion", "Airtable", "Hubspot"}
  {
    if t in EndpointMapping then Some(EndpointMapping[t]) else None
  }

  /** The radio option `'HubSpot'` has no endpoint; the type `'Hubspot'`
      that the HubSpot panel writes into the params has one. */
  lemma HubSpotKeys()
    ensures "HubSpot" in IntegrationMapping && LegacyEndpoint("HubSpot") == None
    ensures "Hubspot" !in IntegrationMapping && LegacyEndpoint("Hubspot") == Some("hubspot")
  {
  }

  /** `Array.isArray(data) ? data : [data]` */
  function Wrap(data: Value): (r: seq<Value>)
    ensures data.Arr? ==> r == data.items
    ensures !data.Arr? ==> |r| == 1 && r[0] == data
  {
    if data.Arr? then data.items else [data]
  }

  datatype LegacySnapshot = LegacySnapshot(
    params: Value, user: string, org: string, currType: Option<string>, loadedData: Value)

  /** Load is offered only while nothing, not even an empty list, is loaded. */
  predicate ShowLoadButton(s: LegacySnapshot)
  {
    Truthy(Get(s.params, "credentials")) && !Truthy(s.loadedData)
  }

  /** Clear is offered whenever credentials are present. */
  predicate ShowClearButton(s: LegacySnapshot)
  {
    Truthy(Get(s.params, "credentials"))
  }

  /** The table is rendered whenever `loadedData` is truthy, an empty list included. */
  predicate ShowTable(s: LegacySnapshot)
  {
    Truthy(s.loadedData)
  }

  class LegacyFormState {
    var params: Value
    var user: string
    var org: string
    var currType: Option<string>
    var loadedData: Value

    function Snapshot(): LegacySnapshot
      reads this
    {
      LegacySnapshot(params, user, org, currType, loadedData)
    }

    constructor ()
      ensures Snapshot() == LegacySnapshot(Obj([]), "TestUser", "TestOrg", None, Null)
    {
      params := Obj([]);
      user := "TestUser";
      org := "TestOrg";
      currType := None;
      loadedData := Null;
    }

    /** The user field's `onChange`: the type stays selected. */
    method HandleUserChange(value: string)
      modifies this
      ensures Snapshot() == old(Snapshot()).(user := value, params := Obj([]), loadedData := Null)
    {
      user := value;
      params := Obj([]);
      loadedData := Null;
    }

    /** The organisation field's `onChange`: the type stays selected. */
    method HandleOrgChange(value: string)
      modifies this
      ensures Snapshot() == old(Snapshot()).(org := value, params := Obj([]), loadedData := Null)
    {
      params := Obj([]);
      loadedData := Null;
      org := value;
    }

    /** The radio group's `onChange`. */
    method HandleTypeChange(value: string)
      modifies this
      ensures Snapshot() == old(Snapshot()).(currType := Some(value), params := Obj([]), loadedData := Null)
    {
      params := Obj([]);
      currType := Some(value);
      loadedData := Null;
    }

    /** `handleLoad` up to the request: no type, or a type without an
        endpoint, changes nothing; otherwise `loadedData` becomes `[]` and the
        request is returned. */
    method BeginLoad() returns (request: Option<IntegrationService.Request>)
      modifies this
      ensures var t := Get(old(params), "type");
        (!Truthy(t) || !t.Str? || LegacyEndpoint(t.s).None?) ==> request == None && Snapshot() == old(Snapshot())
      ensures var t := Get(old(params), "type");
        Truthy(t) && t.Str? && LegacyEndpoint(t.s).Some? ==>
          request == Some(IntegrationService.Request(
            "integrations/" + LegacyEndpoint(t.s).value + "/load",
            IntegrationService.CredentialsPayload(Get(old(params), "credentials")))) &&
          Snapshot() == old(Snapshot()).(loadedData := Arr([]))
    {
      var t := Get(params, "type");
      if !Truthy(t) || !t.Str? {
        request := None;
        return;
      }
      var endpoint := LegacyEndpoint(t.s);
      if endpoint.None? {
        request := None;
        return;
      }
      loadedData := Arr([]);
      request := Some(IntegrationService.Request(
        "integrations/" + endpoint.value + "/load",
        IntegrationService.CredentialsPayload(Get(params, "credentials"))));
    }

    /** `handleLoad` after the request: a response is stored as a list; a
        failure is only reported, so `loadedData` keeps the `[]` set before. */
    method FinishLoad(response: Result<Value>)
      modifies this
      ensures response.Ok? ==> Snapshot() == old(Snapshot()).(loadedData := Arr(Wrap(response.value)))
      ensures response.Err? ==> Snapshot() == old(Snapshot())
    {
      if response.Ok? {
        loadedData := Arr(Wrap(response.value));
      }
    }

    /** The Clear button: params are kept. */
    method ClearData()
      modifies this
      ensures Snapshot() == old(Snapshot()).(loadedData := Null)
    {
      loadedData := Null;
    }
  }

  /** Once a request has been sent the Load button stays hidden, whether the
      request succeeds or fails, until Clear or a change handler runs. */
  lemma LoadButtonHiddenAfterRequest(s: LegacySnapshot, response: Result<Value>)
    ensures !ShowLoadButton(s.(loadedData := Arr([])))
    ensures response.Ok? ==> !ShowLoadButton(s.(loadedData := Arr(Wrap(response.value))))
    ensures ShowTable(s.(loadedData := Arr([])))
  {
  }
}
