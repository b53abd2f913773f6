/** The integration catalogue shared by the form, the hook and the data service. */
module Constants {
  import opened Js

  const Notion: string := "Notion"
  const Airtable: string := "Airtable"
  const HubSpot: string := "Hubspot"

  /** `Object.values(INTEGRATION_TYPES)`, in declaration order. */
  const IntegrationTypes: seq<string> := [Notion, Airtable, HubSpot]

  /** `ENDPOINT_MAPPING`: the URL segment of each integration. */
  const EndpointMapping: map<string, string> :=
    map[Notion := "notion", Airtable := "airtable", HubSpot := "hubspot"]

  /** `INTEGRATION_COMPONENTS`: the panel component of each integration. */
  const IntegrationComponents: map<string, string> :=
    map[Notion := "NotionIntegration", Airtable := "AirtableIntegration", HubSpot := "HubSpotIntegration"]

  /** `ENDPOINT_MAPPING[t]`, with undefined as None. */
  function Endpoint(t: string): (r: Option<string>)
    ensures r.Some? <==> t in IntegrationTypes
    ensures t == Notion ==> r == Some("notion")
    ensures t == Airtable ==> r == Some("airtable")
    ensures t == HubSpot ==> r == Some("hubspot")
  {
    if t in EndpointMapping then Some(EndpointMapping[t]) else None
  }

  /** Three distinct types; both maps are keyed by exactly those types, and
      no two types share an endpoint. */
  lemma CatalogueShape()
    ensures |IntegrationTypes| == 3
    ensures forall i, j :: 0 <= i < j < |IntegrationTypes| ==> IntegrationTypes[i] != IntegrationTypes[j]
    ensures EndpointMapping.Keys == set t | t in IntegrationTypes
    ensures IntegrationComponents.Keys == set t | t in IntegrationTypes
    ensures forall a, b :: a in EndpointMapping && b in EndpointMapping && a != b ==> EndpointMapping[a] != EndpointMapping[b]
  {
  }
}
