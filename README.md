# vector-shift integrations, modelled in Dafny

This project models the logic of the vector-shift integration hub: a FastAPI
backend that connects to HubSpot over OAuth 2.0 and turns HubSpot contacts
into integration items, and a React frontend that connects an integration,
loads its items and shows them in tables.

The model covers the following:

- **HubSpot backend** (`backend/integrations/hubspot.py`):
  - the authorization-code flow of section 4.1 of RFC 6749;
  - the CSRF `state` check of section 10.12 of RFC 6749, with the state carried as base64url (section 5 of RFC 4648);
  - the read-once credential store, with Redis as a map held by a class;
  - contact-to-item normalisation;
  - the paging loop of `get_items_hubspot`, with each HTTP page as an input.
- **Tables**:
  - the sort comparator, sorting and the sort toggle of `StickyHeadTable`;
  - pagination and cell rendering;
  - the row logic of both `CollapsibleTable` components;
  - the `snake_case` to `Title Case` label.
- **Forms**:
  - the state record of `useIntegrationForm` and its handlers;
  - the `handleLoad` steps and the show/hide conditions of both `IntegrationForm` variants;
  - the connection state machine of the Airtable and HubSpot panels;
  - the data service `loadIntegrationData`;
  - the constant maps.

Modules:

| file | module | models |
|---|---|---|
| js.dfy | Js | JSON/JS values, truthiness, object lookup and spread |
| labels.dfy | Labels | the label function of both collapsible tables |
| constants.dfy | Constants | frontend/src/constants/integrations.js |
| service.dfy | IntegrationService | frontend/src/services/integrationService.js |
| form_hook.dfy | FormHook | frontend/src/hooks/useIntegrationForm.js |
| form_view.dfy | FormView | frontend/src/components/forms/IntegrationForm.jsx |
| legacy_form.dfy | LegacyForm | frontend/src/integration-form.js |
| connect_panel.dfy | ConnectPanel | frontend/src/integrations/airtable.js and hubspot.js |
| sticky_table.dfy | StickyTable | frontend/src/components/tables/StickyHeadTable.jsx |
| detail_table.dfy | DetailTable | frontend/src/components/tables/CollapsibleTable.jsx |
| metadata_table.dfy | MetadataTable | frontend/src/components/CollapsibleTable.jsx |
| base64url.dfy | Base64Url | `base64.urlsafe_b64encode`/`b64decode` (section 5 of RFC 4648) |
| hubspot_items.dfy | HubSpotItems | contact items and paging in backend/integrations/hubspot.py |
| hubspot_oauth.dfy | HubSpotOAuth | OAuth state, callback and credentials in backend/integrations/hubspot.py |

Some things are outside the program and become parameters:

- `JSON.parse`, `JSON.stringify`, `json.loads` and `json.dumps`;
- UTF-8 encoding and decoding;
- `datetime.fromisoformat`;
- every HTTP answer.

A parse is a function returning `Option`, None where the original throws. A
server answer is a `Result` value given to the method that awaits it.

Each React handler that awaits is split at the await into two steps, for
example `BeginLoad` and `FinishLoad`. A handler's setter calls are
assignments to the fields of a class, in source order.

## Model

| member | source | states |
|---|---|---|
| Constants.Endpoint | frontend/src/constants/integrations.js:7-11 | an endpoint exists exactly for the three types; Notion, Airtable and Hubspot map to notion, airtable and hubspot |
| Constants.CatalogueShape | frontend/src/constants/integrations.js:1-17 | three distinct types; the keys of ENDPOINT_MAPPING and INTEGRATION_COMPONENTS are exactly those types; ENDPOINT_MAPPING is injective |
| IntegrationService.CredentialsPayload | frontend/src/services/integrationService.js:11 | truthy credentials are sent as they are, otherwise `{}` |
| IntegrationService.LoadRequest | frontend/src/services/integrationService.js:5-13 | fails with 'Invalid integration type' exactly for an unknown type; otherwise posts to `integrations/<endpoint>/load` |
| IntegrationService.DropNulls | frontend/src/services/integrationService.js:20-21 | the result has no null, is no longer than the input, and keeps every non-null element with its multiplicity |
| IntegrationService.DropNullsAppend | frontend/src/services/integrationService.js:20-21 | filtering distributes over concatenation, so order is kept |
| IntegrationService.Normalize | frontend/src/services/integrationService.js:19-21 | an array is filtered; any other non-null value becomes a one-element list |
| IntegrationService.LoadIntegrationData | frontend/src/services/integrationService.js:4-28 | each error: unknown type, failed request, falsy data, empty after filtering; a success is non-empty, null-free and equal to the normalised response |
| IntegrationService.SingleObjectLoads | frontend/src/services/integrationService.js:19-27 | a single truthy non-array body loads as a one-element list |
| FormHook.ResetIdempotent | frontend/src/hooks/useIntegrationForm.js:13-17 | resetting twice equals resetting once |
| FormHook.UserChangeEffect | frontend/src/hooks/useIntegrationForm.js:19-23 | sets user; clears params, data, error and type; keeps org and isLoading |
| FormHook.OrgChangeEffect | frontend/src/hooks/useIntegrationForm.js:25-29 | sets org; clears params, data, error and type; keeps user and isLoading |
| FormHook.TypeChangeEffect | frontend/src/hooks/useIntegrationForm.js:31-34 | sets the type; clears params, data and error; keeps user, org and isLoading |
| FormHook.ClearEffect | frontend/src/hooks/useIntegrationForm.js:36-39 | clears data and error only |
| FormHook.ClearAfterChangeIsNoop | frontend/src/hooks/useIntegrationForm.js:19-39 | clearing right after any change handler changes nothing |
| FormHook.IntegrationFormState.constructor | frontend/src/hooks/useIntegrationForm.js:5-11 | the initial state: `{}`, TestUser, TestOrg, null type, no data, not loading, no error |
| FormHook.IntegrationFormState.ResetForm | frontend/src/hooks/useIntegrationForm.js:13-17 | the new state is the reset of the old one; no error is held with data |
| FormHook.IntegrationFormState.HandleUserChange | frontend/src/hooks/useIntegrationForm.js:19-23 | the new state is the user change of the old one |
| FormHook.IntegrationFormState.HandleOrgChange | frontend/src/hooks/useIntegrationForm.js:25-29 | the new state is the org change of the old one |
| FormHook.IntegrationFormState.HandleTypeChange | frontend/src/hooks/useIntegrationForm.js:31-34 | the new state is the type change of the old one |
| FormHook.IntegrationFormState.ClearData | frontend/src/hooks/useIntegrationForm.js:36-39 | the new state is the cleared old one |
| FormHook.IntegrationFormState.SetIntegrationParams | frontend/src/hooks/useIntegrationForm.js:49 | only params change; consistency is kept |
| FormView.ErrorText | frontend/src/components/forms/IntegrationForm.jsx:53 | the message if non-empty, else 'Failed to load data'; never empty |
| FormView.AfterLoad | frontend/src/components/forms/IntegrationForm.jsx:46-57 | not loading afterwards; success stores the data and clears the error; failure stores the error text and clears the data; other fields kept |
| FormView.ShowTypeAlert | frontend/src/components/forms/IntegrationForm.jsx:104-105 | the alert shows exactly when no type is chosen |
| FormView.ShowActions | frontend/src/components/forms/IntegrationForm.jsx:106-109 | the button row shows when a type is chosen and the credentials are truthy |
| FormView.ShowLoadingButton | frontend/src/components/forms/IntegrationForm.jsx:111-118 | the disabled Loading button shows while loading |
| FormView.ShowLoadButton | frontend/src/components/forms/IntegrationForm.jsx:119-126 | Load shows when not loading and the data is absent or carries an error |
| FormView.ShowClearButton | frontend/src/components/forms/IntegrationForm.jsx:127-131 | Clear shows when the data is present and carries no error |
| FormView.ShowErrorAlert | frontend/src/components/forms/IntegrationForm.jsx:138-145 | the alert shows for a non-empty error |
| FormView.ShowTable | frontend/src/components/forms/IntegrationForm.jsx:147-151 | the table shows when `loadedData.length > 0` |
| FormView.LoadXorClear | frontend/src/components/forms/IntegrationForm.jsx:109-131 | with the buttons shown and not loading, exactly one of Load and Clear is offered |
| FormView.ErrorHidesTable | frontend/src/components/forms/IntegrationForm.jsx:138-151 | the error alert and the table never show together |
| FormView.ChangeHidesResults | frontend/src/components/forms/IntegrationForm.jsx:104-151 | after a change handler there is no table, no error and no Clear button; user and org changes bring back the type alert |
| FormView.SuccessfulLoadShowsTable | frontend/src/components/forms/IntegrationForm.jsx:48-50 | a load the service accepts shows the table and Clear, and hides Load and the error |
| FormView.FailedLoadOffersRetry | frontend/src/components/forms/IntegrationForm.jsx:51-54 | a failed load shows the error and Load, and no table |
| FormView.BeginLoad | frontend/src/components/forms/IntegrationForm.jsx:41-48 | with no type, no request and no change; otherwise loading is set and the type and credentials are requested |
| FormView.FinishLoad | frontend/src/components/forms/IntegrationForm.jsx:49-57 | the new state is the post-load state of the old one |
| FormView.HandleLoad | frontend/src/components/forms/IntegrationForm.jsx:40-58 | a request is made iff there is a type; loading is on during it; the end state is the post-load state for the service's outcome |
| LegacyForm.LegacyEndpoint | frontend/src/integration-form.js:26-30 | an endpoint exists exactly for Notion, Airtable and Hubspot |
| LegacyForm.HubSpotKeys | frontend/src/integration-form.js:20-30 | the radio option 'HubSpot' has no endpoint; 'Hubspot' has one but no panel |
| LegacyForm.Wrap | frontend/src/integration-form.js:61 | an array is kept; anything else becomes a one-element list |
| LegacyForm.LegacyFormState.constructor | frontend/src/integration-form.js:33-37 | the initial state |
| LegacyForm.LegacyFormState.HandleUserChange | frontend/src/integration-form.js:78-82 | sets user; clears params and data; keeps the type |
| LegacyForm.LegacyFormState.HandleOrgChange | frontend/src/integration-form.js:88-92 | sets org; clears params and data; keeps the type |
| LegacyForm.LegacyFormState.HandleTypeChange | frontend/src/integration-form.js:100-104 | sets the type; clears params and data |
| LegacyForm.LegacyFormState.BeginLoad | frontend/src/integration-form.js:43-59 | no type or no endpoint: no request, no change; otherwise data becomes `[]` and the load request is returned |
| LegacyForm.LegacyFormState.FinishLoad | frontend/src/integration-form.js:59-66 | a response is stored wrapped as a list; a failure changes nothing |
| LegacyForm.LegacyFormState.ClearData | frontend/src/integration-form.js:139 | data becomes null; params kept |
| LegacyForm.ShowLoadButton | frontend/src/integration-form.js:128-137 | Load shows when the credentials are truthy and no data, not even `[]`, is held |
| LegacyForm.ShowClearButton | frontend/src/integration-form.js:128-143 | Clear shows whenever the credentials are truthy |
| LegacyForm.ShowTable | frontend/src/integration-form.js:149-153 | the table shows whenever the data is truthy, `[]` included |
| LegacyForm.LoadButtonHiddenAfterRequest | frontend/src/integration-form.js:55-153 | after the request starts, and after a response, Load is hidden; the table shows from the start |
| ConnectPanel.MergeCredentials | frontend/src/integrations/hubspot.js:53 | the functional update gives an object (its keys are stated by MergeCredentialsEffect) |
| ConnectPanel.PollStep | frontend/src/integrations/hubspot.js:30-35 | the handler is called exactly when the timer runs and the window is gone, and the timer is then cleared |
| ConnectPanel.Panel.ShowConnectButton | frontend/src/integrations/hubspot.js:68 | the button shows exactly when neither connected nor connecting |
| ConnectPanel.MergeCredentialsEffect | frontend/src/integrations/airtable.js:53 | the merge stores credentials and the type tag and keeps every other key |
| ConnectPanel.HubSpotPanelTag | frontend/src/integrations/hubspot.js:53 | the HubSpot panel writes type 'Hubspot' and the credentials |
| ConnectPanel.PollTicks | frontend/src/integrations/hubspot.js:30-35 | the handler is called at most once, exactly when some tick sees the window gone (a missing window counts), at the first such tick |
| ConnectPanel.Panel.constructor | frontend/src/integrations/hubspot.js:62-64 | connected exactly when the params hold truthy credentials; not connecting |
| ConnectPanel.Panel.ConnectClick | frontend/src/integrations/hubspot.js:18-40 | connecting is set before the request; success starts the timer; failure ends connecting |
| ConnectPanel.Panel.Poll | frontend/src/integrations/hubspot.js:30-35 | one tick clears the timer and calls the handler when the window is gone |
| ConnectPanel.Panel.WindowClosed | frontend/src/integrations/hubspot.js:43-60 | always ends not connecting; truthy credentials connect and merge the params; otherwise connected and params are kept |
| Labels.Label | frontend/src/components/tables/CollapsibleTable.jsx:136-138 | the label: split on `_`, capitalise each part, join with a space (its length and characters are stated by LabelChars) |
| Labels.Split | frontend/src/components/tables/CollapsibleTable.jsx:137 | one part per separator plus one; no part contains the separator |
| Labels.JoinSplit | frontend/src/components/tables/CollapsibleTable.jsx:136-138 | joining the parts gives back the key |
| Labels.CapitalizeAll | frontend/src/components/tables/CollapsibleTable.jsx:137 | one word per part |
| Labels.LabelWordCount | frontend/src/components/tables/CollapsibleTable.jsx:136-138 | the label has one word per underscore plus one |
| Labels.TitleChars | frontend/src/components/CollapsibleTable.jsx:117-119 | the character-wise reading keeps the length |
| Labels.TitleJoinChars | frontend/src/components/CollapsibleTable.jsx:117-119 | the label equals the character-wise reading: `_` becomes a space and the first letter of each word is upper-cased |
| Labels.LabelChars | frontend/src/components/tables/CollapsibleTable.jsx:136-138 | the label is the character-wise reading and has the key's length |
| StickyTable.StrLess | frontend/src/components/tables/StickyHeadTable.jsx:57-58 | string `<`, lexicographic by code point (irreflexive and transitive by the lemmas below) |
| StickyTable.Less | frontend/src/components/tables/StickyHeadTable.jsx:57-58 | `<` holds only between keys of one kind; on booleans exactly `false < true` |
| StickyTable.SortKeys | frontend/src/components/tables/StickyHeadTable.jsx:41-52 | outside the delta branch the keys are the two rows' column values; `b`'s key is its own value unless `b`'s delta parses |
| StickyTable.CompareKeys | frontend/src/components/tables/StickyHeadTable.jsx:54-59 | the result is -1, 0 or 1, and 0 exactly for two defined keys neither below the other |
| StickyTable.Compare | frontend/src/components/tables/StickyHeadTable.jsx:41-59 | the comparator answers -1, 0 or 1 |
| StickyTable.LessStrictOrder | frontend/src/components/tables/StickyHeadTable.jsx:57-58 | JavaScript `<` on keys of one kind is irreflexive and transitive |
| StickyTable.StrLessTransitive | frontend/src/components/tables/StickyHeadTable.jsx:57-58 | string `<` is transitive |
| StickyTable.SourceOr | frontend/src/components/tables/StickyHeadTable.jsx:47-48 | the delta key is the truthy `source` or `''` |
| StickyTable.NullKeysLast | frontend/src/components/tables/StickyHeadTable.jsx:54-55 | a null key sorts after a defined one in both directions; two null keys compare as 1 both ways |
| StickyTable.PresentKeysOrder | frontend/src/components/tables/StickyHeadTable.jsx:57-59 | ascending gives -1, 1 or 0 by `<`; descending negates it |
| StickyTable.DeltaColumnKeys | frontend/src/components/tables/StickyHeadTable.jsx:45-52 | on the delta column both keys are the parsed sources, never null |
| StickyTable.UniformColumns | frontend/src/components/tables/StickyHeadTable.jsx:40-61 | a column other than delta, or a delta column whose every cell parses, has one key per row |
| StickyTable.Insert | frontend/src/components/tables/StickyHeadTable.jsx:41-60 | inserting adds exactly one element |
| StickyTable.Sort | frontend/src/components/tables/StickyHeadTable.jsx:40-41 | the sorted copy is a permutation of the data |
| StickyTable.SortSameElements | frontend/src/components/tables/StickyHeadTable.jsx:40-41 | the sorted copy has the data's length and rows |
| StickyTable.InsertOrdered | frontend/src/components/tables/StickyHeadTable.jsx:54-59 | inserting into an ordered list keeps it ordered |
| StickyTable.SortOrderedBy | frontend/src/components/tables/StickyHeadTable.jsx:40-61 | the sort orders the rows by their key |
| StickyTable.SortOrdered | frontend/src/components/tables/StickyHeadTable.jsx:40-61 | with one key per row, the sorted data is ordered: defined keys by direction, null keys last |
| StickyTable.OrderedPairs | frontend/src/components/tables/StickyHeadTable.jsx:54-59 | in ordered data a null key is followed only by null keys, and no later defined key comes before an earlier one |
| StickyTable.HeaderColumnsUniform | frontend/src/components/tables/StickyHeadTable.jsx:64-70 | every header column has one key per row |
| StickyTable.Slice | frontend/src/components/tables/StickyHeadTable.jsx:168-169 | the slice is at most `count` rows, exactly `count` when available, each the row at its offset |
| StickyTable.PageRows | frontend/src/components/tables/StickyHeadTable.jsx:168-169 | the visible rows are the rows from `page*rpp` on, at most `rpp` of them |
| StickyTable.PagesCover | frontend/src/components/tables/StickyHeadTable.jsx:168-169 | the first k pages are the first `k*rpp` rows |
| StickyTable.EveryRowOnSomePage | frontend/src/components/tables/StickyHeadTable.jsx:168-169 | enough pages together show every row, in order |
| StickyTable.TableBody | frontend/src/components/tables/StickyHeadTable.jsx:167-199 | 'No data' exactly for empty data; otherwise exactly the current page of the sorted copy (PageRows of Sort), so at most rpp rows, all from the data |
| StickyTable.UrlText | frontend/src/components/tables/StickyHeadTable.jsx:110 | up to 40 characters shown as is; longer: the first 37 and `...`, 40 in all |
| StickyTable.RenderCell | frontend/src/components/tables/StickyHeadTable.jsx:72-137 | `-` exactly for null, undefined or `''`; a url string links to itself with UrlText as its text, at most 40 characters; booleans as Yes/No |
| StickyTable.NextSort | frontend/src/components/tables/StickyHeadTable.jsx:24-28 | orderBy becomes the column; descending iff it was that column ascending |
| StickyTable.SortToggleCycle | frontend/src/components/tables/StickyHeadTable.jsx:24-28 | two requests on one column toggle ascending, descending, ascending |
| StickyTable.TableState.constructor | frontend/src/components/tables/StickyHeadTable.jsx:19-22 | page 0, 10 rows, by name, ascending |
| StickyTable.TableState.HandleRequestSort | frontend/src/components/tables/StickyHeadTable.jsx:24-28 | the sort becomes NextSort of the old; page and size kept |
| StickyTable.TableState.HandleChangePage | frontend/src/components/tables/StickyHeadTable.jsx:30-32 | only the page changes |
| StickyTable.TableState.HandleChangeRowsPerPage | frontend/src/components/tables/StickyHeadTable.jsx:34-37 | sets the size and resets the page to 0; sort kept |
| DetailTable.DeltaData | frontend/src/components/tables/CollapsibleTable.jsx:44-51 | `{}` for a falsy delta, the parsed value when it parses, `{error:'Invalid JSON'}` otherwise |
| DetailTable.FormatDate | frontend/src/components/tables/CollapsibleTable.jsx:54-61 | `-` exactly for a falsy date, else the local date |
| DetailTable.FormatValue | frontend/src/components/tables/CollapsibleTable.jsx:64-69 | `-` exactly for null, undefined or `''`; Yes/No; objects pretty-printed; other values unchanged |
| DetailTable.DeltaCellDash | frontend/src/components/tables/CollapsibleTable.jsx:44-69 | when the delta line shows `-` |
| DetailTable.MetaFields | frontend/src/components/tables/CollapsibleTable.jsx:72-78 | exactly the keys other than delta, children and source whose value is not null |
| DetailTable.UndefinedIsListed | frontend/src/components/tables/CollapsibleTable.jsx:72-78 | an undefined value is listed and shown as `-` |
| DetailTable.ExpandDisabledExactly | frontend/src/components/tables/CollapsibleTable.jsx:86-90 | the button is disabled iff every key is excluded or null |
| DetailTable.MetaLines | frontend/src/components/tables/CollapsibleTable.jsx:130-147 | one line per key, with its label and formatted value |
| DetailTable.DetailLines | frontend/src/components/tables/CollapsibleTable.jsx:112-147 | the Delta line first, then one line per meta field in order |
| DetailTable.OrDash | frontend/src/components/tables/CollapsibleTable.jsx:94-100 | a truthy value as is, else `-` |
| DetailTable.MainRow | frontend/src/components/tables/CollapsibleTable.jsx:94-100 | rendering fails iff the delta data is nullish; otherwise last-updated and company come from it |
| DetailTable.NoDeltaShowsDashes | frontend/src/components/tables/CollapsibleTable.jsx:44-100 | with no delta, both delta cells show `-` |
| DetailTable.TableBody | frontend/src/components/tables/CollapsibleTable.jsx:159-184 | 'No data available' exactly for missing or empty data; otherwise one row per element |
| DetailTable.RowState.constructor | frontend/src/components/tables/CollapsibleTable.jsx:104 | starts closed |
| DetailTable.RowState.Click | frontend/src/components/tables/CollapsibleTable.jsx:86-90 | toggles `open` unless the button is disabled; never opens a row with nothing to show |
| MetadataTable.MainRowData | frontend/src/components/CollapsibleTable.jsx:22-25 | exactly the entries whose key is a main field |
| MetadataTable.MetaFields | frontend/src/components/CollapsibleTable.jsx:28 | exactly the keys not in mainFields whose value is not null |
| MetadataTable.MainAndMetaPartition | frontend/src/components/CollapsibleTable.jsx:22-28 | a meta key is never a main key; every non-null key is one or the other |
| MetadataTable.ShowExpandButton | frontend/src/components/CollapsibleTable.jsx:54-62 | the button shows exactly when there are meta fields |
| MetadataTable.ParseDelta | frontend/src/components/CollapsibleTable.jsx:41-48 | null for falsy input, the parsed value, or `{error:'Invalid JSON'}` |
| MetadataTable.MetaValue | frontend/src/components/CollapsibleTable.jsx:87-115 | delta: `-` iff the parse is falsy, else pretty-printed; Yes/No; `-` for null or undefined; otherwise as is |
| MetadataTable.InvalidDeltaShown | frontend/src/components/CollapsibleTable.jsx:41-103 | an unparsable delta shows the Invalid JSON object |
| MetadataTable.DeltaDash | frontend/src/components/CollapsibleTable.jsx:91-103 | when the delta line shows `-` |
| MetadataTable.MetaLines | frontend/src/components/CollapsibleTable.jsx:87-123 | one line per key with its label and value |
| MetadataTable.Metadata | frontend/src/components/CollapsibleTable.jsx:87-123 | one line per meta field, headed by its label and showing its MetaValue (delta, Yes/No, `-` formatting); never a raw null or undefined |
| MetadataTable.FormatDate | frontend/src/components/CollapsibleTable.jsx:31-38 | `-` exactly for a falsy date |
| MetadataTable.OrDash | frontend/src/components/CollapsibleTable.jsx:64-76 | a truthy value as is, else `-` |
| MetadataTable.MainRow | frontend/src/components/CollapsibleTable.jsx:64-76 | a View link iff the url is truthy; dates formatted |
| MetadataTable.RowState.constructor | frontend/src/components/CollapsibleTable.jsx:80 | starts closed |
| MetadataTable.RowState.Click | frontend/src/components/CollapsibleTable.jsx:54-62 | the button, shown only with meta fields, toggles `open` |
| MetadataTable.RowState.Expanded | frontend/src/components/CollapsibleTable.jsx:80-123 | closed shows nothing; open shows the metadata lines |
| Base64Url.IndexChar | backend/integrations/hubspot.py:38 | the alphabet maps each index to a character that decodes back to it and is not `=` |
| Base64Url.EncodeBlock | backend/integrations/hubspot.py:38 | three bytes give four unpadded characters |
| Base64Url.Encode | backend/integrations/hubspot.py:38 | the encoding is padded to a multiple of 4: `4*ceil(n/3)` characters |
| Base64Url.DecodeQuad | backend/integrations/hubspot.py:77 | a quad decodes to 1 to 3 bytes |
| Base64Url.Decode | backend/integrations/hubspot.py:77 | only padded text decodes |
| Base64Url.DecodeEncode | backend/integrations/hubspot.py:38-77 | decoding the encoding gives back the bytes |
| Base64Url.EncodeAlphabet | backend/integrations/hubspot.py:38 | the encoding uses only the URL-safe alphabet and `=` |
| HubSpotItems.TrimStart | backend/integrations/hubspot.py:153 | removes exactly the leading run of dropped characters |
| HubSpotItems.TrimEnd | backend/integrations/hubspot.py:153 | removes exactly the trailing run of dropped characters |
| HubSpotItems.Strip | backend/integrations/hubspot.py:153 | the stripped text neither starts nor ends with whitespace |
| HubSpotItems.StripBlank | backend/integrations/hubspot.py:153 | stripping gives `''` iff the text is all whitespace |
| HubSpotItems.RStripZ | backend/integrations/hubspot.py:156-157 | removes exactly the trailing run of `Z`s |
| HubSpotItems.RStripZExtraZ | backend/integrations/hubspot.py:156-157 | an extra trailing `Z` changes nothing |
| HubSpotItems.FullName | backend/integrations/hubspot.py:151-153 | the name is None exactly when the stripped `first last` is empty and the email is null; it differs from the stripped `first last` only when that is empty |
| HubSpotItems.NameFromNames | backend/integrations/hubspot.py:151-153 | a non-blank `first last` gives the stripped name |
| HubSpotItems.NameFallbacks | backend/integrations/hubspot.py:151-153 | when `first last` is all whitespace: the email, None for a null email, or 'Unnamed Contact' without one |
| HubSpotItems.BlankNameUsesEmail | backend/integrations/hubspot.py:151-153 | a whitespace-only first name and no last name give the email |
| HubSpotItems.NullNamesGiveNoneNone | backend/integrations/hubspot.py:151-153 | null first and last names give the name 'None None' (see Findings) |
| HubSpotItems.IntendedNameFallsBackToEmail | backend/integrations/hubspot.py:151-153 | corrected: null or empty names fall back to the email |
| HubSpotItems.DeltaKeys | backend/integrations/hubspot.py:169-173 | the delta has exactly source='hubspot', last_updated and company, in that order |
| HubSpotItems.Timestamp | backend/integrations/hubspot.py:156-157 | None when missing or empty; otherwise parses the text without trailing `Z`s, failing iff that is not ISO |
| HubSpotItems.CreateItem | backend/integrations/hubspot.py:134-174 | fails iff a timestamp fails; url is the contact prefix plus id, fixed mime type, given type, name, delta and times |
| HubSpotItems.Delta | backend/integrations/hubspot.py:169-173 | the delta is an object of three fields (contents in DeltaKeys) |
| HubSpotItems.Surface | backend/integrations/hubspot.py:249-254 | the status that leaves the handler is 400 or 500 |
| HubSpotItems.GetItemsSpec | backend/integrations/hubspot.py:176-254 | a raise carries the surfaced status, 400 or 500; items come only after the credentials check passed and every page was fetched |
| HubSpotItems.Collect | backend/integrations/hubspot.py:241-244 | a list comprehension whose call may raise: one result per element in order, or a failing element exists |
| HubSpotItems.MakeItems | backend/integrations/hubspot.py:241-244 | one item per contact, in order, of type 'Contact'; fails only where some contact fails |
| HubSpotItems.MissingTokenReported500 | backend/integrations/hubspot.py:194-254 | as written, a missing token is raised as 400 but reaches the caller as 500, and so does every page status (see Findings) |
| HubSpotItems.SurfaceIntended | backend/integrations/hubspot.py:194-254 | corrected: a raised HTTPException keeps its status |
| HubSpotItems.FetchFrom | backend/integrations/hubspot.py:210-238 | the loop from page i uses at least one page and no more than there are |
| HubSpotItems.FetchGathersAll | backend/integrations/hubspot.py:215-238 | contacts are every fetched page's results in order; all but the last page continue; the last stops without failure |
| HubSpotItems.FetchFailsAtFailure | backend/integrations/hubspot.py:219-226 | a failure comes from the last fetched page; all before it continued |
| HubSpotItems.ItemsFromEveryPage | backend/integrations/hubspot.py:210-247 | the items are one per contact of every fetched page, in fetch order |
| HubSpotItems.FetchAll | backend/integrations/hubspot.py:210-238 | the loop computes the reference result; the j-th request carries `after` only when the previous cursor is truthy |
| HubSpotItems.GetItems | backend/integrations/hubspot.py:176-254 | the outcome is the reference outcome; a credentials failure sends no request |
| HubSpotOAuth.PyText | backend/integrations/hubspot.py:59 | an f-string writes a string as itself and None as `None` |
| HubSpotOAuth.PyGet | backend/integrations/hubspot.py:79-81 | `dict.get` never gives undefined: a missing key reads as None |
| HubSpotOAuth.StateKey | backend/integrations/hubspot.py:59 | the key starts with `hubspot_state:` |
| HubSpotOAuth.CredentialsKey | backend/integrations/hubspot.py:110 | the key starts with `hubspot_credentials:` |
| HubSpotOAuth.StateData | backend/integrations/hubspot.py:33-37 | a dict with exactly the keys state, user_id and org_id |
| HubSpotOAuth.EncodedState | backend/integrations/hubspot.py:38 | the encoded state is padded base64url text, a multiple of 4 long |
| HubSpotOAuth.AuthUrl | backend/integrations/hubspot.py:47 | the URL ends with the encoded state |
| HubSpotOAuth.NatText | backend/integrations/hubspot.py:59 | a number's text is non-empty |
| HubSpotOAuth.KeysDistinct | backend/integrations/hubspot.py:59-110 | state, verifier and credentials keys never coincide |
| HubSpotOAuth.AfterAuthorize | backend/integrations/hubspot.py:57-61 | the state JSON and the verifier are stored under their keys; nothing else changes |
| HubSpotOAuth.DecodeState | backend/integrations/hubspot.py:76-77 | a decoded state is always a dict |
| HubSpotOAuth.Callback | backend/integrations/hubspot.py:68-119 | a 400 never changes the store; closing the window needs a token |
| HubSpotOAuth.CallbackRejectsError | backend/integrations/hubspot.py:72-73 | an `error` parameter gives 400 with that detail and no change |
| HubSpotOAuth.CallbackRejectsUnsavedState | backend/integrations/hubspot.py:83-86 | a missing or empty saved state for the org and user gives 400 and no change |
| HubSpotOAuth.CallbackRejectsMismatch | backend/integrations/hubspot.py:88-90 | a nonce differing from the saved one gives 400 and no change |
| HubSpotOAuth.CallbackAccepts | backend/integrations/hubspot.py:92-119 | when the checks pass, the state key is deleted and the token stored under the credentials key |
| HubSpotOAuth.CallbackSuccess | backend/integrations/hubspot.py:83-119 | a closed window means a saved state with the same nonce was consumed, credentials stored, other keys unchanged |
| HubSpotOAuth.TakeCredentials | backend/integrations/hubspot.py:121-132 | 400 exactly for a missing or empty value; a read deletes the key; an error leaves the store |
| HubSpotOAuth.ReadOnce | backend/integrations/hubspot.py:126-130 | after a successful read a second read fails with 400 |
| HubSpotOAuth.DecodeReturnedState | backend/integrations/hubspot.py:38-77 | the encoded state decodes back to the state data |
| HubSpotOAuth.StateDataIds | backend/integrations/hubspot.py:33-81 | the ids read from the state are the ids written |
| HubSpotOAuth.AuthorizeThenCallback | backend/integrations/hubspot.py:28-132 | authorize, then a callback with the returned state, closes the window; credentials read once, then 400 |
| HubSpotOAuth.Store.constructor | backend/integrations/hubspot.py:59 | a store holding the given map |
| HubSpotOAuth.Store.Authorize | backend/integrations/hubspot.py:28-64 | the store after authorising and the URL carrying the encoded state |
| HubSpotOAuth.Store.OAuthCallback | backend/integrations/hubspot.py:68-119 | reply and new store are those of the callback |
| HubSpotOAuth.Store.GetCredentials | backend/integrations/hubspot.py:121-132 | reply and new store are those of the credentials read |

## Left out

- HTTP (axios, httpx, requests), Redis and the browser (`window.open`, `setInterval`, `alert`) are I/O. Answers are inputs, the store is a map and the poll is a tick sequence.
- Redis key expiry (600 seconds) is not modelled: keys live until deleted.
- `asyncio.gather` and other concurrency: each handler is one sequential step. The state delete and the token request of the callback happen together in the source; here the delete comes first.
- JSON, UTF-8, `datetime.fromisoformat` and `toLocaleString` are parameters, not implementations. Item times hold the text handed to `fromisoformat`, not a datetime.
- `secrets`, SHA-256 and the PKCE challenge are foreign, and the challenge is never sent. The nonce and verifier are inputs.
- The debug `temp_auth_url` comparison and all logging have no effect and are left out.
- JSX markup, MUI, styling, `MuiRowRadioButtonsGroup` and `config.py` are presentation or a thin wrapper, and are left out.
- Js: JavaScript object key order is insertion order. Integer-like keys, which engines list first, and prototype keys are not modelled.
- Js: numbers are integers. Floating point and NaN are not modelled.
- StickyTable.Less: only two numbers, two strings or two booleans are ordered. `<` across kinds (string against number) and on arrays or objects, which JavaScript compares through their string forms, is false here. Strings are compared by code point, while JavaScript compares UTF-16 code units; the two differ for characters above U+FFFF against U+E000 to U+FFFF.
- StickyTable.Sort: the engine's `Array.prototype.sort` algorithm is foreign. It is modelled as a stable insertion sort driven by the source comparator. The ordering is proved only when each row has one key, because the comparator is not a total order on null keys and delta parse failures.
- StickyTable.RenderCell: rendering an object in the default cell, or a url cell holding an array, throws in the source. Here the cell holds the value itself: `Plain`, or a `Link` whose text is the array.
- MetadataTable.MetaValue: a non-delta object or array value is shown as `AsIs(value)`. React refuses to render an object as a child and throws, so `MetadataTable.RowState.Expanded` does not capture that such a row fails to render.
- MetadataTable.OrDash: an object in a `value || '-'` cell is kept as `AsIs`, where rendering it throws.
- MetadataTable.MainRow: a main-row cell holding an object is kept as `AsIs`, where rendering it throws.
- DetailTable.OrDash: an object in a `value || '-'` cell is kept as `AsIs`, where rendering it throws.
- DetailTable.MainRow: a main-row cell holding an object is kept as `AsIs`, where rendering it throws.
- Labels: upper-casing covers ASCII letters only.
- Base64Url.Decode is strict. Python's `urlsafe_b64decode` silently discards characters outside the alphabet. The round trip is unaffected, since the encoder emits only the alphabet.
- HubSpotOAuth.PyText: ids that are lists or dicts format as placeholders, not as Python's `repr`. Floats are not modelled.
- HubSpotOAuth.Callback: Python dict equality ignores key order, but the model compares nonces, which are strings, so this does not arise for well-formed states.
- HubSpotOAuth.Callback: the `code` parameter only feeds the token request, which is an input, so the token exchange itself is not modelled. Its failure deletes the state and gives 500.
- HubSpotItems.FetchAll: the loop stops only when the server stops sending cursors. The model requires that some page in the given sequence ends the loop (`Stops`).
- HubSpotItems.Prop: property values are strings or null. Other JSON kinds are not modelled.
- LegacyForm.LegacyFormState.FinishLoad: the failure alert, with the detail or 'Failed to load data', is I/O and is not modelled.

## Findings

The main pipeline (`CreateItem`, `MakeItems`, `GetItems`) follows the code as written. Each corrected definition stands beside it with its intended property proved.

| source | as written | input that shows it | evidently intended | confidence | as-written member | corrected member |
|---|---|---|---|---|---|---|
| backend/integrations/hubspot.py:151-153 | `properties.get('firstname', '')` returns None for a null property, and the f-string writes it as `None` | firstname and lastname both null, email `a@b.c`: the name is `None None` | null names count as empty, so the email is used | high, not executed | HubSpotItems.NullNamesGiveNoneNone | HubSpotItems.IntendedNameFallsBackToEmail |
| backend/integrations/hubspot.py:194-195, 221-226, 253-254 | the final `except Exception` also catches the HTTPExceptions raised inside the `try` and re-raises them as 500 | credentials without `access_token`: raised as 400, reported as 500; a 404 page is also reported as 500 | an HTTPException keeps its status | high, not executed | HubSpotItems.MissingTokenReported500 | HubSpotItems.SurfaceIntended |
