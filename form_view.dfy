/** `IntegrationForm` (the component built on `useIntegrationForm`): the
    `handleLoad` transitions and the conditions that decide which alerts,
    buttons and table are shown. `handleLoad` awaits the data service, so it
    is two steps: the part before the request and the part after it. */
module FormView {
  import opened Js
  import opened FormHook
  import IntegrationService

  /** The integration type a request is made for: `integrationParams.type`
      used as a lookup key (a non-string value never names a type). */
  function TypeKey(params: Value): string
  {
    var t := Get(params, "type");
    if t.Str? then t.s else ""
  }

  /** `e.message || 'Failed to load data'` */
  function ErrorText(message: string): (text: string)
    ensures text != ""
    ensures message != "" ==> text == message
  {
    if message != "" then message else "Failed to load data"
  }

  /** The state once the service call has returned: the `try` or the `catch`
      branch, then the `finally`. */
  function AfterLoad(s: FormSnapshot, outcome: Result<seq<Value>>): (t: FormSnapshot)
    ensures !t.isLoading
    ensures t.params == s.params && t.user == s.user && t.org == s.org && t.currType == s.currType
    ensures outcome.Ok? ==> t.loadedData == Arr(outcome.value) && t.error == None
    ensures outcome.Err? ==> t.loadedData == Null && t.error == Some(ErrorText(outcome.message))
    ensures Consistent(t)
  {
    match outcome
    case Ok(data) => s.(loadedData := Arr(data), error := None, isLoading := false)
    case Err(m) => s.(error := Some(ErrorText(m)), loadedData := Null, isLoading := false)
  }

  /** `!currType`: the "select an integration type" alert. */
  predicate ShowTypeAlert(s: FormSnapshot)
  {
    s.currType.None? || s.currType.value == ""
  }

  /** The button row is rendered when a type is chosen and credentials are present. */
  predicate ShowActions(s: FormSnapshot)
  {
    !ShowTypeAlert(s) && Truthy(Get(s.params, "credentials"))
  }

  predicate ShowLoadingButton(s: FormSnapshot)
  {
    ShowActions(s) && s.isLoading
  }

  predicate ShowLoadButton(s: FormSnapshot)
  {
    ShowActions(s) && !s.isLoading && (!Truthy(s.loadedData) || Truthy(Get(s.loadedData, "error")))
  }

  predicate ShowClearButton(s: FormSnapshot)
  {
    ShowActions(s) && Truthy(s.loadedData) && !Truthy(Get(s.loadedData, "error"))
  }

  predicate ShowErrorAlert(s: FormSnapshot)
  {
    s.error.Some? && s.error.value != ""
  }

  /** `loadedData?.length > 0` */
  predicate ShowTable(s: FormSnapshot)
  {
    (s.loadedData.Arr? && |s.loadedData.items| > 0) || (s.loadedData.Str? && |s.loadedData.s| > 0)
  }

  /** With the button row shown and no request running, exactly one of Load and Clear is offered. */
  lemma LoadXorClear(s: FormSnapshot)
    requires ShowActions(s) && !s.isLoading
    ensures ShowLoadButton(s) != ShowClearButton(s)
  {
  }

  /** The error alert and the table are never shown together. */
  lemma ErrorHidesTable(s: FormSnapshot)
    requires Consistent(s)
    ensures !(ShowErrorAlert(s) && ShowTable(s))
  {
  }

  /** After a change handler neither data, nor table, nor error is shown. */
  lemma ChangeHidesResults(s: FormSnapshot, v: string)
    ensures var t := AfterTypeChange(s, v); !ShowTable(t) && !ShowErrorAlert(t) && !ShowClearButton(t)
    ensures var t := AfterUserChange(s, v); !ShowTable(t) && !ShowErrorAlert(t) && ShowTypeAlert(t)
    ensures var t := AfterOrgChange(s, v); !ShowTable(t) && !ShowErrorAlert(t) && ShowTypeAlert(t)
  {
  }

  /** A load the service accepts shows the table and the Clear button, and no error. */
  lemma SuccessfulLoadShowsTable(s: FormSnapshot, integrationType: string, credentials: Value, response: Result<Value>)
    requires IntegrationService.LoadIntegrationData(integrationType, credentials, response).Ok?
    requires ShowActions(s)
    ensures var t := AfterLoad(s, IntegrationService.LoadIntegrationData(integrationType, credentials, response));
      ShowTable(t) && ShowClearButton(t) && !ShowLoadButton(t) && !ShowErrorAlert(t)
  {
  }

  /** A failed load shows the error and offers Load again. */
  lemma FailedLoadOffersRetry(s: FormSnapshot, message: string)
    requires ShowActions(s)
    ensures var t := AfterLoad(s, Err(message)); ShowErrorAlert(t) && ShowLoadButton(t) && !ShowTable(t)
  {
  }

  /** The part of `handleLoad` before the request: without a type nothing
      happens; otherwise the form is marked loading and the request's
      arguments are returned. */
  method BeginLoad(f: IntegrationFormState) returns (request: Option<(string, Value)>)
    modifies f
    ensures !Truthy(Get(old(f.params), "type")) ==> request == None && f.Snapshot() == old(f.Snapshot())
    ensures Truthy(Get(old(f.params), "type")) ==>
      request == Some((TypeKey(f.params), Get(f.params, "credentials"))) &&
      f.Snapshot() == old(f.Snapshot()).(isLoading := true)
  {
    if !Truthy(Get(f.params, "type")) {
      request := None;
      return;
    }
    f.isLoading := true;
    request := Some((TypeKey(f.params), Get(f.params, "credentials")));
  }

  /** The part after the request returned or threw. */
  method FinishLoad(f: IntegrationFormState, outcome: Result<seq<Value>>)
    modifies f
    ensures f.Snapshot() == AfterLoad(old(f.Snapshot()), outcome)
  {
    match outcome {
      case Ok(data) =>
        f.loadedData := Arr(data);
        f.error := None;
      case Err(m) =>
        f.error := Some(ErrorText(m));
        f.loadedData := Null;
    }
    f.isLoading := false;
  }

  /** `handleLoad` as one run: `response` is what the server answers to the
      request; `loadingDuringRequest` is the flag while the request runs. */
  method HandleLoad(f: IntegrationFormState, response: Result<Value>)
    returns (requested: bool, ghost loadingDuringRequest: bool)
    modifies f
    ensures requested <==> Truthy(Get(old(f.params), "type"))
    ensures !requested ==> f.Snapshot() == old(f.Snapshot())
    ensures requested ==> loadingDuringRequest
    ensures requested ==> f.Snapshot() == AfterLoad(old(f.Snapshot()),
      IntegrationService.LoadIntegrationData(TypeKey(old(f.params)), Get(old(f.params), "credentials"), response))
  {
    var request := BeginLoad(f);
    loadingDuringRequest := f.isLoading;
    requested := request.Some?;
    if requested {
      var outcome := IntegrationService.LoadIntegrationData(request.value.0, request.value.1, response);
      FinishLoad(f, outcome);
    }
  }
}
