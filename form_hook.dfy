/** `useIntegrationForm`: the seven pieces of state behind the integration
    form and the handlers that overwrite them. Each React setter call is an
    assignment to a field; the setters one handler calls are applied in order
    as one step. */
module FormHook {
  import opened Js

  /** The hook's state as a value, for stating what each handler does. */
  datatype FormSnapshot = FormSnapshot(
    params: Value,
    user: string,
    org: string,
    currType: Option<string>,
    loadedData: Value,
    isLoading: bool,
    error: Option<string>)

  /** `useState(...)` initial values. */
  function Initial(): FormSnapshot
  {
    FormSnapshot(Obj([]), "TestUser", "TestOrg", None, Null, false, None)
  }

  /** `resetForm`: empty params, no data, no error. */
  function AfterReset(s: FormSnapshot): FormSnapshot
  {
    s.(params := Obj([]), loadedData := Null, error := None)
  }

  /** `handleUserChange`: new user, then `resetForm()` and `setCurrType(null)`. */
  function AfterUserChange(s: FormSnapshot, user: string): FormSnapshot
  {
    AfterReset(s.(user := user)).(currType := None)
  }

  /** `handleOrgChange`: new org, then `resetForm()` and `setCurrType(null)`. */
  function AfterOrgChange(s: FormSnapshot, org: string): FormSnapshot
  {
    AfterReset(s.(org := org)).(currType := None)
  }

  /** `handleTypeChange`: `resetForm()`, then the chosen type. */
  function AfterTypeChange(s: FormSnapshot, t: string): FormSnapshot
  {
    AfterReset(s).(currType := Some(t))
  }

  /** `clearData`: no data, no error. */
  function AfterClear(s: FormSnapshot): FormSnapshot
  {
    s.(loadedData := Null, error := None)
  }

  /** An error message and loaded data are never held together. */
  predicate Consistent(s: FormSnapshot)
  {
    s.error.Some? ==> s.loadedData == Null
  }

  /** Resetting twice is resetting once. */
  lemma ResetIdempotent(s: FormSnapshot)
    ensures AfterReset(AfterReset(s)) == AfterReset(s)
  {
  }

  /** A user change replaces the user and clears params, data, error and type;
      org and the loading flag are kept. */
  lemma UserChangeEffect(s: FormSnapshot, user: string)
    ensures var t := AfterUserChange(s, user);
      t.user == user && t.params == Obj([]) && t.loadedData == Null && t.error == None && t.currType == None &&
      t.org == s.org && t.isLoading == s.isLoading
  {
  }

  /** An org change replaces the org and clears params, data, error and type;
      user and the loading flag are kept. */
  lemma OrgChangeEffect(s: FormSnapshot, org: string)
    ensures var t := AfterOrgChange(s, org);
      t.org == org && t.params == Obj([]) && t.loadedData == Null && t.error == None && t.currType == None &&
      t.user == s.user && t.isLoading == s.isLoading
  {
  }

  /** A type change clears params, data and error and selects the type; user and org are kept. */
  lemma TypeChangeEffect(s: FormSnapshot, ty: string)
    ensures var t := AfterTypeChange(s, ty);
      t.currType == Some(ty) && t.params == Obj([]) && t.loadedData == Null && t.error == None &&
      t.user == s.user && t.org == s.org && t.isLoading == s.isLoading
  {
  }

  /** `clearData` touches only data and error. */
  lemma ClearEffect(s: FormSnapshot)
    ensures var t := AfterClear(s);
      t.loadedData == Null && t.error == None &&
      t.params == s.params && t.currType == s.currType && t.user == s.user && t.org == s.org && t.isLoading == s.isLoading
  {
  }

  /** Clearing right after a change handler changes nothing more. */
  lemma ClearAfterChangeIsNoop(s: FormSnapshot, user: string, org: string, ty: string)
    ensures AfterClear(AfterUserChange(s, user)) == AfterUserChange(s, user)
    ensures AfterClear(AfterOrgChange(s, org)) == AfterOrgChange(s, org)
    ensures AfterClear(AfterTypeChange(s, ty)) == AfterTypeChange(s, ty)
  {
  }

  class IntegrationFormState {
    var params: Value
    var user: string
    var org: string
    var currType: Option<string>
    var loadedData: Value
    var isLoading: bool
    var error: Option<string>

    function Snapshot(): FormSnapshot
      reads this
    {
      FormSnapshot(params, user, org, currType, loadedData, isLoading, error)
    }

    constructor ()
      ensures Snapshot() == Initial()
      ensures Consistent(Snapshot())
    {
      params := Obj([]);
      user := "TestUser";
      org := "TestOrg";
      currType := None;
      loadedData := Null;
      isLoading := false;
      error := None;
    }

    method ResetForm()
      modifies this
      ensures Snapshot() == AfterReset(old(Snapshot()))
      ensures Consistent(Snapshot())
    {
      params := Obj([]);
      loadedData := Null;
      error := None;
    }

    method HandleUserChange(value: string)
      modifies this
      ensures Snapshot() == AfterUserChange(old(Snapshot()), value)
      ensures Consistent(Snapshot())
    {
      user := value;
      ResetForm();
      currType := None;
    }

    method HandleOrgChange(value: string)
      modifies this
      ensures Snapshot() == AfterOrgChange(old(Snapshot()), value)
      ensures Consistent(Snapshot())
    {
      org := value;
      ResetForm();
      currType := None;
    }

    method HandleTypeChange(value: string)
      modifies this
      ensures Snapshot() == AfterTypeChange(old(Snapshot()), value)
      ensures Consistent(Snapshot())
    {
      ResetForm();
      currType := Some(value);
    }

    method ClearData()
      modifies this
      ensures Snapshot() == AfterClear(old(Snapshot()))
      ensures Consistent(Snapshot())
    {
      loadedData := Null;
      error := None;
    }

    /** `setIntegrationParams(next)`, as a panel calls it. */
    method SetIntegrationParams(next: Value)
      modifies this
      ensures Snapshot() == old(Snapshot()).(params := next)
      ensures Consistent(old(Snapshot())) ==> Consistent(Snapshot())
    {
      params := next;
    }
  }
}
