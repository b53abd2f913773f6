/** HubSpot contacts as integration items (backend/integrations/hubspot.py):
    `create_integration_item_metadata_object` and the paging loop of
    `get_items_hubspot`. Each HTTP page is an input; `json.loads` and the
    ISO-8601 check of `datetime.fromisoformat` are parameters. */
module HubSpotItems {
  import opened Js

  /** A contact property as the API returns it: a string or null. */
  datatype Prop = PStr(s: string) | PNull

  /** A raw contact; None stands for a missing or null field. */
  datatype Contact = Contact(
    id: Option<string>,
    properties: map<string, Prop>,
    createdAt: Option<string>,
    updatedAt: Option<string>)

  /** `str(x)` of a property value, as an f-string writes it. */
  function PyFormat(p: Prop): string
  {
    match p
    case PStr(s) => s
    case PNull => "None"
  }

  /** `properties.get(key, '')` */
  function PropOrEmpty(props: map<string, Prop>, key: string): Prop
  {
    if key in props then props[key] else PStr("")
  }

  /** The characters Python's `str.strip()` removes. */
  predicate IsSpace(c: char)
  {
    var n := c as int;
    (9 <= n <= 13) || (28 <= n <= 32) || n == 133 || n == 160 || n == 5760 ||
    (8192 <= n <= 8202) || n == 8232 || n == 8233 || n == 8239 || n == 8287 || n == 12288
  }

  /** Drop leading characters satisfying `drop`. */
  function TrimStart(s: string, drop: char -> bool): (r: string)
    ensures |r| <= |s| && r == s[|s| - |r|..]
    ensures r == [] || !drop(r[0])
    ensures forall i :: 0 <= i < |s| - |r| ==> drop(s[i])
  {
    if s != [] && drop(s[0]) then TrimStart(s[1..], drop) else s
  }

  /** Drop trailing characters satisfying `drop`. */
  function TrimEnd(s: string, drop: char -> bool): (r: string)
    ensures |r| <= |s| && r == s[..|r|]
    ensures r == [] || !drop(r[|r| - 1])
    ensures forall i :: |r| <= i < |s| ==> drop(s[i])
  {
    if s != [] && drop(s[|s| - 1]) then TrimEnd(s[..|s| - 1], drop) else s
  }

  /** `s.strip()` */
  function Strip(s: string): (r: string)
    ensures r == [] || (!IsSpace(r[0]) && !IsSpace(r[|r| - 1]))
    ensures |r| <= |s|
  {
    TrimEnd(TrimStart(s, IsSpace), IsSpace)
  }

  /** Stripping gives the empty string exactly for all-whitespace text. */
  lemma StripBlank(s: string)
    ensures Strip(s) == "" <==> forall i :: 0 <= i < |s| ==> IsSpace(s[i])
  {
    var t := TrimStart(s, IsSpace);
    if t != [] {
      assert s[|s| - |t|] == t[0] && !IsSpace(t[0]);
      assert TrimEnd(t, IsSpace) != [];
    }
  }

  /** `s.rstrip('Z')` */
  function RStripZ(s: string): (r: string)
    ensures |r| <= |s| && r == s[..|r|]
    ensures r == [] || r[|r| - 1] != 'Z'
    ensures forall i :: |r| <= i < |s| ==> s[i] == 'Z'
  {
    TrimEnd(s, c => c == 'Z')
  }

  /** A trailing `Z` makes no difference to the text parsed. */
  lemma RStripZExtraZ(s: string)
    ensures RStripZ(s + "Z") == RStripZ(s)
  {
    assert (s + "Z")[..|s|] == s;
  }

  /** The item name: the stripped `"first last"`, else the `email` property
      (None when it is null), else `'Unnamed Contact'`. */
  function FullName(props: map<string, Prop>): (name: Option<string>)
    ensures var joined := Strip(PyFormat(PropOrEmpty(props, "firstname")) + " " + PyFormat(PropOrEmpty(props, "lastname")));
      name.None? <==> joined == "" && "email" in props && props["email"] == PNull
    ensures var joined := Strip(PyFormat(PropOrEmpty(props, "firstname")) + " " + PyFormat(PropOrEmpty(props, "lastname")));
      name.Some? && name.value != joined ==> joined == ""
  {
    var joined := Strip(PyFormat(PropOrEmpty(props, "firstname")) + " " + PyFormat(PropOrEmpty(props, "lastname")));
    if joined != "" then Some(joined)
    else if "email" in props then (match props["email"] case PStr(e) => Some(e) case PNull => None)
    else Some("Unnamed Contact")
  }

  /** The name is the trimmed full name whenever the contact has a non-blank one. */
  lemma NameFromNames(props: map<string, Prop>, first: string, last: string)
    requires PropOrEmpty(props, "firstname") == PStr(first) && PropOrEmpty(props, "lastname") == PStr(last)
    requires exists i :: 0 <= i < |first + " " + last| && !IsSpace((first + " " + last)[i])
    ensures FullName(props) == Some(Strip(first + " " + last))
    ensures FullName(props).value != "" && !IsSpace(FullName(props).value[0])
  {
    StripBlank(first + " " + last);
  }

  /** Without usable first and last names the email is the name, and
      without an email the name is `'Unnamed Contact'`. */
  lemma NameFallbacks(props: map<string, Prop>)
    requires var text := PyFormat(PropOrEmpty(props, "firstname")) + " " + PyFormat(PropOrEmpty(props, "lastname"));
      forall i :: 0 <= i < |text| ==> IsSpace(text[i])
    ensures "email" in props && props["email"].PStr? ==> FullName(props) == Some(props["email"].s)
    ensures "email" in props && props["email"].PNull? ==> FullName(props) == None
    ensures "email" !in props ==> FullName(props) == Some("Unnamed Contact")
  {
    StripBlank(PyFormat(PropOrEmpty(props, "firstname")) + " " + PyFormat(PropOrEmpty(props, "lastname")));
  }

  /** A whitespace-only first name and no last name leave the email as the name. */
  lemma BlankNameUsesEmail()
    ensures FullName(map["firstname" := PStr("  "), "email" := PStr("a@b.c")]) == Some("a@b.c")
  {
    var props := map["firstname" := PStr("  "), "email" := PStr("a@b.c")];
    var text := PyFormat(PropOrEmpty(props, "firstname")) + " " + PyFormat(PropOrEmpty(props, "lastname"));
    assert text == "   ";
    NameFallbacks(props);
  }

  /** As written, null first and last names format as `"None None"`, so the
      email is never reached. */
  lemma NullNamesGiveNoneNone()
    ensures FullName(map["firstname" := PNull, "lastname" := PNull, "email" := PStr("a@b.c")]) == Some("None None")
  {
    var props := map["firstname" := PNull, "lastname" := PNull, "email" := PStr("a@b.c")];
    assert PyFormat(PropOrEmpty(props, "firstname")) + " " + PyFormat(PropOrEmpty(props, "lastname")) == "None None";
    StripUnchanged("None None");
  }

  /** Text that neither starts nor ends with whitespace is its own strip. */
  lemma StripUnchanged(s: string)
    requires s != [] && !IsSpace(s[0]) && !IsSpace(s[|s| - 1])
    ensures Strip(s) == s
  {
  }

  /** A null property read as the empty string, as the `''` default intends. */
  function NameText(p: Prop): string
  {
    match p
    case PStr(s) => s
    case PNull => ""
  }

  /** The name with null names treated as absent. */
  function FullNameIntended(props: map<string, Prop>): (name: Option<string>)
  {
    var joined := Strip(NameText(PropOrEmpty(props, "firstname")) + " " + NameText(PropOrEmpty(props, "lastname")));
    if joined != "" then Some(joined)
    else if "email" in props then (match props["email"] case PStr(e) => Some(e) case PNull => None)
    else Some("Unnamed Contact")
  }

  /** With the correction, a contact whose names are null or missing is named by its email. */
  lemma IntendedNameFallsBackToEmail(props: map<string, Prop>, email: string)
    requires PropOrEmpty(props, "firstname") in {PNull, PStr("")}
    requires PropOrEmpty(props, "lastname") in {PNull, PStr("")}
    requires "email" in props && props["email"] == PStr(email)
    ensures FullNameIntended(props) == Some(email)
  {
    assert NameText(PropOrEmpty(props, "firstname")) + " " + NameText(PropOrEmpty(props, "lastname")) == " ";
    StripBlank(" ");
  }

  /** An item as `IntegrationItem` receives it. Times hold the text handed to
      `datetime.fromisoformat`, standing for the datetime it denotes. */
  datatype Item = Item(
    id: Option<string>,
    kind: string,
    name: Option<string>,
    creationTime: Option<string>,
    lastModifiedTime: Option<string>,
    url: string,
    mimeType: string,
    delta: Value)

  const ContactUrlPrefix: string := "https://app.hubspot.com/contacts/contacts/"
  const ContactMimeType: string := "application/vnd.hubspot.contact"

  /** `f"{contact_id}"` */
  function IdText(id: Option<string>): string
  {
    if id.Some? then id.value else "None"
  }

  /** A JSON value for an optional string: null when absent. */
  function OptText(v: Option<string>): Value
  {
    if v.Some? then Str(v.value) else Null
  }

  /** The object `json.dumps` writes into `delta`. */
  function Delta(c: Contact): (d: Value)
    ensures d.Obj? && |d.fields| == 3
  {
    var company := if "company" in c.properties && c.properties["company"].PStr? then Str(c.properties["company"].s) else Null;
    Obj([Field("source", Str("hubspot")), Field("last_updated", OptText(c.updatedAt)), Field("company", company)])
  }

  /** The delta has exactly the keys source, last_updated and company. */
  lemma DeltaKeys(c: Contact)
    ensures Delta(c).Obj? && Keys(Delta(c).fields) == ["source", "last_updated", "company"]
    ensures Get(Delta(c), "source") == Str("hubspot")
    ensures Get(Delta(c), "last_updated") == OptText(c.updatedAt)
    ensures Get(Delta(c), "company") == (if "company" in c.properties then
      (if c.properties["company"].PStr? then Str(c.properties["company"].s) else Null) else Null)
  {
    var f := Delta(c).fields;
    assert f[1..][1..] == [f[2]];
  }

  /** A timestamp: None when missing or empty, else the text without trailing
      `Z`s, which must parse. Err when `fromisoformat` raises. */
  function Timestamp(t: Option<string>, validIso: string -> bool): (r: Result<Option<string>>)
    ensures (t.None? || t.value == "") ==> r == Ok(None)
    ensures t.Some? && t.value != "" ==> (r.Ok? <==> validIso(RStripZ(t.value)))
    ensures r.Ok? && r.value.Some? ==> t.Some? && r.value.value == RStripZ(t.value)
  {
    if t.None? || t.value == "" then Ok(None)
    else if validIso(RStripZ(t.value)) then Ok(Some(RStripZ(t.value)))
    else Err("Invalid isoformat string")
  }

  /** `create_integration_item_metadata_object(contact, item_type)` */
  function CreateItem(c: Contact, itemType: string, validIso: string -> bool): (r: Result<Item>)
    ensures r.Err? <==> Timestamp(c.createdAt, validIso).Err? || Timestamp(c.updatedAt, validIso).Err?
    ensures r.Ok? ==> r.value.url == ContactUrlPrefix + IdText(c.id)
    ensures r.Ok? ==> r.value.mimeType == ContactMimeType && r.value.kind == itemType && r.value.id == c.id
    ensures r.Ok? ==> r.value.name == FullName(c.properties) && r.value.delta == Delta(c)
    ensures r.Ok? ==> r.value.creationTime == Timestamp(c.createdAt, validIso).value
    ensures r.Ok? ==> r.value.lastModifiedTime == Timestamp(c.updatedAt, validIso).value
  {
    match (Timestamp(c.createdAt, validIso), Timestamp(c.updatedAt, validIso))
    case (Ok(created), Ok(modified)) =>
      Ok(Item(c.id, itemType, FullName(c.properties), created, modified,
        ContactUrlPrefix + IdText(c.id), ContactMimeType, Delta(c)))
    case (Err(m), _) => Err(m)
    case (_, Err(m)) => Err(m)
  }

  /** `[f(x) for x in xs]` where `f` may raise: None when some call fails. */
  function Collect<T, U>(xs: seq<T>, f: T -> Result<U>): (r: Option<seq<U>>)
    ensures r.None? ==> exists i :: 0 <= i < |xs| && f(xs[i]).Err?
    ensures r.Some? ==> |r.value| == |xs|
    ensures r.Some? ==> forall i :: 0 <= i < |xs| ==> f(xs[i]) == Ok(r.value[i])
  {
    if xs == [] then Some([])
    else
      var head := f(xs[0]);
      if head.Err? then None
      else
        var rest := Collect(xs[1..], f);
        if rest.None? then
          var i :| 0 <= i < |xs| - 1 && f(xs[1..][i]).Err?;
          assert xs[1..][i] == xs[i + 1];
          None
        else
          var r := [head.value] + rest.value;
          assert forall i :: 0 < i < |xs| ==> xs[1..][i - 1] == xs[i] && r[i] == rest.value[i - 1];
          Some(r)
  }

  /** One item per contact, in order, with the default type `'Contact'`; None
      when some contact's timestamp does not parse. */
  function MakeItems(contacts: seq<Contact>, validIso: string -> bool): (r: Option<seq<Item>>)
    ensures r.None? ==> exists i :: 0 <= i < |contacts| && CreateItem(contacts[i], "Contact", validIso).Err?
    ensures r.Some? ==> |r.value| == |contacts|
    ensures r.Some? ==> forall i :: 0 <= i < |contacts| ==> CreateItem(contacts[i], "Contact", validIso) == Ok(r.value[i])
  {
    Collect(contacts, c => CreateItem(c, "Contact", validIso))
  }

  /** One page of `/crm/v3/objects/contacts`: `results` and `paging.next`
      (None when there is no `next`; `next` without `after` is Some(None)). */
  datatype PageBody = PageBody(results: seq<Contact>, next: Option<Option<string>>)

  /** What one `requests.get` gives: a connection error, or a status and a
      body that is None when it is not JSON. */
  datatype Fetch = ConnectionFailed | Response(status: int, body: Option<PageBody>)

  /** What went wrong, in the order the code can meet it. */
  datatype Failure =
    | BadCredentialsJson
    | CredentialsNotObject
    | MissingToken
    | ConnectError
    | PageStatus(code: int)
    | BadPageJson
    | BadTimestamp

  /** The status of the `HTTPException` that leaves `get_items_hubspot`. The
      `except Exception` clause turns the 400 for a missing token and the
      page's own status into 500. A body that is not JSON raises a
      `JSONDecodeError`, which the first clause reports as 400. */
  function Surface(f: Failure): (status: int)
    ensures status == 400 || status == 500
  {
    match f
    case BadCredentialsJson => 400
    case BadPageJson => 400
    case _ => 500
  }

  /** The status an `HTTPException` raised inside the `try` carries. */
  function RaisedStatus(f: Failure): Option<int>
  {
    match f
    case MissingToken => Some(400)
    case PageStatus(code) => Some(code)
    case _ => None
  }

  /** As written, a missing access token reaches the caller as 500, not the 400 raised for it. */
  lemma MissingTokenReported500()
    ensures RaisedStatus(MissingToken) == Some(400) && Surface(MissingToken) == 500
    ensures forall code :: Surface(PageStatus(code)) == 500
  {
  }

  /** The surfaced status with `HTTPException` re-raised unchanged. */
  function SurfaceIntended(f: Failure): (status: int)
    ensures RaisedStatus(f).Some? ==> status == RaisedStatus(f).value
    ensures RaisedStatus(f).None? ==> status == Surface(f)
  {
    match f
    case MissingToken => 400
    case PageStatus(code) => code
    case _ => Surface(f)
  }

  /** The page ends the loop: no `next`, or a `next` whose cursor is falsy, or a failure. */
  predicate Continues(p: Fetch)
  {
    p.Response? && p.status == 200 && p.body.Some? &&
    p.body.value.next.Some? && p.body.value.next.value.Some? && p.body.value.next.value.value != ""
  }

  /** The cursor of a page that continues. */
  function Cursor(p: Fetch): string
    requires Continues(p)
  {
    p.body.value.next.value.value
  }

  /** Some page from `i` on ends the loop: the bound on the server's answers. */
  predicate Stops(pages: seq<Fetch>, i: nat)
  {
    exists k :: i <= k < |pages| && !Continues(pages[k])
  }

  /** Why a fetched page raises, if it does. */
  function PageFailure(p: Fetch): Option<Failure>
  {
    match p
    case ConnectionFailed => Some(ConnectError)
    case Response(status, body) =>
      if body.None? then Some(BadPageJson)
      else if status != 200 then Some(PageStatus(status))
      else None
  }

  datatype Fetched = Fetched(contacts: seq<Contact>, pagesUsed: nat) | FetchFailed(failure: Failure, pagesUsed: nat)

  function Prepend(contacts: seq<Contact>, f: Fetched): Fetched
  {
    match f
    case Fetched(more, n) => Fetched(contacts + more, n)
    case FetchFailed(_, _) => f
  }

  /** The pages fetched from page `i` on, as a reference for the loop. */
  function FetchFrom(pages: seq<Fetch>, i: nat): (r: Fetched)
    requires i <= |pages| && Stops(pages, i)
    ensures i < r.pagesUsed <= |pages|
    decreases |pages| - i
  {
    var p := pages[i];
    match PageFailure(p)
    case Some(f) => FetchFailed(f, i + 1)
    case None =>
      if Continues(p) then Prepend(p.body.value.results, FetchFrom(pages, i + 1))
      else Fetched(p.body.value.results, i + 1)
  }

  /** `data.get('results', [])` of a page fetched without failure. */
  function ResultsOf(p: Fetch): seq<Contact>
  {
    if p.Response? && p.body.Some? then p.body.value.results else []
  }

  /** The results of pages `i .. n-1`, one after the other. */
  function Concat(pages: seq<Fetch>, i: nat, n: nat): seq<Contact>
    requires n <= |pages|
    decreases n - i
  {
    if i >= n then [] else ResultsOf(pages[i]) + Concat(pages, i + 1, n)
  }

  /** A successful fetch gathers every page's results in fetch order; every
      page but the last continued, and the last one ended the loop. */
  lemma {:induction false} FetchGathersAll(pages: seq<Fetch>, i: nat)
    requires i <= |pages| && Stops(pages, i) && FetchFrom(pages, i).Fetched?
    ensures FetchFrom(pages, i).contacts == Concat(pages, i, FetchFrom(pages, i).pagesUsed)
    ensures forall j :: i <= j < FetchFrom(pages, i).pagesUsed - 1 ==> Continues(pages[j])
    ensures !Continues(pages[FetchFrom(pages, i).pagesUsed - 1])
    ensures PageFailure(pages[FetchFrom(pages, i).pagesUsed - 1]).None?
    decreases |pages| - i
  {
    if Continues(pages[i]) {
      FetchGathersAll(pages, i + 1);
    }
  }

  /** A failed fetch stops at the first failing page. */
  lemma {:induction false} FetchFailsAtFailure(pages: seq<Fetch>, i: nat)
    requires i <= |pages| && Stops(pages, i) && FetchFrom(pages, i).FetchFailed?
    ensures PageFailure(pages[FetchFrom(pages, i).pagesUsed - 1]) == Some(FetchFrom(pages, i).failure)
    ensures forall j :: i <= j < FetchFrom(pages, i).pagesUsed - 1 ==> Continues(pages[j])
    decreases |pages| - i
  {
    if PageFailure(pages[i]).None? && Continues(pages[i]) {
      FetchFailsAtFailure(pages, i + 1);
    }
  }

  /** What `get_items_hubspot` returns or raises. */
  datatype Outcome = Items(items: seq<Item>) | Raised(status: int, failure: Failure)

  function Raise(f: Failure): Outcome
  {
    Raised(Surface(f), f)
  }

  /** Python truthiness of a JSON value. */
  predicate PyTruthy(v: Value)
  {
    !(v == Null || v == Undefined || v == Bool(false) || v == Num(0) || v == Str("") || v == Arr([]) || v == Obj([]))
  }

  /** The credentials check before the loop; None when the loop is reached. */
  function CredentialsFailure(credentials: string, loads: string -> Option<Value>): Option<Failure>
  {
    match loads(credentials)
    case None => Some(BadCredentialsJson)
    case Some(creds) =>
      if !creds.Obj? then Some(CredentialsNotObject)
      else if !PyTruthy(Get(creds, "access_token")) then Some(MissingToken)
      else None
  }

  /** `get_items_hubspot(credentials)` as a reference definition. */
  function GetItemsSpec(credentials: string, loads: string -> Option<Value>, pages: seq<Fetch>,
    validIso: string -> bool): (r: Outcome)
    requires Stops(pages, 0)
    ensures r.Raised? ==> r.status == Surface(r.failure) && (r.status == 400 || r.status == 500)
    ensures r.Items? ==> CredentialsFailure(credentials, loads).None? && FetchFrom(pages, 0).Fetched?
  {
    match CredentialsFailure(credentials, loads)
    case Some(f) => Raise(f)
    case None =>
      match FetchFrom(pages, 0)
      case FetchFailed(f, _) => Raise(f)
      case Fetched(contacts, _) =>
        match MakeItems(contacts, validIso)
        case None => Raise(BadTimestamp)
        case Some(items) => Items(items)
  }

  /** The `after` parameter of the `j`-th request: none on the first, then
      the cursor of the page before. */
  function AfterParam(pages: seq<Fetch>, j: nat): Option<string>
    requires j <= |pages|
  {
    if j == 0 then None
    else if Continues(pages[j - 1]) then Some(Cursor(pages[j - 1]))
    else None
  }

  /** The items come from every fetched page's results, one per contact and in order. */
  lemma ItemsFromEveryPage(credentials: string, loads: string -> Option<Value>, pages: seq<Fetch>,
    validIso: string -> bool)
    requires Stops(pages, 0)
    requires GetItemsSpec(credentials, loads, pages, validIso).Items?
    ensures FetchFrom(pages, 0).Fetched?
    ensures FetchFrom(pages, 0).contacts == Concat(pages, 0, FetchFrom(pages, 0).pagesUsed)
    ensures MakeItems(FetchFrom(pages, 0).contacts, validIso) == Some(GetItemsSpec(credentials, loads, pages, validIso).items)
  {
    FetchGathersAll(pages, 0);
  }

  lemma PrependPrepend(a: seq<Contact>, b: seq<Contact>, f: Fetched)
    ensures Prepend(a, Prepend(b, f)) == Prepend(a + b, f)
  {
    if f.Fetched? {
      assert a + (b + f.contacts) == (a + b) + f.contacts;
    }
  }

  /** The paging loop: `pages[i]` answers the `i`-th request. Returns what
      was gathered or raised, and the `after` parameter of every request. */
  method FetchAll(pages: seq<Fetch>) returns (fetched: Fetched, sent: seq<Option<string>>)
    requires Stops(pages, 0)
    ensures fetched == FetchFrom(pages, 0)
    ensures |sent| == fetched.pagesUsed
    ensures forall j :: 0 <= j < |sent| ==> sent[j] == AfterParam(pages, j)
  {
    sent := [];
    var allContacts: seq<Contact> := [];
    var hasMore := true;
    var after: Option<string> := None;
    var paramAfter: Option<string> := None;
    var i := 0;
    while hasMore
      invariant 0 <= i <= |pages|
      invariant hasMore ==> Stops(pages, i)
      invariant hasMore ==> FetchFrom(pages, 0) == Prepend(allContacts, FetchFrom(pages, i))
      invariant !hasMore ==> FetchFrom(pages, 0) == Fetched(allContacts, i)
      invariant hasMore && i == 0 ==> after.None? && paramAfter.None?
      invariant hasMore && i > 0 ==> Continues(pages[i - 1]) && after == Some(Cursor(pages[i - 1]))
      invariant |sent| == i
      invariant forall j :: 0 <= j < i ==> sent[j] == AfterParam(pages, j)
      decreases |pages| - i
    {
      if after.Some? && after.value != "" {
        paramAfter := after;
      }
      sent := sent + [paramAfter];
      var page := pages[i];
      var pageFailure := PageFailure(page);
      if pageFailure.Some? {
        fetched := FetchFailed(pageFailure.value, i + 1);
        return;
      }
      var data := page.body.value;
      if Continues(page) {
        PrependPrepend(allContacts, data.results, FetchFrom(pages, i + 1));
      }
      allContacts := allContacts + data.results;
      if data.next.Some? {
        after := data.next.value;
        hasMore := after.Some? && after.value != "";
      } else {
        hasMore := false;
      }
      i := i + 1;
    }
    fetched := Fetched(allContacts, i);
  }

  /** `get_items_hubspot(credentials)`: the outcome, and the `after`
      parameter of every request made. */
  method GetItems(credentials: string, loads: string -> Option<Value>, pages: seq<Fetch>,
    validIso: string -> bool) returns (outcome: Outcome, sent: seq<Option<string>>)
    requires Stops(pages, 0)
    ensures outcome == GetItemsSpec(credentials, loads, pages, validIso)
    ensures CredentialsFailure(credentials, loads).Some? ==> sent == []
    ensures CredentialsFailure(credentials, loads).None? ==> |sent| == FetchFrom(pages, 0).pagesUsed
    ensures forall j :: 0 <= j < |sent| ==> sent[j] == AfterParam(pages, j)
  {
    sent := [];
    var failure := CredentialsFailure(credentials, loads);
    if failure.Some? {
      outcome := Raise(failure.value);
      return;
    }
    var fetched;
    fetched, sent := FetchAll(pages);
    if fetched.FetchFailed? {
      outcome := Raise(fetched.failure);
      return;
    }
    var items := MakeItems(fetched.contacts, validIso);
    if items.None? {
      outcome := Raise(BadTimestamp);
    } else {
      outcome := Items(items.value);
    }
  }
}
