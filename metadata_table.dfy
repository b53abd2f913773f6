/** The metadata table (components/CollapsibleTable.jsx): a main row with
    five fixed fields and, when the row has other non-null fields, an expand
    button over a "Metadata" section listing them. `JSON.parse` is the
    parameter `parse` (None when it throws). */
module MetadataTable {
  import opened Js
  import Labels

  /** `mainFields` */
  const MainFields: seq<string> := ["name", "type", "creation_time", "last_modified_time", "url"]

  /** `Object.fromEntries(Object.entries(row).filter(...))`: the fields whose key is a main field. */
  function MainRowData(fields: seq<Field>): (r: seq<Field>)
    ensures forall f :: f in r <==> f in fields && f.key in MainFields
    ensures |r| <= |fields|
  {
    if fields == [] then []
    else
      assert fields == [fields[0]] + fields[1..];
      (if fields[0].key in MainFields then [fields[0]] else []) + MainRowData(fields[1..])
  }

  /** `metaFields`: the row's keys, in order, that are not main fields and do not hold null. */
  function MetaFields(fields: seq<Field>): (keys: seq<string>)
    ensures forall k :: k in keys <==> k in Keys(fields) && k !in MainFields && Lookup(fields, k) != Null
  {
    FilterKeys(Keys(fields), k => k !in MainFields && Lookup(fields, k) != Null)
  }

  /** The main row and the metadata section never show the same key, and
      every key holding something other than null is in exactly one of them. */
  lemma MainAndMetaPartition(fields: seq<Field>, k: string)
    ensures k in MetaFields(fields) ==> k !in Keys(MainRowData(fields))
    ensures k in Keys(fields) && Lookup(fields, k) != Null ==>
      (k in Keys(MainRowData(fields)) <==> k !in MetaFields(fields))
  {
    var main := MainRowData(fields);
    if k in Keys(main) {
      var i :| 0 <= i < |main| && Keys(main)[i] == k;
      assert main[i] in main;
    }
    if k in Keys(fields) && k in MainFields {
      var i :| 0 <= i < |fields| && Keys(fields)[i] == k;
      assert fields[i] in fields;
      assert fields[i] in main;
      var j :| 0 <= j < |main| && main[j] == fields[i];
      assert Keys(main)[j] == k;
    }
  }

  /** The expand button is rendered only for a row with meta fields. */
  predicate ShowExpandButton(fields: seq<Field>)
  {
    |MetaFields(fields)| > 0
  }

  const InvalidJson: Value := Obj([Field("error", Str("Invalid JSON"))])

  /** `parseDelta`: null for a falsy input, the parsed value, or the error object. */
  function ParseDelta(delta: Value, parse: Value -> Option<Value>): (d: Value)
    ensures !Truthy(delta) ==> d == Null
    ensures Truthy(delta) && parse(delta).None? ==> d == InvalidJson
    ensures Truthy(delta) && parse(delta).Some? ==> d == parse(delta).value
  {
    if !Truthy(delta) then Null
    else match parse(delta)
      case Some(parsed) => parsed
      case None => InvalidJson
  }

  /** What a cell shows. */
  datatype Shown = Dash | Pre(json: Value) | Text(text: string) | ViewLink(href: Value) | LocalDate(date: Value) | AsIs(value: Value)

  /** The value column of one metadata line. */
  function MetaValue(fields: seq<Field>, key: string, parse: Value -> Option<Value>): (shown: Shown)
    ensures key == "delta" ==> (shown == Dash <==> !Truthy(ParseDelta(Lookup(fields, key), parse)))
    ensures key == "delta" && shown != Dash ==> shown == Pre(ParseDelta(Lookup(fields, key), parse))
    ensures key != "delta" && Lookup(fields, key).Bool? ==> shown == Text(if Lookup(fields, key).b then "Yes" else "No")
    ensures key != "delta" && Nullish(Lookup(fields, key)) ==> shown == Dash
    ensures key != "delta" && !Lookup(fields, key).Bool? && !Nullish(Lookup(fields, key)) ==> shown == AsIs(Lookup(fields, key))
  {
    var value := Lookup(fields, key);
    if key == "delta" then
      var delta := ParseDelta(value, parse);
      if Truthy(delta) then Pre(delta) else Dash
    else if value.Bool? then Text(if value.b then "Yes" else "No")
    else if Nullish(value) then Dash
    else AsIs(value)
  }

  /** An unparsable delta is still shown, as the error object. */
  lemma InvalidDeltaShown(fields: seq<Field>, parse: Value -> Option<Value>)
    requires Truthy(Lookup(fields, "delta")) && parse(Lookup(fields, "delta")).None?
    ensures MetaValue(fields, "delta", parse) == Pre(InvalidJson)
  {
  }

  /** A delta line shows `-` exactly when the delta is falsy or parses to a falsy value. */
  lemma DeltaDash(fields: seq<Field>, parse: Value -> Option<Value>)
    ensures MetaValue(fields, "delta", parse) == Dash <==>
      !Truthy(Lookup(fields, "delta")) ||
      (parse(Lookup(fields, "delta")).Some? && !Truthy(parse(Lookup(fields, "delta")).value))
  {
  }

  /** One line of the metadata section. */
  datatype MetaLine = MetaLine(heading: string, shown: Shown)

  function MetaLines(fields: seq<Field>, keys: seq<string>, parse: Value -> Option<Value>): (lines: seq<MetaLine>)
    ensures |lines| == |keys|
    ensures forall i :: 0 <= i < |keys| ==> lines[i] == MetaLine(Labels.Label(keys[i]), MetaValue(fields, keys[i], parse))
  {
    if keys == [] then []
    else [MetaLine(Labels.Label(keys[0]), MetaValue(fields, keys[0], parse))] + MetaLines(fields, keys[1..], parse)
  }

  /** The metadata section: one labelled line per meta field, in order; none shows a null. */
  function Metadata(fields: seq<Field>, parse: Value -> Option<Value>): (lines: seq<MetaLine>)
    ensures |lines| == |MetaFields(fields)|
    ensures forall i :: 0 <= i < |lines| ==> lines[i].heading == Labels.Label(MetaFields(fields)[i])
    ensures forall i :: 0 <= i < |lines| ==> lines[i].shown != AsIs(Null) && lines[i].shown != AsIs(Undefined)
    ensures forall i :: 0 <= i < |lines| ==> lines[i].shown == MetaValue(fields, MetaFields(fields)[i], parse)
  {
    MetaLines(fields, MetaFields(fields), parse)
  }

  /** `formatDate`: `-` for a falsy input, otherwise the locale string. */
  function FormatDate(date: Value): (shown: Shown)
    ensures shown == Dash <==> !Truthy(date)
    ensures Truthy(date) ==> shown == LocalDate(date)
  {
    if !Truthy(date) then Dash else LocalDate(date)
  }

  /** `v || '-'` */
  function OrDash(v: Value): (shown: Shown)
    ensures Truthy(v) ==> shown == AsIs(v)
    ensures !Truthy(v) ==> shown == Dash
  {
    if Truthy(v) then AsIs(v) else Dash
  }

  /** The five cells of the main row after the expand button. */
  datatype MainCells = MainCells(name: Shown, kind: Shown, created: Shown, modified: Shown, action: Shown)

  function MainRow(fields: seq<Field>): (cells: MainCells)
    ensures cells.action == Dash <==> !Truthy(Lookup(fields, "url"))
    ensures cells.action != Dash ==> cells.action == ViewLink(Lookup(fields, "url"))
    ensures cells.created == FormatDate(Lookup(fields, "creation_time"))
    ensures cells.modified == FormatDate(Lookup(fields, "last_modified_time"))
  {
    var url := Lookup(fields, "url");
    MainCells(OrDash(Lookup(fields, "name")), OrDash(Lookup(fields, "type")),
      FormatDate(Lookup(fields, "creation_time")), FormatDate(Lookup(fields, "last_modified_time")),
      if Truthy(url) then ViewLink(url) else Dash)
  }

  /** `Row`'s `open` flag. */
  class RowState {
    const fields: seq<Field>
    var open: bool

    constructor (fields: seq<Field>)
      ensures this.fields == fields && !open
    {
      this.fields := fields;
      open := false;
    }

    /** A click on the expand button, which exists only for a row with meta fields. */
    method Click()
      requires ShowExpandButton(fields)
      modifies this
      ensures open == !old(open)
    {
      open := !open;
    }

    /** The metadata section is shown exactly while open. */
    function Expanded(parse: Value -> Option<Value>): (lines: seq<MetaLine>)
      reads this
      ensures !open ==> lines == []
      ensures open ==> lines == Metadata(fields, parse)
    {
      if open then Metadata(fields, parse) else []
    }
  }
}
