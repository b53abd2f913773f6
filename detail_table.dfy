/** The collapsible table of integration items (components/tables/CollapsibleTable.jsx):
    one main row per item and an expandable "Additional Details" section with
    the parsed `delta` and every other non-null field. `JSON.parse` is the
    parameter `parse` (None when it throws); dates are shown through the
    locale, which is left abstract. */
module DetailTable {
  import opened Js
  import Labels

  /** What a cell shows. */
  datatype Shown =
    | Text(text: string)
    | LocalDate(date: Value)
    | PrettyJson(json: Value)
    | AsIs(value: Value)

  const InvalidJson: Value := Obj([Field("error", Str("Invalid JSON"))])

  /** `deltaData`: `{}` for a falsy delta, the parsed value, or the error object. */
  function DeltaData(row: Value, parse: Value -> Option<Value>): (d: Value)
    ensures !Truthy(Get(row, "delta")) ==> d == Obj([])
    ensures Truthy(Get(row, "delta")) ==>
      d == (if parse(Get(row, "delta")).Some? then parse(Get(row, "delta")).value else InvalidJson)
  {
    var delta := Get(row, "delta");
    if !Truthy(delta) then Obj([])
    else match parse(delta)
      case Some(parsed) => parsed
      case None => InvalidJson
  }

  /** `formatDate`: `-` for a falsy input, otherwise the locale string. */
  function FormatDate(date: Value): (shown: Shown)
    ensures shown == Text("-") <==> !Truthy(date)
    ensures Truthy(date) ==> shown == LocalDate(date)
  {
    if !Truthy(date) then Text("-") else LocalDate(date)
  }

  /** `formatValue` */
  function FormatValue(v: Value): (shown: Shown)
    ensures shown == Text("-") <==> v == Null || v == Undefined || v == Str("")
    ensures v.Bool? ==> shown == Text(if v.b then "Yes" else "No")
    ensures v.Arr? || v.Obj? ==> shown == PrettyJson(v)
    ensures shown.AsIs? ==> shown.value == v && (v.Num? || v.Str?)
  {
    if v == Null || v == Undefined || v == Str("") then Text("-")
    else if v.Bool? then Text(if v.b then "Yes" else "No")
    else if v.Arr? || v.Obj? then PrettyJson(v)
    else AsIs(v)
  }

  /** The delta line of the details shows `-` only when the delta parses to null or ''. */
  lemma DeltaCellDash(row: Value, parse: Value -> Option<Value>)
    ensures FormatValue(DeltaData(row, parse)) == Text("-") <==>
      Truthy(Get(row, "delta")) && parse(Get(row, "delta")).Some? &&
      parse(Get(row, "delta")).value in {Null, Undefined, Str("")}
  {
  }

  /** The keys the expanded section lists after the delta. */
  predicate IsMetaField(fields: seq<Field>, key: string)
  {
    key != "delta" && key != "children" && key != "source" && Lookup(fields, key) != Null
  }

  /** `metaFields`: the row's keys, in order, except `delta`, `children`,
      `source` and keys holding null. */
  function MetaFields(row: Value): (keys: seq<string>)
    ensures forall k :: k in keys <==>
      row.Obj? && k in Keys(row.fields) && k != "delta" && k != "children" && k != "source" &&
      Lookup(row.fields, k) != Null
  {
    if row.Obj? then FilterKeys(Keys(row.fields), k => IsMetaField(row.fields, k)) else []
  }

  /** A key holding undefined is listed; the detail shows `-` for it. */
  lemma UndefinedIsListed(row: Value, key: string)
    requires row.Obj? && key in Keys(row.fields) && key !in {"delta", "children", "source"}
    requires Lookup(row.fields, key) == Undefined
    ensures key in MetaFields(row) && FormatValue(Get(row, key)) == Text("-")
  {
  }

  /** The expand button is disabled exactly when there is no meta field. */
  predicate ExpandDisabled(row: Value)
  {
    |MetaFields(row)| == 0
  }

  /** A row whose every key is delta, children, source or holds null cannot be expanded. */
  lemma ExpandDisabledExactly(row: Value)
    requires row.Obj?
    ensures ExpandDisabled(row) <==>
      forall i :: 0 <= i < |row.fields| ==>
        (row.fields[i].key in {"delta", "children", "source"} || Lookup(row.fields, row.fields[i].key) == Null)
  {
    var meta := MetaFields(row);
    if !ExpandDisabled(row) {
      var k := meta[0];
      assert k in meta;
      var i :| 0 <= i < |row.fields| && Keys(row.fields)[i] == k;
      assert row.fields[i].key == k;
    } else {
      forall i | 0 <= i < |row.fields|
        ensures row.fields[i].key in {"delta", "children", "source"} || Lookup(row.fields, row.fields[i].key) == Null
      {
        assert Keys(row.fields)[i] == row.fields[i].key;
        assert row.fields[i].key !in meta;
      }
    }
  }

  /** One line of the expanded section: a label and what it shows. */
  datatype DetailLine = DetailLine(heading: string, shown: Shown)

  function MetaLines(row: Value, keys: seq<string>): (lines: seq<DetailLine>)
    ensures |lines| == |keys|
    ensures forall i :: 0 <= i < |keys| ==>
      lines[i] == DetailLine(Labels.Label(keys[i]), FormatValue(Get(row, keys[i])))
  {
    if keys == [] then []
    else [DetailLine(Labels.Label(keys[0]), FormatValue(Get(row, keys[0])))] + MetaLines(row, keys[1..])
  }

  /** The expanded section: the delta first, then one line per meta field, in order. */
  function DetailLines(row: Value, parse: Value -> Option<Value>): (lines: seq<DetailLine>)
    ensures |lines| == |MetaFields(row)| + 1
    ensures lines[0] == DetailLine("Delta", FormatValue(DeltaData(row, parse)))
    ensures forall i :: 0 <= i < |MetaFields(row)| ==>
      lines[i + 1].heading == Labels.Label(MetaFields(row)[i]) &&
      lines[i + 1].shown == FormatValue(Get(row, MetaFields(row)[i]))
  {
    var meta := MetaFields(row);
    var rest := MetaLines(row, meta);
    var lines := [DetailLine("Delta", FormatValue(DeltaData(row, parse)))] + rest;
    assert forall i :: 0 <= i < |meta| ==> lines[i + 1] == rest[i];
    lines
  }

  /** The six cells of the main row after the expand button. */
  datatype MainCells = MainCells(name: Shown, kind: Shown, created: Shown, modified: Shown,
    lastUpdated: Shown, company: Shown)

  /** `v || '-'` */
  function OrDash(v: Value): (shown: Shown)
    ensures Truthy(v) ==> shown == AsIs(v)
    ensures !Truthy(v) ==> shown == Text("-")
  {
    if Truthy(v) then AsIs(v) else Text("-")
  }

  /** The main row. Reading `last_updated` off a delta that parses to null
      throws, so that row cannot be rendered (None). */
  function MainRow(row: Value, parse: Value -> Option<Value>): (cells: Option<MainCells>)
    ensures cells.None? <==> Nullish(DeltaData(row, parse))
    ensures cells.Some? ==> cells.value.lastUpdated == FormatDate(Get(DeltaData(row, parse), "last_updated"))
    ensures cells.Some? ==> cells.value.company == OrDash(Get(DeltaData(row, parse), "company"))
  {
    var d := DeltaData(row, parse);
    if Nullish(d) then None
    else Some(MainCells(OrDash(Get(row, "name")), OrDash(Get(row, "type")),
      FormatDate(Get(row, "creation_time")), FormatDate(Get(row, "last_modified_time")),
      FormatDate(Get(d, "last_updated")), OrDash(Get(d, "company"))))
  }

  /** A row without a delta shows `-` for last updated and company. */
  lemma NoDeltaShowsDashes(row: Value, parse: Value -> Option<Value>)
    requires !Truthy(Get(row, "delta"))
    ensures MainRow(row, parse).Some?
    ensures MainRow(row, parse).value.lastUpdated == Text("-") && MainRow(row, parse).value.company == Text("-")
  {
  }

  /** The table: "No data available", or one row per element. `data` is
      None when the prop is null. */
  datatype Body = NoData | Rows(rows: seq<Value>)

  function TableBody(data: Option<seq<Value>>): (b: Body)
    ensures b.NoData? <==> data.None? || |data.value| == 0
    ensures b.Rows? ==> b.rows == data.value
  {
    if data.None? || |data.value| == 0 then NoData else Rows(data.value)
  }

  /** `Row`'s `open` flag. */
  class RowState {
    const row: Value
    var open: bool

    /** A disabled button can never have been opened. */
    predicate Valid()
      reads this
    {
      ExpandDisabled(row) ==> !open
    }

    constructor (row: Value)
      ensures this.row == row && !open && Valid()
    {
      this.row := row;
      open := false;
    }

    /** A click toggles `open`; a disabled button ignores it. */
    method Click()
      requires Valid()
      modifies this
      ensures open == (if ExpandDisabled(row) then old(open) else !old(open))
      ensures Valid()
    {
      if !ExpandDisabled(row) {
        open := !open;
      }
    }

    /** The details are shown exactly while open. */
    predicate ShowsDetails()
      reads this
    {
      open
    }
  }
}
