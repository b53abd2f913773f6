/** `StickyHeadTable`: sorts a copy of the rows with a comparator that puts
    missing keys last, shows one page of the sorted rows and renders each cell.
    `JSON.parse` is the parameter `parse` (None when it throws). The engine's
    `Array.prototype.sort` is modelled as a stable insertion sort driven by the
    component's comparator. */
module StickyTable {
  import opened Js

  datatype Direction = Asc | Desc

  /** What the comparator closes over: the sort column, the direction and `JSON.parse`. */
  datatype SortSpec = SortSpec(orderBy: string, order: Direction, parse: Value -> Option<Value>)

  /** Lexicographic `<` on strings, by character code point. */
  predicate StrLess(a: string, b: string)
  {
    if a == [] then b != []
    else b != [] && (a[0] < b[0] || (a[0] == b[0] && StrLess(a[1..], b[1..])))
  }

  /** `<` on two keys of the same kind: numbers, strings, and `false < true`;
      keys of different kinds are unordered. */
  predicate Less(x: Value, y: Value)
    ensures Less(x, y) ==> (x.Num? && y.Num?) || (x.Str? && y.Str?) || (x.Bool? && y.Bool?)
    ensures x.Bool? && y.Bool? ==> (Less(x, y) <==> !x.b && y.b)
  {
    (x.Num? && y.Num? && x.n < y.n) || (x.Str? && y.Str? && StrLess(x.s, y.s)) ||
    (x.Bool? && y.Bool? && !x.b && y.b)
  }

  lemma {:induction false} StrLessIrreflexive(a: string)
    ensures !StrLess(a, a)
  {
    if a != [] {
      StrLessIrreflexive(a[1..]);
    }
  }

  lemma {:induction false} StrLessTransitive(a: string, b: string, c: string)
    requires StrLess(a, b) && StrLess(b, c)
    ensures StrLess(a, c)
  {
    if a != [] && a[0] == b[0] && b[0] == c[0] {
      StrLessTransitive(a[1..], b[1..], c[1..]);
    }
  }

  /** `Less` is a strict order. */
  lemma LessStrictOrder(x: Value, y: Value, z: Value)
    ensures !Less(x, x)
    ensures Less(x, y) && Less(y, z) ==> Less(x, z)
  {
    if x.Str? {
      StrLessIrreflexive(x.s);
    }
    if Less(x, y) && Less(y, z) && x.Str? {
      StrLessTransitive(x.s, y.s, z.s);
    }
  }

  /** `JSON.parse(delta)?.source || ''` */
  function SourceOr(parsed: Value): (key: Value)
    ensures Truthy(key) || key == Str("")
  {
    var source := Get(parsed, "source");
    if Truthy(source) then source else Str("")
  }

  /** The pair `(aValue, bValue)` the comparator compares. On the delta column,
      when `a.delta` is truthy, both deltas are parsed; a parse that throws
      leaves the values assigned so far. */
  function SortKeys(a: Value, b: Value, spec: SortSpec): (keys: (Value, Value))
    ensures spec.orderBy != "delta" || !Truthy(Get(a, "delta")) ==>
      keys == (Get(a, spec.orderBy), Get(b, spec.orderBy))
    ensures keys.1 == Get(b, spec.orderBy) || spec.parse(Get(b, "delta")).Some?
  {
    var aRaw := Get(a, spec.orderBy);
    var bRaw := Get(b, spec.orderBy);
    if spec.orderBy == "delta" && Truthy(Get(a, "delta")) then
      match spec.parse(Get(a, "delta"))
      case None => (aRaw, bRaw)
      case Some(pa) =>
        match spec.parse(Get(b, "delta"))
        case None => (SourceOr(pa), bRaw)
        case Some(pb) => (SourceOr(pa), SourceOr(pb))
    else (aRaw, bRaw)
  }

  /** The comparator's body once the two keys are known. */
  function CompareKeys(x: Value, y: Value, order: Direction): (r: int)
    ensures r == -1 || r == 0 || r == 1
    ensures r == 0 <==> !Nullish(x) && !Nullish(y) && !Less(x, y) && !Less(y, x)
  {
    if Nullish(x) then 1
    else if Nullish(y) then -1
    else if Less(x, y) then (if order == Asc then -1 else 1)
    else if Less(y, x) then (if order == Asc then 1 else -1)
    else 0
  }

  /** The comparator passed to `sort`. */
  function Compare(a: Value, b: Value, spec: SortSpec): (r: int)
    ensures r == -1 || r == 0 || r == 1
  {
    var keys := SortKeys(a, b, spec);
    CompareKeys(keys.0, keys.1, spec.order)
  }

  /** A missing key sorts after a present one in either direction; two missing
      keys both compare as 1, so the comparator is not a consistent order. */
  lemma NullKeysLast(x: Value, y: Value, order: Direction)
    ensures Nullish(x) && !Nullish(y) ==> CompareKeys(x, y, order) == 1 && CompareKeys(y, x, order) == -1
    ensures Nullish(x) && Nullish(y) ==> CompareKeys(x, y, order) == 1 && CompareKeys(y, x, order) == 1
  {
  }

  /** Present keys: ascending puts the smaller first, descending reverses the
      answer, and keys neither smaller nor larger compare equal. */
  lemma PresentKeysOrder(x: Value, y: Value)
    requires !Nullish(x) && !Nullish(y)
    ensures Less(x, y) ==> CompareKeys(x, y, Asc) == -1
    ensures Less(y, x) ==> CompareKeys(x, y, Asc) == 1
    ensures !Less(x, y) && !Less(y, x) ==> CompareKeys(x, y, Asc) == 0
    ensures CompareKeys(x, y, Desc) == -CompareKeys(x, y, Asc)
  {
    LessStrictOrder(x, y, x);
  }

  /** On the delta column, when both deltas parse, the keys are their `source`s (or ''). */
  lemma DeltaColumnKeys(a: Value, b: Value, spec: SortSpec)
    requires spec.orderBy == "delta" && Truthy(Get(a, "delta"))
    requires spec.parse(Get(a, "delta")).Some? && spec.parse(Get(b, "delta")).Some?
    ensures SortKeys(a, b, spec) ==
      (SourceOr(spec.parse(Get(a, "delta")).value), SourceOr(spec.parse(Get(b, "delta")).value))
    ensures !Nullish(SortKeys(a, b, spec).0) && !Nullish(SortKeys(a, b, spec).1)
  {
  }

  /** The key a row is sorted by when it is compared the same way against every row. */
  function RowKey(row: Value, spec: SortSpec): Value
  {
    if spec.orderBy == "delta" && Truthy(Get(row, "delta")) && spec.parse(Get(row, "delta")).Some? then
      SourceOr(spec.parse(Get(row, "delta")).value)
    else Get(row, spec.orderBy)
  }

  /** Every pair of rows is compared by the rows' own keys. */
  predicate Uniform(rows: seq<Value>, spec: SortSpec)
  {
    forall a, b :: a in rows && b in rows ==> SortKeys(a, b, spec) == (RowKey(a, spec), RowKey(b, spec))
  }

  /** Any column but delta is uniform; so is delta when every row's delta is truthy and parses. */
  lemma UniformColumns(rows: seq<Value>, spec: SortSpec)
    requires spec.orderBy != "delta" ||
      forall r :: r in rows ==> Truthy(Get(r, "delta")) && spec.parse(Get(r, "delta")).Some?
    ensures Uniform(rows, spec)
  {
  }

  /** Insert `x` before the first row it compares below; after rows it ties with. */
  function Insert(x: Value, sorted: seq<Value>, spec: SortSpec): (r: seq<Value>)
    ensures multiset(r) == multiset(sorted) + multiset{x}
  {
    if sorted == [] then [x]
    else if Compare(x, sorted[0], spec) < 0 then [x] + sorted
    else
      assert sorted == [sorted[0]] + sorted[1..];
      [sorted[0]] + Insert(x, sorted[1..], spec)
  }

  /** `[...data].sort(comparator)`: a new sequence holding the same rows. */
  function Sort(data: seq<Value>, spec: SortSpec): (r: seq<Value>)
    ensures multiset(r) == multiset(data)
  {
    if data == [] then []
    else
      assert data == data[..|data| - 1] + [data[|data| - 1]];
      Insert(data[|data| - 1], Sort(data[..|data| - 1], spec), spec)
  }

  /** `Before(x, y)`: `x` belongs strictly before `y` in the sort direction. */
  predicate Before(x: Value, y: Value, order: Direction)
  {
    if order == Asc then Less(x, y) else Less(y, x)
  }

  /** A row keyed `kh` may precede a row keyed `ke`: a missing key only
      before another missing key, and never before a key that belongs
      strictly before it. */
  predicate Fits(kh: Value, ke: Value, order: Direction)
  {
    (Nullish(kh) ==> Nullish(ke)) && (!Nullish(ke) ==> !Before(ke, kh, order))
  }

  predicate HeadFits(h: Value, rest: seq<Value>, key: Value -> Value, order: Direction)
  {
    forall e :: e in rest ==> Fits(key(h), key(e), order)
  }

  /** Sorted by `key`: every row fits before every later row. */
  predicate Ordered(s: seq<Value>, key: Value -> Value, order: Direction)
  {
    s == [] || (HeadFits(s[0], s[1..], key, order) && Ordered(s[1..], key, order))
  }

  /** The comparator decides every pair of `rows` by their keys alone. */
  predicate ByKey(rows: seq<Value>, spec: SortSpec, key: Value -> Value)
  {
    forall a, b {:trigger Compare(a, b, spec)} :: a in rows && b in rows ==>
      Compare(a, b, spec) == CompareKeys(key(a), key(b), spec.order)
  }

  function KeyOf(spec: SortSpec): Value -> Value
  {
    r => RowKey(r, spec)
  }

  lemma UniformByKey(rows: seq<Value>, spec: SortSpec)
    requires Uniform(rows, spec)
    ensures ByKey(rows, spec, KeyOf(spec))
  {
  }

  lemma BeforeTransitive(x: Value, y: Value, z: Value, order: Direction)
    requires Before(x, y, order) && Before(y, z, order)
    ensures Before(x, z, order)
  {
    if order == Asc {
      LessStrictOrder(x, y, z);
    } else {
      LessStrictOrder(z, y, x);
    }
  }

  /** A key the comparator puts below `k0` fits before `k0` and before
      everything `k0` fits before. */
  lemma BelowFits(kx: Value, k0: Value, ke: Value, order: Direction)
    requires CompareKeys(kx, k0, order) < 0
    ensures Fits(kx, k0, order)
    ensures Fits(k0, ke, order) ==> Fits(kx, ke, order)
  {
    LessStrictOrder(kx, k0, kx);
    LessStrictOrder(k0, kx, k0);
    if Fits(k0, ke, order) && !Nullish(ke) && Before(ke, kx, order) {
      assert Before(kx, k0, order);
      BeforeTransitive(ke, kx, k0, order);
    }
  }

  /** A key the comparator does not put below `k0` may follow it. */
  lemma NotBelowFits(kx: Value, k0: Value, order: Direction)
    requires CompareKeys(kx, k0, order) >= 0
    ensures Fits(k0, kx, order)
  {
    LessStrictOrder(kx, k0, kx);
  }

  lemma {:induction false} InsertOrdered(x: Value, s: seq<Value>, spec: SortSpec, key: Value -> Value)
    requires Ordered(s, key, spec.order) && ByKey([x] + s, spec, key)
    ensures Ordered(Insert(x, s, spec), key, spec.order)
  {
    if s == [] {
      return;
    }
    assert x in [x] + s && s[0] in [x] + s;
    var c := Compare(x, s[0], spec);
    assert c == CompareKeys(key(x), key(s[0]), spec.order);
    if c < 0 {
      forall e | e in s
        ensures Fits(key(x), key(e), spec.order)
      {
        BelowFits(key(x), key(s[0]), key(e), spec.order);
        if e != s[0] {
          assert e in s[1..];
        }
      }
      assert ([x] + s)[1..] == s;
    } else {
      assert ByKey([x] + s[1..], spec, key) by {
        forall e | e in [x] + s[1..] ensures e in [x] + s { }
      }
      InsertOrdered(x, s[1..], spec, key);
      var t := Insert(x, s[1..], spec);
      NotBelowFits(key(x), key(s[0]), spec.order);
      forall e | e in t
        ensures Fits(key(s[0]), key(e), spec.order)
      {
        assert e in multiset(t);
        assert e == x || e in s[1..];
      }
      assert ([s[0]] + t)[1..] == t;
    }
  }

  lemma {:induction false} SortOrderedBy(data: seq<Value>, spec: SortSpec, key: Value -> Value)
    requires ByKey(data, spec, key)
    ensures Ordered(Sort(data, spec), key, spec.order)
  {
    if data != [] {
      var init := data[..|data| - 1];
      var last := data[|data| - 1];
      assert ByKey(init, spec, key) by {
        forall e | e in init ensures e in data { }
      }
      SortOrderedBy(init, spec, key);
      var sorted := Sort(init, spec);
      assert ByKey([last] + sorted, spec, key) by {
        forall e | e in [last] + sorted ensures e in data {
          if e != last {
            assert e in multiset(sorted);
          }
        }
      }
      InsertOrdered(last, sorted, spec, key);
    }
  }

  /** The sorted copy is ordered by the rows' keys whenever the rows are compared uniformly. */
  lemma SortOrdered(data: seq<Value>, spec: SortSpec)
    requires Uniform(data, spec)
    ensures Ordered(Sort(data, spec), KeyOf(spec), spec.order)
  {
    UniformByKey(data, spec);
    SortOrderedBy(data, spec, KeyOf(spec));
  }

  /** The ordering read position by position: a row with a missing key is
      followed only by rows with missing keys, and no present key follows one
      it belongs strictly before. */
  lemma {:induction false} OrderedPairs(s: seq<Value>, key: Value -> Value, order: Direction, i: int, j: int)
    requires Ordered(s, key, order) && 0 <= i < j < |s|
    ensures Nullish(key(s[i])) ==> Nullish(key(s[j]))
    ensures !Nullish(key(s[j])) ==> !Before(key(s[j]), key(s[i]), order)
  {
    if i == 0 {
      assert s[j] in s[1..];
    } else {
      OrderedPairs(s[1..], key, order, i - 1, j - 1);
      assert s[1..][i - 1] == s[i] && s[1..][j - 1] == s[j];
    }
  }

  /** `data.slice(start, start + count)` for a start and count that are never negative. */
  function Slice(data: seq<Value>, start: nat, count: nat): (r: seq<Value>)
    ensures |r| <= count
    ensures start + count <= |data| ==> |r| == count
    ensures forall i :: 0 <= i < |r| ==> start + i < |data| && r[i] == data[start + i]
  {
    if start >= |data| then []
    else if start + count >= |data| then data[start..]
    else data[start..start + count]
  }

  /** The rows of page `page`: `sorted.slice(page * rpp, page * rpp + rpp)`. */
  function PageRows(sorted: seq<Value>, page: nat, rowsPerPage: nat): (r: seq<Value>)
    ensures |r| <= rowsPerPage
    ensures forall i :: 0 <= i < |r| ==> page * rowsPerPage + i < |sorted| && r[i] == sorted[page * rowsPerPage + i]
  {
    Slice(sorted, page * rowsPerPage, rowsPerPage)
  }

  lemma MulSucc(k: nat, r: nat)
    ensures (k + 1) * r == k * r + r
  {
  }

  /** Slices that follow each other make up the longer slice. */
  lemma SliceAppend(data: seq<Value>, start: nat, count: nat)
    requires start <= |data|
    ensures data[..start] + Slice(data, start, count) == data[..Min(start + count, |data|)]
  {
  }

  /** The first `k` pages, one after the other, are the first `k * rpp` rows. */
  lemma {:induction false} PagesCover(sorted: seq<Value>, rowsPerPage: nat, k: nat)
    ensures Pages(sorted, rowsPerPage, k) == sorted[..Min(k * rowsPerPage, |sorted|)]
  {
    if k > 0 {
      PagesCover(sorted, rowsPerPage, k - 1);
      var a: nat := (k - 1) * rowsPerPage;
      MulSucc(k - 1, rowsPerPage);
      if a >= |sorted| {
        assert PageRows(sorted, k - 1, rowsPerPage) == [];
      } else {
        SliceAppend(sorted, a, rowsPerPage);
      }
    }
  }

  function Min(a: int, b: int): int
  {
    if a < b then a else b
  }

  /** Pages `0 .. k-1`, concatenated. */
  function Pages(sorted: seq<Value>, rowsPerPage: nat, k: nat): seq<Value>
  {
    if k == 0 then [] else Pages(sorted, rowsPerPage, k - 1) + PageRows(sorted, k - 1, rowsPerPage)
  }

  /** Enough pages show every row exactly once, in sorted order. */
  lemma EveryRowOnSomePage(sorted: seq<Value>, rowsPerPage: nat, k: nat)
    requires k * rowsPerPage >= |sorted|
    ensures Pages(sorted, rowsPerPage, k) == sorted
  {
    PagesCover(sorted, rowsPerPage, k);
  }

  /** The table body: the "No data available" row, or the rows of the current page. */
  datatype Body = NoData | Rows(rows: seq<Value>)

  function TableBody(data: seq<Value>, spec: SortSpec, page: nat, rowsPerPage: nat): (b: Body)
    ensures b.NoData? <==> data == []
    ensures b.Rows? ==> |b.rows| <= rowsPerPage
    ensures b.Rows? ==> forall r :: r in b.rows ==> r in data
    ensures b.Rows? ==> b.rows == PageRows(Sort(data, spec), page, rowsPerPage)
  {
    var sorted := Sort(data, spec);
    SortSameElements(data, spec);
    if |sorted| > 0 then
      var rows := PageRows(sorted, page, rowsPerPage);
      PageRowsDrawn(sorted, page, rowsPerPage);
      Rows(rows)
    else
      NoData
  }

  /** The sorted copy holds the same rows as the data. */
  lemma SortSameElements(data: seq<Value>, spec: SortSpec)
    ensures |Sort(data, spec)| == |data|
    ensures forall r :: r in Sort(data, spec) <==> r in data
  {
    var sorted := Sort(data, spec);
    assert |multiset(sorted)| == |multiset(data)|;
    forall r
      ensures r in sorted <==> r in data
    {
      assert r in sorted <==> r in multiset(sorted);
      assert r in data <==> r in multiset(data);
    }
  }

  /** Every visible row is a row of the sorted data. */
  lemma PageRowsDrawn(sorted: seq<Value>, page: nat, rowsPerPage: nat)
    ensures forall r :: r in PageRows(sorted, page, rowsPerPage) ==> r in sorted
  {
    var rows := PageRows(sorted, page, rowsPerPage);
    forall r | r in rows
      ensures r in sorted
    {
      var i :| 0 <= i < |rows| && rows[i] == r;
      assert sorted[page * rowsPerPage + i] == r;
    }
  }

  /** The link text of a URL cell. */
  function UrlText(url: string): (text: string)
    ensures |url| <= 40 ==> text == url
    ensures |url| > 40 ==> |text| == 40 && text[..37] == url[..37] && text[37..] == "..."
  {
    if |url| > 40 then url[..37] + "..." else url
  }

  /** What a cell shows. */
  datatype Cell =
    | Dash
    | JsonBlock(parsed: Value)
    | InvalidJson
    | LocalDate(date: Value)
    | Link(href: Value, text: Value)
    | JsonText(value: Value)
    | Text(words: string)
    | LongText(full: string)
    | Plain(value: Value)

  predicate IsDateColumn(columnId: string)
  {
    columnId in {"last_modified_time", "creation_time", "created_time", "updated_time"}
  }

  /** `renderCellContent(row, columnId)` */
  function RenderCell(row: Value, columnId: string, parse: Value -> Option<Value>): (c: Cell)
    ensures var v := Get(row, columnId); (Nullish(v) || v == Str("")) <==> c == Dash
    ensures c.Link? && c.text.Str? ==> |c.text.s| <= 40
    ensures var v := Get(row, columnId); columnId == "url" && v.Str? && v.s != "" ==> c == Link(v, Str(UrlText(v.s)))
    ensures columnId !in {"delta", "url", "children"} && !IsDateColumn(columnId) && Get(row, columnId).Bool? ==>
      c == Text(if Get(row, columnId).b then "Yes" else "No")
  {
    var v := Get(row, columnId);
    if Nullish(v) || v == Str("") then Dash
    else if columnId == "delta" then
      match parse(v)
      case Some(p) => JsonBlock(p)
      case None => InvalidJson
    else if IsDateColumn(columnId) then LocalDate(v)
    else if columnId == "url" then Link(v, if v.Str? then Str(UrlText(v.s)) else v)
    else if columnId == "children" then JsonText(v)
    else if v.Bool? then Text(if v.b then "Yes" else "No")
    else if v.Str? && |v.s| > 50 then LongText(v.s)
    else Plain(v)
  }

  /** The column headers the user can click. */
  const Columns: seq<string> := ["name", "type", "source", "last_modified_time", "url"]

  /** Sorting by a header column always compares rows by their own keys. */
  lemma HeaderColumnsUniform(rows: seq<Value>, column: string, order: Direction, parse: Value -> Option<Value>)
    requires column in Columns
    ensures Uniform(rows, SortSpec(column, order, parse))
  {
    UniformColumns(rows, SortSpec(column, order, parse));
  }

  /** `handleRequestSort`: the clicked column becomes the sort column; the
      direction flips to descending only when that column was already ascending. */
  function NextSort(orderBy: string, order: Direction, property: string): (r: (string, Direction))
    ensures r.0 == property
    ensures r.1 == Desc <==> orderBy == property && order == Asc
  {
    var isAsc := orderBy == property && order == Asc;
    (property, if isAsc then Desc else Asc)
  }

  /** Clicking the same header twice from ascending comes back to ascending. */
  lemma SortToggleCycle(property: string)
    ensures var once := NextSort(property, Asc, property);
      once == (property, Desc) && NextSort(once.0, once.1, property) == (property, Asc)
  {
  }

  class TableState {
    var page: nat
    var rowsPerPage: nat
    var orderBy: string
    var order: Direction

    constructor ()
      ensures page == 0 && rowsPerPage == 10 && orderBy == "name" && order == Asc
    {
      page := 0;
      rowsPerPage := 10;
      orderBy := "name";
      order := Asc;
    }

    method HandleRequestSort(property: string)
      modifies this
      ensures (orderBy, order) == NextSort(old(orderBy), old(order), property)
      ensures page == old(page) && rowsPerPage == old(rowsPerPage)
    {
      var isAsc := orderBy == property && order == Asc;
      order := if isAsc then Desc else Asc;
      orderBy := property;
    }

    method HandleChangePage(newPage: nat)
      modifies this
      ensures page == newPage
      ensures rowsPerPage == old(rowsPerPage) && orderBy == old(orderBy) && order == old(order)
    {
      page := newPage;
    }

    /** A new page size always goes back to the first page. */
    method HandleChangeRowsPerPage(value: nat)
      modifies this
      ensures rowsPerPage == value && page == 0
      ensures orderBy == old(orderBy) && order == old(order)
    {
      rowsPerPage := value;
      page := 0;
    }
  }
}
