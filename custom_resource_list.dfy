/** The list page of a custom resource: which view it shows while the CRD loads, the table's
    columns derived from the CRD's printer columns, and the cells those columns show
    (frontend/src/components/crd/CustomResourceList.tsx). */
module CustomResourceList {
  import opened Wrappers
  import opened Text
  import opened SeqUtil

  // ---------------------------------------------------------------------------
  // The CRD, as far as the page reads it
  // ---------------------------------------------------------------------------

  /** An entry of `additionalPrinterColumns`; `colType` is its `type`. */
  datatype PrinterColumn = PrinterColumn(name: string, jsonPath: string, colType: Option<string>)

  datatype CrdVersion = CrdVersion(name: string, additionalPrinterColumns: Option<seq<PrinterColumn>>)

  /** A fetched CRD. `mainVersion` is the version part of `getMainAPIGroup()`; `hasCRClass`
      says whether `makeCRClass()` produced a class; `isNamespacedScope` and `isNamespaced`
      are the two properties of the CRD object the page reads. */
  datatype Crd = Crd(
    name: string,
    versions: seq<CrdVersion>,
    mainVersion: string,
    hasCRClass: bool,
    isNamespacedScope: bool,
    isNamespaced: bool)

  // ---------------------------------------------------------------------------
  // Load state
  // ---------------------------------------------------------------------------

  datatype LoadView = Loading | LoadError(crdName: string, message: string) | Loaded(crd: Crd)

  /** `CustomResourceList`: the loader while there is neither a CRD nor an error, the error
      view whenever an error is set, the list otherwise. */
  function SelectView(crdName: string, crd: Option<Crd>, error: Option<string>): (r: LoadView)
    ensures r.Loading? <==> crd.None? && error.None?
    ensures r.LoadError? <==> error.Some?
    ensures r.LoadError? ==> r == LoadError(crdName, error.value)
    ensures r.Loaded? <==> crd.Some? && error.None?
    ensures r.Loaded? ==> r.crd == crd.value
  {
    if crd.None? && error.None? then Loading
    else if error.Some? then LoadError(crdName, error.value)
    else Loaded(crd.value)
  }

  // ---------------------------------------------------------------------------
  // Cells
  // ---------------------------------------------------------------------------

  /** A JSON document, the raw data of a custom resource. */
  datatype Json =
    | JNull
    | JBool(b: bool)
    | JNumber(n: int)
    | JString(s: string)
    | JArray(items: seq<Json>)
    | JObject(fields: map<string, Json>)

  /** What a JSONPath query gives back: it throws, it finds nothing (`undefined` or `null`),
      or it finds a value whose `toString()` is `text`. */
  datatype QueryOutcome = Threw | Nothing | Found(text: string)

  /** A custom resource as listed. */
  datatype CustomResource = CustomResource(name: string, namespace: Option<string>, jsonData: Json)

  /** `getValueWithJSONPath`: evaluates `'$' + jsonPath` on the resource's raw data with the
      JSONPath library `query`; a failed, empty or missing result is the empty string. */
  function GetValueWithJSONPath(item: CustomResource, jsonPath: string,
                                query: (string, Json) -> QueryOutcome): (r: string)
    ensures query("$" + jsonPath, item.jsonData).Found? ==> r == query("$" + jsonPath, item.jsonData).text
    ensures !query("$" + jsonPath, item.jsonData).Found? ==> r == ""
  {
    match query("$" + jsonPath, item.jsonData)
    case Found(text) => text
    case _ => ""
  }

  /** A column of the list table. */
  datatype Column =
    | NameColumn
    | Printer(labelText: string, jsonPath: string, isDate: bool)
    | NamespaceColumn
    | AgeColumn

  /** The `getValue` of a printer column; `localeDate` formats a date-typed value. */
  function PrinterCell(col: Column, item: CustomResource, query: (string, Json) -> QueryOutcome,
                       localeDate: string -> string): (r: string)
    requires col.Printer?
    ensures !col.isDate ==> r == GetValueWithJSONPath(item, col.jsonPath, query)
    ensures col.isDate ==> r == localeDate(GetValueWithJSONPath(item, col.jsonPath, query))
  {
    var value := GetValueWithJSONPath(item, col.jsonPath, query);
    if col.isDate then localeDate(value) else value
  }

  /** A lookup that throws never breaks the table: a plain printer column then shows ''. */
  lemma ThrowingLookupShowsEmpty(col: Column, item: CustomResource,
                                 query: (string, Json) -> QueryOutcome, localeDate: string -> string)
    requires col.Printer? && !col.isDate
    requires query("$" + col.jsonPath, item.jsonData) == Threw
    ensures PrinterCell(col, item, query, localeDate) == ""
  {
  }

  /** `CustomResourceLink`: the route and parameters of a resource's name link; a resource
      without a namespace links with the namespace '-'. */
  function LinkParams(item: CustomResource, crd: Crd): (r: map<string, string>)
    ensures r.Keys == {"crName", "crd", "namespace"}
    ensures r["crName"] == item.name && r["crd"] == crd.name
    ensures r["namespace"] != ""
    ensures Truthy(item.namespace) ==> r["namespace"] == item.namespace.value
    ensures !Truthy(item.namespace) ==> r["namespace"] == "-"
  {
    map["crName" := item.name, "crd" := crd.name,
        "namespace" := if Truthy(item.namespace) then item.namespace.value else "-"]
  }

  const LinkRouteName := "customresource"

  // ---------------------------------------------------------------------------
  // Columns
  // ---------------------------------------------------------------------------

  const CreationTimestampPath := ".metadata.creationTimestamp"

  /** The printer columns of the version whose name is the main API version; none when no
      version matches or it lists none. */
  function ColumnsFromSpec(crd: Crd): (r: seq<PrinterColumn>)
    ensures (forall j :: 0 <= j < |crd.versions| ==> crd.versions[j].name != crd.mainVersion) ==> r == []
    ensures forall v :: Find(crd.versions, (v: CrdVersion) => v.name == crd.mainVersion) == Some(v) ==>
      r == v.additionalPrinterColumns.GetOr([])
  {
    match Find(crd.versions, (v: CrdVersion) => v.name == crd.mainVersion)
    case None => []
    case Some(v) => v.additionalPrinterColumns.GetOr([])
  }

  /** The column a printer-column entry becomes. */
  function ToColumn(spec: PrinterColumn): (c: Column)
    ensures c.Printer? && c.labelText == spec.name && c.jsonPath == spec.jsonPath
    ensures c.isDate <==> spec.colType == Some("date")
  {
    Printer(spec.name, spec.jsonPath, spec.colType == Some("date"))
  }

  /** The printer columns shown: each entry in order, the creation timestamp left out. */
  function ExtraColumns(specs: seq<PrinterColumn>): (r: seq<Column>)
    ensures |r| <= |specs|
    ensures forall c :: c in r ==> c.Printer? && c.jsonPath != CreationTimestampPath
    ensures forall s :: s in specs && s.jsonPath != CreationTimestampPath ==> ToColumn(s) in r
    ensures forall c :: c in r ==> exists s :: s in specs && c == ToColumn(s)
  {
    if specs == [] then []
    else
      var last := specs[|specs| - 1];
      var front := ExtraColumns(specs[..|specs| - 1]);
      assert forall s :: s in specs ==> s in specs[..|specs| - 1] || s == last;
      if last.jsonPath == CreationTimestampPath then front else front + [ToColumn(last)]
  }

  /** Order is kept: the columns of a concatenation are the columns of its parts, concatenated. */
  lemma {:induction false} ExtraColumnsAppend(a: seq<PrinterColumn>, b: seq<PrinterColumn>)
    ensures ExtraColumns(a + b) == ExtraColumns(a) + ExtraColumns(b)
    decreases |b|
  {
    if b == [] {
      assert a + b == a;
    } else {
      var b' := b[..|b| - 1];
      assert (a + b)[..|a + b| - 1] == a + b';
      assert (a + b)[|a + b| - 1] == b[|b| - 1];
      ExtraColumnsAppend(a, b');
    }
  }

  /** `additionalPrinterCols`: walks the printer columns of the main version, skips the
      creation timestamp and pushes a labelled column for each other entry. */
  method AdditionalPrinterCols(crd: Crd) returns (cols: seq<Column>)
    ensures cols == ExtraColumns(ColumnsFromSpec(crd))
  {
    var colsFromSpec := ColumnsFromSpec(crd);
    cols := [];
    for i := 0 to |colsFromSpec|
      invariant cols == ExtraColumns(colsFromSpec[..i])
    {
      var colSpec := colsFromSpec[i];
      assert colsFromSpec[..i + 1][..i] == colsFromSpec[..i];
      if colSpec.jsonPath == CreationTimestampPath {
        continue;
      }
      cols := cols + [ToColumn(colSpec)];
    }
    assert colsFromSpec[..|colsFromSpec|] == colsFromSpec;
  }

  /** `cols`: the name column, the extra columns and 'age'; for a namespaced-scope CRD,
      'namespace' is spliced in at index 1. */
  method DisplayColumns(extra: seq<Column>, isNamespacedScope: bool) returns (cols: seq<Column>)
    ensures |cols| == |extra| + 2 + (if isNamespacedScope then 1 else 0)
    ensures cols[0] == NameColumn && cols[|cols| - 1] == AgeColumn
    ensures isNamespacedScope ==> cols[1] == NamespaceColumn && cols[2..|cols| - 1] == extra
    ensures !isNamespacedScope ==> cols[1..|cols| - 1] == extra
    ensures cols == [NameColumn] + (if isNamespacedScope then [NamespaceColumn] else []) + extra + [AgeColumn]
  {
    cols := [NameColumn] + extra + [AgeColumn];
    if isNamespacedScope {
      cols := cols[..1] + [NamespaceColumn] + cols[1..];
      assert cols == [NameColumn, NamespaceColumn] + extra + [AgeColumn];
    }
  }

  /** The table the page renders. */
  datatype TableView =
    | NoCustomResources
    | ListView(title: string, noNamespaceFilter: bool, columns: seq<Column>)

  /** `CustomResourceListTable`: no table without a resource class; otherwise the list with its
      title (empty by default), the namespace filter hidden for a CRD that is not namespaced,
      and the derived columns. */
  method CustomResourceListTable(crd: Crd, title: Option<string>) returns (view: TableView)
    ensures view.NoCustomResources? <==> !crd.hasCRClass
    ensures view.ListView? ==> view.title == title.GetOr("")
    ensures view.ListView? ==> (view.noNamespaceFilter <==> !crd.isNamespaced)
    ensures view.ListView? ==>
      view.columns == [NameColumn] + (if crd.isNamespacedScope then [NamespaceColumn] else []) +
                      ExtraColumns(ColumnsFromSpec(crd)) + [AgeColumn]
    ensures view.ListView? ==> forall c :: c in view.columns && c.Printer? ==>
      c in ExtraColumns(ColumnsFromSpec(crd))
  {
    if !crd.hasCRClass {
      return NoCustomResources;
    }
    var extra := AdditionalPrinterCols(crd);
    var cols := DisplayColumns(extra, crd.isNamespacedScope);
    view := ListView(title.GetOr(""), !crd.isNamespaced, cols);
  }
}
