/** CsvLoader.load (r2c_isg/loaders/file/csv_loader.py): one project per
    distinct project, one version per distinct version, from the rows of a
    csv file. The file's rows, as csv.reader splits them, are a parameter. */
module CsvLoader {
  import opened Outcomes
  import opened Json
  import opened PyStr
  import opened Entities
  import opened Identity
  import opened Upsert
  import Apis
  import opened Datasets

  /** The headers in force and whether the user gave them. */
  datatype Headers = Headers(names: seq<string>, userDefined: bool)

  const DefaultHeaders: seq<string> := ["name", "v.version"]

  /** `headers = kwargs.pop('fileargs', None)`, then split when truthy. */
  function InitialHeaders(fileargs: Json): Result<Headers> {
    if !Truthy(fileargs) then Ok(Headers(DefaultHeaders, false))
    else if !fileargs.Str? then Err(AttributeError("split"))
    else Ok(Headers(SplitWhitespace(fileargs.s), true))
  }

  /** `[h[1:] for h in row]`: a header row with its marks removed. */
  function HeaderRow(row: seq<string>): (r: seq<string>)
    ensures |r| == |row|
    ensures forall i :: 0 <= i < |row| ==> r[i] == if row[i] == "" then "" else row[i][1..]
  {
    seq(|row|, i requires 0 <= i < |row| => if row[i] == "" then "" else row[i][1..])
  }

  predicate IsHeaderRow(row: seq<string>) {
    row != [] && StartsWith(row[0], "!")
  }

  predicate IsVersionHeader(h: string) {
    StartsWith(h, "v.")
  }

  /** The dicts p_data and v_data of one data row: the first n cells,
      each under its header; a later cell under the same key wins. */
  function RowData(headers: seq<string>, row: seq<string>, n: nat): (map<string, Json>, map<string, Json>)
    requires n <= |row| <= |headers|
  {
    if n == 0 then (map[], map[])
    else
      var (p, v) := RowData(headers, row, n - 1);
      var attr := headers[n - 1];
      if IsVersionHeader(attr) then (p, v[attr[2..] := Str(row[n - 1])])
      else (p[attr := Str(row[n - 1])], v)
  }

  /** Cell i goes to the project under its header, or to the version under
      its header without the "v." mark. */
  predicate ProjectCell(headers: seq<string>, row: seq<string>, i: nat, k: string)
    requires i < |row| <= |headers|
  {
    !IsVersionHeader(headers[i]) && headers[i] == k
  }

  predicate VersionCell(headers: seq<string>, row: seq<string>, i: nat, k: string)
    requires i < |row| <= |headers|
  {
    IsVersionHeader(headers[i]) && headers[i][2..] == k
  }

  /** A key is in p_data exactly when some cell's header names it, and in
      v_data exactly when some cell's "v." header names it. */
  lemma {:induction false} RowDataProjectKeys(headers: seq<string>, row: seq<string>, n: nat)
    requires n <= |row| <= |headers|
    ensures forall k :: k in RowData(headers, row, n).0 <==> exists i :: 0 <= i < n && ProjectCell(headers, row, i, k)
    decreases n
  {
    if n > 0 {
      RowDataProjectKeys(headers, row, n - 1);
      forall k ensures k in RowData(headers, row, n).0 <==> exists i :: 0 <= i < n && ProjectCell(headers, row, i, k) {
        if ProjectCell(headers, row, n - 1, k) {
          assert k in RowData(headers, row, n).0;
        }
      }
    }
  }

  lemma {:induction false} RowDataVersionKeys(headers: seq<string>, row: seq<string>, n: nat)
    requires n <= |row| <= |headers|
    ensures forall k :: k in RowData(headers, row, n).1 <==> exists i :: 0 <= i < n && VersionCell(headers, row, i, k)
    decreases n
  {
    if n > 0 {
      RowDataVersionKeys(headers, row, n - 1);
      forall k ensures k in RowData(headers, row, n).1 <==> exists i :: 0 <= i < n && VersionCell(headers, row, i, k) {
        if VersionCell(headers, row, n - 1, k) {
          assert k in RowData(headers, row, n).1;
        }
      }
    }
  }

  /** The value under a key is the last cell whose header names it. */
  lemma {:induction false} RowDataValues(headers: seq<string>, row: seq<string>, n: nat, i: nat, k: string)
    requires i < n <= |row| <= |headers|
    requires forall j :: i < j < n ==> !ProjectCell(headers, row, j, k) && !VersionCell(headers, row, j, k)
    ensures ProjectCell(headers, row, i, k) ==> k in RowData(headers, row, n).0 && RowData(headers, row, n).0[k] == Str(row[i])
    ensures VersionCell(headers, row, i, k) ==> k in RowData(headers, row, n).1 && RowData(headers, row, n).1[k] == Str(row[i])
    decreases n
  {
    if i < n - 1 {
      RowDataValues(headers, row, n - 1, i, k);
      assert !ProjectCell(headers, row, n - 1, k) && !VersionCell(headers, row, n - 1, k);
    }
  }

  /** The uuid spec, meta spec and class of a project the loader creates. */
  function ProjectSpec(pData: map<string, Json>): Spec {
    (if "name" in pData then [("name", "name")] else []) + (if "url" in pData then [("url", "url")] else [])
  }

  function ProjectMeta(pData: map<string, Json>): Spec {
    if "org" in pData then [("org", "org")] else []
  }

  function VersionSpec(vData: map<string, Json>): Spec {
    (if "version" in vData then [("version", "version")] else []) + (if "commit" in vData then [("commit", "commit")] else [])
  }

  /** A new project is identified by its name and by its url, when the row
      has them, and carries its org as metadata. */
  lemma NewSpecs(pData: map<string, Json>, vData: map<string, Json>)
    ensures SpecHas(ProjectSpec(pData), "name") <==> "name" in pData
    ensures SpecHas(ProjectSpec(pData), "url") <==> "url" in pData
    ensures SpecHas(ProjectMeta(pData), "org") <==> "org" in pData
    ensures SpecHas(VersionSpec(vData), "version") <==> "version" in vData
    ensures SpecHas(VersionSpec(vData), "commit") <==> "commit" in vData
    ensures forall k :: SpecHas(ProjectSpec(pData), k) ==> Get(ProjectSpec(pData), k) == Some(k)
  {
    var s := ProjectSpec(pData);
    if "url" !in pData {
      assert forall i :: 0 <= i < |s| ==> s[i].0 != "url";
    } else {
      assert s[|s| - 1] == ("url", "url");
    }
    var t := VersionSpec(vData);
    if "commit" !in vData {
      assert forall i :: 0 <= i < |t| ==> t[i].0 != "commit";
    } else {
      assert t[|t| - 1] == ("commit", "commit");
    }
    forall k | SpecHas(s, k) ensures Get(s, k) == Some(k) {
      var i :| 0 <= i < |s| && s[i] == (k, Get(s, k).value);
    }
  }

  /** One data row, once it fits the headers. */
  function DataRow(ps: seq<Project>, headers: seq<string>, row: seq<string>, registry: Option<string>): Result<seq<Project>>
    requires |row| <= |headers|
  {
    var (pData, vData) := RowData(headers, row, |row|);
    AddRecord(ps, pData, ProjectClassFor(registry), ProjectSpec(pData), ProjectMeta(pData),
              vData, VersionClassFor(registry), VersionSpec(vData))
  }

  /** The rows from the current one on, given the headers in force and the
      projects so far. */
  function LoadRows(ps: seq<Project>, h: Headers, rows: seq<seq<string>>, registry: Option<string>): Result<seq<Project>>
    decreases |rows|
  {
    if rows == [] then Ok(ps)
    else
      var row := rows[0];
      if row == [] then Err(IndexError)
      else if IsHeaderRow(row) then
        LoadRows(ps, if h.userDefined then h else Headers(HeaderRow(row), false), rows[1..], registry)
      else if |row| > |h.names| then Err(MissingHeader)
      else
        var qs :- DataRow(ps, h.names, row, registry);
        LoadRows(qs, h, rows[1..], registry)
  }

  /** The loop over the rows. */
  method ReadRows(ps0: seq<Project>, h0: Headers, rows: seq<seq<string>>, registry: Option<string>)
    returns (r: Result<seq<Project>>)
    ensures r == LoadRows(ps0, h0, rows, registry)
  {
    var ps := ps0;
    var h := h0;
    var i := 0;
    while i < |rows|
      invariant 0 <= i <= |rows|
      invariant LoadRows(ps0, h0, rows, registry) == LoadRows(ps, h, rows[i..], registry)
    {
      assert rows[i..][0] == rows[i] && rows[i..][1..] == rows[i + 1..];
      var row := rows[i];
      if row == [] {
        return Err(IndexError);
      }
      if StartsWith(row[0], "!") {
        if !h.userDefined {
          h := Headers(HeaderRow(row), false);
        }
      } else {
        if |row| > |h.names| {
          return Err(MissingHeader);
        }
        var next := DataRow(ps, h.names, row, registry);
        if next.Err? {
          return Err(next.error);
        }
        ps := next.value;
      }
      i := i + 1;
    }
    r := Ok(ps);
  }

  /** CsvLoader.load: the dataset is made from the remaining keyword
      arguments, then filled from the rows. */
  method Load(rows: seq<seq<string>>, registry: Option<string>, kwargs: map<string, Json>,
              gitName: Json, gitEmail: Json, disk: map<string, Apis.Entry>) returns (r: Result<Dataset>)
    ensures var fileargs := if "fileargs" in kwargs then kwargs["fileargs"] else Null;
      && (InitialHeaders(fileargs).Err? ==> r == Err(InitialHeaders(fileargs).error))
      && (InitialHeaders(fileargs).Ok? ==>
            && (InvalidName(registry) ==> r == Err(InvalidRegistry(registry.value)))
            && (!InvalidName(registry) ==>
                  var loaded := LoadRows([], InitialHeaders(fileargs).value, rows, registry);
                  && (r.Err? <==> loaded.Err?)
                  && (r.Err? ==> r.error == loaded.error)
                  && (r.Ok? ==> fresh(r.value) && r.value.projects == loaded.value && r.value.registry == registry
                                && r.value.MetaOf() == MetaUpdate(Meta(Null, Null, Null, Null, gitName, gitEmail), kwargs - {"fileargs"}))))
  {
    var fileargs := if "fileargs" in kwargs then kwargs["fileargs"] else Null;
    var h := InitialHeaders(fileargs);
    if h.Err? {
      return Err(h.error);
    }
    var ds := Dataset.Create(registry, kwargs - {"fileargs"}, gitName, gitEmail, disk);
    if ds.Err? {
      return Err(ds.error);
    }
    var loaded := ReadRows([], h.value, rows, registry);
    if loaded.Err? {
      return Err(loaded.error);
    }
    ds.value.projects := loaded.value;
    r := Ok(ds.value);
  }

  // ---------------------------------------------------------------------
  // Properties

  /** Loading never drops a project: each data row adds at most one. */
  lemma {:induction false} LoadRowsGrows(ps: seq<Project>, h: Headers, rows: seq<seq<string>>, registry: Option<string>)
    requires LoadRows(ps, h, rows, registry).Ok?
    ensures |ps| <= |LoadRows(ps, h, rows, registry).value| <= |ps| + |rows|
    decreases |rows|
  {
    if rows != [] {
      var row := rows[0];
      if IsHeaderRow(row) {
        LoadRowsGrows(ps, if h.userDefined then h else Headers(HeaderRow(row), false), rows[1..], registry);
      } else {
        var (pData, vData) := RowData(h.names, row, |row|);
        AddRecordShape(ps, pData, ProjectClassFor(registry), ProjectSpec(pData), ProjectMeta(pData),
                       vData, VersionClassFor(registry), VersionSpec(vData));
        LoadRowsGrows(DataRow(ps, h.names, row, registry).value, h, rows[1..], registry);
      }
    }
  }

  /** Headers given by the user are never replaced: with them, dropping the
      header rows from the file changes nothing. */
  lemma {:induction false} UserHeadersStay(ps: seq<Project>, h: Headers, rows: seq<seq<string>>, registry: Option<string>)
    requires h.userDefined
    ensures LoadRows(ps, h, rows, registry) == LoadRows(ps, h, DataRows(rows), registry)
    decreases |rows|
  {
    if rows != [] {
      var row := rows[0];
      if IsHeaderRow(row) {
        UserHeadersStay(ps, h, rows[1..], registry);
      } else if row != [] && |row| <= |h.names| && DataRow(ps, h.names, row, registry).Ok? {
        UserHeadersStay(DataRow(ps, h.names, row, registry).value, h, rows[1..], registry);
      }
    }
  }

  /** The rows that are not header rows. */
  function DataRows(rows: seq<seq<string>>): (r: seq<seq<string>>)
    ensures forall row :: row in r <==> row in rows && !IsHeaderRow(row)
  {
    if rows == [] then []
    else if IsHeaderRow(rows[0]) then DataRows(rows[1..])
    else [rows[0]] + DataRows(rows[1..])
  }

  /** A file with only header rows loads no project; its last header row,
      when the user gave none, is in force afterwards. */
  lemma {:induction false} OnlyHeaderRows(ps: seq<Project>, h: Headers, rows: seq<seq<string>>, registry: Option<string>)
    requires forall i :: 0 <= i < |rows| ==> IsHeaderRow(rows[i])
    ensures LoadRows(ps, h, rows, registry) == Ok(ps)
    decreases |rows|
  {
    if rows != [] {
      var h' := if h.userDefined then h else Headers(HeaderRow(rows[0]), false);
      assert forall i :: 0 <= i < |rows[1..]| ==> rows[1..][i] == rows[i + 1];
      OnlyHeaderRows(ps, h', rows[1..], registry);
    }
  }

  /** Without a registry a new project is a DefaultProject, which needs a
      url: with the default headers the first data row raises. */
  lemma DefaultHeadersNeedRegistry(row: seq<string>, rest: seq<seq<string>>)
    requires 1 <= |row| <= 2 && !IsHeaderRow(row)
    ensures LoadRows([], Headers(DefaultHeaders, false), [row] + rest, None) == Err(GuaranteesNotMet("project"))
  {
    var (pData, vData) := RowData(DefaultHeaders, row, |row|);
    RowDataProjectKeys(DefaultHeaders, row, |row|);
    assert "name"[0] != "v."[0] && "v.version"[..2] == "v.";
    assert "url" !in pData;
    assert ([row] + rest)[1..] == rest;
    ScanFindsFirst(pData, ProjectIdents([]));
    UpsertProjectNew([], pData, DefaultProject, ProjectSpec(pData), ProjectMeta(pData));
  }
}
