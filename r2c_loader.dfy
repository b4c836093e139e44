/** R2cLoader.load (r2c_isg/loaders/core/r2c_loader.py): a dataset from an
    r2c input set, the JSON value json.load read from the file (a
    parameter here). */
module R2cLoader {
  import opened Outcomes
  import opened Json
  import opened Entities
  import opened Upsert
  import Apis
  import opened Datasets

  /** d.get(k, None) */
  function DictGet(d: Json, k: string): (r: Result<Json>)
    ensures d.Obj? <==> r.Ok?
    ensures d.Obj? ==> r.value == match Get(d.fields, k) case Some(v) => v case None => Null
    ensures !d.Obj? ==> r == Err(AttributeError("get"))
  {
    if !d.Obj? then Err(AttributeError("get"))
    else match Get(d.fields, k)
      case None => Ok(Null)
      case Some(v) => Ok(v)
  }

  /** `mine or data[k]` and `mine or data.get(k, None)`: the file is read
      only when the dataset has no truthy value of its own. */
  function KeepOrSubscript(mine: Json, data: Json, k: string): Result<Json> {
    if Truthy(mine) then Ok(mine) else Subscript(data, k)
  }

  function KeepOrGet(mine: Json, data: Json, k: string): Result<Json> {
    if Truthy(mine) then Ok(mine) else DictGet(data, k)
  }

  /** The dataset's metadata once the file has filled it in: name and
      version are required, the other four optional. */
  function LoadedMeta(m: Meta, data: Json): Result<Meta> {
    var name :- KeepOrSubscript(m.name, data, "name");
    var version :- KeepOrSubscript(m.version, data, "version");
    var description :- KeepOrGet(m.description, data, "description");
    var readme :- KeepOrGet(m.readme, data, "readme");
    var author :- KeepOrGet(m.author, data, "author");
    var email :- KeepOrGet(m.email, data, "email");
    Ok(Meta(name, version, description, readme, author, email))
  }

  /** What the file may fill in: truthy values already set stay, the rest
      come from the file; a file that is a dict fails only by lacking a
      name or a version the dataset needs. */
  lemma LoadedMetaFields(m: Meta, data: Json)
    ensures var r := LoadedMeta(m, data);
      && (data.Obj? ==> (r.Err? <==> (!Truthy(m.name) && Get(data.fields, "name").None?)
                                      || (!Truthy(m.version) && Get(data.fields, "version").None?)))
      && (r.Ok? ==>
            && r.value.name == (if Truthy(m.name) then m.name else Get(data.fields, "name").value)
            && r.value.version == (if Truthy(m.version) then m.version else Get(data.fields, "version").value)
            && r.value.description == (if Truthy(m.description) then m.description else DictGet(data, "description").value)
            && r.value.readme == (if Truthy(m.readme) then m.readme else DictGet(data, "readme").value)
            && r.value.author == (if Truthy(m.author) then m.author else DictGet(data, "author").value)
            && r.value.email == (if Truthy(m.email) then m.email else DictGet(data, "email").value))
  {
  }

  /** A dataset whose metadata is all set truthy never looks at the file's. */
  lemma FullMetaKept(m: Meta, data: Json)
    requires Truthy(m.name) && Truthy(m.version) && Truthy(m.description)
    requires Truthy(m.readme) && Truthy(m.author) && Truthy(m.email)
    ensures LoadedMeta(m, data) == Ok(m)
  {
  }

  const ProjectKeys: seq<string> := ["repo_url", "url", "package_name"]
  const VersionKeys: seq<string> := ["commit_hash", "version"]

  /** The entries of an input whose key is one of `keys`, as keyword
      arguments: `part[k] = val` in the input's order. */
  function Part(fields: Fields, keys: seq<string>): map<string, Json> {
    if fields == [] then map[]
    else
      var (k, v) := fields[|fields| - 1];
      var m := Part(fields[..|fields| - 1], keys);
      if k in keys then m[k := v] else m
  }

  /** Exactly the input's keys among `keys` are kept, each with one of its
      values; every other key is dropped. */
  lemma {:induction false} PartKeys(fields: Fields, keys: seq<string>)
    ensures forall k :: k in Part(fields, keys) <==> k in keys && exists i :: 0 <= i < |fields| && fields[i].0 == k
    ensures forall k :: k in Part(fields, keys) ==> exists i :: 0 <= i < |fields| && fields[i] == (k, Part(fields, keys)[k])
    decreases |fields|
  {
    if fields != [] {
      var init := fields[..|fields| - 1];
      PartKeys(init, keys);
      assert forall i :: 0 <= i < |init| ==> init[i] == fields[i];
      var m := Part(fields, keys);
      forall k | k in keys && (exists i :: 0 <= i < |fields| && fields[i].0 == k) ensures k in m {
        var i :| 0 <= i < |fields| && fields[i].0 == k;
        if i < |init| {
          assert init[i].0 == k;
        }
      }
      forall k | k in m ensures exists i :: 0 <= i < |fields| && fields[i] == (k, m[k]) {
        if k != fields[|fields| - 1].0 {
          var i :| 0 <= i < |init| && init[i] == (k, Part(init, keys)[k]);
          assert fields[i] == (k, m[k]);
        } else {
          assert fields[|fields| - 1] == (k, m[k]);
        }
      }
    }
  }

  /** The split of one input into project and version data. */
  method SplitInput(fields: Fields) returns (pData: map<string, Json>, vData: map<string, Json>)
    ensures pData == Part(fields, ProjectKeys) && vData == Part(fields, VersionKeys)
  {
    pData, vData := map[], map[];
    var i := 0;
    while i < |fields|
      invariant 0 <= i <= |fields|
      invariant pData == Part(fields[..i], ProjectKeys) && vData == Part(fields[..i], VersionKeys)
    {
      assert fields[..i + 1][..i] == fields[..i];
      var (k, val) := fields[i];
      if k in VersionKeys {
        vData := vData[k := val];
      } else if k in ProjectKeys {
        pData := pData[k := val];
      }
      i := i + 1;
    }
    assert fields[..i] == fields;
  }

  /** A new project is identified by its package name, and by its url or,
      failing that, its repository url. */
  function ProjectSpec(pData: map<string, Json>): Spec {
    var s := if "package_name" in pData then [("name", "package_name")] else [];
    var s := if "repo_url" in pData then SpecSet(s, "url", "repo_url") else s;
    if "url" in pData then SpecSet(s, "url", "url") else s
  }

  function VersionSpec(vData: map<string, Json>): Spec {
    var s := if "version" in vData then [("version", "version")] else [];
    if "commit_hash" in vData then SpecSet(s, "commit", "commit_hash") else s
  }

  lemma NewSpecs(pData: map<string, Json>, vData: map<string, Json>)
    ensures Get(ProjectSpec(pData), "name") == if "package_name" in pData then Some("package_name") else None
    ensures Get(ProjectSpec(pData), "url") ==
      if "url" in pData then Some("url") else if "repo_url" in pData then Some("repo_url") else None
    ensures Get(VersionSpec(vData), "version") == if "version" in vData then Some("version") else None
    ensures Get(VersionSpec(vData), "commit") == if "commit_hash" in vData then Some("commit_hash") else None
  {
    var s0: Spec := if "package_name" in pData then [("name", "package_name")] else [];
    assert Get(s0, "url") == None;
    var t0: Spec := if "version" in vData then [("version", "version")] else [];
    assert Get(t0, "commit") == None;
  }

  /** One input of the file. */
  function InputRecord(ps: seq<Project>, input: Json, registry: Option<string>): Result<seq<Project>> {
    if !input.Obj? then Err(AttributeError("items"))
    else
      var pData := Part(input.fields, ProjectKeys);
      var vData := Part(input.fields, VersionKeys);
      AddRecord(ps, pData, ProjectClassFor(registry), ProjectSpec(pData), [],
                vData, VersionClassFor(registry), VersionSpec(vData))
  }

  function LoadInputs(ps: seq<Project>, inputs: seq<Json>, registry: Option<string>): Result<seq<Project>>
    decreases |inputs|
  {
    if inputs == [] then Ok(ps)
    else
      var qs :- InputRecord(ps, inputs[0], registry);
      LoadInputs(qs, inputs[1..], registry)
  }

  /** One input, as the loop body runs it. */
  method ReadInput(ps: seq<Project>, input: Json, registry: Option<string>) returns (r: Result<seq<Project>>)
    ensures r == InputRecord(ps, input, registry)
  {
    if !input.Obj? {
      return Err(AttributeError("items"));
    }
    var pData, vData := SplitInput(input.fields);
    r := AddRecord(ps, pData, ProjectClassFor(registry), ProjectSpec(pData), [],
                   vData, VersionClassFor(registry), VersionSpec(vData));
  }

  lemma LoadInputsStep(ps: seq<Project>, inputs: seq<Json>, i: nat)
    requires i < |inputs|
    ensures forall registry: Option<string> :: (LoadInputs(ps, inputs[i..], registry) ==
      match InputRecord(ps, inputs[i], registry) case Ok(qs) => LoadInputs(qs, inputs[i + 1..], registry) case Err(e) => Err(e))
  {
    assert inputs[i..][0] == inputs[i] && inputs[i..][1..] == inputs[i + 1..];
  }

  /** The loop over the inputs. */
  method ReadInputs(ps0: seq<Project>, inputs: seq<Json>, registry: Option<string>) returns (r: Result<seq<Project>>)
    ensures r == LoadInputs(ps0, inputs, registry)
  {
    var ps := ps0;
    var i := 0;
    while i < |inputs|
      invariant 0 <= i <= |inputs|
      invariant LoadInputs(ps0, inputs, registry) == LoadInputs(ps, inputs[i..], registry)
    {
      LoadInputsStep(ps, inputs, i);
      var next := ReadInput(ps, inputs[i], registry);
      if next.Err? {
        return Err(next.error);
      }
      ps := next.value;
      i := i + 1;
    }
    r := Ok(ps);
  }

  /** The whole load after the dataset is made: metadata, then inputs. */
  function LoadData(m: Meta, data: Json, registry: Option<string>): Result<(Meta, seq<Project>)> {
    var meta :- LoadedMeta(m, data);
    var field :- Subscript(data, "inputs");
    var inputs :- Iterate(field);
    var ps :- LoadInputs([], inputs, registry);
    Ok((meta, ps))
  }

  /** The steps of LoadData in the source's order. */
  method ReadData(m: Meta, data: Json, registry: Option<string>) returns (r: Result<(Meta, seq<Project>)>)
    ensures r == LoadData(m, data, registry)
  {
    var meta := LoadedMeta(m, data);
    if meta.Err? {
      return Err(meta.error);
    }
    var field := Subscript(data, "inputs");
    if field.Err? {
      return Err(field.error);
    }
    var inputs := Iterate(field.value);
    if inputs.Err? {
      return Err(inputs.error);
    }
    var ps := ReadInputs([], inputs.value, registry);
    if ps.Err? {
      return Err(ps.error);
    }
    r := Ok((meta.value, ps.value));
  }

  /** R2cLoader.load. Any projects the dataset had are replaced. */
  method Load(data: Json, registry: Option<string>, kwargs: map<string, Json>,
              gitName: Json, gitEmail: Json, disk: map<string, Apis.Entry>) returns (r: Result<Dataset>)
    ensures InvalidName(registry) ==> r == Err(InvalidRegistry(registry.value))
    ensures !InvalidName(registry) ==>
      var loaded := LoadData(MetaUpdate(Meta(Null, Null, Null, Null, gitName, gitEmail), kwargs), data, registry);
      && (r.Err? <==> loaded.Err?)
      && (r.Err? ==> r.error == loaded.error)
      && (r.Ok? ==> fresh(r.value) && r.value.registry == registry
                    && r.value.MetaOf() == loaded.value.0 && r.value.projects == loaded.value.1)
  {
    var created := Dataset.Create(registry, kwargs, gitName, gitEmail, disk);
    if created.Err? {
      return Err(created.error);
    }
    var ds := created.value;
    var loaded := ReadData(ds.MetaOf(), data, registry);
    if loaded.Err? {
      return Err(loaded.error);
    }
    var (meta, ps) := loaded.value;
    ds.name, ds.version, ds.description := meta.name, meta.version, meta.description;
    ds.readme, ds.author, ds.email := meta.readme, meta.author, meta.email;
    ds.projects := ps;
    r := Ok(ds);
  }

  // ---------------------------------------------------------------------
  // Properties

  /** Each input adds at most one project and removes none. */
  lemma {:induction false} LoadInputsGrows(ps: seq<Project>, inputs: seq<Json>, registry: Option<string>)
    requires LoadInputs(ps, inputs, registry).Ok?
    ensures |ps| <= |LoadInputs(ps, inputs, registry).value| <= |ps| + |inputs|
    decreases |inputs|
  {
    if inputs != [] {
      var input := inputs[0];
      var pData := Part(input.fields, ProjectKeys);
      var vData := Part(input.fields, VersionKeys);
      AddRecordShape(ps, pData, ProjectClassFor(registry), ProjectSpec(pData), [],
                     vData, VersionClassFor(registry), VersionSpec(vData));
      LoadInputsGrows(InputRecord(ps, input, registry).value, inputs[1..], registry);
    }
  }

  /** Loading is input by input: two runs of the file's inputs, one after
      the other, are the run of both. */
  lemma {:induction false} LoadInputsAppend(ps: seq<Project>, a: seq<Json>, b: seq<Json>, registry: Option<string>)
    ensures LoadInputs(ps, a + b, registry) ==
      match LoadInputs(ps, a, registry) case Ok(qs) => LoadInputs(qs, b, registry) case Err(e) => Err(e)
    decreases |a|
  {
    if a != [] {
      assert (a + b)[0] == a[0] && (a + b)[1..] == a[1..] + b;
      var q := InputRecord(ps, a[0], registry);
      if q.Ok? {
        LoadInputsAppend(q.value, a[1..], b, registry);
      }
    } else {
      assert a + b == b;
    }
  }

  /** Without a registry a new project must have a url: the first input of
      a file that names only a package is refused. */
  lemma FirstInputNeedsUrl(input: Json)
    requires input.Obj?
    requires Get(input.fields, "url").None? && Get(input.fields, "repo_url").None?
    ensures InputRecord([], input, None) == Err(GuaranteesNotMet("project"))
  {
    var pData := Part(input.fields, ProjectKeys);
    var vData := Part(input.fields, VersionKeys);
    PartKeys(input.fields, ProjectKeys);
    assert "url" !in pData && "repo_url" !in pData;
    NewSpecs(pData, vData);
    UpsertProjectNew([], pData, DefaultProject, ProjectSpec(pData), []);
  }

  /** A file whose inputs are not dicts is refused at the first one. */
  lemma InputsMustBeDicts(ps: seq<Project>, inputs: seq<Json>, registry: Option<string>)
    requires inputs != [] && !inputs[0].Obj?
    ensures LoadInputs(ps, inputs, registry) == Err(AttributeError("items"))
  {
  }
}
