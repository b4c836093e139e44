/** The Dataset: a list of projects plus the input set's own metadata, an
    optional registry name and the API client that registry implies
    (r2c_isg/dataset.py; r2c_isg/structures/dataset.py is an earlier copy
    of the same class, and r2c_isg/functions/{trim,sample,sort}.py are
    copies of its trim, sample and sort as free functions).

    Projects are values here: a method that changes one project's versions
    writes the whole list back. */
module Datasets {
  import opened Outcomes
  import opened Json
  import opened Entities
  import opened Identity
  import opened Sorting
  import opened Apis
  import opened Upsert

  // ---------------------------------------------------------------------
  // Metadata

  datatype Meta = Meta(name: Json, version: Json, description: Json, readme: Json, author: Json, email: Json)

  /** `kwargs.pop(k, d)`: the argument when it was passed, whatever it is. */
  function PopOr(kwargs: map<string, Json>, k: string, d: Json): Json {
    if k in kwargs then kwargs[k] else d
  }

  /** Dataset.update(**kwargs). */
  function MetaUpdate(m: Meta, kwargs: map<string, Json>): Meta {
    Meta(PopOr(kwargs, "name", m.name), PopOr(kwargs, "version", m.version),
         PopOr(kwargs, "description", m.description), PopOr(kwargs, "readme", m.readme),
         PopOr(kwargs, "author", m.author), PopOr(kwargs, "email", m.email))
  }

  const MetaKeys: set<string> := {"name", "version", "description", "readme", "author", "email"}

  /** A field takes the passed value exactly when its key was passed, even
      a falsy one such as None; keys outside the metadata change nothing. */
  lemma MetaUpdateFields(m: Meta, kwargs: map<string, Json>)
    ensures var r := MetaUpdate(m, kwargs);
      && ("name" in kwargs ==> r.name == kwargs["name"]) && ("name" !in kwargs ==> r.name == m.name)
      && ("version" in kwargs ==> r.version == kwargs["version"]) && ("version" !in kwargs ==> r.version == m.version)
      && ("email" in kwargs ==> r.email == kwargs["email"]) && ("email" !in kwargs ==> r.email == m.email)
    ensures (forall k :: k in kwargs ==> k !in MetaKeys) ==> MetaUpdate(m, kwargs) == m
  {
  }

  /** Two updates are one update with the later arguments winning, and an
      update repeated changes nothing more. */
  lemma MetaUpdateCompose(m: Meta, a: map<string, Json>, b: map<string, Json>)
    ensures MetaUpdate(MetaUpdate(m, a), b) == MetaUpdate(m, a + b)
    ensures MetaUpdate(MetaUpdate(m, a), a) == MetaUpdate(m, a)
  {
  }

  // ---------------------------------------------------------------------
  // The registry

  const RegistryNames: set<string> := {"github", "npm", "pypi"}

  /** api_map.get(registry): the client class a registry name selects. */
  function RegistryApi(registry: Option<string>): (r: Option<Registry>)
    ensures r.Some? <==> registry.Some? && registry.value in RegistryNames
    ensures r == Some(GithubApi) <==> registry == Some("github")
  {
    match registry
    case None => None
    case Some(s) =>
      if s == "github" then Some(GithubApi)
      else if s == "npm" then Some(NpmApi)
      else if s == "pypi" then Some(PypiApi)
      else None
  }

  /** project_map.get(registry, DefaultProject): the class the loaders give
      a new project. */
  function ProjectClassFor(registry: Option<string>): (c: ProjectClass)
    ensures c == DefaultProject <==> RegistryApi(registry).None?
  {
    match RegistryApi(registry)
    case None => DefaultProject
    case Some(GithubApi) => GithubRepo
    case Some(NpmApi) => NpmPackage
    case Some(PypiApi) => PypiProject
  }

  /** version_map.get(registry, DefaultVersion): the class the loaders give
      a new version. */
  function VersionClassFor(registry: Option<string>): (c: VersionClass)
    ensures c == DefaultVersion <==> RegistryApi(registry).None?
    ensures RegistryApi(registry).Some? ==> c == NewVersionClass(RegistryApi(registry).value)
  {
    match RegistryApi(registry)
    case None => DefaultVersion
    case Some(GithubApi) => GithubCommit
    case Some(NpmApi) => NpmVersion
    case Some(PypiApi) => PypiRelease
  }

  /** `registry and registry not in registry_map`: the name __init__ refuses. */
  predicate InvalidName(registry: Option<string>) {
    registry.Some? && registry.value != "" && registry.value !in RegistryNames
  }

  // ---------------------------------------------------------------------
  // The input set

  /** `if value: d[key] = value` on a dict that lacks the key. */
  function Written(k: string, v: Json): Fields {
    if Truthy(v) then [(k, v)] else []
  }

  /** The metadata entries to_inputset writes: the truthy fields, in order. */
  function MetaFields(m: Meta): Fields {
    Written("name", m.name) + Written("version", m.version) + Written("description", m.description)
    + Written("readme", m.readme) + Written("author", m.author) + Written("email", m.email)
  }

  /** The results of f over xs, concatenated in order; the first element
      whose result is an error ends the walk with that error. */
  function Concat<T, U>(xs: seq<T>, f: T -> Result<seq<U>>): Result<seq<U>> {
    if xs == [] then Ok([])
    else
      var init :- Concat(xs[..|xs| - 1], f);
      var last :- f(xs[|xs| - 1]);
      Ok(init + last)
  }

  /** `d['inputs'].extend(p.to_inputset())` over the projects, in order. */
  function AllInputs(ps: seq<Project>): Result<seq<Json>> {
    Concat(ps, ProjectInputset)
  }

  /** Dataset.to_inputset. */
  function DatasetInputset(m: Meta, ps: seq<Project>): Result<Json> {
    if !(Truthy(m.name) && Truthy(m.version)) then Err(MissingNameOrVersion)
    else
      var inputs :- AllInputs(ps);
      Ok(Obj(MetaFields(m) + [("inputs", Arr(inputs))]))
  }

  lemma ConcatSnoc<T, U>(xs: seq<T>, f: T -> Result<seq<U>>, i: nat)
    requires i < |xs|
    ensures Concat(xs[..i + 1], f) ==
      match Concat(xs[..i], f)
      case Err(e) => Err(e)
      case Ok(a) => match f(xs[i]) case Err(e) => Err(e) case Ok(b) => Ok(a + b)
  {
    assert xs[..i + 1][..i] == xs[..i];
  }

  /** The walk succeeds exactly when f succeeds on every element. */
  lemma {:induction false} ConcatOk<T, U>(xs: seq<T>, f: T -> Result<seq<U>>)
    ensures Concat(xs, f).Ok? <==> forall i :: 0 <= i < |xs| ==> f(xs[i]).Ok?
    decreases |xs|
  {
    if xs != [] {
      var init := xs[..|xs| - 1];
      ConcatOk(init, f);
      assert forall i :: 0 <= i < |init| ==> init[i] == xs[i];
    }
  }

  /** A failed walk reports the error of the first element that fails. */
  lemma {:induction false} ConcatFirstError<T, U>(xs: seq<T>, f: T -> Result<seq<U>>)
    requires Concat(xs, f).Err?
    ensures exists j :: 0 <= j < |xs| && f(xs[j]) == Err(Concat(xs, f).error)
                        && forall i :: 0 <= i < j ==> f(xs[i]).Ok?
    decreases |xs|
  {
    var init := xs[..|xs| - 1];
    assert forall i :: 0 <= i < |init| ==> init[i] == xs[i];
    if Concat(init, f).Err? {
      ConcatFirstError(init, f);
    } else {
      ConcatOk(init, f);
    }
  }

  /** Walking two lists one after the other is walking their
      concatenation. */
  lemma {:induction false} ConcatAppend<T, U>(a: seq<T>, b: seq<T>, f: T -> Result<seq<U>>)
    requires Concat(a, f).Ok? && Concat(b, f).Ok?
    ensures Concat(a + b, f) == Ok(Concat(a, f).value + Concat(b, f).value)
    decreases |b|
  {
    if b != [] {
      var binit := b[..|b| - 1];
      var last := f(b[|b| - 1]);
      assert Concat(binit, f).Ok? && last.Ok?;
      assert Concat(b, f).value == Concat(binit, f).value + last.value;
      assert (a + b)[..|a + b| - 1] == a + binit;
      assert (a + b)[|a + b| - 1] == b[|b| - 1];
      ConcatAppend(a, binit, f);
      var ca, cb := Concat(a, f).value, Concat(binit, f).value;
      assert Concat(a + b, f) == Ok((ca + cb) + last.value);
      assert (ca + cb) + last.value == ca + (cb + last.value);
    } else {
      assert a + b == a;
      assert Concat(a, f).value + [] == Concat(a, f).value;
    }
  }

  /** Once a prefix fails, the whole walk fails with the same error. */
  lemma {:induction false} ConcatPrefixErr<T, U>(xs: seq<T>, f: T -> Result<seq<U>>, i: nat)
    requires i <= |xs| && Concat(xs[..i], f).Err?
    ensures Concat(xs, f) == Err(Concat(xs[..i], f).error)
    decreases |xs| - i
  {
    if i < |xs| {
      ConcatSnoc(xs, f, i);
      ConcatPrefixErr(xs, f, i + 1);
    } else {
      assert xs[..i] == xs;
    }
  }

  /** The export of the projects fails exactly when one project fails, with
      the first such project's error, and exporting two lists of projects
      is exporting their concatenation. */
  lemma AllInputsProperties(a: seq<Project>, b: seq<Project>)
    ensures AllInputs(a).Ok? <==> forall i :: 0 <= i < |a| ==> ProjectInputset(a[i]).Ok?
    ensures AllInputs(a).Err? ==> exists j :: 0 <= j < |a| && ProjectInputset(a[j]) == Err(AllInputs(a).error)
                                            && forall i :: 0 <= i < j ==> ProjectInputset(a[i]).Ok?
    ensures AllInputs(a).Ok? && AllInputs(b).Ok? ==> AllInputs(a + b) == Ok(AllInputs(a).value + AllInputs(b).value)
  {
    ConcatOk(a, ProjectInputset);
    if AllInputs(a).Err? {
      ConcatFirstError(a, ProjectInputset);
    }
    if AllInputs(a).Ok? && AllInputs(b).Ok? {
      ConcatAppend(a, b, ProjectInputset);
    }
  }

  /** A metadata entry is written exactly when the field is truthy, and
      nothing else is written. */
  lemma MetaFieldsKeys(m: Meta)
    ensures forall x :: x in MetaFields(m) <==>
      Truthy(x.1) && x in [("name", m.name), ("version", m.version), ("description", m.description),
                           ("readme", m.readme), ("author", m.author), ("email", m.email)]
  {
    var w1, w2, w3 := Written("name", m.name), Written("version", m.version), Written("description", m.description);
    var w4, w5, w6 := Written("readme", m.readme), Written("author", m.author), Written("email", m.email);
    assert MetaFields(m) == w1 + w2 + w3 + w4 + w5 + w6;
    forall x ensures x in MetaFields(m) <==> x in w1 || x in w2 || x in w3 || x in w4 || x in w5 || x in w6 {
    }
  }

  /** An exported input set starts with its name and version and holds the
      projects' inputs, in project order, under its last key "inputs". */
  lemma DatasetInputsetShape(m: Meta, ps: seq<Project>)
    ensures DatasetInputset(m, ps).Ok? <==>
      Truthy(m.name) && Truthy(m.version) && forall i :: 0 <= i < |ps| ==> ProjectInputset(ps[i]).Ok?
    ensures DatasetInputset(m, ps).Ok? ==>
      var d := DatasetInputset(m, ps).value;
      && d.Obj? && |d.fields| >= 3
      && d.fields[0] == ("name", m.name) && d.fields[1] == ("version", m.version)
      && d.fields[|d.fields| - 1] == ("inputs", Arr(AllInputs(ps).value))
  {
    ConcatOk(ps, ProjectInputset);
  }

  /** The metadata part of to_inputset. */
  method ExportMeta(m: Meta) returns (d: Fields)
    ensures d == MetaFields(m)
  {
    d := [];
    d := AddIfTruthy(d, "name", m.name);
    d := AddIfTruthy(d, "version", m.version);
    d := AddIfTruthy(d, "description", m.description);
    d := AddIfTruthy(d, "readme", m.readme);
    d := AddIfTruthy(d, "author", m.author);
    d := AddIfTruthy(d, "email", m.email);
    assert d == MetaFields(m);
  }

  /** `if value: d[key] = value`, the key being new to d. */
  method AddIfTruthy(d: Fields, k: string, v: Json) returns (r: Fields)
    ensures r == d + Written(k, v)
  {
    r := d;
    if Truthy(v) {
      r := d + [(k, v)];
    }
  }

  /** The export loop of to_inputset. */
  method ExportAll(ps: seq<Project>) returns (r: Result<seq<Json>>)
    ensures r == AllInputs(ps)
  {
    var inputs: seq<Json> := [];
    var i := 0;
    while i < |ps|
      invariant 0 <= i <= |ps|
      invariant Concat(ps[..i], ProjectInputset) == Ok(inputs)
    {
      ConcatSnoc(ps, ProjectInputset, i);
      var more := ProjectInputset(ps[i]);
      if more.Err? {
        ConcatPrefixErr(ps, ProjectInputset, i + 1);
        return Err(more.error);
      }
      inputs := inputs + more.value;
      i := i + 1;
    }
    assert ps[..i] == ps;
    r := Ok(inputs);
  }

  // ---------------------------------------------------------------------
  // trim

  function Min(a: int, b: int): int { if a <= b then a else b }
  function Max(a: int, b: int): int { if a >= b then a else b }

  /** The Python slice `s[:n]`; a negative n counts from the end. */
  function Prefix<T>(s: seq<T>, n: int): (r: seq<T>)
    ensures |r| == (if n >= 0 then Min(n, |s|) else Max(|s| + n, 0))
    ensures r == s[..|r|]
  {
    if n >= 0 then (if n <= |s| then s[..n] else s)
    else if |s| + n >= 0 then s[..|s| + n] else []
  }

  /** Slicing again with the same non-negative bound changes nothing; a
      negative bound drops more each time the list is non-empty. */
  lemma PrefixIdempotent<T>(s: seq<T>, n: int)
    ensures n >= 0 ==> Prefix(Prefix(s, n), n) == Prefix(s, n)
    ensures n < 0 && |s| > 0 ==> |Prefix(Prefix(s, n), n)| < |s| && |Prefix(s, n)| < |s|
  {
  }

  function TotalVersions(ps: seq<Project>): nat {
    if ps == [] then 0 else TotalVersions(ps[..|ps| - 1]) + |ps[|ps| - 1].versions|
  }

  /** Every project, its versions cut to `versions[:n]`. */
  function TrimmedVersions(ps: seq<Project>, n: int): (r: seq<Project>)
    ensures |r| == |ps|
    ensures forall i :: 0 <= i < |ps| ==> r[i] == ps[i].(versions := Prefix(ps[i].versions, n))
  {
    seq(|ps|, i requires 0 <= i < |ps| => ps[i].(versions := Prefix(ps[i].versions, n)))
  }

  lemma TotalVersionsSnoc(ps: seq<Project>, i: nat)
    requires i < |ps|
    ensures TotalVersions(ps[..i + 1]) == TotalVersions(ps[..i]) + |ps[i].versions|
  {
    assert ps[..i + 1][..i] == ps[..i];
  }

  lemma {:induction false} TotalVersionsLe(a: seq<Project>, b: seq<Project>)
    requires |a| == |b| && forall i :: 0 <= i < |a| ==> |a[i].versions| <= |b[i].versions|
    ensures TotalVersions(a) <= TotalVersions(b)
    decreases |a|
  {
    if a != [] {
      TotalVersionsLe(a[..|a| - 1], b[..|b| - 1]);
    }
  }

  lemma {:induction false} TotalVersionsBound(a: seq<Project>, n: nat)
    requires forall i :: 0 <= i < |a| ==> |a[i].versions| <= n
    ensures TotalVersions(a) <= n * |a|
    decreases |a|
  {
    if a != [] {
      TotalVersionsBound(a[..|a| - 1], n);
      assert n * |a| == n * (|a| - 1) + n;
    }
  }

  /** Trimming versions never adds a version and leaves at most n per
      project. */
  lemma TrimmedVersionsTotal(ps: seq<Project>, n: nat)
    ensures TotalVersions(TrimmedVersions(ps, n)) <= TotalVersions(ps)
    ensures TotalVersions(TrimmedVersions(ps, n)) <= n * |ps|
  {
    TotalVersionsLe(TrimmedVersions(ps, n), ps);
    TotalVersionsBound(TrimmedVersions(ps, n), n);
  }

  /** Trimming twice with the same non-negative bound is trimming once. */
  lemma TrimmedVersionsTwice(ps: seq<Project>, n: nat)
    ensures TrimmedVersions(TrimmedVersions(ps, n), n) == TrimmedVersions(ps, n)
  {
    var t := TrimmedVersions(ps, n);
    var tt := TrimmedVersions(t, n);
    forall i | 0 <= i < |ps| ensures tt[i] == t[i] {
      PrefixIdempotent(ps[i].versions, n);
    }
  }

  // ---------------------------------------------------------------------
  // sample

  /** The positions random.sample(population, n) may pick: n distinct
      positions of the population. */
  predicate IsChoice(idx: seq<nat>, len: nat, n: nat) {
    && |idx| == n
    && (forall i :: 0 <= i < n ==> idx[i] < len)
    && (forall i, j :: 0 <= i < j < n ==> idx[i] != idx[j])
  }

  function Pick<T>(s: seq<T>, idx: seq<nat>): (r: seq<T>)
    requires forall i :: 0 <= i < |idx| ==> idx[i] < |s|
    ensures |r| == |idx|
    ensures forall i :: 0 <= i < |idx| ==> r[i] == s[idx[i]]
  {
    seq(|idx|, i requires 0 <= i < |idx| => s[idx[i]])
  }

  function Range(n: nat): (r: seq<nat>)
    ensures |r| == n && forall i :: 0 <= i < n ==> r[i] == i
  {
    seq(n, i requires 0 <= i < n => i)
  }

  /** `t` is a possible result of random.sample(s, n). */
  ghost predicate IsSample<T>(t: seq<T>, s: seq<T>, n: nat) {
    exists idx :: IsChoice(idx, |s|, n) && t == Pick(s, idx)
  }

  /** Some choice exists whenever n does not exceed the population. */
  lemma ChoiceExists(len: nat, n: nat)
    requires n <= len
    ensures IsChoice(Range(n), len, n)
  {
  }

  /** Removes position k, renumbering the positions above it. */
  function Renumber(idx: seq<nat>, k: nat): (r: seq<nat>)
    requires forall i :: 0 <= i < |idx| ==> idx[i] != k
    ensures |r| == |idx|
    ensures forall i :: 0 <= i < |idx| ==> r[i] == if idx[i] < k then idx[i] else idx[i] - 1
  {
    seq(|idx|, i requires 0 <= i < |idx| => if idx[i] < k then idx[i] else idx[i] - 1)
  }

  /** Dropping position k from the population and renumbering the other
      positions picks the same elements. */
  lemma PickRenumber<T>(s: seq<T>, idx: seq<nat>, k: nat)
    requires k < |s|
    requires forall i :: 0 <= i < |idx| ==> idx[i] < |s| && idx[i] != k
    ensures forall i :: 0 <= i < |idx| ==> Renumber(idx, k)[i] < |s| - 1
    ensures Pick(s, idx) == Pick(s[..k] + s[k + 1..], Renumber(idx, k))
  {
    var s' := s[..k] + s[k + 1..];
    forall j | 0 <= j < |s'| ensures s'[j] == if j < k then s[j] else s[j + 1] { }
  }

  lemma RemoveOne<T>(s: seq<T>, k: nat)
    requires k < |s|
    ensures multiset(s) == multiset(s[..k] + s[k + 1..]) + multiset{s[k]}
  {
    assert s == s[..k] + [s[k]] + s[k + 1..];
  }

  /** A sample draws every element at most as often as the population
      holds it: its bag is part of the population's bag. */
  lemma {:induction false} PickSubBag<T>(s: seq<T>, idx: seq<nat>)
    requires IsChoice(idx, |s|, |idx|)
    ensures multiset(Pick(s, idx)) <= multiset(s)
    decreases |idx|
  {
    if idx != [] {
      var k := idx[0];
      var rest := idx[1..];
      assert forall i :: 0 <= i < |rest| ==> rest[i] == idx[i + 1];
      PickRenumber(s, rest, k);
      var s' := s[..k] + s[k + 1..];
      var r := Renumber(rest, k);
      assert IsChoice(r, |s'|, |r|) by {
        forall i, j | 0 <= i < j < |r| ensures r[i] != r[j] {
          assert rest[i] != rest[j];
        }
      }
      PickSubBag(s', r);
      RemoveOne(s, k);
      assert Pick(s, idx) == [s[k]] + Pick(s, rest);
    }
  }

  /** A sample has n elements, drawn from the population. */
  lemma SampleShape<T>(t: seq<T>, s: seq<T>, n: nat)
    requires IsSample(t, s, n)
    ensures |t| == n <= |s|
    ensures multiset(t) <= multiset(s)
  {
    var idx :| IsChoice(idx, |s|, n) && t == Pick(s, idx);
    PickSubBag(s, idx);
    assert |multiset(t)| <= |multiset(s)| by {
      SubBagSize(multiset(t), multiset(s));
    }
  }

  lemma SubBagSize<T>(a: multiset<T>, b: multiset<T>)
    requires a <= b
    ensures |a| <= |b|
  {
    assert b == a + (b - a);
  }

  /** The version lists sample(n, on_versions=True) may leave: a project
      with more than n versions keeps a sample of n, any other project is
      left alone. */
  ghost predicate SampledVersions(before: seq<Project>, after: seq<Project>, n: nat) {
    && |after| == |before|
    && forall i :: 0 <= i < |before| ==> SampledProject(before[i], after[i], n)
  }

  /** One project of sample(n, on_versions=True). */
  ghost predicate SampledProject(before: Project, after: Project, n: nat) {
    && after == before.(versions := after.versions)
    && (|before.versions| > n ==> IsSample(after.versions, before.versions, n))
    && (|before.versions| <= n ==> after.versions == before.versions)
  }

  /** After sampling versions no project has more than n versions, and each
      keeps only versions it had. */
  lemma SampledVersionsShape(before: seq<Project>, after: seq<Project>, n: nat)
    requires SampledVersions(before, after, n)
    ensures forall i :: 0 <= i < |after| ==>
      |after[i].versions| == Min(n, |before[i].versions|) && multiset(after[i].versions) <= multiset(before[i].versions)
  {
    forall i | 0 <= i < |after|
      ensures |after[i].versions| == Min(n, |before[i].versions|) && multiset(after[i].versions) <= multiset(before[i].versions)
    {
      if |before[i].versions| > n {
        SampleShape(after[i].versions, before[i].versions, n);
      }
    }
  }

  // ---------------------------------------------------------------------
  // The dataset object

  class Dataset {
    var projects: seq<Project>
    var name: Json
    var version: Json
    var description: Json
    var readme: Json
    var author: Json
    var email: Json
    var registry: Option<string>
    var api: Api?

    function MetaOf(): Meta
      reads this
    {
      Meta(name, version, description, readme, author, email)
    }

    /** __init__ once the registry name has been accepted. The name and
        email git reports are parameters; `disk` is what the cache holds. */
    constructor (reg: Option<string>, kwargs: map<string, Json>, gitName: Json, gitEmail: Json, disk: map<string, Entry>)
      ensures projects == [] && registry == reg
      ensures MetaOf() == MetaUpdate(Meta(Null, Null, Null, Null, gitName, gitEmail), kwargs)
      ensures (api != null) == RegistryApi(reg).Some?
      ensures api != null ==>
        && fresh(api) && api.registry == RegistryApi(reg).value
        && api.CurrentSettings() == UpdatedSettings(api.registry, DefaultSettings(), kwargs) && api.files == disk
    {
      projects := [];
      var m := MetaUpdate(Meta(Null, Null, Null, Null, gitName, gitEmail), kwargs);
      name, version, description, readme, author, email := m.name, m.version, m.description, m.readme, m.author, m.email;
      registry := reg;
      match RegistryApi(reg)
      case None =>
        api := null;
      case Some(r) =>
        api := new Api(r, kwargs, disk);
    }

    /** Dataset(registry, **kwargs): an unknown registry name raises. */
    static method Create(reg: Option<string>, kwargs: map<string, Json>, gitName: Json, gitEmail: Json, disk: map<string, Entry>)
      returns (r: Result<Dataset>)
      ensures r.Err? <==> InvalidName(reg)
      ensures r.Err? ==> r.error == InvalidRegistry(reg.value)
      ensures r.Ok? ==> && fresh(r.value) && r.value.projects == [] && r.value.registry == reg
                        && r.value.MetaOf() == MetaUpdate(Meta(Null, Null, Null, Null, gitName, gitEmail), kwargs)
                        && (r.value.api != null <==> reg.Some? && reg.value in RegistryNames)
    {
      if InvalidName(reg) {
        return Err(InvalidRegistry(reg.value));
      }
      var ds := new Dataset(reg, kwargs, gitName, gitEmail, disk);
      r := Ok(ds);
    }

    /** Dataset.update(**kwargs). */
    method Update(kwargs: map<string, Json>)
      modifies this
      ensures MetaOf() == MetaUpdate(old(MetaOf()), kwargs)
      ensures projects == old(projects) && registry == old(registry) && api == old(api)
    {
      name := PopOr(kwargs, "name", name);
      version := PopOr(kwargs, "version", version);
      description := PopOr(kwargs, "description", description);
      readme := PopOr(kwargs, "readme", readme);
      author := PopOr(kwargs, "author", author);
      email := PopOr(kwargs, "email", email);
    }

    /** Dataset.to_inputset. */
    method ToInputset() returns (r: Result<Json>)
      ensures r == DatasetInputset(MetaOf(), projects)
    {
      if !(Truthy(name) && Truthy(version)) {
        return Err(MissingNameOrVersion);
      }
      var d := ExportMeta(MetaOf());
      var inputs := ExportAll(projects);
      if inputs.Err? {
        return Err(inputs.error);
      }
      r := Ok(Obj(d + [("inputs", Arr(inputs.value))]));
    }

    /** Dataset.find_project(**kwargs), as in r2c_isg/structures/dataset.py:
        the position of the first project that compares equal to the probe,
        by the project's own `__eq__`. */
    method FindProject(kwargs: map<string, Json>) returns (r: Result<Option<nat>>)
      ensures r == Scan(kwargs, ProjectIdents(projects))
      ensures r.Ok? && r.value.Some? ==> r.value.value < |projects|
    {
      ScanFindsFirst(kwargs, ProjectIdents(projects));
      r := Find(kwargs, ProjectIdents(projects));
    }

    /** Dataset.trim(n, on_versions): returns how many versions or projects
        were dropped. */
    method Trim(n: int, onVersions: bool) returns (dropped: int)
      modifies this
      ensures onVersions ==> projects == TrimmedVersions(old(projects), n)
                             && dropped == TotalVersions(old(projects)) - TotalVersions(projects)
      ensures !onVersions ==> projects == Prefix(old(projects), n) && dropped == |old(projects)| - |projects|
      ensures MetaOf() == old(MetaOf()) && registry == old(registry) && api == old(api)
    {
      if onVersions {
        projects, dropped := TrimVersions(projects, n);
      } else {
        var count := |projects|;
        projects := Prefix(projects, n);
        dropped := count - |projects|;
      }
    }

    /** Dataset.sample(n, on_versions, seed): `random.sample` may return any
        choice of n distinct positions. Returns how many versions or
        projects were dropped. */
    method Sample(n: int, onVersions: bool) returns (r: Result<int>)
      modifies this
      ensures onVersions && n >= 0 ==> r.Ok? && SampledVersions(old(projects), projects, n)
                                       && r.value == TotalVersions(old(projects)) - TotalVersions(projects)
      ensures onVersions && n < 0 ==> (r.Err? <==> old(projects) != []) && projects == old(projects)
      ensures onVersions && n < 0 && r.Err? ==> r.error == ValueError
      ensures !onVersions && 0 <= n < |old(projects)| ==> r == Ok(|old(projects)| - n) && IsSample(projects, old(projects), n)
      ensures !onVersions && n >= |old(projects)| ==> r == Err(CannotSample) && projects == old(projects)
      ensures !onVersions && n < 0 ==> r == Err(ValueError) && projects == old(projects)
      ensures MetaOf() == old(MetaOf()) && registry == old(registry) && api == old(api)
    {
      if onVersions {
        if n < 0 {
          // random.sample raises on the first project: every list is longer than n
          if projects != [] {
            return Err(ValueError);
          }
          return Ok(0);
        }
        var dropped;
        projects, dropped := SampleVersions(projects, n);
        r := Ok(dropped);
      } else if |projects| > n {
        if n < 0 {
          return Err(ValueError);
        }
        var count := |projects|;
        projects := SampleOf(projects, n);
        r := Ok(count - n);
      } else {
        r := Err(CannotSample);
      }
    }

    /** Dataset.sort(params). Returns the caller's list as the insert left
        it, and the exception that ended the sort, if any. */
    method Sort(params: seq<string>) returns (caller: seq<string>, err: Option<Error>)
      modifies this
      ensures params == [] ==> caller == params && err == Some(IndexError) && projects == old(projects)
      ensures params != [] ==>
        && caller == Prefixed(params)
        && Outcome(projects, err) == Passes(old(projects), Organised(Prefixed(params)), true)
      ensures MetaOf() == old(MetaOf()) && registry == old(registry) && api == old(api)
    {
      var o := Organise(params);
      if o.Err? {
        return params, Some(o.error);
      }
      caller := o.value.0;
      var out;
      out, err := RunPasses(projects, o.value.1);
      projects := out;
    }

    /** Dataset.get_projects_meta: get_project on every project in turn;
        the first exception stops the walk. */
    method GetProjectsMeta(opts: Options, now: int, net: Network) returns (err: Option<Error>)
      modifies this, api
      ensures api == old(api) && MetaOf() == old(MetaOf()) && registry == old(registry)
      ensures old(api) == null ==> err == Some(NoApi) && projects == old(projects)
      ensures old(api) != null ==>
        (projects, err, api.files) == MetaWalk(ProjectFetch(api.registry, api.baseApiUrl, old(api.CurrentSettings()), opts, now, net), old(api.files), old(projects))
      ensures |projects| == |old(projects)|
      ensures forall i :: 0 <= i < |projects| ==> projects[i] == old(projects)[i].(attrs := projects[i].attrs)
    {
      if api == null {
        return Some(NoApi);
      }
      ProjectFetchAttrsOnly(api.registry, api.baseApiUrl, api.CurrentSettings(), opts, now, net);
      MetaWalkShape(ProjectFetch(api.registry, api.baseApiUrl, api.CurrentSettings(), opts, now, net), api.files, projects);
      projects, err := GetEachProject(api, projects, opts, now, net);
    }

    /** Dataset.get_project_versions: get_versions on every project in
        turn; the first exception stops the walk, after that project's
        versions have been changed as far as its walk got. */
    method GetProjectVersions(historical: string, maxPages: nat, opts: Options, now: int, net: Network)
      returns (err: Option<Error>)
      modifies this, api
      ensures api == old(api) && MetaOf() == old(MetaOf()) && registry == old(registry)
      ensures old(api) == null ==> err == Some(NoApi) && projects == old(projects)
      ensures old(api) != null ==>
        (projects, err, api.files) == VersionsWalk(VersionFetch(api.registry, api.baseApiUrl, old(api.CurrentSettings()), historical == "latest", maxPages, opts, now, net),
                                                   old(api.files), old(projects))
      ensures |projects| == |old(projects)|
      ensures api != null ==> forall i :: 0 <= i < |projects| ==>
        && projects[i] == old(projects)[i].(versions := projects[i].versions)
        && VersionsKept(api.registry, historical == "latest", old(projects)[i].versions, projects[i].versions)
    {
      if api == null {
        return Some(NoApi);
      }
      var fetch := VersionFetch(api.registry, api.baseApiUrl, api.CurrentSettings(), historical == "latest", maxPages, opts, now, net);
      VersionFetchVersionsOnly(api.registry, api.baseApiUrl, api.CurrentSettings(), historical == "latest", maxPages, opts, now, net);
      VersionsWalkShape(fetch, api.registry, historical == "latest", api.files, projects);
      projects, err := GetEachVersions(api, projects, historical, maxPages, opts, now, net);
    }
  }

  /** The loop of get_projects_meta. */
  method GetEachProject(api: Api, ps: seq<Project>, opts: Options, now: int, net: Network)
    returns (out: seq<Project>, err: Option<Error>)
    modifies api
    ensures (out, err, api.files) == MetaWalk(ProjectFetch(api.registry, api.baseApiUrl, old(api.CurrentSettings()), opts, now, net), old(api.files), ps)
    ensures api.CurrentSettings() == old(api.CurrentSettings())
  {
    ghost var s0 := api.CurrentSettings();
    ghost var f0 := api.files;
    ghost var fetch := ProjectFetch(api.registry, api.baseApiUrl, s0, opts, now, net);
    MetaLoopStart(fetch, f0, ps);
    out := ps;
    ghost var done: seq<Project> := [];
    var i := 0;
    while i < |ps|
      invariant api.CurrentSettings() == s0
      invariant MetaLoop(fetch, f0, ps, i, done, out, api.files)
      decreases |ps| - i
    {
      ghost var before := api.files;
      var r := api.GetProject(ps[i], opts, now, net);
      MetaLoopStep(fetch, f0, ps, i, done, out, before, r, api.files);
      if r.Err? {
        return out, Some(r.error);
      }
      out := out[i := r.value];
      done := done + [r.value];
      i := i + 1;
    }
    MetaLoopEnd(fetch, f0, ps, i, done, out, api.files);
    err := None;
  }

  /** The loop of get_project_versions. */
  method GetEachVersions(api: Api, ps: seq<Project>, historical: string, maxPages: nat, opts: Options, now: int, net: Network)
    returns (out: seq<Project>, err: Option<Error>)
    modifies api
    ensures (out, err, api.files) == VersionsWalk(VersionFetch(api.registry, api.baseApiUrl, old(api.CurrentSettings()), historical == "latest", maxPages, opts, now, net),
                                                  old(api.files), ps)
    ensures api.CurrentSettings() == old(api.CurrentSettings())
  {
    ghost var s0 := api.CurrentSettings();
    ghost var f0 := api.files;
    ghost var fetch := VersionFetch(api.registry, api.baseApiUrl, s0, historical == "latest", maxPages, opts, now, net);
    VersionsLoopStart(fetch, f0, ps);
    out := ps;
    ghost var done: seq<Project> := [];
    var i := 0;
    while i < |ps|
      invariant api.CurrentSettings() == s0
      invariant VersionsLoop(fetch, f0, ps, i, done, out, api.files)
      decreases |ps| - i
    {
      ghost var before := api.files;
      var q, e := api.GetVersions(ps[i], historical, maxPages, opts, now, net);
      VersionsLoopStep(fetch, f0, ps, i, done, out, before, q, e, api.files);
      out := out[i := q];
      if e.Some? {
        return out, e;
      }
      done := done + [q];
      i := i + 1;
    }
    VersionsLoopEnd(fetch, f0, ps, i, done, out, api.files);
    err := None;
  }

  /** Where get_projects_meta's loop stands before the i-th project: the
      first i projects are done, the rest untouched, and the walk from
      here on finishes the whole walk. */
  ghost predicate MetaLoop(fetch: ProjectSource, f0: map<string, Entry>, ps: seq<Project>, i: int, done: seq<Project>,
                           out: seq<Project>, files: map<string, Entry>)
  {
    && 0 <= i <= |ps| && |done| == i && out == done + ps[i..]
    && var w := MetaWalk(fetch, files, ps[i..]);
      MetaWalk(fetch, f0, ps) == (done + w.0, w.1, w.2)
  }

  lemma MetaLoopStart(fetch: ProjectSource, f0: map<string, Entry>, ps: seq<Project>)
    ensures MetaLoop(fetch, f0, ps, 0, [], ps, f0)
  {
    assert ps[0..] == ps && [] + ps == ps && [] + MetaWalk(fetch, f0, ps).0 == MetaWalk(fetch, f0, ps).0;
  }

  /** One project more: an error ends the walk with the list as it
      stands, a success moves on. */
  lemma MetaLoopStep(fetch: ProjectSource, f0: map<string, Entry>, ps: seq<Project>, i: int, done: seq<Project>,
                     out: seq<Project>, before: map<string, Entry>, r: Result<Project>, after: map<string, Entry>)
    requires MetaLoop(fetch, f0, ps, i, done, out, before) && i < |ps|
    requires (r, after) == fetch(before, ps[i])
    ensures r.Err? ==> MetaWalk(fetch, f0, ps) == (out, Some(r.error), after)
    ensures r.Ok? ==> MetaLoop(fetch, f0, ps, i + 1, done + [r.value], out[i := r.value], after)
  {
    MetaWalkStep(fetch, before, ps, i, (r, after));
    if r.Ok? {
      ReplaceNext(done, r.value, ps[i..]);
      var w := MetaWalk(fetch, after, ps[i + 1..]);
      assert done + ([r.value] + w.0) == (done + [r.value]) + w.0;
    }
  }

  lemma MetaLoopEnd(fetch: ProjectSource, f0: map<string, Entry>, ps: seq<Project>, i: int, done: seq<Project>,
                    out: seq<Project>, files: map<string, Entry>)
    requires MetaLoop(fetch, f0, ps, i, done, out, files) && i >= |ps|
    ensures MetaWalk(fetch, f0, ps) == (out, None, files)
  {
    assert ps[i..] == [] && done + [] == done;
  }

  /** Where get_project_versions' loop stands before the i-th project. */
  ghost predicate VersionsLoop(fetch: VersionSource, f0: map<string, Entry>, ps: seq<Project>, i: int, done: seq<Project>,
                               out: seq<Project>, files: map<string, Entry>)
  {
    && 0 <= i <= |ps| && |done| == i && out == done + ps[i..]
    && var w := VersionsWalk(fetch, files, ps[i..]);
      VersionsWalk(fetch, f0, ps) == (done + w.0, w.1, w.2)
  }

  lemma VersionsLoopStart(fetch: VersionSource, f0: map<string, Entry>, ps: seq<Project>)
    ensures VersionsLoop(fetch, f0, ps, 0, [], ps, f0)
  {
    assert ps[0..] == ps && [] + ps == ps && [] + VersionsWalk(fetch, f0, ps).0 == VersionsWalk(fetch, f0, ps).0;
  }

  /** One project more: its versions are stored either way; an error then
      ends the walk. */
  lemma VersionsLoopStep(fetch: VersionSource, f0: map<string, Entry>, ps: seq<Project>, i: int, done: seq<Project>,
                         out: seq<Project>, before: map<string, Entry>, q: Project, e: Option<Error>, after: map<string, Entry>)
    requires VersionsLoop(fetch, f0, ps, i, done, out, before) && i < |ps|
    requires (q, e, after) == fetch(before, ps[i])
    ensures e.Some? ==> VersionsWalk(fetch, f0, ps) == (out[i := q], e, after)
    ensures e.None? ==> VersionsLoop(fetch, f0, ps, i + 1, done + [q], out[i := q], after)
  {
    VersionsWalkStep(fetch, before, ps, i, (q, e, after));
    ReplaceNext(done, q, ps[i..]);
    if e.Some? {
      assert done + ([q] + ps[i + 1..]) == (done + [q]) + ps[i + 1..];
    } else {
      var w := VersionsWalk(fetch, after, ps[i + 1..]);
      assert done + ([q] + w.0) == (done + [q]) + w.0;
    }
  }

  lemma VersionsLoopEnd(fetch: VersionSource, f0: map<string, Entry>, ps: seq<Project>, i: int, done: seq<Project>,
                        out: seq<Project>, files: map<string, Entry>)
    requires VersionsLoop(fetch, f0, ps, i, done, out, files) && i >= |ps|
    ensures VersionsWalk(fetch, f0, ps) == (out, None, files)
  {
    assert ps[i..] == [] && done + [] == done;
  }

  /** One step of the metadata walk, from the i-th project on. */
  lemma MetaWalkStep(fetch: ProjectSource, files: map<string, Entry>, ps: seq<Project>, i: int,
                     r: (Result<Project>, map<string, Entry>))
    requires 0 <= i < |ps|
    requires r == fetch(files, ps[i])
    ensures r.0.Err? ==> MetaWalk(fetch, files, ps[i..]) == (ps[i..], Some(r.0.error), r.1)
    ensures r.0.Ok? ==>
      var w := MetaWalk(fetch, r.1, ps[i + 1..]);
      MetaWalk(fetch, files, ps[i..]) == ([r.0.value] + w.0, w.1, w.2)
  {
    Rest(ps, i);
  }

  /** One step of the versions walk, from the i-th project on. */
  lemma VersionsWalkStep(fetch: VersionSource, files: map<string, Entry>, ps: seq<Project>, i: int,
                         r: (Project, Option<Error>, map<string, Entry>))
    requires 0 <= i < |ps|
    requires r == fetch(files, ps[i])
    ensures r.1.Some? ==> VersionsWalk(fetch, files, ps[i..]) == ([r.0] + ps[i + 1..], r.1, r.2)
    ensures r.1.None? ==>
      var w := VersionsWalk(fetch, r.2, ps[i + 1..]);
      VersionsWalk(fetch, files, ps[i..]) == ([r.0] + w.0, w.1, w.2)
  {
    Rest(ps, i);
  }

  /** The walks' view of the projects from i on. */
  lemma Rest(ps: seq<Project>, i: int)
    requires 0 <= i < |ps|
    ensures ps[i..] != [] && ps[i..][0] == ps[i] && ps[i..][1..] == ps[i + 1..]
  {
  }

  /** Replacing the first project not yet walked. */
  lemma ReplaceNext(done: seq<Project>, v: Project, rest: seq<Project>)
    requires rest != []
    ensures (done + rest)[|done| := v] == (done + [v]) + rest[1..]
    ensures (done + rest)[|done|] == rest[0]
  {
  }

  /** How one project is fetched: from the cache before and the project,
      the outcome and the cache after. */
  type ProjectSource = (map<string, Entry>, Project) -> (Result<Project>, map<string, Entry>)
  type VersionSource = (map<string, Entry>, Project) -> (Project, Option<Error>, map<string, Entry>)

  /** The API's get_project, as a source. */
  function ProjectFetch(reg: Registry, base: string, s: Settings, opts: Options, now: int, net: Network): ProjectSource {
    (f: map<string, Entry>, p: Project) => FetchProject(reg, base, s, f, p, opts, now, net)
  }

  /** The API's get_versions, as a source. */
  function VersionFetch(reg: Registry, base: string, s: Settings, latest: bool, maxPages: nat, opts: Options, now: int, net: Network)
    : VersionSource
  {
    (f: map<string, Entry>, p: Project) => FetchVersions(reg, base, s, f, p, latest, maxPages, opts, now, net)
  }

  /** get_projects_meta's loop: get_project on each project in turn; the
      first error stops the walk and leaves that project and the ones
      after it as they were. The cache afterwards comes last. */
  function MetaWalk(fetch: ProjectSource, files: map<string, Entry>, ps: seq<Project>): (seq<Project>, Option<Error>, map<string, Entry>)
    decreases |ps|
  {
    if ps == [] then ([], None, files)
    else
      var r := fetch(files, ps[0]);
      if r.0.Err? then (ps, Some(r.0.error), r.1)
      else
        var rest := MetaWalk(fetch, r.1, ps[1..]);
        ([r.0.value] + rest.0, rest.1, rest.2)
  }

  /** get_project_versions' loop: get_versions on each project in turn; the
      first error stops the walk, and the project it came from keeps the
      versions its walk had reached. */
  function VersionsWalk(fetch: VersionSource, files: map<string, Entry>, ps: seq<Project>): (seq<Project>, Option<Error>, map<string, Entry>)
    decreases |ps|
  {
    if ps == [] then ([], None, files)
    else
      var r := fetch(files, ps[0]);
      if r.1.Some? then ([r.0] + ps[1..], r.1, r.2)
      else
        var rest := VersionsWalk(fetch, r.2, ps[1..]);
        ([r.0] + rest.0, rest.1, rest.2)
  }

  /** A source that changes nothing of a project but its attributes. */
  ghost predicate AttrsOnly(fetch: ProjectSource) {
    forall f: map<string, Entry>, p: Project ::
      fetch(f, p).0.Ok? ==> fetch(f, p).0.value == p.(attrs := fetch(f, p).0.value.attrs)
  }

  /** A source that changes nothing of a project but its versions, and
      those only as VersionsKept allows. */
  ghost predicate VersionsOnly(fetch: VersionSource, reg: Registry, latest: bool) {
    forall f: map<string, Entry>, p: Project ::
      && fetch(f, p).0 == p.(versions := fetch(f, p).0.versions)
      && VersionsKept(reg, latest, p.versions, fetch(f, p).0.versions)
  }

  /** get_project is such a source. */
  lemma ProjectFetchAttrsOnly(reg: Registry, base: string, s: Settings, opts: Options, now: int, net: Network)
    ensures AttrsOnly(ProjectFetch(reg, base, s, opts, now, net))
  {
    forall f: map<string, Entry>, p: Project
      ensures var r := ProjectFetch(reg, base, s, opts, now, net)(f, p).0;
        r.Ok? ==> r.value == p.(attrs := r.value.attrs)
    {
      FetchProjectOnlyAttrs(reg, base, s, f, p, opts, now, net);
    }
  }

  /** get_versions is such a source. */
  lemma VersionFetchVersionsOnly(reg: Registry, base: string, s: Settings, latest: bool, maxPages: nat,
                                 opts: Options, now: int, net: Network)
    ensures VersionsOnly(VersionFetch(reg, base, s, latest, maxPages, opts, now, net), reg, latest)
  {
    forall f: map<string, Entry>, p: Project
      ensures var q := VersionFetch(reg, base, s, latest, maxPages, opts, now, net)(f, p).0;
        q == p.(versions := q.versions) && VersionsKept(reg, latest, p.versions, q.versions)
    {
      FetchVersionsKept(reg, base, s, f, p, latest, maxPages, opts, now, net);
    }
  }

  /** The metadata walk changes only projects' attributes; after an error,
      the failing project and every later one are as they were. */
  lemma {:induction false} MetaWalkShape(fetch: ProjectSource, files: map<string, Entry>, ps: seq<Project>)
    requires AttrsOnly(fetch)
    ensures var w := MetaWalk(fetch, files, ps);
      && |w.0| == |ps|
      && (forall i :: 0 <= i < |ps| ==> w.0[i] == ps[i].(attrs := w.0[i].attrs))
      && (w.1.Some? ==> exists i :: 0 <= i < |ps| && w.0[i..] == ps[i..])
    decreases |ps|
  {
    if ps != [] {
      var r := fetch(files, ps[0]);
      if r.0.Err? {
        assert MetaWalk(fetch, files, ps).0[0..] == ps[0..];
      } else {
        var rest := MetaWalk(fetch, r.1, ps[1..]);
        MetaWalkShape(fetch, r.1, ps[1..]);
        var w := [r.0.value] + rest.0;
        assert forall i :: 1 <= i < |ps| ==> w[i] == rest.0[i - 1] && ps[i] == ps[1..][i - 1];
        if rest.1.Some? {
          var j :| 0 <= j < |ps| - 1 && rest.0[j..] == ps[1..][j..];
          assert w[j + 1..] == rest.0[j..];
          assert ps[j + 1..] == ps[1..][j..];
        }
      }
    }
  }

  /** The versions walk changes only projects' versions, each as
      VersionsKept says; after an error, every project after the failing
      one is as it was. */
  lemma VersionsWalkShape(fetch: VersionSource, reg: Registry, latest: bool, files: map<string, Entry>, ps: seq<Project>)
    requires VersionsOnly(fetch, reg, latest)
    ensures var w := VersionsWalk(fetch, files, ps);
      && |w.0| == |ps|
      && (forall i :: 0 <= i < |ps| ==> w.0[i] == ps[i].(versions := w.0[i].versions))
      && (forall i :: 0 <= i < |ps| ==> VersionsKept(reg, latest, ps[i].versions, w.0[i].versions))
      && (w.1.Some? ==> exists i :: 1 <= i <= |ps| && w.0[i..] == ps[i..])
  {
    VersionsWalkKept(fetch, reg, latest, files, ps);
    VersionsWalkStops(fetch, files, ps);
  }

  /** Each project's versions change only as VersionsKept says. */
  lemma {:induction false} VersionsWalkKept(fetch: VersionSource, reg: Registry, latest: bool,
                                            files: map<string, Entry>, ps: seq<Project>)
    requires VersionsOnly(fetch, reg, latest)
    ensures var w := VersionsWalk(fetch, files, ps);
      && |w.0| == |ps|
      && (forall i :: 0 <= i < |ps| ==> w.0[i] == ps[i].(versions := w.0[i].versions))
      && (forall i :: 0 <= i < |ps| ==> VersionsKept(reg, latest, ps[i].versions, w.0[i].versions))
    decreases |ps|
  {
    if ps != [] {
      var r := fetch(files, ps[0]);
      if r.1.Some? {
        forall i | 1 <= i < |ps|
          ensures VersionsKept(reg, latest, ps[i].versions, ps[i].versions)
        {
          ExtendsReflexive(ps[i].versions, NewVersionClass(reg), NewVersionUuids(reg));
        }
        var w := [r.0] + ps[1..];
        assert forall i :: 1 <= i < |ps| ==> w[i] == ps[i];
      } else {
        var rest := VersionsWalk(fetch, r.2, ps[1..]);
        VersionsWalkKept(fetch, reg, latest, r.2, ps[1..]);
        var w := [r.0] + rest.0;
        assert forall i :: 1 <= i < |ps| ==> w[i] == rest.0[i - 1] && ps[i] == ps[1..][i - 1];
      }
    }
  }

  /** After an error, every project after the failing one is as it was. */
  lemma {:induction false} VersionsWalkStops(fetch: VersionSource, files: map<string, Entry>, ps: seq<Project>)
    ensures var w := VersionsWalk(fetch, files, ps);
      && |w.0| == |ps|
      && (w.1.Some? ==> exists i :: 1 <= i <= |ps| && w.0[i..] == ps[i..])
    decreases |ps|
  {
    if ps != [] {
      var r := fetch(files, ps[0]);
      if r.1.Some? {
        var w := [r.0] + ps[1..];
        assert w[1..] == ps[1..];
      } else {
        var rest := VersionsWalk(fetch, r.2, ps[1..]);
        VersionsWalkStops(fetch, r.2, ps[1..]);
        var w := [r.0] + rest.0;
        if rest.1.Some? {
          var j :| 1 <= j <= |ps| - 1 && rest.0[j..] == ps[1..][j..];
          assert w[j + 1..] == rest.0[j..];
          assert ps[j + 1..] == ps[1..][j..];
        }
      }
    }
  }

  // ---------------------------------------------------------------------
  // The loops of trim, sample and sort, over the project list

  /** The on_versions loop of trim. */
  method TrimVersions(ps: seq<Project>, n: int) returns (out: seq<Project>, dropped: int)
    ensures out == TrimmedVersions(ps, n)
    ensures dropped == TotalVersions(ps) - TotalVersions(out)
  {
    out := [];
    dropped := 0;
    var i := 0;
    while i < |ps|
      invariant 0 <= i <= |ps|
      invariant out == TrimmedVersions(ps[..i], n)
      invariant dropped == TotalVersions(ps[..i]) - TotalVersions(out)
    {
      var p := ps[i];
      dropped := dropped + |p.versions|;
      var q := p.(versions := Prefix(p.versions, n));
      TrimStep(ps, out, i, n);
      out := out + [q];
      dropped := dropped - |q.versions|;
      i := i + 1;
    }
    assert ps[..i] == ps;
  }

  lemma TrimStep(ps: seq<Project>, out: seq<Project>, i: nat, n: int)
    requires i < |ps| && out == TrimmedVersions(ps[..i], n)
    ensures var q := ps[i].(versions := Prefix(ps[i].versions, n));
      && out + [q] == TrimmedVersions(ps[..i + 1], n)
      && TotalVersions(ps[..i + 1]) == TotalVersions(ps[..i]) + |ps[i].versions|
      && TotalVersions(out + [q]) == TotalVersions(out) + |q.versions|
  {
    TotalVersionsSnoc(ps, i);
    var q := ps[i].(versions := Prefix(ps[i].versions, n));
    assert (out + [q])[..|out|] == out;
  }

  /** random.sample(s, n) for n no larger than the population. */
  method SampleOf<T>(s: seq<T>, n: nat) returns (t: seq<T>)
    requires n <= |s|
    ensures IsSample(t, s, n)
  {
    ChoiceExists(|s|, n);
    var idx: seq<nat> :| IsChoice(idx, |s|, n);
    assert IsChoice(idx, |s|, n);
    t := Pick(s, idx);
  }

  /** The on_versions loop of sample. */
  method SampleVersions(ps: seq<Project>, n: nat) returns (out: seq<Project>, dropped: int)
    ensures SampledVersions(ps, out, n)
    ensures dropped == TotalVersions(ps) - TotalVersions(out)
  {
    out := [];
    dropped := 0;
    var i := 0;
    while i < |ps|
      invariant 0 <= i <= |ps|
      invariant SampledVersions(ps[..i], out, n)
      invariant dropped == TotalVersions(ps[..i]) - TotalVersions(out)
    {
      var p := ps[i];
      dropped := dropped + |p.versions|;
      var q := p;
      if |p.versions| > n {
        var vs := SampleOf(p.versions, n);
        q := p.(versions := vs);
      }
      SampleStep(ps, out, i, n, q);
      out := out + [q];
      dropped := dropped - |q.versions|;
      i := i + 1;
    }
    assert ps[..i] == ps;
  }

  lemma SampleStep(ps: seq<Project>, out: seq<Project>, i: nat, n: nat, q: Project)
    requires i < |ps| && SampledVersions(ps[..i], out, n) && SampledProject(ps[i], q, n)
    ensures SampledVersions(ps[..i + 1], out + [q], n)
    ensures TotalVersions(ps[..i + 1]) == TotalVersions(ps[..i]) + |ps[i].versions|
    ensures TotalVersions(out + [q]) == TotalVersions(out) + |q.versions|
  {
    TotalVersionsSnoc(ps, i);
    assert (out + [q])[..|out|] == out;
    forall j | 0 <= j < i + 1 ensures SampledProject(ps[..i + 1][j], (out + [q])[j], n) {
      if j < i {
        assert ps[..i + 1][j] == ps[..i][j];
      }
    }
  }

  /** The walk of sort over the reorganised parameters. */
  method RunPasses(ps0: seq<Project>, params: seq<string>) returns (ps: seq<Project>, err: Option<Error>)
    ensures Outcome(ps, err) == Passes(ps0, params, true)
  {
    ps := ps0;
    var rev := true;
    var i := 0;
    while i < |params|
      invariant 0 <= i <= |params|
      invariant Passes(ps0, params, true) == Passes(ps, params[i..], rev)
    {
      assert params[i..][1..] == params[i + 1..];
      var param := params[i];
      if IsOrder(param) {
        rev := param in DescToken;
      } else {
        var key := ParseSortKey(param);
        if key.Err? {
          return ps, Some(key.error);
        }
        var o: Outcome;
        if key.value.onProjects {
          o := SortProjects(ps, key.value.field, rev);
        } else {
          o := SortVersions(ps, key.value.field, rev);
        }
        if o.error.Some? {
          return o.projects, o.error;
        }
        ps := o.projects;
      }
      i := i + 1;
    }
    err := None;
  }

  /** `ds.projects.sort(key=..., reverse=rev)`. */
  method SortProjects(ps: seq<Project>, f: Field, rev: bool) returns (o: Outcome)
    ensures o == ProjectPass(ps, f, rev)
  {
    var sorted := SortList(ps, ProjectKey(f), rev);
    if sorted.Err? {
      return Outcome(ps, Some(sorted.error));
    }
    o := Outcome(sorted.value, None);
  }

  /** `for project in ds.projects: project.versions.sort(...)`. */
  method SortVersions(ps: seq<Project>, f: Field, rev: bool) returns (o: Outcome)
    ensures o == VersionPass(ps, f, rev)
  {
    var out := [];
    var i := 0;
    while i < |ps|
      invariant 0 <= i <= |ps|
      invariant VersionPassFrom(ps, out, i, f, rev)
    {
      var sorted := SortList(ps[i].versions, VersionKey(f), rev);
      if sorted.Err? {
        VersionPassStops(ps, out, i, f, rev);
        return Outcome(out + ps[i..], Some(sorted.error));
      }
      VersionPassStep(ps, out, i, f, rev);
      out := out + [ps[i].(versions := sorted.value)];
      i := i + 1;
    }
    assert ps[i..] == [];
    assert out + [] == out;
    o := Outcome(out, None);
  }

  /** The pass over ps, once the first i projects are done as `out`. */
  predicate VersionPassFrom(ps: seq<Project>, out: seq<Project>, i: nat, f: Field, rev: bool)
    requires i <= |ps|
  {
    var rest := VersionPass(ps[i..], f, rev);
    VersionPass(ps, f, rev) == Outcome(out + rest.projects, rest.error)
  }

  lemma VersionPassStep(ps: seq<Project>, out: seq<Project>, i: nat, f: Field, rev: bool)
    requires i < |ps| && VersionPassFrom(ps, out, i, f, rev) && SortList(ps[i].versions, VersionKey(f), rev).Ok?
    ensures VersionPassFrom(ps, out + [ps[i].(versions := SortList(ps[i].versions, VersionKey(f), rev).value)], i + 1, f, rev)
  {
    assert ps[i..][0] == ps[i];
    assert ps[i..][1..] == ps[i + 1..];
    VersionPassCons(ps[i..], f, rev);
  }

  lemma VersionPassStops(ps: seq<Project>, out: seq<Project>, i: nat, f: Field, rev: bool)
    requires i < |ps| && VersionPassFrom(ps, out, i, f, rev) && SortList(ps[i].versions, VersionKey(f), rev).Err?
    ensures VersionPass(ps, f, rev) == Outcome(out + ps[i..], Some(SortList(ps[i].versions, VersionKey(f), rev).error))
  {
    assert ps[i..][0] == ps[i];
  }
}
