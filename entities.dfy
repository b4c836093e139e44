/** The uuid-based project and version classes
    (r2c_isg/structures/projects/ and r2c_isg/structures/versions/).

    An entity holds its attributes (what `setattr` stored), a uuid spec and a
    meta spec. In the source a spec maps a key to a one-line accessor
    `lambda p: p.<attr>`; here it maps the key to that attribute name, in
    dict insertion order. Entities are values: updating one "in place" is
    replacing it where it is stored. */
module Entities {
  import opened Outcomes
  import opened Json
  import opened PyStr

  /** key -> attribute name, in insertion order, keys distinct. */
  type Spec = seq<(string, string)>

  predicate SpecHas(s: Spec, k: string) {
    Get(s, k).Some?
  }

  function Keys(s: Spec): seq<string> {
    if s == [] then [] else [s[0].0] + Keys(s[1..])
  }

  /** spec[k] = attr: replaces in place when k is present, appends otherwise. */
  function SpecSet(s: Spec, k: string, attr: string): (r: Spec)
    ensures Get(r, k) == Some(attr)
    ensures forall k' :: k' != k ==> Get(r, k') == Get(s, k')
    ensures Keys(r) == if SpecHas(s, k) then Keys(s) else Keys(s) + [k]
  {
    if s == [] then [(k, attr)]
    else if s[0].0 == k then [(k, attr)] + s[1..]
    else [s[0]] + SpecSet(s[1..], k, attr)
  }

  /** The project classes; `BaseProject` is the vanilla Project used as a search probe. */
  datatype ProjectClass = BaseProject | DefaultProject | GithubRepo | NpmPackage | PypiProject

  /** The version classes. The Version base class and DefaultVersion are not
      part of this model's source files: they are taken to behave like the
      vanilla Project (no guarantees, no input-set form). */
  datatype VersionClass = BaseVersion | DefaultVersion | GithubCommit | NpmVersion | PypiRelease

  datatype Version = Version(vclass: VersionClass, attrs: map<string, Json>, uuids: Spec, meta: Spec)

  datatype Project = Project(
    pclass: ProjectClass,
    attrs: map<string, Json>,
    uuids: Spec,
    meta: Spec,
    versions: seq<Version>)

  /** o.attr */
  function Attr(attrs: map<string, Json>, a: string): (r: Result<Json>)
    ensures r.Ok? <==> a in attrs
    ensures r.Ok? ==> r.value == attrs[a]
    ensures r.Err? ==> r.error == AttributeError(a)
  {
    if a in attrs then Ok(attrs[a]) else Err(AttributeError(a))
  }

  /** spec[k](): KeyError when the key is absent, AttributeError when its
      attribute is. */
  function SpecValue(attrs: map<string, Json>, s: Spec, k: string): (r: Result<Json>)
    ensures !SpecHas(s, k) ==> r == Err(KeyError(k))
    ensures SpecHas(s, k) ==> r == Attr(attrs, Get(s, k).value)
  {
    match Get(s, k)
    case None => Err(KeyError(k))
    case Some(a) => Attr(attrs, a)
  }

  /** Project.__eq__ (and the assumed Version.__eq__): walk self's uuids in
      order; true at the first key whose value on self equals the value of
      the same key on other. Self's value is computed first, then other's
      uuid is looked up, then called. */
  function UuidEq(attrs: map<string, Json>, uuids: Spec, otherAttrs: map<string, Json>, otherUuids: Spec): Result<bool> {
    if uuids == [] then Ok(false)
    else
      var mine :- Attr(attrs, uuids[0].1);
      var theirs :- SpecValue(otherAttrs, otherUuids, uuids[0].0);
      if PyEq(mine, theirs) then Ok(true) else UuidEq(attrs, uuids[1..], otherAttrs, otherUuids)
  }

  /** Key i of self's spec compares without error and unequal. */
  predicate KeyDiffers(attrs: map<string, Json>, uuids: Spec, otherAttrs: map<string, Json>, otherUuids: Spec, i: int)
    requires 0 <= i < |uuids|
  {
    && Attr(attrs, uuids[i].1).Ok?
    && SpecValue(otherAttrs, otherUuids, uuids[i].0).Ok?
    && !PyEq(Attr(attrs, uuids[i].1).value, SpecValue(otherAttrs, otherUuids, uuids[i].0).value)
  }

  /** Key i of self's spec matches the same key on other. */
  predicate KeyMatches(attrs: map<string, Json>, uuids: Spec, otherAttrs: map<string, Json>, otherUuids: Spec, i: int)
    requires 0 <= i < |uuids|
  {
    && Attr(attrs, uuids[i].1).Ok?
    && SpecValue(otherAttrs, otherUuids, uuids[i].0).Ok?
    && PyEq(Attr(attrs, uuids[i].1).value, SpecValue(otherAttrs, otherUuids, uuids[i].0).value)
  }

  /** One step of the walk: the first key decides, or, when it differs, the rest. */
  lemma UuidEqUnfold(a: map<string, Json>, u: Spec, oa: map<string, Json>, ou: Spec)
    requires u != []
    ensures UuidEq(a, u, oa, ou) == Ok(false) <==> KeyDiffers(a, u, oa, ou, 0) && UuidEq(a, u[1..], oa, ou) == Ok(false)
    ensures UuidEq(a, u, oa, ou) == Ok(true) <==>
      KeyMatches(a, u, oa, ou, 0) || (KeyDiffers(a, u, oa, ou, 0) && UuidEq(a, u[1..], oa, ou) == Ok(true))
  {
  }

  lemma UuidEqShift(a: map<string, Json>, u: Spec, oa: map<string, Json>, ou: Spec)
    requires u != []
    ensures forall i :: 0 <= i < |u| - 1 ==>
      KeyDiffers(a, u[1..], oa, ou, i) == KeyDiffers(a, u, oa, ou, i + 1) &&
      KeyMatches(a, u[1..], oa, ou, i) == KeyMatches(a, u, oa, ou, i + 1)
  {
    forall i | 0 <= i < |u| - 1
      ensures KeyDiffers(a, u[1..], oa, ou, i) == KeyDiffers(a, u, oa, ou, i + 1)
      ensures KeyMatches(a, u[1..], oa, ou, i) == KeyMatches(a, u, oa, ou, i + 1)
    {
      assert u[1..][i] == u[i + 1];
    }
  }

  /** False exactly when every key of self compares without error and
      unequal; in particular an empty uuid spec gives false. */
  lemma {:induction false} UuidEqFalse(a: map<string, Json>, u: Spec, oa: map<string, Json>, ou: Spec)
    ensures UuidEq(a, u, oa, ou) == Ok(false) <==> forall i :: 0 <= i < |u| ==> KeyDiffers(a, u, oa, ou, i)
  {
    if u != [] {
      UuidEqUnfold(a, u, oa, ou);
      UuidEqShift(a, u, oa, ou);
      var rest := u[1..];
      UuidEqFalse(a, rest, oa, ou);
      if UuidEq(a, u, oa, ou) == Ok(false) {
        forall i | 0 < i < |u| ensures KeyDiffers(a, u, oa, ou, i) {
          assert KeyDiffers(a, rest, oa, ou, i - 1);
        }
      }
      if forall i :: 0 <= i < |u| ==> KeyDiffers(a, u, oa, ou, i) {
        assert KeyDiffers(a, u, oa, ou, 0);
        forall i | 0 <= i < |rest| ensures KeyDiffers(a, rest, oa, ou, i) {
          assert KeyDiffers(a, u, oa, ou, i + 1);
        }
      }
    }
  }

  /** A key of self's spec matches, and every earlier one compared unequal. */
  predicate FirstMatchAt(a: map<string, Json>, u: Spec, oa: map<string, Json>, ou: Spec, j: int) {
    && 0 <= j < |u|
    && KeyMatches(a, u, oa, ou, j)
    && forall i :: 0 <= i < j ==> KeyDiffers(a, u, oa, ou, i)
  }

  /** True exactly when some key matches after only differing ones. */
  lemma {:induction false} UuidEqTrue(a: map<string, Json>, u: Spec, oa: map<string, Json>, ou: Spec)
    ensures UuidEq(a, u, oa, ou) == Ok(true) <==> exists j :: FirstMatchAt(a, u, oa, ou, j)
  {
    if u != [] {
      var rest := u[1..];
      UuidEqUnfold(a, u, oa, ou);
      UuidEqShift(a, u, oa, ou);
      UuidEqTrue(a, rest, oa, ou);
      if UuidEq(a, u, oa, ou) == Ok(true) {
        if KeyMatches(a, u, oa, ou, 0) {
          assert FirstMatchAt(a, u, oa, ou, 0);
        } else {
          var j :| FirstMatchAt(a, rest, oa, ou, j);
          forall i | 0 <= i < j + 1 ensures KeyDiffers(a, u, oa, ou, i) {
            if i > 0 {
              assert KeyDiffers(a, rest, oa, ou, i - 1);
            }
          }
          assert FirstMatchAt(a, u, oa, ou, j + 1);
        }
      }
      if exists j :: FirstMatchAt(a, u, oa, ou, j) {
        var j :| FirstMatchAt(a, u, oa, ou, j);
        if j > 0 {
          assert KeyDiffers(a, u, oa, ou, 0);
          forall i | 0 <= i < j - 1 ensures KeyDiffers(a, rest, oa, ou, i) {
            assert KeyDiffers(a, u, oa, ou, i + 1);
          }
          assert FirstMatchAt(a, rest, oa, ou, j - 1);
        }
      }
    }
  }

  /** A key that other lacks raises KeyError once comparison reaches it, as
      long as self has the attribute behind it and no earlier key matched. */
  lemma {:induction false} UuidEqMissingKeyRaises(attrs: map<string, Json>, uuids: Spec, otherAttrs: map<string, Json>, otherUuids: Spec, j: nat)
    requires j < |uuids| && !SpecHas(otherUuids, uuids[j].0) && uuids[j].1 in attrs
    requires forall i :: 0 <= i < j ==> KeyDiffers(attrs, uuids, otherAttrs, otherUuids, i)
    ensures UuidEq(attrs, uuids, otherAttrs, otherUuids) == Err(KeyError(uuids[j].0))
  {
    if j > 0 {
      var rest := uuids[1..];
      assert KeyDiffers(attrs, uuids, otherAttrs, otherUuids, 0);
      forall i | 0 <= i < j - 1 ensures KeyDiffers(attrs, rest, otherAttrs, otherUuids, i) {
        assert rest[i] == uuids[i + 1];
        assert KeyDiffers(attrs, uuids, otherAttrs, otherUuids, i + 1);
      }
      assert rest[j - 1] == uuids[j];
      UuidEqMissingKeyRaises(attrs, rest, otherAttrs, otherUuids, j - 1);
    }
  }

  /** check_guarantees of each class: which uuid/meta keys it insists on. */
  predicate ProjectGuarantees(c: ProjectClass, uuids: Spec, meta: Spec) {
    match c
    case BaseProject => true
    case DefaultProject => SpecHas(uuids, "url")
    case GithubRepo => SpecHas(uuids, "url") || (SpecHas(uuids, "name") && SpecHas(meta, "org"))
    case NpmPackage => SpecHas(uuids, "name") || SpecHas(uuids, "url")
    case PypiProject => SpecHas(uuids, "name") || SpecHas(uuids, "url")
  }

  predicate VersionGuarantees(c: VersionClass, uuids: Spec) {
    match c
    case BaseVersion => true
    case DefaultVersion => true
    case GithubCommit => SpecHas(uuids, "commit")
    case NpmVersion => SpecHas(uuids, "version")
    case PypiRelease => SpecHas(uuids, "version")
  }

  function ProjectCheck(p: Project): Result<Project> {
    if ProjectGuarantees(p.pclass, p.uuids, p.meta) then Ok(p) else Err(GuaranteesNotMet("project"))
  }

  function VersionCheck(v: Version): Result<Version> {
    if VersionGuarantees(v.vclass, v.uuids) then Ok(v) else Err(GuaranteesNotMet("version"))
  }

  /** Project.__init__: no versions, the given specs, the keyword arguments
      as attributes, then the class's guarantee check. */
  function NewProject(c: ProjectClass, uuids: Spec, meta: Spec, kwargs: map<string, Json>): (r: Result<Project>)
    ensures r.Ok? <==> ProjectGuarantees(c, uuids, meta)
    ensures r.Ok? ==>
      && r.value.versions == [] && r.value.uuids == uuids && r.value.meta == meta
      && r.value.attrs == kwargs && r.value.pclass == c
  {
    ProjectCheck(Project(c, kwargs, uuids, meta, []))
  }

  /** Version.__init__, taken to be like Project's; versions get no meta spec. */
  function NewVersion(c: VersionClass, uuids: Spec, kwargs: map<string, Json>): (r: Result<Version>)
    ensures r.Ok? <==> VersionGuarantees(c, uuids)
    ensures r.Ok? ==> r.value.uuids == uuids && r.value.meta == [] && r.value.attrs == kwargs && r.value.vclass == c
  {
    VersionCheck(Version(c, kwargs, uuids, []))
  }

  /** Project.update: every keyword becomes an attribute, then the guarantees
      are checked again. */
  function UpdateProject(p: Project, kwargs: map<string, Json>): (r: Result<Project>)
    ensures r.Ok? ==> forall k :: k in kwargs ==> k in r.value.attrs && r.value.attrs[k] == kwargs[k]
    ensures r.Ok? ==> forall k :: k !in kwargs ==>
      && (k in r.value.attrs <==> k in p.attrs)
      && (k in p.attrs ==> r.value.attrs[k] == p.attrs[k])
    ensures r.Ok? ==>
      && r.value.versions == p.versions && r.value.uuids == p.uuids && r.value.meta == p.meta
      && r.value.pclass == p.pclass
  {
    ProjectCheck(p.(attrs := p.attrs + kwargs))
  }

  function UpdateVersion(v: Version, kwargs: map<string, Json>): (r: Result<Version>)
    ensures r.Ok? ==> forall k :: k in kwargs ==> k in r.value.attrs && r.value.attrs[k] == kwargs[k]
    ensures r.Ok? ==> forall k :: k !in kwargs ==>
      && (k in r.value.attrs <==> k in v.attrs)
      && (k in v.attrs ==> r.value.attrs[k] == v.attrs[k])
    ensures r.Ok? ==> r.value.uuids == v.uuids && r.value.meta == v.meta && r.value.vclass == v.vclass
  {
    VersionCheck(v.(attrs := v.attrs + kwargs))
  }

  /** update never changes the specs, so on an entity whose guarantees held
      it cannot fail; and applying the same keywords twice is applying them once. */
  lemma UpdateProjectKeepsGuarantees(p: Project, kwargs: map<string, Json>)
    requires ProjectGuarantees(p.pclass, p.uuids, p.meta)
    ensures UpdateProject(p, kwargs) == Ok(p.(attrs := p.attrs + kwargs))
    ensures UpdateProject(UpdateProject(p, kwargs).value, kwargs) == UpdateProject(p, kwargs)
  {
    var q := p.(attrs := p.attrs + kwargs);
    assert q.attrs + kwargs == q.attrs;
  }

  lemma UpdateVersionKeepsGuarantees(v: Version, kwargs: map<string, Json>)
    requires VersionGuarantees(v.vclass, v.uuids)
    ensures UpdateVersion(v, kwargs) == Ok(v.(attrs := v.attrs + kwargs))
    ensures UpdateVersion(UpdateVersion(v, kwargs).value, kwargs) == UpdateVersion(v, kwargs)
  {
    var w := v.(attrs := v.attrs + kwargs);
    assert w.attrs + kwargs == w.attrs;
  }

  /** What the vanilla Project.get_name returns: `uuids_.get('name', '')`
      yields the accessor itself when there is one, not its value. */
  datatype BaseName = EmptyName | NameAccessor(attr: string)

  function BaseGetName(p: Project): (r: BaseName)
    ensures r == EmptyName <==> !SpecHas(p.uuids, "name")
    ensures r.NameAccessor? ==> Get(p.uuids, "name") == Some(r.attr)
  {
    match Get(p.uuids, "name")
    case None => EmptyName
    case Some(a) => NameAccessor(a)
  }

  /** `url.strip('/').split('/')[-1]`: str methods on a non-str raise. */
  function LastUrlSegment(url: Json): (r: Result<Json>)
    ensures !url.Str? ==> r == Err(AttributeError("strip"))
    ensures url.Str? ==> r.Ok? && r.value.Str? && '/' !in r.value.s && EndsWith(Strip(url.s, '/'), r.value.s)
  {
    if url.Str? then Ok(Str(AfterLast(Strip(url.s, '/'), '/'))) else Err(AttributeError("strip"))
  }

  /** get_name of GithubRepo, NpmPackage and PypiProject: the name uuid's
      value, else the last segment of the url uuid's value. */
  function GetName(p: Project): (r: Result<Json>)
    ensures SpecHas(p.uuids, "name") ==> r == SpecValue(p.attrs, p.uuids, "name")
    ensures !SpecHas(p.uuids, "name") && !SpecHas(p.uuids, "url") ==> r == Err(KeyError("url"))
    ensures !SpecHas(p.uuids, "name") && SpecHas(p.uuids, "url") && SpecValue(p.attrs, p.uuids, "url").Ok?
      ==> r == LastUrlSegment(SpecValue(p.attrs, p.uuids, "url").value)
  {
    if SpecHas(p.uuids, "name") then SpecValue(p.attrs, p.uuids, "name")
    else
      var url :- SpecValue(p.attrs, p.uuids, "url");
      LastUrlSegment(url)
  }

  /** Version.to_inputset: the guarantee check, then the single key the
      class exports. */
  function VersionInputset(v: Version): (r: Result<Fields>)
    ensures v.vclass == GithubCommit ==> r == ExportedKey(v, "commit", "commit_hash")
    ensures v.vclass == NpmVersion || v.vclass == PypiRelease ==> r == ExportedKey(v, "version", "version")
    ensures v.vclass == BaseVersion || v.vclass == DefaultVersion ==> r == Err(NoInputSetType)
  {
    match v.vclass
    case GithubCommit =>
      var _ :- VersionCheck(v);
      var c :- SpecValue(v.attrs, v.uuids, "commit");
      Ok([("commit_hash", c)])
    case NpmVersion =>
      var _ :- VersionCheck(v);
      var c :- SpecValue(v.attrs, v.uuids, "version");
      Ok([("version", c)])
    case PypiRelease =>
      var _ :- VersionCheck(v);
      var c :- SpecValue(v.attrs, v.uuids, "version");
      Ok([("version", c)])
    case _ => Err(NoInputSetType)
  }

  /** A dict with the single key `out` holding the value of the uuid `key`,
      which the class guarantees. */
  function ExportedKey(v: Version, key: string, out: string): Result<Fields> {
    if !SpecHas(v.uuids, key) then Err(GuaranteesNotMet("version"))
    else if SpecValue(v.attrs, v.uuids, key).Err? then Err(SpecValue(v.attrs, v.uuids, key).error)
    else Ok([(out, SpecValue(v.attrs, v.uuids, key).value)])
  }

  /** The list comprehension `[{**head, **v.to_inputset()} for v in versions]`:
      the first failing version's error, else one item per version. */
  function VersionItems(head: Fields, vs: seq<Version>): Result<seq<Json>> {
    if vs == [] then Ok([])
    else
      var fields :- VersionInputset(vs[0]);
      var rest :- VersionItems(head, vs[1..]);
      Ok([Obj(head + fields)] + rest)
  }

  /** Item i is the head merged with version i's own dict. */
  predicate ItemsFromVersions(head: Fields, vs: seq<Version>, items: seq<Json>) {
    && |items| == |vs|
    && forall i :: 0 <= i < |vs| ==>
      VersionInputset(vs[i]).Ok? && items[i] == Obj(head + VersionInputset(vs[i]).value)
  }

  lemma {:induction false} VersionItemsElementwise(head: Fields, vs: seq<Version>)
    ensures VersionItems(head, vs).Ok? <==> forall i :: 0 <= i < |vs| ==> VersionInputset(vs[i]).Ok?
    ensures VersionItems(head, vs).Ok? ==> ItemsFromVersions(head, vs, VersionItems(head, vs).value)
  {
    if vs != [] {
      VersionItemsElementwise(head, vs[1..]);
      assert forall i :: 1 <= i < |vs| ==> vs[1..][i - 1] == vs[i];
    }
  }

  /** The url GithubRepo exports: the url uuid's value, else one built from
      the org meta and the name uuid. */
  function GithubExportUrl(p: Project): Result<Json> {
    if SpecHas(p.uuids, "url") then SpecValue(p.attrs, p.uuids, "url")
    else
      var org :- SpecValue(p.attrs, p.meta, "org");
      var name :- SpecValue(p.attrs, p.uuids, "name");
      Ok(Str("https://github.com/" + ToStr(org) + "/" + ToStr(name)))
  }

  function HttpUrlItem(url: Json): Json {
    Obj([("input_type", Str("HttpUrl")), ("url", url)])
  }

  function GitRepoItem(url: Json): Json {
    Obj([("input_type", Str("GitRepo")), ("repo_url", url)])
  }

  function GitRepoCommitHead(url: Json): Fields {
    [("input_type", Str("GitRepoCommit")), ("repo_url", url)]
  }

  function PackageVersionHead(name: Json): Fields {
    [("input_type", Str("PackageVersion")), ("package_name", name)]
  }

  /** DefaultProject.to_inputset */
  function DefaultInputset(p: Project): Result<seq<Json>> {
    var _ :- ProjectCheck(p);
    var url :- SpecValue(p.attrs, p.uuids, "url");
    Ok([HttpUrlItem(url)])
  }

  /** GithubRepo.to_inputset */
  function GithubInputset(p: Project): Result<seq<Json>> {
    var _ :- ProjectCheck(p);
    var url :- GithubExportUrl(p);
    if p.versions == [] then Ok([GitRepoItem(url)])
    else VersionItems(GitRepoCommitHead(url), p.versions)
  }

  /** NpmPackage.to_inputset and PypiProject.to_inputset */
  function PackageInputset(p: Project): Result<seq<Json>> {
    var _ :- ProjectCheck(p);
    var name :- GetName(p);
    if p.versions == [] then Err(NoVersions(ToStr(name)))
    else VersionItems(PackageVersionHead(name), p.versions)
  }

  /** Project.to_inputset, dispatched on the class. */
  function ProjectInputset(p: Project): Result<seq<Json>> {
    match p.pclass
    case BaseProject => Err(NoInputSetType)
    case DefaultProject => DefaultInputset(p)
    case GithubRepo => GithubInputset(p)
    case NpmPackage => PackageInputset(p)
    case PypiProject => PackageInputset(p)
  }

  /** The vanilla Project cannot be exported. */
  lemma BaseProjectHasNoInputset(p: Project)
    requires p.pclass == BaseProject
    ensures ProjectInputset(p) == Err(NoInputSetType)
  {
  }

  /** A DefaultProject exports exactly one HttpUrl holding its url, whatever
      its versions; without a url uuid it fails its guarantee. */
  lemma DefaultProjectInputset(p: Project, vs: seq<Version>)
    requires p.pclass == DefaultProject
    ensures !SpecHas(p.uuids, "url") ==> ProjectInputset(p) == Err(GuaranteesNotMet("project"))
    ensures SpecHas(p.uuids, "url") && SpecValue(p.attrs, p.uuids, "url").Ok? ==>
      ProjectInputset(p) == Ok([HttpUrlItem(SpecValue(p.attrs, p.uuids, "url").value)])
    ensures ProjectInputset(p.(versions := vs)) == ProjectInputset(p)
  {
  }

  /** A GithubRepo exports one GitRepo without versions, else one
      GitRepoCommit per version, in order, carrying the repo url and that
      version's fields. */
  lemma GithubRepoInputsetShape(p: Project)
    requires p.pclass == GithubRepo
    ensures !ProjectGuarantees(GithubRepo, p.uuids, p.meta) ==> ProjectInputset(p) == Err(GuaranteesNotMet("project"))
    ensures ProjectInputset(p).Ok? && p.versions == [] ==>
      ProjectInputset(p).value == [GitRepoItem(GithubExportUrl(p).value)]
    ensures ProjectInputset(p).Ok? && p.versions != [] ==>
      ItemsFromVersions(GitRepoCommitHead(GithubExportUrl(p).value), p.versions, ProjectInputset(p).value)
  {
    if ProjectInputset(p).Ok? && p.versions != [] {
      VersionItemsElementwise(GitRepoCommitHead(GithubExportUrl(p).value), p.versions);
    }
  }

  /** An npm package or PyPI project with no versions raises; otherwise it
      exports one PackageVersion per version, in order, all with get_name(). */
  lemma PackageInputsetShape(p: Project)
    requires p.pclass == NpmPackage || p.pclass == PypiProject
    ensures ProjectGuarantees(p.pclass, p.uuids, p.meta) && GetName(p).Ok? && p.versions == [] ==>
      ProjectInputset(p) == Err(NoVersions(ToStr(GetName(p).value)))
    ensures ProjectInputset(p).Ok? ==>
      && p.versions != [] && GetName(p).Ok?
      && ItemsFromVersions(PackageVersionHead(GetName(p).value), p.versions, ProjectInputset(p).value)
  {
    if ProjectInputset(p).Ok? {
      VersionItemsElementwise(PackageVersionHead(GetName(p).value), p.versions);
    }
  }

  /** CheckGuarantees per class, stated through the constructor. */
  lemma ConstructorGuarantees(uuids: Spec, meta: Spec, kwargs: map<string, Json>)
    ensures NewProject(BaseProject, uuids, meta, kwargs).Ok?
    ensures NewProject(DefaultProject, uuids, meta, kwargs).Ok? <==> SpecHas(uuids, "url")
    ensures NewProject(GithubRepo, uuids, meta, kwargs).Ok? <==>
      SpecHas(uuids, "url") || (SpecHas(uuids, "name") && SpecHas(meta, "org"))
    ensures NewProject(NpmPackage, uuids, meta, kwargs).Ok? <==> SpecHas(uuids, "name") || SpecHas(uuids, "url")
    ensures NewProject(PypiProject, uuids, meta, kwargs).Ok? <==> SpecHas(uuids, "name") || SpecHas(uuids, "url")
    ensures NewVersion(GithubCommit, uuids, kwargs).Ok? <==> SpecHas(uuids, "commit")
    ensures NewVersion(NpmVersion, uuids, kwargs).Ok? <==> SpecHas(uuids, "version")
    ensures NewVersion(PypiRelease, uuids, kwargs).Ok? <==> SpecHas(uuids, "version")
  {
  }
}
