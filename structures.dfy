/** The dataclass structures (r2c_isg/structures/github.py, pypi.py and
    npm.py): derived properties that fall back from user data to registry
    metadata, and the filtering conversion to input-set items. */
module Structures {
  import opened Outcomes
  import opened Json
  import opened StructureCore
  import opened Util

  /** `data` is what the user or a file supplied, `metadata` what a registry
      returned. */
  datatype DVersion = DVersion(vtype: StructType, data: map<string, Json>, metadata: map<string, Json>)

  datatype DProject = DProject(
    ptype: StructType,
    data: map<string, Json>,
    metadata: map<string, Json>,
    versions: seq<DVersion>)

  /** d holds a non-empty string under k. */
  predicate HasStr(d: map<string, Json>, k: string) {
    k in d && d[k].Str? && d[k].s != ""
  }

  /** `value or None` on a str value. */
  function NoneIfEmpty(s: string): (r: Option<string>)
    ensures r.None? <==> s == ""
    ensures r.Some? ==> r.value == s
  {
    if s == "" then None else Some(s)
  }

  /** `(get_str(k1, d1) or get_str(k2, d2)) or None`. */
  function FirstStr(d1: map<string, Json>, k1: string, d2: map<string, Json>, k2: string): (r: Option<string>)
    ensures HasStr(d1, k1) ==> r == Some(d1[k1].s)
    ensures !HasStr(d1, k1) && HasStr(d2, k2) ==> r == Some(d2[k2].s)
    ensures !HasStr(d1, k1) && !HasStr(d2, k2) ==> r == None
    ensures r != Some("")
  {
    var a := GetStr(k1, d1);
    NoneIfEmpty(if a != "" then a else GetStr(k2, d2))
  }

  /** GithubCommit.commit: the data 'commit', else the metadata 'sha'. */
  function Commit(v: DVersion): (r: Option<string>)
    ensures HasStr(v.data, "commit") ==> r == Some(v.data["commit"].s)
    ensures !HasStr(v.data, "commit") && HasStr(v.metadata, "sha") ==> r == Some(v.metadata["sha"].s)
    ensures !HasStr(v.data, "commit") && !HasStr(v.metadata, "sha") ==> r == None
    ensures r != Some("")
  {
    FirstStr(v.data, "commit", v.metadata, "sha")
  }

  /** PypiRelease.version and NpmVersion.version: the data 'version', else
      the metadata 'version'. */
  function VersionOf(v: DVersion): (r: Option<string>)
    ensures HasStr(v.data, "version") ==> r == Some(v.data["version"].s)
    ensures !HasStr(v.data, "version") && HasStr(v.metadata, "version") ==> r == Some(v.metadata["version"].s)
    ensures !HasStr(v.data, "version") && !HasStr(v.metadata, "version") ==> r == None
    ensures r != Some("")
  {
    FirstStr(v.data, "version", v.metadata, "version")
  }

  /** The property a version class exports: the commit of a GithubCommit,
      the version of a PypiRelease or NpmVersion. */
  function VersionId(v: DVersion): Option<string> {
    if v.vtype == GithubCommit then Commit(v) else VersionOf(v)
  }

  /** PypiProject.name and NpmPackage.name. `parse` is name_from_url with the
      class's url pattern, a regular expression outside the model. */
  function PackageName(p: DProject, parse: string -> Option<string>): (r: Option<string>)
    ensures HasStr(p.data, "name") ==> r == Some(p.data["name"].s)
    ensures !HasStr(p.data, "name") && parse(GetStr("url", p.data)).Some? && parse(GetStr("url", p.data)).value != ""
      ==> r == parse(GetStr("url", p.data))
    ensures !HasStr(p.data, "name") && (parse(GetStr("url", p.data)).None? || parse(GetStr("url", p.data)).value == "")
      ==> r == (if HasStr(p.metadata, "name") then Some(p.metadata["name"].s) else None)
    ensures r != Some("")
  {
    var n := GetStr("name", p.data);
    if n != "" then Some(n)
    else
      var m := parse(GetStr("url", p.data));
      if m.Some? && m.value != "" then m else NoneIfEmpty(GetStr("name", p.metadata))
  }

  /** The {name} template of GithubRepo.url. */
  function GithubTemplate(): string {
    NameTemplate(GithubUrlPrefix)
  }

  /** `a or b` where a is a str and b is a str or None, written on Option
      with Some("") standing for ''. */
  function OrElse(a: Option<string>, b: Option<string>): Option<string> {
    if a.Some? && a.value != "" then a else b
  }

  /** The trailing `or None`. */
  function OrNone(a: Option<string>): (r: Option<string>)
    ensures r != Some("")
    ensures a.Some? && a.value != "" ==> r == a
  {
    if a.Some? && a.value != "" then a else None
  }

  /** The org/name pair of the user data, when both are given. */
  function DataFullName(p: DProject): string {
    var org := GetStr("org", p.data);
    var name := GetStr("name", p.data);
    if org != "" && name != "" then org + "/" + name else ""
  }

  /** GithubRepo.url as written. The conditional expression binds loosest,
      so the chain reads `(url or url_from_name(name)) if '/' in name else
      (None or url_from_name(org/name) or html_url or url_from_name(full_name))`,
      with the url_from_name of util.py as written. */
  function GithubUrlAsWritten(p: DProject): Result<Option<string>> {
    var name := GetStr("name", p.data);
    var chain: Result<Option<string>> :=
      if '/' in name then
        var url := GetStr("url", p.data);
        if url != "" then Ok(Some(url)) else UrlFromNameAsWritten(name, GithubTemplate())
      else
        var e :- UrlFromNameAsWritten(DataFullName(p), GithubTemplate());
        var html := GetStr("html_url", p.metadata);
        if e.Some? && e.value != "" then Ok(e)
        else if html != "" then Ok(Some(html))
        else UrlFromNameAsWritten(GetStr("full_name", p.metadata), GithubTemplate());
    var v :- chain;
    Ok(OrNone(v))
  }

  /** The url built from a {name} template: None for '', prefix + name otherwise. */
  function NameUrl(prefix: string, name: string): (r: Option<string>)
    ensures r.None? <==> name == ""
    ensures r.Some? ==> r.value == prefix + name
  {
    if name == "" then None else Some(prefix + name)
  }

  /** NameUrl is the corrected url_from_name applied to GithubRepo's template. */
  lemma NameUrlIsUrlFromName(name: string)
    ensures UrlFromName(name, GithubTemplate()) == Ok(NameUrl(GithubUrlPrefix, name))
  {
    GithubPrefixPlain();
    UrlFromNameFills(GithubUrlPrefix, name);
  }

  /** GithubRepo.url as intended: the data url, else the name when it
      already is an org/name pair, else org/name, else the registry's
      html_url, else its full_name, each name turned into a GitHub url. */
  function GithubUrl(p: DProject): (r: Option<string>)
    ensures HasStr(p.data, "url") ==> r == Some(p.data["url"].s)
    ensures !HasStr(p.data, "url") && '/' in GetStr("name", p.data)
      ==> r == Some(GithubUrlPrefix + GetStr("name", p.data))
    ensures !HasStr(p.data, "url") && '/' !in GetStr("name", p.data) && DataFullName(p) != ""
      ==> r == Some(GithubUrlPrefix + DataFullName(p))
    ensures !HasStr(p.data, "url") && '/' !in GetStr("name", p.data) && DataFullName(p) == ""
      ==> r == (if HasStr(p.metadata, "html_url") then Some(p.metadata["html_url"].s)
                else NameUrl(GithubUrlPrefix, GetStr("full_name", p.metadata)))
    ensures r != Some("")
  {
    var name := GetStr("name", p.data);
    var fromName := if '/' in name then NameUrl(GithubUrlPrefix, name) else None;
    OrNone(
      OrElse(Some(GetStr("url", p.data)),
      OrElse(fromName,
      OrElse(NameUrl(GithubUrlPrefix, DataFullName(p)),
      OrElse(Some(GetStr("html_url", p.metadata)),
             NameUrl(GithubUrlPrefix, GetStr("full_name", p.metadata)))))))
  }

  /** A repo with a url in its data but no name, org, html_url or full_name:
      as written the url is lost, as intended it is kept. */
  lemma GithubUrlAsWrittenDropsDataUrl(p: DProject)
    requires HasStr(p.data, "url")
    requires GetStr("name", p.data) == ""
    requires !HasStr(p.metadata, "html_url") && GetStr("full_name", p.metadata) == ""
    ensures GithubUrlAsWritten(p) == Ok(None)
    ensures GithubUrl(p) == Some(p.data["url"].s)
  {
  }

  /** As written, a repo whose data names an org/name pair and holds no url
      cannot compute its url at all. */
  lemma GithubUrlAsWrittenRaises(p: DProject)
    requires !HasStr(p.data, "url") && '/' in GetStr("name", p.data)
    ensures GithubUrlAsWritten(p) == Err(KeyError("name"))
    ensures GithubUrl(p) == Some(GithubUrlPrefix + GetStr("name", p.data))
  {
    GithubPrefixPlain();
    UrlFromNameAsWrittenRaises(GithubUrlPrefix, GetStr("name", p.data));
  }

  /** A version is exported by a project whose versions should be of class
      t when it is of class t and, unless invalid ones are included, has
      its id. */
  predicate Exported(v: DVersion, t: StructType, includeInvalid: bool) {
    v.vtype == t && (includeInvalid || VersionId(v).Some?)
  }

  /** The exported versions, in order. */
  function Kept(vs: seq<DVersion>, t: StructType, includeInvalid: bool): seq<DVersion> {
    if vs == [] then []
    else
      var last := vs[|vs| - 1];
      Kept(vs[..|vs| - 1], t, includeInvalid) + (if Exported(last, t, includeInvalid) then [last] else [])
  }

  lemma {:induction false} KeptConcat(a: seq<DVersion>, b: seq<DVersion>, t: StructType, includeInvalid: bool)
    ensures Kept(a + b, t, includeInvalid) == Kept(a, t, includeInvalid) + Kept(b, t, includeInvalid)
    decreases |b|
  {
    if b == [] {
      assert a + b == a;
    } else {
      var b' := b[..|b| - 1];
      assert (a + b)[..|a + b| - 1] == a + b';
      KeptConcat(a, b', t, includeInvalid);
    }
  }

  /** Kept is part of vs: never longer, only versions of class t, each with
      its id unless invalid ones are included. */
  lemma {:induction false} KeptIsFilter(vs: seq<DVersion>, t: StructType, includeInvalid: bool)
    ensures |Kept(vs, t, includeInvalid)| <= |vs|
    ensures forall v :: v in Kept(vs, t, includeInvalid) ==> v in vs && Exported(v, t, includeInvalid)
  {
    if vs != [] {
      KeptIsFilter(vs[..|vs| - 1], t, includeInvalid);
      forall v | v in vs[..|vs| - 1] ensures v in vs {
      }
    }
  }

  /** With include_invalid, every version of class t is exported. */
  lemma {:induction false} KeptAllWhenIncluded(vs: seq<DVersion>, t: StructType)
    requires forall i :: 0 <= i < |vs| ==> vs[i].vtype == t
    ensures Kept(vs, t, true) == vs
  {
    if vs != [] {
      KeptAllWhenIncluded(vs[..|vs| - 1], t);
      assert vs[..|vs| - 1] + [vs[|vs| - 1]] == vs;
    }
  }

  /** One more version scanned: Kept grows by that version when it is exported. */
  lemma KeptStep(vs: seq<DVersion>, i: nat, t: StructType, includeInvalid: bool)
    requires i < |vs|
    ensures Kept(vs[..i + 1], t, includeInvalid)
      == Kept(vs[..i], t, includeInvalid) + (if Exported(vs[i], t, includeInvalid) then [vs[i]] else [])
  {
    assert vs[..i + 1][..i] == vs[..i];
  }

  /** Python None for a missing value. */
  function OptStr(o: Option<string>): Json {
    if o.None? then Null else Str(o.value)
  }

  function GitRepoItem(url: Option<string>): Json {
    Obj([("input_type", Str("GitRepo")), ("repo_url", OptStr(url))])
  }

  function GitRepoCommitItem(url: Option<string>, commit: Option<string>): Json {
    Obj([("input_type", Str("GitRepoCommit")), ("repo_url", OptStr(url)), ("commit_hash", OptStr(commit))])
  }

  function PackageVersionItem(name: Option<string>, version: Option<string>): Json {
    Obj([("input_type", Str("PackageVersion")), ("package_name", OptStr(name)), ("version", OptStr(version))])
  }

  /** One GitRepoCommit per exported commit, in order. */
  function CommitItems(url: Option<string>, ks: seq<DVersion>): seq<Json> {
    if ks == [] then [] else CommitItems(url, ks[..|ks| - 1]) + [GitRepoCommitItem(url, Commit(ks[|ks| - 1]))]
  }

  /** One PackageVersion per exported version, in order, all with the project name. */
  function PackageItems(name: Option<string>, ks: seq<DVersion>): seq<Json> {
    if ks == [] then [] else PackageItems(name, ks[..|ks| - 1]) + [PackageVersionItem(name, VersionOf(ks[|ks| - 1]))]
  }

  /** The items are one per version, each built from that version. */
  lemma {:induction false} CommitItemsElementwise(url: Option<string>, ks: seq<DVersion>)
    ensures |CommitItems(url, ks)| == |ks|
    ensures forall i :: 0 <= i < |ks| ==> CommitItems(url, ks)[i] == GitRepoCommitItem(url, Commit(ks[i]))
  {
    if ks != [] {
      var init := ks[..|ks| - 1];
      CommitItemsElementwise(url, init);
      forall i | 0 <= i < |init|
        ensures CommitItems(url, ks)[i] == GitRepoCommitItem(url, Commit(ks[i]))
      {
        assert ks[i] == init[i];
      }
    }
  }

  lemma {:induction false} PackageItemsElementwise(name: Option<string>, ks: seq<DVersion>)
    ensures |PackageItems(name, ks)| == |ks|
    ensures forall i :: 0 <= i < |ks| ==> PackageItems(name, ks)[i] == PackageVersionItem(name, VersionOf(ks[i]))
  {
    if ks != [] {
      var init := ks[..|ks| - 1];
      PackageItemsElementwise(name, init);
      forall i | 0 <= i < |init|
        ensures PackageItems(name, ks)[i] == PackageVersionItem(name, VersionOf(ks[i]))
      {
        assert ks[i] == init[i];
      }
    }
  }

  lemma CommitItemsSnoc(url: Option<string>, ks: seq<DVersion>, k: DVersion)
    ensures CommitItems(url, ks + [k]) == CommitItems(url, ks) + [GitRepoCommitItem(url, Commit(k))]
  {
    assert (ks + [k])[..|ks|] == ks;
  }

  lemma PackageItemsSnoc(name: Option<string>, ks: seq<DVersion>, k: DVersion)
    ensures PackageItems(name, ks + [k]) == PackageItems(name, ks) + [PackageVersionItem(name, VersionOf(k))]
  {
    assert (ks + [k])[..|ks|] == ks;
  }

  /** The body of GithubRepo.to_inputset once `self.url` is known. */
  function RepoItems(url: Option<string>, p: DProject, includeInvalid: bool): seq<Json> {
    if url.None? && !includeInvalid then []
    else if p.versions == [] then [GitRepoItem(url)]
    else CommitItems(url, Kept(p.versions, GithubCommit, includeInvalid))
  }

  /** What GithubRepo.to_inputset returns, with the corrected url. */
  function GithubRepoItems(p: DProject, includeInvalid: bool): seq<Json> {
    RepoItems(GithubUrl(p), p, includeInvalid)
  }

  /** What GithubRepo.to_inputset returns with the url property as written:
      the first reading of `self.url` raises when the property raises. */
  function GithubRepoItemsAsWritten(p: DProject, includeInvalid: bool): Result<seq<Json>> {
    var url :- GithubUrlAsWritten(p);
    Ok(RepoItems(url, p, includeInvalid))
  }

  /** The as-written export differs from the corrected one exactly where
      the url property does: a repo holding only a data url exports
      nothing, and an org/name name without a url raises KeyError. */
  lemma GithubRepoItemsAsWrittenDiffers(p: DProject)
    ensures HasStr(p.data, "url") && GetStr("name", p.data) == ""
      && !HasStr(p.metadata, "html_url") && GetStr("full_name", p.metadata) == "" && p.versions == []
      ==> GithubRepoItemsAsWritten(p, false) == Ok([])
          && GithubRepoItems(p, false) == [GitRepoItem(Some(p.data["url"].s))]
    ensures !HasStr(p.data, "url") && '/' in GetStr("name", p.data)
      ==> (forall includeInvalid :: GithubRepoItemsAsWritten(p, includeInvalid) == Err(KeyError("name")))
          && (p.versions == [] ==> GithubRepoItems(p, false) == [GitRepoItem(Some(GithubUrlPrefix + GetStr("name", p.data)))])
  {
    if HasStr(p.data, "url") && GetStr("name", p.data) == ""
      && !HasStr(p.metadata, "html_url") && GetStr("full_name", p.metadata) == "" {
      GithubUrlAsWrittenDropsDataUrl(p);
    }
    if !HasStr(p.data, "url") && '/' in GetStr("name", p.data) {
      GithubUrlAsWrittenRaises(p);
    }
  }

  /** What PypiProject.to_inputset (t = PypiRelease) and
      NpmPackage.to_inputset (t = NpmVersion) return. */
  function PackageItemsOf(p: DProject, t: StructType, parse: string -> Option<string>, includeInvalid: bool): seq<Json> {
    var name := PackageName(p, parse);
    if name.None? && !includeInvalid then []
    else PackageItems(name, Kept(p.versions, t, includeInvalid))
  }

  /** GithubRepo.to_inputset: the filter loop over the versions. */
  method GithubRepoInputset(p: DProject, includeInvalid: bool) returns (inputs: seq<Json>)
    ensures inputs == GithubRepoItems(p, includeInvalid)
    ensures GithubUrlAsWritten(p) == Ok(GithubUrl(p)) ==> GithubRepoItemsAsWritten(p, includeInvalid) == Ok(inputs)
  {
    var url := GithubUrl(p);
    if url.None? && !includeInvalid {
      return [];
    }
    if p.versions == [] {
      return [GitRepoItem(url)];
    }
    inputs := CommitInputs(url, p.versions, includeInvalid);
  }

  /** The loop of GithubRepo.to_inputset: skip versions that are not
      commits, and commit-less ones unless invalid ones are included. */
  method CommitInputs(url: Option<string>, vs: seq<DVersion>, includeInvalid: bool) returns (inputs: seq<Json>)
    ensures inputs == CommitItems(url, Kept(vs, GithubCommit, includeInvalid))
  {
    inputs := [];
    var i := 0;
    while i < |vs|
      invariant 0 <= i <= |vs|
      invariant inputs == CommitItems(url, Kept(vs[..i], GithubCommit, includeInvalid))
    {
      var v := vs[i];
      KeptStep(vs, i, GithubCommit, includeInvalid);
      ghost var done := Kept(vs[..i], GithubCommit, includeInvalid);
      i := i + 1;
      if v.vtype != GithubCommit {
        assert Kept(vs[..i], GithubCommit, includeInvalid) == done;
        continue;
      }
      assert VersionId(v) == Commit(v);
      if Commit(v).None? && !includeInvalid {
        assert Kept(vs[..i], GithubCommit, includeInvalid) == done;
        continue;
      }
      assert Kept(vs[..i], GithubCommit, includeInvalid) == done + [v];
      CommitItemsSnoc(url, done, v);
      inputs := inputs + [GitRepoCommitItem(url, Commit(v))];
    }
    assert vs[..i] == vs;
  }

  /** PypiProject.to_inputset and NpmPackage.to_inputset: the same filter
      loop, over versions of class t. */
  method PackageInputset(p: DProject, t: StructType, parse: string -> Option<string>, includeInvalid: bool)
    returns (inputs: seq<Json>)
    requires t == PypiRelease || t == NpmVersion
    ensures inputs == PackageItemsOf(p, t, parse, includeInvalid)
  {
    var name := PackageName(p, parse);
    if name.None? && !includeInvalid {
      return [];
    }
    inputs := PackageVersionInputs(name, p.versions, t, includeInvalid);
  }

  method PackageVersionInputs(name: Option<string>, vs: seq<DVersion>, t: StructType, includeInvalid: bool)
    returns (inputs: seq<Json>)
    requires t != GithubCommit
    ensures inputs == PackageItems(name, Kept(vs, t, includeInvalid))
  {
    inputs := [];
    var i := 0;
    while i < |vs|
      invariant 0 <= i <= |vs|
      invariant inputs == PackageItems(name, Kept(vs[..i], t, includeInvalid))
    {
      var v := vs[i];
      KeptStep(vs, i, t, includeInvalid);
      ghost var done := Kept(vs[..i], t, includeInvalid);
      i := i + 1;
      if v.vtype != t {
        assert Kept(vs[..i], t, includeInvalid) == done;
        continue;
      }
      assert VersionId(v) == VersionOf(v);
      if VersionOf(v).None? && !includeInvalid {
        assert Kept(vs[..i], t, includeInvalid) == done;
        continue;
      }
      assert Kept(vs[..i], t, includeInvalid) == done + [v];
      PackageItemsSnoc(name, done, v);
      inputs := inputs + [PackageVersionItem(name, VersionOf(v))];
    }
    assert vs[..i] == vs;
  }

  /** A repo without a url exports nothing unless invalid ones are included;
      one without versions exports exactly one GitRepo; otherwise at most
      one GitRepoCommit per version. */
  lemma GithubRepoItemsShape(p: DProject, includeInvalid: bool)
    ensures GithubUrl(p).None? && !includeInvalid ==> GithubRepoItems(p, includeInvalid) == []
    ensures (GithubUrl(p).Some? || includeInvalid) && p.versions == []
      ==> GithubRepoItems(p, includeInvalid) == [GitRepoItem(GithubUrl(p))]
    ensures p.versions != [] ==> |GithubRepoItems(p, includeInvalid)| <= |p.versions|
    ensures GithubUrlAsWritten(p).Err? ==> GithubRepoItemsAsWritten(p, includeInvalid) == Err(GithubUrlAsWritten(p).error)
    ensures GithubUrlAsWritten(p) == Ok(None) && !includeInvalid ==> GithubRepoItemsAsWritten(p, includeInvalid) == Ok([])
    ensures GithubUrlAsWritten(p).Ok? && (GithubUrlAsWritten(p).value.Some? || includeInvalid) && p.versions == []
      ==> GithubRepoItemsAsWritten(p, includeInvalid) == Ok([GitRepoItem(GithubUrlAsWritten(p).value)])
    ensures GithubRepoItemsAsWritten(p, includeInvalid).Ok? ==> |GithubRepoItemsAsWritten(p, includeInvalid).value| <= |p.versions| || p.versions == []
  {
    if GithubUrlAsWritten(p).Ok? {
      CommitItemsElementwise(GithubUrlAsWritten(p).value, Kept(p.versions, GithubCommit, includeInvalid));
    }
    KeptIsFilter(p.versions, GithubCommit, includeInvalid);
    CommitItemsElementwise(GithubUrl(p), Kept(p.versions, GithubCommit, includeInvalid));
  }

  /** A nameless package exports nothing unless invalid ones are included;
      otherwise the output is never longer than the version list. */
  lemma PackageItemsShape(p: DProject, t: StructType, parse: string -> Option<string>, includeInvalid: bool)
    ensures PackageName(p, parse).None? && !includeInvalid ==> PackageItemsOf(p, t, parse, includeInvalid) == []
    ensures |PackageItemsOf(p, t, parse, includeInvalid)| <= |p.versions|
  {
    KeptIsFilter(p.versions, t, includeInvalid);
    PackageItemsElementwise(PackageName(p, parse), Kept(p.versions, t, includeInvalid));
  }
}
