/** The "find, then update, else create and append" step that the loaders
    and the registry get_versions methods run for one version's data: the
    project's versions are searched for the first one that compares equal
    to a probe built from the data (by the version's own `__eq__`, since its
    class is a subclass of the probe's); a found version takes the data as keyword updates, and otherwise
    a new version of the registry's class, with its uuid spec and the data,
    is appended. In 'latest' mode the registry methods first cut the list
    down to the found version, or to nothing. */
module Upsert {
  import opened Outcomes
  import opened Json
  import opened Entities
  import opened Identity

  /** The version list after the step. `latest` cuts the list first. */
  function UpsertVersion(vs: seq<Version>, kwargs: map<string, Json>, latest: bool, c: VersionClass, uuids: Spec): Result<seq<Version>> {
    var found :- Scan(kwargs, VersionIdents(vs));
    ScanFindsFirst(kwargs, VersionIdents(vs));
    match found
    case Some(j) =>
      var u :- UpdateVersion(vs[j], kwargs);
      if latest then Ok([u]) else Ok(vs[j := u])
    case None =>
      var v :- NewVersion(c, uuids, kwargs);
      if latest then Ok([v]) else Ok(vs + [v])
  }

  /** `after` keeps every version of `before` in place, as the same kind of
      entity with the same identity, and every version added behind them is
      a new `c` with the spec `uuids`. */
  predicate Extends(before: seq<Version>, after: seq<Version>, c: VersionClass, uuids: Spec) {
    && |before| <= |after|
    && (forall i :: 0 <= i < |before| ==> after[i].vclass == before[i].vclass && after[i].uuids == before[i].uuids)
    && (forall i :: |before| <= i < |after| ==> after[i].vclass == c && after[i].uuids == uuids)
  }

  lemma ExtendsTransitive(a: seq<Version>, b: seq<Version>, d: seq<Version>, c: VersionClass, uuids: Spec)
    requires Extends(a, b, c, uuids) && Extends(b, d, c, uuids)
    ensures Extends(a, d, c, uuids)
  {
  }

  lemma ExtendsReflexive(a: seq<Version>, c: VersionClass, uuids: Spec)
    ensures Extends(a, a, c, uuids)
  {
  }

  /** Outside 'latest' mode the step updates the first version the search
      finds equal to the data's probe, leaving the others alone, or appends exactly one new version. */
  lemma UpsertVersionAll(vs: seq<Version>, kwargs: map<string, Json>, c: VersionClass, uuids: Spec)
    ensures var r := UpsertVersion(vs, kwargs, false, c, uuids);
      var s := Scan(kwargs, VersionIdents(vs));
      && (s.Err? ==> r == Err(s.error))
      && (s == Ok(None) ==> r == (if VersionGuarantees(c, uuids) then Ok(vs + [Version(c, kwargs, uuids, [])]) else Err(GuaranteesNotMet("version"))))
      && (s.Ok? && s.value.Some? && r.Ok? ==>
            var j := s.value.value;
            && j < |vs| && |r.value| == |vs|
            && r.value[j] == UpdateVersion(vs[j], kwargs).value
            && forall i :: 0 <= i < |vs| && i != j ==> r.value[i] == vs[i])
      && (r.Ok? ==> Extends(vs, r.value, c, uuids))
  {
    ScanFindsFirst(kwargs, VersionIdents(vs));
  }

  /** In 'latest' mode a successful step leaves exactly one version: the
      updated match, or the new one. */
  lemma UpsertVersionLatest(vs: seq<Version>, kwargs: map<string, Json>, c: VersionClass, uuids: Spec)
    ensures var r := UpsertVersion(vs, kwargs, true, c, uuids);
      r.Ok? ==> |r.value| == 1
    ensures var r := UpsertVersion(vs, kwargs, true, c, uuids);
      Scan(kwargs, VersionIdents(vs)) == Ok(None) && r.Ok? ==> r.value == [Version(c, kwargs, uuids, [])]
  {
  }

  /** The step as the source runs it: the linear search, then the update in
      place or the append. */
  method UpsertVersionIn(vs: seq<Version>, kwargs: map<string, Json>, latest: bool, c: VersionClass, uuids: Spec)
    returns (r: Result<seq<Version>>)
    ensures r == UpsertVersion(vs, kwargs, latest, c, uuids)
  {
    var found := Find(kwargs, VersionIdents(vs));
    if found.Err? {
      return Err(found.error);
    }
    ScanFindsFirst(kwargs, VersionIdents(vs));
    if found.value.Some? {
      var j := found.value.value;
      var u := UpdateVersion(vs[j], kwargs);
      if u.Err? {
        return Err(u.error);
      }
      if latest {
        // 'latest' mode: the found version, updated, is the only one left
        r := Ok([u.value]);
      } else {
        r := Ok(vs[j := u.value]);
      }
    } else {
      var v := NewVersion(c, uuids, kwargs);
      if v.Err? {
        return Err(v.error);
      }
      if latest {
        r := Ok([v.value]);
      } else {
        r := Ok(vs + [v.value]);
      }
    }
  }

  // ---------------------------------------------------------------------
  // The same step for a project, and a whole record

  /** `project = ds.find_project(**p_data)`, then `project.update(**p_data)`
      or `ds.projects.append(PClass(uuids_=..., meta_=..., **p_data))`: the
      new project list and the position of the project the record is about. */
  function UpsertProject(ps: seq<Project>, pData: map<string, Json>, c: ProjectClass, uuids: Spec, meta: Spec): Result<(seq<Project>, nat)> {
    var found :- Scan(pData, ProjectIdents(ps));
    ScanFindsFirst(pData, ProjectIdents(ps));
    match found
    case Some(j) =>
      var u :- UpdateProject(ps[j], pData);
      Ok((ps[j := u], j))
    case None =>
      var p :- NewProject(c, uuids, meta, pData);
      Ok((ps + [p], |ps|))
  }

  /** The project the search finds equal to the data's probe is updated
      where it stands and keeps its kind, identity and versions. */
  lemma UpsertProjectFound(ps: seq<Project>, pData: map<string, Json>, c: ProjectClass, uuids: Spec, meta: Spec, j: nat)
    requires Scan(pData, ProjectIdents(ps)) == Ok(Some(j))
    ensures j < |ps|
    ensures var r := UpsertProject(ps, pData, c, uuids, meta);
      var u := UpdateProject(ps[j], pData);
      && (u.Err? ==> r == Err(u.error))
      && (u.Ok? ==> r == Ok((ps[j := u.value], j)) && u.value.versions == ps[j].versions
                    && u.value.pclass == ps[j].pclass && u.value.uuids == ps[j].uuids)
  {
    ScanFindsFirst(pData, ProjectIdents(ps));
  }

  /** When the search finds no project equal to the data's probe, exactly
      one new project with no versions is appended, or the guarantee check
      refuses it. */
  lemma UpsertProjectNew(ps: seq<Project>, pData: map<string, Json>, c: ProjectClass, uuids: Spec, meta: Spec)
    requires Scan(pData, ProjectIdents(ps)) == Ok(None)
    ensures UpsertProject(ps, pData, c, uuids, meta) ==
      if ProjectGuarantees(c, uuids, meta) then Ok((ps + [Project(c, pData, uuids, meta, [])], |ps|))
      else Err(GuaranteesNotMet("project"))
  {
  }

  /** Whatever happens, the list keeps every other project in place and
      grows by at most one. */
  lemma UpsertProjectShape(ps: seq<Project>, pData: map<string, Json>, c: ProjectClass, uuids: Spec, meta: Spec)
    ensures var r := UpsertProject(ps, pData, c, uuids, meta);
      r.Ok? ==>
        && r.value.1 < |r.value.0| && |ps| <= |r.value.0| <= |ps| + 1
        && (r.value.1 < |ps| <==> |r.value.0| == |ps|)
        && (forall i :: 0 <= i < |ps| && i != r.value.1 ==> r.value.0[i] == ps[i])
  {
    var s := Scan(pData, ProjectIdents(ps));
    if s.Ok? && s.value.Some? {
      UpsertProjectFound(ps, pData, c, uuids, meta, s.value.value);
    }
  }

  /** One loader record: its project is found or created, then, when the
      record has version data, that project's version is found or created. */
  function AddRecord(ps: seq<Project>, pData: map<string, Json>, c: ProjectClass, uuids: Spec, meta: Spec,
                     vData: map<string, Json>, vc: VersionClass, vuuids: Spec): Result<seq<Project>>
  {
    var (qs, j) :- UpsertProject(ps, pData, c, uuids, meta);
    UpsertProjectShape(ps, pData, c, uuids, meta);
    if vData == map[] then Ok(qs)
    else
      var vs :- UpsertVersion(qs[j].versions, vData, false, vc, vuuids);
      Ok(qs[j := qs[j].(versions := vs)])
  }

  /** A record never removes a project and adds at most one; the versions
      of the project it concerns are extended by at most one. */
  lemma AddRecordShape(ps: seq<Project>, pData: map<string, Json>, c: ProjectClass, uuids: Spec, meta: Spec,
                       vData: map<string, Json>, vc: VersionClass, vuuids: Spec)
    requires AddRecord(ps, pData, c, uuids, meta, vData, vc, vuuids).Ok?
    ensures UpsertProject(ps, pData, c, uuids, meta).Ok?
    ensures var (qs, j) := UpsertProject(ps, pData, c, uuids, meta).value;
      var r := AddRecord(ps, pData, c, uuids, meta, vData, vc, vuuids).value;
      && |ps| <= |r| <= |ps| + 1 && |r| == |qs| && j < |r|
      && (forall i :: 0 <= i < |ps| && i != j ==> r[i] == ps[i])
      && (vData == map[] ==> r == qs)
      && (vData != map[] ==>
            && r[j] == qs[j].(versions := r[j].versions)
            && Extends(qs[j].versions, r[j].versions, vc, vuuids)
            && |r[j].versions| <= |qs[j].versions| + 1)
  {
    UpsertProjectShape(ps, pData, c, uuids, meta);
    var (qs, j) := UpsertProject(ps, pData, c, uuids, meta).value;
    if vData != map[] {
      UpsertVersionAll(qs[j].versions, vData, vc, vuuids);
    }
  }
}
