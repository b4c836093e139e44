/** The linear searches find_project (r2c_isg/structures/dataset.py) and
    find_version (r2c_isg/structures/projects/_project.py).

    The search builds a vanilla probe whose attributes are the keyword
    arguments and whose uuid spec starts empty. Before each candidate is
    compared, that candidate's uuid accessors are copied into the probe's
    spec, so the probe's spec accumulates the keys of every candidate seen.

    `probe == candidate` is a rich comparison. When the candidate's class
    is a strict subclass of the probe's (every registry class and the
    default classes are), Python tries the candidate's reflected `__eq__`
    first, so the candidate's uuid keys are walked, in the candidate's
    order, against the probe. Only a candidate of the vanilla class itself
    is compared by the probe's own `__eq__`. */
module Identity {
  import opened Outcomes
  import opened Json
  import opened Entities

  /** What the search sees of a candidate: its attributes, its uuid spec,
      and whether its class is a strict subclass of the probe's. */
  datatype Ident = Ident(attrs: map<string, Json>, uuids: Spec, sub: bool)

  function ProjectIdents(ps: seq<Project>): (r: seq<Ident>)
    ensures |r| == |ps|
    ensures forall i :: 0 <= i < |ps| ==> r[i] == Ident(ps[i].attrs, ps[i].uuids, ps[i].pclass != BaseProject)
  {
    seq(|ps|, i requires 0 <= i < |ps| => Ident(ps[i].attrs, ps[i].uuids, ps[i].pclass != BaseProject))
  }

  function VersionIdents(vs: seq<Version>): (r: seq<Ident>)
    ensures |r| == |vs|
    ensures forall i :: 0 <= i < |vs| ==> r[i] == Ident(vs[i].attrs, vs[i].uuids, vs[i].vclass != BaseVersion)
  {
    seq(|vs|, i requires 0 <= i < |vs| => Ident(vs[i].attrs, vs[i].uuids, vs[i].vclass != BaseVersion))
  }

  /** `for k, func in t.items(): s[k] = func`, in t's order. */
  function SpecMerge(s: Spec, t: Spec): Spec {
    if t == [] then s else SpecSet(SpecMerge(s, t[..|t| - 1]), t[|t| - 1].0, t[|t| - 1].1)
  }

  /** The probe's uuid spec once the candidates cs have been copied in. */
  function ProbeSpec(cs: seq<Ident>): Spec {
    if cs == [] then [] else SpecMerge(ProbeSpec(cs[..|cs| - 1]), cs[|cs| - 1].uuids)
  }

  /** `probe == candidate`, the probe holding the specs of candidates 0..i. */
  function Compare(kwargs: map<string, Json>, probe: Spec, c: Ident): Result<bool> {
    if c.sub then UuidEq(c.attrs, c.uuids, kwargs, probe)
    else UuidEq(kwargs, probe, c.attrs, c.uuids)
  }

  /** The comparison made at candidate i. */
  function EqAt(kwargs: map<string, Json>, cs: seq<Ident>, i: nat): Result<bool>
    requires i < |cs|
  {
    Compare(kwargs, ProbeSpec(cs[..i + 1]), cs[i])
  }

  /** Every comparison the search could make, in candidate order. */
  function Comparisons(kwargs: map<string, Json>, cs: seq<Ident>): (rs: seq<Result<bool>>)
    ensures |rs| == |cs|
    ensures forall i :: 0 <= i < |cs| ==> rs[i] == EqAt(kwargs, cs, i)
  {
    seq(|cs|, i requires 0 <= i < |cs| => EqAt(kwargs, cs, i))
  }

  /** The outcome of comparing in order from position i: the first equal
      position, None when there is none, or the first comparison's error. */
  function FirstEqual(rs: seq<Result<bool>>, i: nat): Result<Option<nat>>
    requires i <= |rs|
    decreases |rs| - i
  {
    if i == |rs| then Ok(None)
    else
      var eq :- rs[i];
      if eq then Ok(Some(i)) else FirstEqual(rs, i + 1)
  }

  /** What find_project / find_version return: an index into the candidates. */
  function Scan(kwargs: map<string, Json>, cs: seq<Ident>): Result<Option<nat>> {
    FirstEqual(Comparisons(kwargs, cs), 0)
  }

  lemma SpecMergeSnoc(s: Spec, u: Spec, j: nat)
    requires j < |u|
    ensures SpecMerge(s, u[..j + 1]) == SpecSet(SpecMerge(s, u[..j]), u[j].0, u[j].1)
  {
    assert u[..j + 1][..j] == u[..j];
  }

  lemma ProbeSpecSnoc(cs: seq<Ident>, i: nat)
    requires i < |cs|
    ensures ProbeSpec(cs[..i + 1]) == SpecMerge(ProbeSpec(cs[..i]), cs[i].uuids)
  {
    assert cs[..i + 1][..i] == cs[..i];
  }

  /** The copy of a candidate's uuid accessors into the probe's spec. */
  method CopySpec(probe: Spec, u: Spec) returns (r: Spec)
    ensures r == SpecMerge(probe, u)
  {
    r := probe;
    var j := 0;
    while j < |u|
      invariant 0 <= j <= |u|
      invariant r == SpecMerge(probe, u[..j])
    {
      SpecMergeSnoc(probe, u, j);
      r := SpecSet(r, u[j].0, u[j].1);
      j := j + 1;
    }
    assert u[..j] == u;
  }

  /** The search loop. It changes nothing: the candidates are values. */
  method Find(kwargs: map<string, Json>, cs: seq<Ident>) returns (r: Result<Option<nat>>)
    ensures r == Scan(kwargs, cs)
  {
    ghost var rs := Comparisons(kwargs, cs);
    var probe: Spec := [];
    var i := 0;
    while i < |cs|
      invariant 0 <= i <= |cs|
      invariant probe == ProbeSpec(cs[..i])
      invariant FirstEqual(rs, 0) == FirstEqual(rs, i)
    {
      ProbeSpecSnoc(cs, i);
      probe := CopySpec(probe, cs[i].uuids);
      var eq := Compare(kwargs, probe, cs[i]);
      assert eq == rs[i];
      if eq.Err? {
        return Err(eq.error);
      }
      if eq.value {
        return Ok(Some(i));
      }
      i := i + 1;
    }
    r := Ok(None);
  }

  /** A found position is the first equal one; every earlier comparison
      was unequal without error. */
  lemma {:induction false} FirstEqualFindsFirst(rs: seq<Result<bool>>, i: nat, j: nat)
    requires i <= |rs|
    requires FirstEqual(rs, i) == Ok(Some(j))
    ensures i <= j < |rs| && rs[j] == Ok(true)
    ensures forall k :: i <= k < j ==> rs[k] == Ok(false)
    decreases |rs| - i
  {
    if rs[i] != Ok(true) {
      FirstEqualFindsFirst(rs, i + 1, j);
    }
  }

  /** None exactly when every comparison was unequal without error. */
  lemma {:induction false} FirstEqualNone(rs: seq<Result<bool>>, i: nat)
    requires i <= |rs|
    ensures FirstEqual(rs, i) == Ok(None) <==> forall k :: i <= k < |rs| ==> rs[k] == Ok(false)
    decreases |rs| - i
  {
    if i < |rs| {
      FirstEqualNone(rs, i + 1);
    }
  }

  predicate PriorUnequal(rs: seq<Result<bool>>, i: nat, j: nat)
    requires i <= j <= |rs|
  {
    forall k :: i <= k < j ==> rs[k] == Ok(false)
  }

  /** An error is that of the first comparison that failed, after only
      unequal ones. */
  lemma {:induction false} FirstEqualError(rs: seq<Result<bool>>, i: nat)
    requires i <= |rs|
    requires FirstEqual(rs, i).Err?
    ensures exists j :: i <= j < |rs| && rs[j] == Err(FirstEqual(rs, i).error) && PriorUnequal(rs, i, j)
    decreases |rs| - i
  {
    if !rs[i].Err? {
      FirstEqualError(rs, i + 1);
    }
  }

  /** find_project / find_version return the first candidate that equals
      the probe (for a subclass candidate, by the candidate's `__eq__`);
      none is returned only when every comparison is unequal. */
  lemma ScanFindsFirst(kwargs: map<string, Json>, cs: seq<Ident>)
    ensures Scan(kwargs, cs).Ok? && Scan(kwargs, cs).value.Some? ==>
      var j := Scan(kwargs, cs).value.value;
      && j < |cs| && EqAt(kwargs, cs, j) == Ok(true)
      && forall k :: 0 <= k < j ==> EqAt(kwargs, cs, k) == Ok(false)
    ensures Scan(kwargs, cs) == Ok(None) <==> forall k :: 0 <= k < |cs| ==> EqAt(kwargs, cs, k) == Ok(false)
  {
    var rs := Comparisons(kwargs, cs);
    if Scan(kwargs, cs).Ok? && Scan(kwargs, cs).value.Some? {
      FirstEqualFindsFirst(rs, 0, Scan(kwargs, cs).value.value);
    }
    FirstEqualNone(rs, 0);
  }

  /** Merging keeps every key already present and adds every merged key. */
  lemma {:induction false} SpecMergeKeys(s: Spec, t: Spec)
    ensures forall k :: SpecHas(s, k) ==> SpecHas(SpecMerge(s, t), k)
    ensures forall k :: SpecHas(t, k) ==> SpecHas(SpecMerge(s, t), k)
    decreases |t|
  {
    if t != [] {
      var init := t[..|t| - 1];
      SpecMergeKeys(s, init);
      forall k | SpecHas(t, k) && k != t[|t| - 1].0 ensures SpecHas(init, k) {
        var i :| 0 <= i < |t| && t[i].0 == k;
        assert init[i].0 == k;
      }
    }
  }

  /** The comparison at candidate i tries every key of candidate i's spec. */
  lemma ProbeHasCandidateKeys(cs: seq<Ident>, i: nat)
    requires i < |cs|
    ensures forall k :: SpecHas(cs[i].uuids, k) ==> SpecHas(ProbeSpec(cs[..i + 1]), k)
  {
    ProbeSpecSnoc(cs, i);
    SpecMergeKeys(ProbeSpec(cs[..i]), cs[i].uuids);
  }

  /** The probe's spec only grows while scanning: a key copied from an
      earlier candidate stays for every later comparison. */
  lemma ProbeSpecGrows(cs: seq<Ident>, i: nat, j: nat)
    requires i <= j <= |cs|
    ensures forall k :: SpecHas(ProbeSpec(cs[..i]), k) ==> SpecHas(ProbeSpec(cs[..j]), k)
  {
    forall k | SpecHas(ProbeSpec(cs[..i]), k) ensures SpecHas(ProbeSpec(cs[..j]), k) {
      ProbeKeyStays(cs, i, j, k);
    }
  }

  lemma {:induction false} ProbeKeyStays(cs: seq<Ident>, i: nat, j: nat, k: string)
    requires i <= j <= |cs| && SpecHas(ProbeSpec(cs[..i]), k)
    ensures SpecHas(ProbeSpec(cs[..j]), k)
    decreases j - i
  {
    if i < j {
      ProbeKeyStep(cs, i, k);
      ProbeKeyStays(cs, i + 1, j, k);
    }
  }

  lemma ProbeKeyStep(cs: seq<Ident>, j: nat, k: string)
    requires j < |cs| && SpecHas(ProbeSpec(cs[..j]), k)
    ensures SpecHas(ProbeSpec(cs[..j + 1]), k)
  {
    ProbeSpecStep(cs, j);
  }

  lemma ProbeSpecStep(cs: seq<Ident>, j: nat)
    requires j < |cs|
    ensures forall k :: SpecHas(ProbeSpec(cs[..j]), k) ==> SpecHas(ProbeSpec(cs[..j + 1]), k)
  {
    ProbeSpecSnoc(cs, j);
    SpecMergeKeys(ProbeSpec(cs[..j]), cs[j].uuids);
  }

  /** With every key of self's spec present in other's, the comparison
      never raises KeyError: only a missing attribute can fail it. */
  lemma {:induction false} UuidEqNoKeyError(a: map<string, Json>, u: Spec, oa: map<string, Json>, ou: Spec)
    requires forall k :: SpecHas(u, k) ==> SpecHas(ou, k)
    ensures UuidEq(a, u, oa, ou).Err? ==> UuidEq(a, u, oa, ou).error.AttributeError?
    decreases |u|
  {
    if u != [] {
      assert SpecHas(u, u[0].0) by { assert Get(u, u[0].0).Some?; }
      forall k | SpecHas(u[1..], k) ensures SpecHas(ou, k) {
        var i :| 0 <= i < |u[1..]| && u[1..][i].0 == k;
        assert u[i + 1].0 == k;
      }
      UuidEqNoKeyError(a, u[1..], oa, ou);
    }
  }

  /** A subclass candidate's comparison never raises KeyError, since the
      probe holds every key of the candidate's spec; the vanilla-class
      comparison can. */
  lemma CompareNoKeyError(kwargs: map<string, Json>, cs: seq<Ident>, i: nat)
    requires i < |cs| && cs[i].sub
    ensures EqAt(kwargs, cs, i).Err? ==> EqAt(kwargs, cs, i).error.AttributeError?
  {
    ProbeHasCandidateKeys(cs, i);
    UuidEqNoKeyError(cs[i].attrs, cs[i].uuids, kwargs, ProbeSpec(cs[..i + 1]));
  }

  /** When every candidate is of a subclass, as every loaded project and
      version is, the search fails only by AttributeError, never KeyError. */
  lemma ScanNoKeyError(kwargs: map<string, Json>, cs: seq<Ident>)
    requires forall i :: 0 <= i < |cs| ==> cs[i].sub
    ensures Scan(kwargs, cs).Err? ==> Scan(kwargs, cs).error.AttributeError?
  {
    var rs := Comparisons(kwargs, cs);
    if Scan(kwargs, cs).Err? {
      FirstEqualError(rs, 0);
      var j :| 0 <= j < |rs| && rs[j] == Err(FirstEqual(rs, 0).error) && PriorUnequal(rs, 0, j);
      CompareNoKeyError(kwargs, cs, j);
    }
  }

  /** The probe's spec after the first candidate: a copy of its spec. */
  lemma ProbeSpecFirst(cs: seq<Ident>)
    requires |cs| > 0
    ensures ProbeSpec(cs[..1]) == SpecMerge([], cs[0].uuids)
  {
    ProbeSpecSnoc(cs, 0);
    assert cs[..0] == [];
  }

  /** Two comparisons: the first outcome decides unless it is unequal. */
  lemma FirstEqualOfTwo(rs: seq<Result<bool>>)
    requires |rs| == 2 && rs[0] == Ok(false)
    ensures rs[1] == Ok(true) ==> FirstEqual(rs, 0) == Ok(Some(1))
    ensures rs[1].Err? ==> FirstEqual(rs, 0) == Err(rs[1].error)
  {
    assert FirstEqual(rs, 2) == Ok(None);
  }

  /** Copying a two-key spec leaves the first key's accessor in place. */
  lemma {:induction false} MergeTwoKeepsFirst(p: Spec, a: string, b: string)
    requires a != b
    ensures Get(SpecMerge(p, [(a, a), (b, b)]), a) == Some(a)
  {
    var u := [(a, a), (b, b)];
    assert u[..1] == [(a, a)] && u[..1][..0] == [];
    assert SpecMerge(p, u[..1]) == SpecSet(p, a, a);
    assert SpecMerge(p, u) == SpecSet(SpecMerge(p, u[..1]), b, b);
  }

  predicate NameThenUrl(kwargs: map<string, Json>, cs: seq<Ident>, u: string, n: string, m: string, name: string, url: string) {
    && name == "name" && url == "url" && n != m
    && kwargs == map[url := Str(u), name := Str(n)]
    && cs == [Ident(map[name := Str(m)], [(name, name)], true), Ident(map[url := Str(u)], [(url, url)], true)]
  }

  lemma NameThenUrlFirst(kwargs: map<string, Json>, cs: seq<Ident>, u: string, n: string, m: string, name: string, url: string)
    requires NameThenUrl(kwargs, cs, u, n, m, name, url)
    ensures EqAt(kwargs, cs, 0) == Ok(false)
  {
    ProbeSpecFirst(cs);
    var p0 := ProbeSpec(cs[..1]);
    var c := cs[0];
    assert SpecMerge([], c.uuids) == SpecSet(SpecMerge([], []), name, name);
    assert Get(p0, name) == Some(name);
    assert EqAt(kwargs, cs, 0) == UuidEq(c.attrs, c.uuids, kwargs, p0);
    assert Attr(c.attrs, name) == Ok(Str(m));
    assert SpecValue(kwargs, p0, name) == Ok(Str(n));
    assert !PyEq(Str(m), Str(n));
    assert c.uuids[1..] == [];
    assert UuidEq(c.attrs, c.uuids, kwargs, p0) == UuidEq(c.attrs, [], kwargs, p0);
  }

  lemma NameThenUrlSecond(kwargs: map<string, Json>, cs: seq<Ident>, u: string, n: string, m: string, name: string, url: string)
    requires NameThenUrl(kwargs, cs, u, n, m, name, url)
    ensures EqAt(kwargs, cs, 1) == Ok(true)
  {
    ProbeSpecSnoc(cs, 1);
    var p1 := ProbeSpec(cs[..2]);
    var p0 := ProbeSpec(cs[..1]);
    assert SpecMerge(p0, cs[1].uuids) == SpecSet(SpecMerge(p0, []), url, url);
    assert Get(p1, url) == Some(url);
    assert SpecValue(kwargs, p1, url) == Ok(Str(u));
    assert cs[..2] == cs;
  }

  /** The candidate's keys decide which attribute is read. A probe with a
      url and a name, against a project known by name only and then one
      known by url only: the first compares names and differs, the second
      compares urls and matches. The probe's own `__eq__` would have read
      the first project's missing url uuid and raised KeyError. */
  lemma CandidateKeysDecide(kwargs: map<string, Json>, cs: seq<Ident>, u: string, n: string, m: string, name: string, url: string)
    requires NameThenUrl(kwargs, cs, u, n, m, name, url)
    ensures Scan(kwargs, cs) == Ok(Some(1))
  {
    NameThenUrlFirst(kwargs, cs, u, n, m, name, url);
    NameThenUrlSecond(kwargs, cs, u, n, m, name, url);
    FirstEqualOfTwo(Comparisons(kwargs, cs));
  }

  predicate UrlThenNamedFirst(kwargs: map<string, Json>, cs: seq<Ident>, u0: string, u1: string, n1: string, name: string, url: string) {
    && name == "name" && url == "url" && u0 != u1
    && kwargs == map[url := Str(u1)]
    && cs == [Ident(map[url := Str(u0)], [(url, url)], true),
              Ident(map[name := Str(n1), url := Str(u1)], [(name, name), (url, url)], true)]
  }

  lemma UrlThenNamedFirstFirst(kwargs: map<string, Json>, cs: seq<Ident>, u0: string, u1: string, n1: string, name: string, url: string)
    requires UrlThenNamedFirst(kwargs, cs, u0, u1, n1, name, url)
    ensures EqAt(kwargs, cs, 0) == Ok(false)
  {
    ProbeSpecFirst(cs);
    var p0 := ProbeSpec(cs[..1]);
    var c := cs[0];
    assert SpecMerge([], c.uuids) == SpecSet(SpecMerge([], []), url, url);
    assert Get(p0, url) == Some(url);
    assert EqAt(kwargs, cs, 0) == UuidEq(c.attrs, c.uuids, kwargs, p0);
    assert Attr(c.attrs, url) == Ok(Str(u0));
    assert SpecValue(kwargs, p0, url) == Ok(Str(u1));
    assert !PyEq(Str(u0), Str(u1));
    assert c.uuids[1..] == [];
    assert UuidEq(c.attrs, c.uuids, kwargs, p0) == UuidEq(c.attrs, [], kwargs, p0);
  }

  lemma UrlThenNamedFirstSecond(kwargs: map<string, Json>, cs: seq<Ident>, u0: string, u1: string, n1: string, name: string, url: string)
    requires UrlThenNamedFirst(kwargs, cs, u0, u1, n1, name, url)
    ensures EqAt(kwargs, cs, 1) == Err(AttributeError(name))
  {
    ProbeSpecSnoc(cs, 1);
    var p0 := ProbeSpec(cs[..1]);
    var c := cs[1];
    var p1 := SpecMerge(p0, c.uuids);
    assert cs[..2] == cs;
    assert EqAt(kwargs, cs, 1) == UuidEq(c.attrs, c.uuids, kwargs, p1);
    MergeTwoKeepsFirst(p0, name, url);
    assert SpecValue(kwargs, p1, name) == Attr(kwargs, name);
    assert name !in kwargs;
    assert Attr(c.attrs, name) == Ok(Str(n1));
  }

  /** A probe holding only a url, against a project whose spec names its
      'name' key first: the candidate reads its own name, then the probe's
      missing name attribute, and the search raises AttributeError even
      though the urls would have matched. */
  lemma CandidateOrderRaises(kwargs: map<string, Json>, cs: seq<Ident>, u0: string, u1: string, n1: string, name: string, url: string)
    requires UrlThenNamedFirst(kwargs, cs, u0, u1, n1, name, url)
    ensures Scan(kwargs, cs) == Err(AttributeError(name))
  {
    UrlThenNamedFirstFirst(kwargs, cs, u0, u1, n1, name, url);
    UrlThenNamedFirstSecond(kwargs, cs, u0, u1, n1, name, url);
    FirstEqualOfTwo(Comparisons(kwargs, cs));
  }
}
