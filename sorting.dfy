/** Dataset.sort (r2c_isg/functions/sort.py, r2c_isg/dataset.py): the
    reshuffle of the sort parameters, the parsing of one sort key, the key
    each project or version sorts by, and Python's stable list.sort. */
module Sorting {
  import opened Outcomes
  import opened Json
  import opened PyStr
  import opened Entities

  // ---------------------------------------------------------------------
  // The parameter list

  /** A sort-order token. */
  const OrderTokens: set<string> := {"asc", "desc"}

  predicate IsOrder(p: string) {
    p in OrderTokens
  }

  /** The caller's list once 'asc' has been put in front of it when its
      first token is not an order. */
  function Prefixed(params: seq<string>): (r: seq<string>)
    requires params != []
    ensures |r| > 0 && IsOrder(r[0])
    ensures r == params || r == ["asc"] + params
  {
    if IsOrder(params[0]) then params else ["asc"] + params
  }

  function Reverse(s: seq<string>): (r: seq<string>)
    ensures |r| == |s|
    ensures forall i :: 0 <= i < |s| ==> r[i] == s[|s| - 1 - i]
  {
    if s == [] then [] else Reverse(s[1..]) + [s[0]]
  }

  /** The reorganised order of a reversed parameter list: each order token
      is moved in front of the keys that precede it, the keys after the
      last order token keep their place. `pending` holds the keys met
      since the last order token. */
  function Regroup(r: seq<string>, pending: seq<string>): seq<string>
    decreases |r|
  {
    if r == [] then pending
    else if IsOrder(r[0]) then [r[0]] + pending + Regroup(r[1..], [])
    else Regroup(r[1..], pending + [r[0]])
  }

  /** The list the sort passes walk, for a list that starts with an order. */
  function Organised(params: seq<string>): seq<string> {
    Regroup(Reverse(params), [])
  }

  lemma Assoc(a: seq<string>, b: seq<string>, c: seq<string>)
    ensures a + (b + c) == (a + b) + c
  {
  }

  /** params.pop(i) followed by params.insert(k, param), where k is the
      start of the group of keys before position i. */
  lemma MoveToGroupStart(s: seq<string>, i: nat, done: seq<string>, pend: seq<string>, x: string, rest: seq<string>)
    requires s == done + pend + ([x] + rest) && i == |done| + |pend|
    ensures var popped := s[..i] + s[i + 1..];
      popped[..|done|] + [x] + popped[|done|..] == (done + [x] + pend) + [] + rest
  {
    assert s[..i] == done + pend;
    assert s[i + 1..] == rest;
    var popped := s[..i] + s[i + 1..];
    assert popped == done + (pend + rest);
    assert popped[..|done|] == done;
    assert popped[|done|..] == pend + rest;
  }

  /** One order token of the loop: it moves to the start of its group. */
  lemma OrderStep(rs: seq<string>, i: nat, ps: seq<string>, done: seq<string>, pend: seq<string>)
    requires i < |rs| && ps == done + pend + rs[i..] && i == |done| + |pend|
    requires Regroup(rs, []) == done + Regroup(rs[i..], pend)
    requires IsOrder(ps[i])
    ensures ps[i] == rs[i]
    ensures var popped := ps[..i] + ps[i + 1..];
      var done' := done + [rs[i]] + pend;
      && popped[..|done|] + [rs[i]] + popped[|done|..] == done' + [] + rs[i + 1..]
      && Regroup(rs, []) == done' + Regroup(rs[i + 1..], [])
  {
    assert rs[i..] == [rs[i]] + rs[i + 1..];
    assert ps == done + pend + ([rs[i]] + rs[i + 1..]);
    assert ps[i] == rs[i];
    MoveToGroupStart(ps, i, done, pend, rs[i], rs[i + 1..]);
    OrderRegroup(rs, i, done, pend);
  }

  lemma OrderRegroup(rs: seq<string>, i: nat, done: seq<string>, pend: seq<string>)
    requires i < |rs| && IsOrder(rs[i])
    requires Regroup(rs, []) == done + Regroup(rs[i..], pend)
    ensures Regroup(rs, []) == done + [rs[i]] + pend + Regroup(rs[i + 1..], [])
  {
    RegroupStep(rs, i, pend);
    var tail := Regroup(rs[i + 1..], []);
    Assoc(done, [rs[i]] + pend, tail);
    Assoc(done, [rs[i]], pend);
  }

  /** One sort key of the loop: it joins the current group, in place. */
  lemma KeyStep(rs: seq<string>, i: nat, ps: seq<string>, done: seq<string>, pend: seq<string>)
    requires i < |rs| && ps == done + pend + rs[i..] && i == |done| + |pend|
    requires Regroup(rs, []) == done + Regroup(rs[i..], pend)
    requires !IsOrder(ps[i])
    ensures ps == done + (pend + [rs[i]]) + rs[i + 1..]
    ensures Regroup(rs, []) == done + Regroup(rs[i + 1..], pend + [rs[i]])
  {
    RegroupStep(rs, i, pend);
    assert rs[i..] == [rs[i]] + rs[i + 1..];
    Assoc(done + pend, [rs[i]], rs[i + 1..]);
    Assoc(done, pend, [rs[i]]);
  }

  /** The state of the index loop before position i: the groups already
      regrouped, then the keys of the current group, then the untouched rest. */
  predicate LoopState(rs: seq<string>, i: nat, ps: seq<string>, insertAt: nat, done: seq<string>, pend: seq<string>) {
    && i <= |rs|
    && ps == done + pend + rs[i..]
    && insertAt == |done| && i == |done| + |pend|
    && Regroup(rs, []) == done + Regroup(rs[i..], pend)
  }

  lemma LoopStart(rs: seq<string>)
    ensures LoopState(rs, 0, rs, 0, [], [])
  {
    assert rs[0..] == rs;
  }

  lemma LoopEnd(rs: seq<string>, ps: seq<string>, insertAt: nat, done: seq<string>, pend: seq<string>)
    requires LoopState(rs, |rs|, ps, insertAt, done, pend)
    ensures ps == Regroup(rs, [])
  {
    assert rs[|rs|..] == [];
  }

  /** One turn of the index loop: an order token is popped and re-inserted
      where the current group of keys began. */
  method RegroupTurn(ghost rs: seq<string>, i: nat, ps: seq<string>, insertAt: nat, ghost done: seq<string>, ghost pend: seq<string>)
    returns (ps': seq<string>, insertAt': nat, ghost done': seq<string>, ghost pend': seq<string>)
    requires i < |rs| && LoopState(rs, i, ps, insertAt, done, pend)
    ensures LoopState(rs, i + 1, ps', insertAt', done', pend')
  {
    ps', insertAt', done', pend' := ps, insertAt, done, pend;
    if IsOrder(ps[i]) {
      OrderStep(rs, i, ps, done, pend);
      var param := ps[i];
      ps' := ps[..i] + ps[i + 1..];
      ps' := ps'[..insertAt] + [param] + ps'[insertAt..];
      done' := done + [param] + pend;
      pend' := [];
      insertAt' := i + 1;
    } else {
      KeyStep(rs, i, ps, done, pend);
      pend' := pend + [rs[i]];
    }
  }

  /** The index loop of sort.py over the reversed list. */
  method RegroupInPlace(rs: seq<string>) returns (ps: seq<string>)
    ensures ps == Regroup(rs, [])
  {
    ps := rs;
    var insertAt := 0;
    ghost var done: seq<string> := [];
    ghost var pend: seq<string> := [];
    LoopStart(rs);
    var n := |ps|;
    var i := 0;
    while i < n
      invariant n == |rs| && 0 <= i <= n
      invariant LoopState(rs, i, ps, insertAt, done, pend)
    {
      ps, insertAt, done, pend := RegroupTurn(rs, i, ps, insertAt, done, pend);
      i := i + 1;
    }
    LoopEnd(rs, ps, insertAt, done, pend);
  }

  /** The reshuffle of sort.py. On an empty list params[0] raises. Otherwise
      the first result is the caller's list after the insert, the second
      the list the passes walk. */
  method Organise(params: seq<string>) returns (r: Result<(seq<string>, seq<string>)>)
    ensures params == [] ==> r == Err(IndexError)
    ensures params != [] ==> r == Ok((Prefixed(params), Organised(Prefixed(params))))
  {
    if params == [] {
      return Err(IndexError);
    }
    var caller := params;
    if !IsOrder(params[0]) {
      caller := ["asc"] + params;
    }
    var ps := RegroupInPlace(Reverse(caller));
    r := Ok((caller, ps));
  }

  lemma RegroupStep(rs: seq<string>, i: nat, pending: seq<string>)
    requires i < |rs|
    ensures IsOrder(rs[i]) ==> Regroup(rs[i..], pending) == [rs[i]] + pending + Regroup(rs[i + 1..], [])
    ensures !IsOrder(rs[i]) ==> Regroup(rs[i..], pending) == Regroup(rs[i + 1..], pending + [rs[i]])
  {
    assert rs[i..][1..] == rs[i + 1..];
  }

  /** Regrouping only moves tokens. */
  lemma {:induction false} RegroupPermutation(r: seq<string>, pending: seq<string>)
    ensures multiset(Regroup(r, pending)) == multiset(r) + multiset(pending)
    decreases |r|
  {
    if r != [] {
      assert r == [r[0]] + r[1..];
      if IsOrder(r[0]) {
        RegroupPermutation(r[1..], []);
      } else {
        RegroupPermutation(r[1..], pending + [r[0]]);
      }
    }
  }

  /** Once an order token lies ahead, the regrouped list starts with one. */
  lemma {:induction false} RegroupStartsWithOrder(r: seq<string>, pending: seq<string>, k: nat)
    requires k < |r| && IsOrder(r[k])
    ensures |Regroup(r, pending)| > 0 && IsOrder(Regroup(r, pending)[0])
    decreases |r|
  {
    if !IsOrder(r[0]) {
      RegroupStartsWithOrder(r[1..], pending + [r[0]], k - 1);
    }
  }

  lemma ReversePermutation(s: seq<string>)
    ensures multiset(Reverse(s)) == multiset(s)
  {
    if s != [] {
      assert s == [s[0]] + s[1..];
      ReversePermutation(s[1..]);
    }
  }

  /** The walked list is a permutation of the caller's prefixed list and
      starts with an order token. */
  lemma OrganisedShape(params: seq<string>)
    requires params != []
    ensures multiset(Organised(Prefixed(params))) == multiset(Prefixed(params))
    ensures |Organised(Prefixed(params))| > 0 && IsOrder(Organised(Prefixed(params))[0])
  {
    var p := Prefixed(params);
    var r := Reverse(p);
    RegroupPermutation(r, []);
    ReversePermutation(p);
    RegroupStartsWithOrder(r, [], |p| - 1);
  }

  // ---------------------------------------------------------------------
  // One sort key

  /** What a key names: a uuid, a meta entry, or a plain attribute. */
  datatype Field = UuidField(key: string) | MetaField(key: string) | AttrField(name: string)

  datatype SortKey = SortKey(onProjects: bool, field: Field)

  /** A parameter split on '.': a leading 'v' selects the versions; then
      'uuids' or 'meta' must be followed by a key name, anything else is
      an attribute name. A missing part is an IndexError. */
  function ParseSortKey(param: string): Result<SortKey> {
    var parts := Split(param, '.');
    var onProjects := parts[0] != "v";
    var rest := if onProjects then parts else parts[1..];
    if rest == [] then Err(IndexError)
    else if rest[0] == "uuids" || rest[0] == "meta" then
      if |rest| < 2 then Err(IndexError)
      else Ok(SortKey(onProjects, if rest[0] == "uuids" then UuidField(rest[1]) else MetaField(rest[1])))
    else Ok(SortKey(onProjects, AttrField(rest[0])))
  }

  /** A plain attribute name, on projects or, behind 'v.', on versions. */
  lemma ParseAttrKey(v: string, a: string)
    requires v == "v"
    requires '.' !in a && a != "v" && a != "uuids" && a != "meta"
    ensures ParseSortKey(a) == Ok(SortKey(true, AttrField(a)))
    ensures ParseSortKey(v + "." + a) == Ok(SortKey(false, AttrField(a)))
  {
    SplitAtFirst(v, a, '.');
    assert v + "." + a == v + ['.'] + a;
  }

  /** 'uuids.k' / 'meta.k', on projects or, behind 'v.', on versions. */
  lemma ParseSpecKey(v: string, kind: string, k: string)
    requires v == "v"
    requires kind == "uuids" || kind == "meta"
    requires '.' !in k
    ensures var f := if kind == "uuids" then UuidField(k) else MetaField(k);
      && ParseSortKey(kind + "." + k) == Ok(SortKey(true, f))
      && ParseSortKey(v + "." + kind + "." + k) == Ok(SortKey(false, f))
  {
    SplitAtFirst(kind, k, '.');
    assert kind + "." + k == kind + ['.'] + k;
    SplitAtFirst(v, kind + "." + k, '.');
    assert v + "." + kind + "." + k == v + ['.'] + (kind + "." + k);
  }

  /** 'uuids' or 'meta' without a key name, and a bare 'v', raise IndexError. */
  lemma ParseMissingPart(v: string, kind: string)
    requires v == "v"
    requires kind == "uuids" || kind == "meta"
    ensures ParseSortKey(kind) == Err(IndexError)
    ensures ParseSortKey(v) == Err(IndexError)
  {
  }

  /** Names that getattr resolves on every project to its own containers
      or methods rather than to a keyword attribute: a dict, a list or a
      bound method, none of which Python can order. */
  const ProjectMembers: set<string> :=
    {"versions", "uuids_", "meta_", "update", "check_guarantees", "get_name", "find_version", "to_inputset"}

  /** The same for versions, which hold no version list. */
  const VersionMembers: set<string> := {"uuids_", "meta_", "update", "check_guarantees", "to_inputset"}

  /** The value a key function returns for one element. A uuid or meta key
      the element lacks raises; a plain attribute naming one of the
      element's members cannot be ordered; a missing plain attribute counts
      as '' and a string attribute is lower-cased. */
  function FieldValue(attrs: map<string, Json>, uuids: Spec, meta: Spec, members: set<string>, f: Field): (r: Result<Json>)
    ensures f.UuidField? ==> (!SpecHas(uuids, f.key) <==> r == Err(NonexistentSortKey))
    ensures f.MetaField? ==> (!SpecHas(meta, f.key) <==> r == Err(NonexistentSortKey))
    ensures f.AttrField? && f.name in members ==> r == Err(UnorderedSortKey)
    ensures f.AttrField? && f.name !in members && f.name !in attrs ==> r == Ok(Str(""))
    ensures f.AttrField? && f.name !in members && f.name in attrs && attrs[f.name].Str?
      ==> r == Ok(Str(Lower(attrs[f.name].s)))
  {
    match f
    case UuidField(k) =>
      if !SpecHas(uuids, k) then Err(NonexistentSortKey) else Attr(attrs, Get(uuids, k).value)
    case MetaField(k) =>
      if !SpecHas(meta, k) then Err(NonexistentSortKey) else Attr(attrs, Get(meta, k).value)
    case AttrField(a) =>
      if a in members then Err(UnorderedSortKey)
      else if a !in attrs then Ok(Str(""))
      else if attrs[a].Str? then Ok(Str(Lower(attrs[a].s)))
      else Ok(attrs[a])
  }

  /** Keys are compared as strings; any other key value is refused. */
  function StringKey(v: Result<Json>): (r: Result<string>)
    ensures r.Ok? <==> v.Ok? && v.value.Str?
    ensures r.Ok? ==> r.value == v.value.s
  {
    match v
    case Err(e) => Err(e)
    case Ok(j) => if j.Str? then Ok(j.s) else Err(UnorderedSortKey)
  }

  function ProjectKey(f: Field): Project -> Result<string> {
    (p: Project) => StringKey(FieldValue(p.attrs, p.uuids, p.meta, ProjectMembers, f))
  }

  function VersionKey(f: Field): Version -> Result<string> {
    (v: Version) => StringKey(FieldValue(v.attrs, v.uuids, v.meta, VersionMembers, f))
  }

  // ---------------------------------------------------------------------
  // list.sort(key=..., reverse=...)

  /** An element with key a may stand before one with key b. */
  predicate Le(a: string, b: string, rev: bool) {
    if rev then StrLe(b, a) else StrLe(a, b)
  }

  lemma LeTotal(a: string, b: string, rev: bool)
    ensures Le(a, b, rev) || Le(b, a, rev)
  {
    StrLeTotal(a, b);
  }

  lemma LeTransitive(a: string, b: string, c: string, rev: bool)
    requires Le(a, b, rev) && Le(b, c, rev)
    ensures Le(a, c, rev)
  {
    if rev {
      StrLeTransitive(c, b, a);
    } else {
      StrLeTransitive(a, b, c);
    }
  }

  lemma LeReflexive(a: string, rev: bool)
    ensures Le(a, a, rev)
  {
    StrLeTotal(a, a);
  }

  /** Every element may stand before every later one. */
  predicate Sorted<T>(s: seq<(string, T)>, rev: bool) {
    forall i, j :: 0 <= i < j < |s| ==> Le(s[i].0, s[j].0, rev)
  }

  /** x goes before the first element it may stand before. */
  function Insert<T>(x: (string, T), t: seq<(string, T)>, rev: bool): seq<(string, T)> {
    if t == [] then [x]
    else if Le(x.0, t[0].0, rev) then [x] + t
    else [t[0]] + Insert(x, t[1..], rev)
  }

  /** A stable sort on the keys. */
  function SortByKey<T>(s: seq<(string, T)>, rev: bool): seq<(string, T)> {
    if s == [] then [] else Insert(s[0], SortByKey(s[1..], rev), rev)
  }

  /** The elements with key k, in order. */
  function WithKey<T>(s: seq<(string, T)>, k: string): seq<(string, T)> {
    if s == [] then []
    else if s[0].0 == k then [s[0]] + WithKey(s[1..], k)
    else WithKey(s[1..], k)
  }

  /** The second components, each passed through f. */
  function MapSnd<T, U>(f: T -> U, s: seq<(string, T)>): (r: seq<U>)
    ensures |r| == |s|
    ensures forall i :: 0 <= i < |s| ==> r[i] == f(s[i].1)
  {
    if s == [] then [] else [f(s[0].1)] + MapSnd(f, s[1..])
  }

  lemma {:induction false} InsertSorted<T>(x: (string, T), t: seq<(string, T)>, rev: bool)
    requires Sorted(t, rev)
    ensures Sorted(Insert(x, t, rev), rev)
    ensures multiset(Insert(x, t, rev)) == multiset{x} + multiset(t)
  {
    if t == [] {
    } else if Le(x.0, t[0].0, rev) {
      InsertFront(x, t, rev);
    } else {
      InsertSorted(x, t[1..], rev);
      InsertBehind(x, t, rev);
    }
  }

  /** x may stand before the head, hence before every element. */
  lemma InsertFront<T>(x: (string, T), t: seq<(string, T)>, rev: bool)
    requires Sorted(t, rev) && t != [] && Le(x.0, t[0].0, rev)
    ensures Sorted([x] + t, rev)
    ensures multiset([x] + t) == multiset{x} + multiset(t)
  {
    forall j | 0 <= j < |t| ensures Le(x.0, t[j].0, rev) {
      if j > 0 {
        LeTransitive(x.0, t[0].0, t[j].0, rev);
      }
    }
  }

  /** x goes behind the head, which may stand before everything else. */
  lemma InsertBehind<T>(x: (string, T), t: seq<(string, T)>, rev: bool)
    requires Sorted(t, rev) && t != [] && !Le(x.0, t[0].0, rev)
    requires Sorted(Insert(x, t[1..], rev), rev)
    requires multiset(Insert(x, t[1..], rev)) == multiset{x} + multiset(t[1..])
    ensures Sorted([t[0]] + Insert(x, t[1..], rev), rev)
    ensures multiset([t[0]] + Insert(x, t[1..], rev)) == multiset{x} + multiset(t)
  {
    var u := t[1..];
    assert t == [t[0]] + u;
    var v := Insert(x, u, rev);
    HeadFirst(x, t[0], u, v, rev);
    SortedCons(t[0], v, rev);
  }

  /** The head of a sorted list may stand before every other element, and
      before x when x may not stand before it. */
  lemma HeadFirst<T>(x: (string, T), h: (string, T), u: seq<(string, T)>, v: seq<(string, T)>, rev: bool)
    requires Sorted([h] + u, rev) && !Le(x.0, h.0, rev)
    requires multiset(v) == multiset{x} + multiset(u)
    ensures forall j :: 0 <= j < |v| ==> Le(h.0, v[j].0, rev)
  {
    LeTotal(x.0, h.0, rev);
    forall j | 0 <= j < |v| ensures Le(h.0, v[j].0, rev) {
      assert v[j] in multiset(v);
      if v[j] == x {
        assert Le(h.0, x.0, rev);
      } else {
        assert v[j] in multiset(u);
        var k :| 0 <= k < |u| && u[k] == v[j];
        assert ([h] + u)[0] == h && ([h] + u)[k + 1] == u[k];
      }
    }
  }

  lemma SortedCons<T>(h: (string, T), v: seq<(string, T)>, rev: bool)
    requires Sorted(v, rev)
    requires forall j :: 0 <= j < |v| ==> Le(h.0, v[j].0, rev)
    ensures Sorted([h] + v, rev)
  {
    var w := [h] + v;
    forall i, j | 0 <= i < j < |w| ensures Le(w[i].0, w[j].0, rev) {
      assert w[j] == v[j - 1];
      if i > 0 {
        assert w[i] == v[i - 1];
      }
    }
  }

  lemma {:induction false} SortByKeySorted<T>(s: seq<(string, T)>, rev: bool)
    ensures Sorted(SortByKey(s, rev), rev)
    ensures multiset(SortByKey(s, rev)) == multiset(s)
  {
    if s != [] {
      SortByKeySorted(s[1..], rev);
      InsertSorted(s[0], SortByKey(s[1..], rev), rev);
      assert s == [s[0]] + s[1..];
    }
  }

  lemma {:induction false} InsertWithKey<T>(x: (string, T), t: seq<(string, T)>, rev: bool, k: string)
    ensures WithKey(Insert(x, t, rev), k) == if x.0 == k then [x] + WithKey(t, k) else WithKey(t, k)
  {
    if t != [] && !Le(x.0, t[0].0, rev) {
      LeReflexive(x.0, rev);
      InsertWithKey(x, t[1..], rev, k);
    }
  }

  /** Stability: the elements sharing a key keep their relative order. */
  lemma {:induction false} SortByKeyStable<T>(s: seq<(string, T)>, rev: bool, k: string)
    ensures WithKey(SortByKey(s, rev), k) == WithKey(s, k)
  {
    if s != [] {
      SortByKeyStable(s[1..], rev, k);
      InsertWithKey(s[0], SortByKey(s[1..], rev), rev, k);
    }
  }

  lemma {:induction false} MapSndInsert<T, U>(f: T -> U, x: (string, T), t: seq<(string, T)>, rev: bool)
    ensures multiset(MapSnd(f, Insert(x, t, rev))) == multiset{f(x.1)} + multiset(MapSnd(f, t))
  {
    if t != [] && !Le(x.0, t[0].0, rev) {
      MapSndInsert(f, x, t[1..], rev);
    }
  }

  /** Sorting permutes the elements, whatever is observed of them. */
  lemma {:induction false} MapSndSort<T, U>(f: T -> U, s: seq<(string, T)>, rev: bool)
    ensures multiset(MapSnd(f, SortByKey(s, rev))) == multiset(MapSnd(f, s))
  {
    if s != [] {
      MapSndSort(f, s[1..], rev);
      MapSndInsert(f, s[0], SortByKey(s[1..], rev), rev);
    }
  }

  /** The key function applied to every element, in order; the first key
      that raises aborts the sort. */
  function KeyAll<T>(s: seq<T>, key: T -> Result<string>): (r: Result<seq<(string, T)>>)
    ensures r.Ok? ==> |r.value| == |s|
    ensures r.Ok? ==> forall i :: 0 <= i < |s| ==> r.value[i].1 == s[i] && key(s[i]) == Ok(r.value[i].0)
    ensures r.Err? ==> exists i :: 0 <= i < |s| && key(s[i]) == Err(r.error)
  {
    if s == [] then Ok([])
    else
      match key(s[0])
      case Err(e) => Err(e)
      case Ok(k) =>
        var rest :- KeyAll(s[1..], key);
        Ok([(k, s[0])] + rest)
  }

  function Elems<T>(s: seq<(string, T)>): (r: seq<T>)
    ensures |r| == |s|
    ensures forall i :: 0 <= i < |s| ==> r[i] == s[i].1
  {
    seq(|s|, i requires 0 <= i < |s| => s[i].1)
  }

  /** Every element passed through f. */
  function Map<T, U>(f: T -> U, s: seq<T>): (r: seq<U>)
    ensures |r| == |s|
    ensures forall i :: 0 <= i < |s| ==> r[i] == f(s[i])
  {
    seq(|s|, i requires 0 <= i < |s| => f(s[i]))
  }

  /** list.sort(key=key, reverse=rev): the keys are computed first; when
      one raises, the list is left as it was. */
  function SortList<T>(s: seq<T>, key: T -> Result<string>, rev: bool): Result<seq<T>> {
    var keyed :- KeyAll(s, key);
    Ok(Elems(SortByKey(keyed, rev)))
  }

  /** Recomputing the keys of already keyed elements gives the same pairs. */
  lemma {:induction false} KeyAllOfKeyed<T>(x: seq<(string, T)>, key: T -> Result<string>)
    requires forall i :: 0 <= i < |x| ==> key(x[i].1) == Ok(x[i].0)
    ensures KeyAll(Elems(x), key) == Ok(x)
  {
    if x != [] {
      assert Elems(x)[1..] == Elems(x[1..]);
      KeyAllOfKeyed(x[1..], key);
      assert x == [x[0]] + x[1..];
    }
  }

  /** A successful sort permutes the list, seen through any f. */
  lemma SortListPermutes<T, U>(s: seq<T>, key: T -> Result<string>, rev: bool, f: T -> U)
    requires SortList(s, key, rev).Ok?
    ensures |SortList(s, key, rev).value| == |s|
    ensures multiset(Map(f, SortList(s, key, rev).value)) == multiset(Map(f, s))
  {
    var keyed := KeyAll(s, key).value;
    var sorted := SortByKey(keyed, rev);
    SortByKeySorted(keyed, rev);
    MapSndSort(f, keyed, rev);
    assert |sorted| == |multiset(sorted)| == |multiset(keyed)| == |keyed|;
    assert Map(f, Elems(sorted)) == MapSnd(f, sorted);
    assert Map(f, s) == MapSnd(f, keyed);
  }

  /** A permutation of keyed pairs is still keyed. */
  lemma PermutedKeys<T>(keyed: seq<(string, T)>, sorted: seq<(string, T)>, key: T -> Result<string>)
    requires forall j :: 0 <= j < |keyed| ==> key(keyed[j].1) == Ok(keyed[j].0)
    requires multiset(sorted) == multiset(keyed)
    ensures forall i :: 0 <= i < |sorted| ==> key(sorted[i].1) == Ok(sorted[i].0)
  {
    forall i | 0 <= i < |sorted| ensures key(sorted[i].1) == Ok(sorted[i].0) {
      assert sorted[i] in multiset(keyed);
      var j :| 0 <= j < |keyed| && keyed[j] == sorted[i];
    }
  }

  /** A sort succeeds exactly when every key can be computed. Its result is
      a permutation of the list whose keys are in order, and the elements
      sharing a key keep their relative order. */
  lemma SortListCorrect<T>(s: seq<T>, key: T -> Result<string>, rev: bool)
    ensures SortList(s, key, rev).Ok? <==> KeyAll(s, key).Ok?
    ensures SortList(s, key, rev).Ok? ==>
      var t := SortList(s, key, rev).value;
      && multiset(t) == multiset(s)
      && KeyAll(t, key).Ok?
      && Sorted(KeyAll(t, key).value, rev)
      && forall k :: WithKey(KeyAll(t, key).value, k) == WithKey(KeyAll(s, key).value, k)
  {
    if KeyAll(s, key).Ok? {
      var keyed := KeyAll(s, key).value;
      var sorted := SortByKey(keyed, rev);
      SortByKeySorted(keyed, rev);
      PermutedKeys(keyed, sorted, key);
      KeyAllOfKeyed(sorted, key);
      forall k ensures WithKey(sorted, k) == WithKey(keyed, k) {
        SortByKeyStable(keyed, rev, k);
      }
      SortListPermutes(s, key, rev, x => x);
      assert Map(x => x, Elems(sorted)) == Elems(sorted);
      assert Map(x => x, s) == s;
    }
  }

  // ---------------------------------------------------------------------
  // The sort passes

  /** The projects once a pass or a walk has ended, and the exception that
      ended it, if any. */
  datatype Outcome = Outcome(projects: seq<Project>, error: Option<Error>)

  const DescToken: set<string> := {"desc"}

  /** ds.projects.sort(key=..., reverse=rev): when a key raises, the list
      is left as it was. */
  function ProjectPass(ps: seq<Project>, f: Field, rev: bool): Outcome {
    match SortList(ps, ProjectKey(f), rev)
    case Ok(t) => Outcome(t, None)
    case Err(e) => Outcome(ps, Some(e))
  }

  /** `for project in ds.projects: project.versions.sort(...)`: when the
      versions of one project raise, those of the projects before it are
      already sorted. */
  function VersionPass(ps: seq<Project>, f: Field, rev: bool): Outcome {
    if ps == [] then Outcome([], None)
    else
      match SortList(ps[0].versions, VersionKey(f), rev)
      case Err(e) => Outcome(ps, Some(e))
      case Ok(vs) =>
        var rest := VersionPass(ps[1..], f, rev);
        Outcome([ps[0].(versions := vs)] + rest.projects, rest.error)
  }

  function Pass(ps: seq<Project>, k: SortKey, rev: bool): Outcome {
    if k.onProjects then ProjectPass(ps, k.field, rev) else VersionPass(ps, k.field, rev)
  }

  /** The walk over the reorganised parameters, `rev` being the current
      order: an order token sets it, a key runs a pass, and the first
      exception ends the walk. */
  function Passes(ps: seq<Project>, params: seq<string>, rev: bool): Outcome
    decreases |params|
  {
    if params == [] then Outcome(ps, None)
    else if IsOrder(params[0]) then Passes(ps, params[1..], params[0] in DescToken)
    else
      match ParseSortKey(params[0])
      case Err(e) => Outcome(ps, Some(e))
      case Ok(k) =>
        var o := Pass(ps, k, rev);
        if o.error.Some? then o else Passes(o.projects, params[1..], rev)
  }

  /** What a sort can observe of a project: the project without its
      versions, and the bag of its versions. */
  function Bag(p: Project): (Project, multiset<Version>) {
    (p.(versions := []), multiset(p.versions))
  }

  /** Unfolding a version pass whose first project's versions sort. */
  lemma VersionPassCons(ps: seq<Project>, f: Field, rev: bool)
    requires ps != [] && SortList(ps[0].versions, VersionKey(f), rev).Ok?
    ensures var o := VersionPass(ps, f, rev);
      var rest := VersionPass(ps[1..], f, rev);
      && o.projects == [ps[0].(versions := SortList(ps[0].versions, VersionKey(f), rev).value)] + rest.projects
      && o.error == rest.error
  {
  }

  /** A version pass keeps the project list and, in every project, all but
      the order of the versions. */
  lemma {:induction false} VersionPassShape(ps: seq<Project>, f: Field, rev: bool)
    ensures var o := VersionPass(ps, f, rev);
      && |o.projects| == |ps|
      && (forall i :: 0 <= i < |ps| ==> o.projects[i] == ps[i].(versions := o.projects[i].versions))
      && (forall i :: 0 <= i < |ps| ==> multiset(o.projects[i].versions) == multiset(ps[i].versions))
    decreases |ps|
  {
    if ps != [] && SortList(ps[0].versions, VersionKey(f), rev).Ok? {
      VersionPassShape(ps[1..], f, rev);
      VersionPassHead(ps, f, rev);
      VersionPassTail(ps, f, rev);
    }
  }

  lemma VersionPassHead(ps: seq<Project>, f: Field, rev: bool)
    requires ps != [] && SortList(ps[0].versions, VersionKey(f), rev).Ok?
    ensures var o := VersionPass(ps, f, rev);
      && o.projects[0] == ps[0].(versions := o.projects[0].versions)
      && multiset(o.projects[0].versions) == multiset(ps[0].versions)
  {
    SortListCorrect(ps[0].versions, VersionKey(f), rev);
    VersionPassCons(ps, f, rev);
  }

  lemma VersionPassTail(ps: seq<Project>, f: Field, rev: bool)
    requires ps != [] && SortList(ps[0].versions, VersionKey(f), rev).Ok?
    requires var rest := VersionPass(ps[1..], f, rev);
      && |rest.projects| == |ps| - 1
      && (forall i :: 0 <= i < |ps| - 1 ==> rest.projects[i] == ps[1..][i].(versions := rest.projects[i].versions))
      && (forall i :: 0 <= i < |ps| - 1 ==> multiset(rest.projects[i].versions) == multiset(ps[1..][i].versions))
    ensures var o := VersionPass(ps, f, rev);
      && (forall i :: 1 <= i < |ps| ==> o.projects[i] == ps[i].(versions := o.projects[i].versions))
      && (forall i :: 1 <= i < |ps| ==> multiset(o.projects[i].versions) == multiset(ps[i].versions))
  {
    VersionPassCons(ps, f, rev);
    var o := VersionPass(ps, f, rev);
    var rest := VersionPass(ps[1..], f, rev);
    forall i | 1 <= i < |ps|
      ensures o.projects[i] == ps[i].(versions := o.projects[i].versions)
      ensures multiset(o.projects[i].versions) == multiset(ps[i].versions)
    {
      assert o.projects[i] == rest.projects[i - 1] && ps[i] == ps[1..][i - 1];
    }
  }

  /** A version pass fails exactly when the versions of some project cannot
      be keyed; otherwise every project's versions are sorted. */
  lemma VersionPassSorts(ps: seq<Project>, f: Field, rev: bool)
    ensures var o := VersionPass(ps, f, rev);
      && (o.error.None? <==> forall i :: 0 <= i < |ps| ==> SortList(ps[i].versions, VersionKey(f), rev).Ok?)
      && (o.error.None? ==> |o.projects| == |ps| && forall i :: 0 <= i < |ps| ==>
            o.projects[i].versions == SortList(ps[i].versions, VersionKey(f), rev).value)
  {
    VersionPassError(ps, f, rev);
    if VersionPass(ps, f, rev).error.None? {
      VersionPassSorted(ps, f, rev);
    }
  }

  lemma {:induction false} VersionPassError(ps: seq<Project>, f: Field, rev: bool)
    ensures VersionPass(ps, f, rev).error.None? <==> forall i :: 0 <= i < |ps| ==> SortList(ps[i].versions, VersionKey(f), rev).Ok?
    decreases |ps|
  {
    if ps != [] && SortList(ps[0].versions, VersionKey(f), rev).Ok? {
      VersionPassError(ps[1..], f, rev);
      VersionPassCons(ps, f, rev);
      if !VersionPass(ps, f, rev).error.None? {
        var j :| 0 <= j < |ps| - 1 && SortList(ps[1..][j].versions, VersionKey(f), rev).Err?;
        assert ps[j + 1] == ps[1..][j];
      } else {
        forall i | 1 <= i < |ps| ensures SortList(ps[i].versions, VersionKey(f), rev).Ok? {
          assert ps[i] == ps[1..][i - 1];
        }
      }
    }
  }

  lemma {:induction false} VersionPassSorted(ps: seq<Project>, f: Field, rev: bool)
    requires VersionPass(ps, f, rev).error.None?
    ensures var o := VersionPass(ps, f, rev);
      && |o.projects| == |ps|
      && forall i :: 0 <= i < |ps| ==>
           SortList(ps[i].versions, VersionKey(f), rev).Ok? && o.projects[i].versions == SortList(ps[i].versions, VersionKey(f), rev).value
    decreases |ps|
  {
    if ps != [] {
      VersionPassCons(ps, f, rev);
      VersionPassSorted(ps[1..], f, rev);
      VersionPassRest(ps, f, rev);
    }
  }

  /** The projects behind the first, from the pass over the rest. */
  lemma VersionPassRest(ps: seq<Project>, f: Field, rev: bool)
    requires ps != [] && SortList(ps[0].versions, VersionKey(f), rev).Ok?
    requires var rest := VersionPass(ps[1..], f, rev);
      && |rest.projects| == |ps| - 1
      && forall i :: 0 <= i < |ps| - 1 ==>
           SortList(ps[1..][i].versions, VersionKey(f), rev).Ok? && rest.projects[i].versions == SortList(ps[1..][i].versions, VersionKey(f), rev).value
    ensures var o := VersionPass(ps, f, rev);
      && |o.projects| == |ps|
      && forall i :: 0 <= i < |ps| ==>
           SortList(ps[i].versions, VersionKey(f), rev).Ok? && o.projects[i].versions == SortList(ps[i].versions, VersionKey(f), rev).value
  {
    VersionPassCons(ps, f, rev);
    var o := VersionPass(ps, f, rev);
    var rest := VersionPass(ps[1..], f, rev);
    forall i | 1 <= i < |ps|
      ensures SortList(ps[i].versions, VersionKey(f), rev).Ok?
      ensures o.projects[i].versions == SortList(ps[i].versions, VersionKey(f), rev).value
    {
      assert o.projects[i] == rest.projects[i - 1] && ps[i] == ps[1..][i - 1];
    }
  }

  /** A project pass permutes the projects. */
  lemma ProjectPassPermutes(ps: seq<Project>, f: Field, rev: bool)
    ensures multiset(Map(Bag, ProjectPass(ps, f, rev).projects)) == multiset(Map(Bag, ps))
  {
    if SortList(ps, ProjectKey(f), rev).Ok? {
      SortListPermutes(ps, ProjectKey(f), rev, Bag);
    }
  }

  /** A version pass leaves every project but the order of its versions. */
  lemma VersionPassKeepsBags(ps: seq<Project>, f: Field, rev: bool)
    ensures Map(Bag, VersionPass(ps, f, rev).projects) == Map(Bag, ps)
  {
    VersionPassShape(ps, f, rev);
    var o := VersionPass(ps, f, rev);
    forall i | 0 <= i < |ps| ensures Bag(o.projects[i]) == Bag(ps[i]) {
      assert o.projects[i].(versions := []) == ps[i].(versions := []);
    }
  }

  /** Sorting preserves the multiset of projects and, in each, the multiset
      of its versions, whatever the parameters and wherever it stops. */
  lemma {:induction false} PassesPermute(ps: seq<Project>, params: seq<string>, rev: bool)
    ensures multiset(Map(Bag, Passes(ps, params, rev).projects)) == multiset(Map(Bag, ps))
    decreases |params|
  {
    if params != [] && !IsOrder(params[0]) && ParseSortKey(params[0]).Ok? {
      var k := ParseSortKey(params[0]).value;
      var o := Pass(ps, k, rev);
      if k.onProjects {
        ProjectPassPermutes(ps, k.field, rev);
      } else {
        VersionPassKeepsBags(ps, k.field, rev);
      }
      if o.error.None? {
        PassesPermute(o.projects, params[1..], rev);
      }
    } else if params != [] && IsOrder(params[0]) {
      PassesPermute(ps, params[1..], params[0] in DescToken);
    }
  }

  /** A successful project pass leaves the projects in key order, the
      projects sharing a key in their previous order. */
  lemma ProjectPassSorts(ps: seq<Project>, f: Field, rev: bool)
    ensures ProjectPass(ps, f, rev).error.None? <==> KeyAll(ps, ProjectKey(f)).Ok?
    ensures ProjectPass(ps, f, rev).error.None? ==>
      var t := ProjectPass(ps, f, rev).projects;
      && KeyAll(t, ProjectKey(f)).Ok?
      && Sorted(KeyAll(t, ProjectKey(f)).value, rev)
      && forall k :: WithKey(KeyAll(t, ProjectKey(f)).value, k) == WithKey(KeyAll(ps, ProjectKey(f)).value, k)
  {
    SortListCorrect(ps, ProjectKey(f), rev);
  }
}
