/** The id-based equality of the dataclass structures
    (r2c_isg/structures/core.py, BaseStructure.__eq__). */
module StructureCore {
  import opened Json

  /** The concrete dataclass of a structure. */
  datatype StructType =
    | GithubRepo | GithubCommit
    | NpmPackage | NpmVersion
    | PypiProject | PypiRelease
    | GenericProject | GenericVersion

  /** What get_ids returns: id name -> id value. */
  type Ids = map<string, Json>

  function SharedIds(a: Ids, b: Ids): set<string> {
    a.Keys * b.Keys
  }

  /** Same concrete type, at least one shared id key, and no shared key
      on which the two disagree. */
  predicate StructEq(ta: StructType, a: Ids, tb: StructType, b: Ids) {
    && ta == tb
    && (forall k | k in SharedIds(a, b) :: PyEq(a[k], b[k]))
    && SharedIds(a, b) != {}
  }

  lemma DifferentTypesNeverEqual(ta: StructType, a: Ids, tb: StructType, b: Ids)
    requires ta != tb
    ensures !StructEq(ta, a, tb, b)
  {
  }

  /** Equal exactly when the id maps share a key and agree on every shared key. */
  lemma StructEqCharacterised(t: StructType, a: Ids, b: Ids)
    ensures StructEq(t, a, t, b) <==>
      (exists k :: k in a && k in b) && (forall k :: k in a && k in b ==> PyEq(a[k], b[k]))
  {
    if exists k :: k in a && k in b {
      var k :| k in a && k in b;
      assert k in SharedIds(a, b);
    }
  }

  /** No shared id key, in particular an empty id map on either side, means unequal. */
  lemma NoSharedIdsNotEqual(ta: StructType, a: Ids, tb: StructType, b: Ids)
    requires a.Keys !! b.Keys
    ensures !StructEq(ta, a, tb, b)
  {
    assert SharedIds(a, b) == {};
  }

  lemma StructEqSymmetric(ta: StructType, a: Ids, tb: StructType, b: Ids)
    ensures StructEq(ta, a, tb, b) == StructEq(tb, b, ta, a)
  {
    assert SharedIds(a, b) == SharedIds(b, a);
    forall k | k in SharedIds(a, b) {
      PyEqIsEquivalence(a[k], b[k]);
    }
  }

  lemma StructEqReflexive(t: StructType, a: Ids)
    requires a != map[]
    ensures StructEq(t, a, t, a)
  {
    var k :| k in a;
    assert k in SharedIds(a, a);
    forall k | k in SharedIds(a, a) {
      PyEqIsEquivalence(a[k], a[k]);
    }
  }

  /** {name} equals {name, url} and {name, url} equals {url}, yet {name}
      and {url} share no key and are unequal. */
  lemma StructEqNotTransitive(t: StructType, name: Json, url: Json)
    ensures var a, b, c := map["name" := name], map["name" := name, "url" := url], map["url" := url];
      StructEq(t, a, t, b) && StructEq(t, b, t, c) && !StructEq(t, a, t, c)
  {
    var a, b, c := map["name" := name], map["name" := name, "url" := url], map["url" := url];
    assert "name" in SharedIds(a, b);
    assert "url" in SharedIds(b, c);
    assert SharedIds(a, c) == {};
    PyEqIsEquivalence(name, name);
    PyEqIsEquivalence(url, url);
  }
}
