/** The Python `str` methods the tool uses, on `seq<char>`. `split()`
    breaks on Python's whitespace set; `lower()` folds A-Z only, where
    Python also folds non-ASCII letters. */
module PyStr {

  /** s.startswith(p) */
  predicate StartsWith(s: string, p: string) {
    p <= s
  }

  /** s.endswith(p) */
  predicate EndsWith(s: string, p: string) {
    |p| <= |s| && s[|s| - |p|..] == p
  }

  /** sub occurs in s at position i. */
  predicate OccursAt(s: string, sub: string, i: int) {
    0 <= i && i + |sub| <= |s| && s[i..i + |sub|] == sub
  }

  /** sub in s */
  predicate Contains(s: string, sub: string) {
    exists i :: 0 <= i <= |s| && OccursAt(s, sub, i)
  }

  /** s.replace(pat, rep) for a non-empty pat: every non-overlapping
      occurrence, scanning left to right. */
  function Replace(s: string, pat: string, rep: string): string
    requires pat != ""
    decreases |s|
  {
    if |s| < |pat| then s
    else if s[..|pat|] == pat then rep + Replace(s[|pat|..], pat, rep)
    else [s[0]] + Replace(s[1..], pat, rep)
  }

  /** Without an occurrence of the token the string is unchanged. */
  lemma {:induction false} ReplaceNoOccurrence(s: string, pat: string, rep: string)
    requires pat != "" && !Contains(s, pat)
    ensures Replace(s, pat, rep) == s
    decreases |s|
  {
    if |s| >= |pat| {
      assert !OccursAt(s, pat, 0);
      assert !Contains(s[1..], pat) by {
        if Contains(s[1..], pat) {
          var i :| 0 <= i <= |s[1..]| && OccursAt(s[1..], pat, i);
          assert s[i + 1..i + 1 + |pat|] == s[1..][i..i + |pat|];
          assert OccursAt(s, pat, i + 1);
        }
      }
      ReplaceNoOccurrence(s[1..], pat, rep);
      assert s == [s[0]] + s[1..];
    }
  }

  /** A string missing one of the token's characters has nothing to replace. */
  lemma ReplaceAbsent(s: string, pat: string, rep: string, ch: char)
    requires pat != "" && ch in pat && ch !in s
    ensures Replace(s, pat, rep) == s
  {
    ReplaceNoOccurrence(s, pat, rep);
  }

  /** A token found at the start is rewritten and the scan resumes after it. */
  lemma ReplaceAtStart(b: string, pat: string, rep: string)
    requires pat != ""
    ensures Replace(pat + b, pat, rep) == rep + Replace(b, pat, rep)
  {
    assert (pat + b)[..|pat|] == pat;
    assert (pat + b)[|pat|..] == b;
  }

  /** Replacing distributes over a concatenation whose right part starts
      with a character that is not in the token, since then no occurrence
      can straddle the seam. */
  lemma {:induction false} ReplaceConcat(a: string, b: string, pat: string, rep: string)
    requires pat != "" && b != [] && b[0] !in pat
    ensures Replace(a + b, pat, rep) == Replace(a, pat, rep) + Replace(b, pat, rep)
    decreases |a|
  {
    if a == [] {
      assert a + b == b;
    } else if |a| >= |pat| && a[..|pat|] == pat {
      var rest := a[|pat|..];
      ReplaceConcat(rest, b, pat, rep);
      ReplaceMatchStep(a, b, pat, rep);
      Reassociate(rep, Replace(rest, pat, rep), Replace(b, pat, rep));
    } else {
      ReplaceConcat(a[1..], b, pat, rep);
      ReplaceSkipStep(a, b, pat, rep);
      Reassociate([a[0]], Replace(a[1..], pat, rep), Replace(b, pat, rep));
    }
  }

  /** Replacing also distributes over a concatenation whose left part ends
      with a character that is not in the token. */
  lemma {:induction false} ReplaceConcatAfter(a: string, b: string, pat: string, rep: string)
    requires pat != "" && a != [] && a[|a| - 1] !in pat
    ensures Replace(a + b, pat, rep) == Replace(a, pat, rep) + Replace(b, pat, rep)
    decreases |a|
  {
    if |a| >= |pat| && a[..|pat|] == pat {
      assert a[|pat| - 1] in pat;
      var rest := a[|pat|..];
      assert rest[|rest| - 1] == a[|a| - 1];
      ReplaceConcatAfter(rest, b, pat, rep);
      ReplaceMatchStep(a, b, pat, rep);
      Reassociate(rep, Replace(rest, pat, rep), Replace(b, pat, rep));
    } else {
      ReplaceSkipStepAfter(a, b, pat, rep);
      if |a| == 1 {
        assert a[1..] == [] && a[1..] + b == b;
      } else {
        assert a[1..][|a| - 2] == a[|a| - 1];
        ReplaceConcatAfter(a[1..], b, pat, rep);
      }
      Reassociate([a[0]], Replace(a[1..], pat, rep), Replace(b, pat, rep));
    }
  }

  /** A token with a character the string lacks does not occur in it. */
  lemma ReplaceAbsentNotContains(s: string, pat: string, ch: char)
    requires ch in pat && ch !in s
    ensures !Contains(s, pat)
  {
  }

  /** A left part ending outside the suffix cannot complete it. */
  lemma NotEndsWithAfter(a: string, b: string, p: string)
    requires a != [] && a[|a| - 1] !in p && !EndsWith(b, p)
    ensures !EndsWith(a + b, p)
  {
    var ab := a + b;
    if |p| <= |b| {
      assert ab[|ab| - |p|..] == b[|b| - |p|..];
    } else if |p| <= |ab| {
      var k := |p| - |b| - 1;
      assert ab[|ab| - |p|..][k] == a[|a| - 1];
    }
  }

  /** A character that cannot start the token adds no occurrence in front. */
  lemma NotContainsCons(c: char, s: string, pat: string)
    requires pat != "" && c != pat[0] && !Contains(s, pat)
    ensures !Contains([c] + s, pat)
  {
    var cs := [c] + s;
    forall i | 0 <= i <= |cs| && i + |pat| <= |cs|
      ensures !OccursAt(cs, pat, i)
    {
      if i == 0 {
        assert cs[i..i + |pat|][0] != pat[0];
      } else {
        assert cs[i..i + |pat|] == s[i - 1..i - 1 + |pat|];
        assert !OccursAt(s, pat, i - 1);
      }
    }
  }

  /** The token occurs in neither part, and cannot straddle the seam since
      the left part ends outside it: the concatenation is unchanged. */
  lemma ReplaceKeepsSeam(a: string, b: string, pat: string, rep: string, ca: char)
    requires pat != "" && a != [] && a[|a| - 1] !in pat
    requires ca in pat && ca !in a && !Contains(b, pat)
    ensures Replace(a + b, pat, rep) == a + b
  {
    ReplaceConcatAfter(a, b, pat, rep);
    ReplaceAbsent(a, pat, rep, ca);
    ReplaceNoOccurrence(b, pat, rep);
  }

  lemma Reassociate(x: string, y: string, z: string)
    ensures x + (y + z) == (x + y) + z
  {
  }

  /** One scanning step where a starts with the token. */
  lemma ReplaceMatchStep(a: string, b: string, pat: string, rep: string)
    requires pat != "" && |a| >= |pat| && a[..|pat|] == pat
    ensures Replace(a, pat, rep) == rep + Replace(a[|pat|..], pat, rep)
    ensures Replace(a + b, pat, rep) == rep + Replace(a[|pat|..] + b, pat, rep)
  {
    var ab := a + b;
    assert ab[..|pat|] == pat;
    assert ab[|pat|..] == a[|pat|..] + b;
  }

  /** One scanning step where a does not start with the token and b starts
      with a character outside it. */
  lemma ReplaceSkipStep(a: string, b: string, pat: string, rep: string)
    requires pat != "" && a != [] && !(|a| >= |pat| && a[..|pat|] == pat)
    requires b != [] && b[0] !in pat
    ensures Replace(a, pat, rep) == [a[0]] + Replace(a[1..], pat, rep)
    ensures Replace(a + b, pat, rep) == [a[0]] + Replace(a[1..] + b, pat, rep)
  {
    var ab := a + b;
    assert ab[1..] == a[1..] + b;
    assert |ab| >= |pat| ==> ab[..|pat|] != pat by {
      if |ab| >= |pat| && |a| >= |pat| {
        assert ab[..|pat|] == a[..|pat|];
      } else if |ab| >= |pat| {
        assert ab[..|pat|][|a|] == b[0];
      }
    }
    if |a| < |pat| {
      assert Replace(a[1..], pat, rep) == a[1..];
      assert a == [a[0]] + a[1..];
    }
  }

  /** One scanning step where a does not start with the token and ends
      with a character outside it. */
  lemma ReplaceSkipStepAfter(a: string, b: string, pat: string, rep: string)
    requires pat != "" && a != [] && !(|a| >= |pat| && a[..|pat|] == pat)
    requires a[|a| - 1] !in pat
    ensures Replace(a, pat, rep) == [a[0]] + Replace(a[1..], pat, rep)
    ensures Replace(a + b, pat, rep) == [a[0]] + Replace(a[1..] + b, pat, rep)
  {
    var ab := a + b;
    assert ab[1..] == a[1..] + b;
    assert |ab| >= |pat| ==> ab[..|pat|] != pat by {
      if |ab| >= |pat| && |a| >= |pat| {
        assert ab[..|pat|] == a[..|pat|];
      } else if |ab| >= |pat| {
        assert ab[..|pat|][|a| - 1] == a[|a| - 1];
      }
    }
    if |a| < |pat| {
      assert Replace(a[1..], pat, rep) == a[1..];
      assert a == [a[0]] + a[1..];
    }
  }

  /** s.rstrip(c) for a single character c. */
  function RStrip(s: string, c: char): (r: string)
    ensures r <= s
    ensures r == [] || r[|r| - 1] != c
    ensures forall i :: |r| <= i < |s| ==> s[i] == c
  {
    if s != [] && s[|s| - 1] == c then RStrip(s[..|s| - 1], c) else s
  }

  /** s.lstrip(c) for a single character c. */
  function LStrip(s: string, c: char): (r: string)
    ensures |r| <= |s| && r == s[|s| - |r|..]
    ensures r == [] || r[0] != c
    ensures forall i :: 0 <= i < |s| - |r| ==> s[i] == c
  {
    if s != [] && s[0] == c then LStrip(s[1..], c) else s
  }

  /** s.strip(c) for a single character c. */
  function Strip(s: string, c: char): string {
    LStrip(RStrip(s, c), c)
  }

  /** s.split(c) for a single-character separator: never empty, and no piece holds c. */
  function Split(s: string, c: char): (parts: seq<string>)
    ensures |parts| >= 1
    ensures forall i :: 0 <= i < |parts| ==> c !in parts[i]
    ensures Join(parts, c) == s
  {
    if c !in s then [s]
    else
      var i := IndexOf(s, c);
      [s[..i]] + Split(s[i + 1..], c)
  }

  /** The position of the first c in s. */
  function IndexOf(s: string, c: char): (i: nat)
    requires c in s
    ensures i < |s| && s[i] == c && c !in s[..i]
  {
    if s[0] == c then 0 else 1 + IndexOf(s[1..], c)
  }

  /** c.join(parts) */
  function Join(parts: seq<string>, c: char): string {
    if parts == [] then ""
    else if |parts| == 1 then parts[0]
    else parts[0] + [c] + Join(parts[1..], c)
  }

  /** Splitting at the first separator: the text before it, then the rest split. */
  lemma SplitAtFirst(a: string, b: string, c: char)
    requires c !in a
    ensures Split(a + [c] + b, c) == [a] + Split(b, c)
  {
    var s := a + [c] + b;
    assert s[|a|] == c;
    IndexOfFirst(s, c, |a|);
    assert s[..|a|] == a && s[|a| + 1..] == b;
  }

  lemma {:induction false} IndexOfFirst(s: string, c: char, k: nat)
    requires k < |s| && s[k] == c && c !in s[..k]
    ensures IndexOf(s, c) == k
  {
    if k > 0 {
      assert s[0] == s[..k][0];
      assert s[1..][..k - 1] == s[1..k];
      assert forall x :: x in s[1..k] ==> x in s[..k];
      IndexOfFirst(s[1..], c, k - 1);
    }
  }

  /** The last element of s.split(c), that is, the text after the last c. */
  function AfterLast(s: string, c: char): (r: string)
    ensures c !in r
    ensures EndsWith(s, r)
  {
    var parts := Split(s, c);
    var r := parts[|parts| - 1];
    JoinEndsWithLast(parts, c);
    r
  }

  lemma {:induction false} JoinEndsWithLast(parts: seq<string>, c: char)
    requires |parts| >= 1
    ensures EndsWith(Join(parts, c), parts[|parts| - 1])
  {
    if |parts| > 1 {
      JoinEndsWithLast(parts[1..], c);
      var tail := Join(parts[1..], c);
      var last := parts[|parts| - 1];
      assert Join(parts, c) == (parts[0] + [c]) + tail;
      assert tail[|tail| - |last|..] == last;
    }
  }

  /** The characters Python's str.isspace() accepts, which split() breaks on:
      the ASCII controls 9-13 and 28-31, the space, NEL, NBSP and the Unicode
      space separators, line and paragraph separators. */
  predicate IsSpace(ch: char) {
    ('\U{0009}' <= ch <= '\U{000D}') || ('\U{001C}' <= ch <= '\U{0020}')
    || ch == '\U{0085}' || ch == '\U{00A0}' || ch == '\U{1680}'
    || ('\U{2000}' <= ch <= '\U{200A}') || ch == '\U{2028}' || ch == '\U{2029}'
    || ch == '\U{202F}' || ch == '\U{205F}' || ch == '\U{3000}'
  }

  /** s.split() with no argument: the maximal runs of non-whitespace. */
  function SplitWhitespace(s: string): (words: seq<string>)
    ensures forall w :: w in words ==> w != "" && forall ch :: ch in w ==> !IsSpace(ch)
    decreases |s|
  {
    if s == [] then []
    else if IsSpace(s[0]) then SplitWhitespace(s[1..])
    else
      var n := WordLength(s);
      [s[..n]] + SplitWhitespace(s[n..])
  }

  /** The length of the run of non-whitespace characters that starts s. */
  function WordLength(s: string): (n: nat)
    ensures n <= |s|
    ensures forall i :: 0 <= i < n ==> !IsSpace(s[i])
    ensures n < |s| ==> IsSpace(s[n])
    ensures s != [] && !IsSpace(s[0]) ==> n > 0
  {
    if s == [] || IsSpace(s[0]) then 0 else 1 + WordLength(s[1..])
  }

  function LowerChar(ch: char): char {
    if 'A' <= ch <= 'Z' then (ch as int + 32) as char else ch
  }

  /** s.lower() */
  function Lower(s: string): (r: string)
    ensures |r| == |s|
    ensures forall i :: 0 <= i < |s| ==> r[i] == LowerChar(s[i])
  {
    if s == [] then [] else [LowerChar(s[0])] + Lower(s[1..])
  }

  /** Python's ordering of strings: lexicographic on code points. */
  predicate StrLe(a: string, b: string)
    decreases |a|
  {
    a == [] || (b != [] && (a[0] < b[0] || (a[0] == b[0] && StrLe(a[1..], b[1..]))))
  }

  lemma {:induction false} StrLeTotal(a: string, b: string)
    ensures StrLe(a, b) || StrLe(b, a)
    decreases |a|
  {
    if a != [] && b != [] && a[0] == b[0] {
      StrLeTotal(a[1..], b[1..]);
    }
  }

  lemma {:induction false} StrLeTransitive(a: string, b: string, c: string)
    requires StrLe(a, b) && StrLe(b, c)
    ensures StrLe(a, c)
    decreases |a|
  {
    if a != [] && a[0] == b[0] && b[0] == c[0] {
      StrLeTransitive(a[1..], b[1..], c[1..]);
    }
  }

  lemma {:induction false} StrLeAntisymmetric(a: string, b: string)
    requires StrLe(a, b) && StrLe(b, a)
    ensures a == b
    decreases |a|
  {
    if a != [] {
      StrLeAntisymmetric(a[1..], b[1..]);
      assert a == [a[0]] + a[1..] && b == [b[0]] + b[1..];
    }
  }
}
