/** Canonicalisation of git repository urls (utils.py, clean_url). */
module Utils {
  import opened Outcomes
  import opened PyStr

  /** DOT_GIT_REGEX.sub("", url) with the pattern `[.]git$`: `$` matches at
      the very end and just before a final newline. */
  function StripDotGit(url: string): string
  {
    if EndsWith(url, ".git") then url[..|url| - 4]
    else if EndsWith(url, ".git\n") then url[..|url| - 5] + "\n"
    else url
  }

  /** The chain of replace calls, in source order; each rewrites every
      occurrence of its token, wherever it stands. */
  function Rewrite(s: string): string {
    var s := Replace(s, " ", "");
    var s := Replace(s, "git+", "");
    var s := Replace(s, "git:", "");
    var s := Replace(s, "www.", "");
    var s := Replace(s, "git@", "");
    var s := Replace(s, "https://", "");
    var s := Replace(s, "http://", "");
    var s := Replace(s, "ssh://", "");
    var s := Replace(s, "git://", "");
    var s := Replace(s, "github.com:", "github.com/");
    var s := Replace(s, "github:", "github.com/");
    var s := Replace(s, "bitbucket:", "bitbucket.org/");
    Replace(s, "gitlab:", "gitlab.com/")
  }

  /** No token of the chain occurs in s. */
  predicate NoToken(s: string) {
    && !Contains(s, " ") && !Contains(s, "git+") && !Contains(s, "git:") && !Contains(s, "www.")
    && !Contains(s, "git@") && !Contains(s, "https://") && !Contains(s, "http://") && !Contains(s, "ssh://")
    && !Contains(s, "git://") && !Contains(s, "github.com:") && !Contains(s, "github:")
    && !Contains(s, "bitbucket:") && !Contains(s, "gitlab:")
  }

  /** The url after the rewrites and rstrip('/'), before the segment rule. */
  function Cleaned(url: string): (c: string)
    ensures c == [] || c[|c| - 1] != '/'
  {
    RStrip(Rewrite(StripDotGit(url)), '/')
  }

  /** The segment rule on a cleaned path: 'github.com/' is assumed for
      'org/repo', three segments are kept, anything else is refused. */
  function Qualify(c: string): (q: Option<string>)
    requires c == [] || c[|c| - 1] != '/'
    ensures q.Some? <==> (|Split(c, '/')| == 2 || |Split(c, '/')| == 3)
    ensures q.Some? ==> q.value != [] && q.value[|q.value| - 1] != '/'
    ensures q.Some? && |Split(c, '/')| == 2 ==> q.value == "github.com/" + c
    ensures q.Some? && |Split(c, '/')| == 3 ==> q.value == c
  {
    var n := |Split(c, '/')|;
    if n < 2 then None
    else if n == 2 then Some("github.com/" + c)
    else if n == 3 then Some(c)
    else None
  }

  /** "https://" + the text after the last '@' of a qualified path. */
  function HttpsAfterAt(q: string): (r: string)
    requires q != [] && q[|q| - 1] != '/'
    ensures StartsWith(r, "https://")
    ensures '@' !in r[8..]
    ensures EndsWith(q, r[8..])
    ensures r != "https://" ==> r[|r| - 1] != '/'
  {
    var tail := AfterLast(q, '@');
    assert tail != [] ==> tail[|tail| - 1] == q[|q| - 1];
    "https://" + tail
  }

  /** clean_url: None outside the 2/3-segment rule, else "https://" followed
      by the text after the last '@' of the host-qualified path. */
  function CleanUrl(url: string): Option<string> {
    match Qualify(Cleaned(url))
    case None => None
    case Some(q) => Some(HttpsAfterAt(q))
  }

  /** The shape of every outcome of clean_url. */
  lemma CleanUrlShape(url: string)
    ensures var c, r := Cleaned(url), CleanUrl(url);
      && (r.Some? <==> (|Split(c, '/')| == 2 || |Split(c, '/')| == 3))
      && (r.Some? ==> StartsWith(r.value, "https://") && '@' !in r.value[8..])
      && (r.Some? && |Split(c, '/')| == 2 ==> EndsWith("github.com/" + c, r.value[8..]))
      && (r.Some? && |Split(c, '/')| == 3 ==> EndsWith(c, r.value[8..]))
      && (r.Some? && r.value != "https://" ==> r.value[|r.value| - 1] != '/')
  {
  }

  /** Without a '.git' suffix and a final newline there is nothing to remove. */
  lemma StripDotGitNone(s: string)
    requires !EndsWith(s, ".git") && (s == [] || s[|s| - 1] != '\n')
    ensures StripDotGit(s) == s
  {
  }

  /** Each replace leaves a string without its token as it is, so the
      chain leaves one without any token as it is. */
  lemma RewriteNoToken(s: string)
    requires NoToken(s)
    ensures Rewrite(s) == s
  {
    ReplaceNoOccurrence(s, " ", "");
    ReplaceNoOccurrence(s, "git+", "");
    ReplaceNoOccurrence(s, "git:", "");
    ReplaceNoOccurrence(s, "www.", "");
    ReplaceNoOccurrence(s, "git@", "");
    ReplaceNoOccurrence(s, "https://", "");
    ReplaceNoOccurrence(s, "http://", "");
    ReplaceNoOccurrence(s, "ssh://", "");
    ReplaceNoOccurrence(s, "git://", "");
    ReplaceNoOccurrence(s, "github.com:", "github.com/");
    ReplaceNoOccurrence(s, "github:", "github.com/");
    ReplaceNoOccurrence(s, "bitbucket:", "bitbucket.org/");
    ReplaceNoOccurrence(s, "gitlab:", "gitlab.com/");
  }

  /** A path in which no token occurs, with no '.git' suffix and no
      trailing '/', is already clean. */
  lemma CleanedUnchanged(s: string)
    requires NoToken(s)
    requires s != [] && s[|s| - 1] != '/' && s[|s| - 1] != '\n' && !EndsWith(s, ".git")
    ensures Cleaned(s) == s
  {
    StripDotGitNone(s);
    RewriteNoToken(s);
  }

  /** Two '/'-separated segments get the GitHub host. */
  lemma QualifyTwoSegments(org: string, repo: string)
    requires '/' !in org && '/' !in repo && repo != []
    ensures Qualify(org + "/" + repo) == Some("github.com/" + org + "/" + repo)
  {
    var s := org + "/" + repo;
    SplitAtFirst(org, repo, '/');
    assert s == org + ['/'] + repo;
    assert s[|s| - 1] == repo[|repo| - 1];
    assert "github.com/" + s == "github.com/" + org + "/" + repo;
  }

  /** Three '/'-separated segments are kept as they are. */
  lemma QualifyThreeSegments(host: string, org: string, repo: string)
    requires '/' !in host && '/' !in org && '/' !in repo && repo != []
    ensures var s := host + "/" + (org + "/" + repo);
      s[|s| - 1] != '/' && Qualify(s) == Some(s)
  {
    var path := org + "/" + repo;
    var s := host + "/" + path;
    SplitAtFirst(host, path, '/');
    assert s == host + ['/'] + path;
    SplitAtFirst(org, repo, '/');
    assert path == org + ['/'] + repo;
    assert s[|s| - 1] == repo[|repo| - 1];
  }

  /** Without an '@' the whole qualified path is kept. */
  lemma HttpsWithoutAt(q: string)
    requires q != [] && q[|q| - 1] != '/' && '@' !in q
    ensures HttpsAfterAt(q) == "https://" + q
  {
  }

  /** Nothing is kept after a final '@'. */
  lemma HttpsAfterFinalAt(q: string)
    requires q != [] && q[|q| - 1] == '@'
    ensures HttpsAfterAt(q) == "https://"
  {
  }

  /** A path part: not empty, and free of the separators and newlines. */
  predicate Plain(part: string) {
    part != [] && forall i :: 0 <= i < |part| ==> part[i] !in "/@:\n"
  }

  /** 'org/repo' and 'org/repo@' made of plain parts, with no token in
      them, are already clean. */
  lemma CleanedPlainPath(org: string, repo: string, suffix: string)
    requires Plain(org) && Plain(repo) && (suffix == "" || suffix == "@")
    requires NoToken(org + "/" + repo + suffix)
    requires suffix == "" ==> !EndsWith(repo, ".git")
    ensures Cleaned(org + "/" + repo + suffix) == org + "/" + repo + suffix
  {
    var s := org + "/" + repo + suffix;
    if suffix == "" {
      assert s == (org + "/") + repo;
      NotEndsWithAfter(org + "/", repo, ".git");
    } else {
      assert s[|s| - 1] == '@';
    }
    assert s[|s| - 1] == if suffix == "" then repo[|repo| - 1] else '@';
    CleanedUnchanged(s);
  }

  /** The path of plain parts holds no '@' and ends in the repository's last character. */
  lemma PlainPath(org: string, repo: string)
    requires Plain(org) && Plain(repo)
    ensures var path := org + "/" + repo;
      && '@' !in path && ':' !in path && '/' !in org && '/' !in repo
      && path[|path| - 1] == repo[|repo| - 1] && path[|path| - 1] != '/'
  {
    assert repo[|repo| - 1] in repo;
  }

  /** A host-qualified path of plain parts has no '@' and is kept whole. */
  lemma HttpsPlainPath(host: string, org: string, repo: string)
    requires '@' !in host && Plain(org) && Plain(repo)
    ensures var q := host + (org + "/" + repo);
      q[|q| - 1] != '/' && HttpsAfterAt(q) == "https://" + q
  {
    var path := org + "/" + repo;
    var q := host + path;
    PlainPath(org, repo);
    assert q[|q| - 1] == path[|path| - 1];
    HttpsWithoutAt(q);
  }

  /** 'org/repo' is taken to be a GitHub repository. */
  lemma OrgRepoShorthand(org: string, repo: string)
    requires Plain(org) && Plain(repo) && NoToken(org + "/" + repo) && !EndsWith(repo, ".git")
    ensures CleanUrl(org + "/" + repo) == Some("https://" + ("github.com/" + (org + "/" + repo)))
  {
    OrgRepoCleaned(org, repo);
    OrgRepoQualified(org, repo);
    OrgRepoHttps(org, repo);
  }

  lemma OrgRepoHttps(org: string, repo: string)
    requires Plain(org) && Plain(repo)
    ensures HttpsAfterAt("github.com/" + (org + "/" + repo)) == "https://" + ("github.com/" + (org + "/" + repo))
  {
    HttpsPlainPath("github.com/", org, repo);
  }

  lemma OrgRepoCleaned(org: string, repo: string)
    requires Plain(org) && Plain(repo) && NoToken(org + "/" + repo) && !EndsWith(repo, ".git")
    ensures Cleaned(org + "/" + repo) == org + "/" + repo
  {
    assert org + "/" + repo + "" == org + "/" + repo;
    CleanedPlainPath(org, repo, "");
  }

  lemma OrgRepoQualified(org: string, repo: string)
    requires Plain(org) && Plain(repo)
    ensures Qualify(org + "/" + repo) == Some("github.com/" + (org + "/" + repo))
  {
    QualifyTwoSegments(org, repo);
    assert "github.com/" + org + "/" + repo == "github.com/" + (org + "/" + repo);
  }

  /** A character of a usual repository name: a letter, a digit, '-' or '_'. */
  predicate NameChar(ch: char) {
    ('a' <= ch <= 'z') || ('A' <= ch <= 'Z') || ('0' <= ch <= '9') || ch == '-' || ch == '_'
  }

  /** Every token holds one of ' ', '+', ':', '.' and '@', so a path made of
      name characters and '/' holds none. */
  lemma NoTokenInNames(s: string)
    requires forall i :: 0 <= i < |s| ==> NameChar(s[i]) || s[i] == '/'
    ensures NoToken(s)
  {
    assert ' ' !in s && '+' !in s && ':' !in s && '.' !in s && '@' !in s;
    ReplaceAbsentNotContains(s, " ", ' ');
    ReplaceAbsentNotContains(s, "git+", '+');
    ReplaceAbsentNotContains(s, "git:", ':');
    ReplaceAbsentNotContains(s, "www.", '.');
    ReplaceAbsentNotContains(s, "git@", '@');
    ReplaceAbsentNotContains(s, "https://", ':');
    ReplaceAbsentNotContains(s, "http://", ':');
    ReplaceAbsentNotContains(s, "ssh://", ':');
    ReplaceAbsentNotContains(s, "git://", ':');
    ReplaceAbsentNotContains(s, "github.com:", ':');
    ReplaceAbsentNotContains(s, "github:", ':');
    ReplaceAbsentNotContains(s, "bitbucket:", ':');
    ReplaceAbsentNotContains(s, "gitlab:", ':');
  }

  /** 'org/repo' of name characters is a GitHub repository. */
  lemma NamedOrgRepo(org: string, repo: string)
    requires org != [] && repo != []
    requires forall i :: 0 <= i < |org| ==> NameChar(org[i])
    requires forall i :: 0 <= i < |repo| ==> NameChar(repo[i])
    ensures CleanUrl(org + "/" + repo) == Some("https://" + ("github.com/" + (org + "/" + repo)))
    ensures CleanUrl("git@github.com:" + (org + "/" + repo)) == Some("https://" + ("github.com" + "/" + (org + "/" + repo)))
  {
    var path := org + "/" + repo;
    forall i | 0 <= i < |path|
      ensures NameChar(path[i]) || path[i] == '/'
    {
      if i < |org| {
        assert path[i] == org[i];
      } else if i > |org| {
        assert path[i] == repo[i - |org| - 1];
      }
    }
    NoTokenInNames(path);
    assert !EndsWith(repo, ".git") by {
      if |repo| >= 4 {
        assert repo[|repo| - 4] != '.';
      }
    }
    OrgRepoShorthand(org, repo);
    ScpStyleAddress(org, repo);
  }

  /** The example of utils.py's own comment: 'palantir/blueprint' is a
      GitHub repository. */
  lemma BlueprintShorthand(org: string, repo: string)
    requires org == "palantir" && repo == "blueprint"
    ensures CleanUrl(org + "/" + repo) == Some("https://" + ("github.com/" + (org + "/" + repo)))
  {
    NamedOrgRepo(org, repo);
  }

  /** A path ending in '@' keeps nothing after it: the result is the bare
      scheme, which ends in '/'. */
  lemma TrailingAtGivesBareScheme(org: string, repo: string)
    requires Plain(org) && Plain(repo) && NoToken(org + "/" + repo + "@")
    ensures CleanUrl(org + "/" + repo + "@") == Some("https://")
  {
    CleanedPlainPath(org, repo, "@");
    var r := repo + "@";
    assert org + "/" + r == org + "/" + repo + "@";
    PlainPath(org, repo);
    assert forall i :: 0 <= i < |r| ==> r[i] == if i < |repo| then repo[i] else '@';
    QualifyTwoSegments(org, r);
    var q := "github.com/" + org + "/" + r;
    HttpsAfterFinalAt(q);
  }

  /** An scp-style address 'git@github.com:org/repo' becomes
      'https://github.com/org/repo'. */
  lemma ScpStyleAddress(org: string, repo: string)
    requires Plain(org) && Plain(repo) && NoToken(org + "/" + repo) && !EndsWith(repo, ".git")
    ensures CleanUrl("git@github.com:" + (org + "/" + repo)) == Some("https://" + ("github.com" + "/" + (org + "/" + repo)))
  {
    PlainPath(org, repo);
    assert org + "/" + repo == (org + "/") + repo;
    NotEndsWithAfter(org + "/", repo, ".git");
    ScpCleaned("github.com", org + "/" + repo);
    QualifiedPlainPath("github.com", org, repo);
  }

  /** host/org/repo of plain parts is kept whole by the segment rule and the '@' rule. */
  lemma QualifiedPlainPath(host: string, org: string, repo: string)
    requires '/' !in host && '@' !in host && Plain(org) && Plain(repo)
    ensures var q := host + "/" + (org + "/" + repo);
      && q[|q| - 1] != '/' && Qualify(q) == Some(q) && HttpsAfterAt(q) == "https://" + q
  {
    PlainPath(org, repo);
    QualifyThreeSegments(host, org, repo);
    var q := host + "/" + (org + "/" + repo);
    assert '@' !in q;
    HttpsWithoutAt(q);
  }

  /** The docstring's example: 'git@github.com:terinjokes/gulp-uglify'
      becomes 'https://github.com/terinjokes/gulp-uglify'. */
  lemma GulpUglifyScp(org: string, repo: string)
    requires org == "terinjokes" && repo == "gulp-uglify"
    ensures CleanUrl("git@github.com:" + (org + "/" + repo)) == Some("https://" + ("github.com" + "/" + (org + "/" + repo)))
  {
    NamedOrgRepo(org, repo);
  }

  /** Cleaning 'git@github.com:' + path gives 'github.com/' + path. */
  lemma ScpCleaned(host: string, path: string)
    requires host == "github.com"
    requires path != [] && ':' !in path && '@' !in path
    requires !EndsWith(path, ".git") && path[|path| - 1] != '/' && path[|path| - 1] != '\n'
    requires NoToken(path)
    ensures Cleaned("git@github.com:" + path) == host + "/" + path
  {
    var s0 := "git@" + (host + (":" + path));
    assert "git@github.com:" + path == s0;
    assert s0[|s0| - 1] == path[|path| - 1];
    NotEndsWithAfter("git@github.com:", path, ".git");
    StripDotGitNone(s0);
    ScpRewrite(host, path);
    var s2 := host + "/" + path;
    assert s2[|s2| - 1] == path[|path| - 1];
  }

  /** The whole chain on 'git@' + host + ':' + path. */
  lemma ScpRewrite(host: string, path: string)
    requires host == "github.com"
    requires path != [] && ':' !in path && '@' !in path
    requires NoToken(path)
    ensures Rewrite("git@" + (host + (":" + path))) == host + "/" + path
  {
    RewriteScpHead(host, path);
    RewriteScpSchemes(host, path);
    RewriteScpHosts(host, path);
  }

  /** ' ', 'git+', 'git:', 'www.' and 'git@' on 'git@' + host + ':' + path:
      only the leading 'git@' is dropped. */
  lemma RewriteScpHead(host: string, path: string)
    requires host == "github.com"
    requires path != [] && ':' !in path && '@' !in path
    requires NoToken(path)
    ensures var s0 := "git@" + (host + (":" + path));
      var s := Replace(s0, " ", "");
      var s := Replace(s, "git+", "");
      var s := Replace(s, "git:", "");
      var s := Replace(s, "www.", "");
      Replace(s, "git@", "") == host + (":" + path)
  {
    var s1 := host + (":" + path);
    RewriteScpKeeps(host, path);
    assert '@' !in path;
    ReplaceAtStart(s1, "git@", "");
    ReplaceAbsent(s1, "git@", "", '@');
  }

  /** ' ', 'git+', 'git:' and 'www.' do not occur in 'git@' + host + ':' + path. */
  lemma RewriteScpKeeps(host: string, path: string)
    requires host == "github.com"
    requires path != [] && ':' !in path && '@' !in path
    requires NoToken(path)
    ensures var s0 := "git@" + (host + (":" + path));
      var s := Replace(s0, " ", "");
      var s := Replace(s, "git+", "");
      var s := Replace(s, "git:", "");
      Replace(s, "www.", "") == s0
  {
    var colon := ":" + path;
    var head := "git@" + host;
    Reassociate("git@", host, colon);
    assert head[|head| - 1] == 'm' && ' ' !in head && '+' !in head && ':' !in head && 'w' !in head;
    NotContainsCons(':', path, " ");
    NotContainsCons(':', path, "git+");
    NotContainsCons(':', path, "git:");
    NotContainsCons(':', path, "www.");
    ReplaceKeepsSeam(head, colon, " ", "", ' ');
    ReplaceKeepsSeam(head, colon, "git+", "", '+');
    ReplaceKeepsSeam(head, colon, "git:", "", ':');
    ReplaceKeepsSeam(head, colon, "www.", "", 'w');
  }

  /** No scheme token occurs in host + ':' + path. */
  lemma RewriteScpSchemes(host: string, path: string)
    requires host == "github.com"
    requires path != [] && ':' !in path && '@' !in path
    requires NoToken(path)
    ensures var s1 := host + (":" + path);
      var s := Replace(s1, "https://", "");
      var s := Replace(s, "http://", "");
      var s := Replace(s, "ssh://", "");
      Replace(s, "git://", "") == s1
  {
    var colon := ":" + path;
    assert '/' !in host && host[|host| - 1] == 'm';
    NotContainsCons(':', path, "https://");
    NotContainsCons(':', path, "http://");
    NotContainsCons(':', path, "ssh://");
    NotContainsCons(':', path, "git://");
    ReplaceKeepsSeam(host, colon, "https://", "", '/');
    ReplaceKeepsSeam(host, colon, "http://", "", '/');
    ReplaceKeepsSeam(host, colon, "ssh://", "", '/');
    ReplaceKeepsSeam(host, colon, "git://", "", '/');
  }

  /** 'github.com:' becomes 'github.com/', and no other host token occurs. */
  lemma RewriteScpHosts(host: string, path: string)
    requires host == "github.com"
    requires path != [] && ':' !in path && '@' !in path
    requires NoToken(path)
    ensures var s1 := host + (":" + path);
      var s := Replace(s1, "github.com:", "github.com/");
      var s := Replace(s, "github:", "github.com/");
      var s := Replace(s, "bitbucket:", "bitbucket.org/");
      Replace(s, "gitlab:", "gitlab.com/") == host + "/" + path
  {
    var slash := "/" + path;
    assert host + (":" + path) == "github.com:" + path;
    assert "github.com/" + path == host + slash == host + "/" + path;
    assert ':' !in host && host[|host| - 1] == 'm';
    ReplaceAtStart(path, "github.com:", "github.com/");
    ReplaceNoOccurrence(path, "github.com:", "github.com/");
    NotContainsCons('/', path, "github:");
    NotContainsCons('/', path, "bitbucket:");
    NotContainsCons('/', path, "gitlab:");
    ReplaceKeepsSeam(host, slash, "github:", "github.com/", ':');
    ReplaceKeepsSeam(host, slash, "bitbucket:", "bitbucket.org/", ':');
    ReplaceKeepsSeam(host, slash, "gitlab:", "gitlab.com/", ':');
  }
}
