/** The registry APIs (r2c_isg/apis/_api.py, github.py, npm.py, pypi.py):
    a cached HTTP request, the status checks each registry adds, the API
    url of a project, and the two calls that copy registry data into a
    project.

    One class stands for the three registry subclasses; its `registry` tag
    selects what differs. The cache directory on disk is the `files` map,
    from a cache file's path to the entry it holds. The network is an
    oracle passed to each request and the clock a number of seconds. */
module Apis {
  import opened Outcomes
  import opened Json
  import opened PyStr
  import opened Entities
  import opened Identity
  import opened Upsert

  datatype Registry = GithubApi | NpmApi | PypiApi

  /** A cache file: the response's status, its JSON, and when it was written. */
  datatype Entry = Entry(status: int, json: Json, timestamp: int)

  /** Request headers, in insertion order. */
  type Headers = seq<(string, string)>

  /** What is sent: a POST when the request type is 'post', else a GET. */
  datatype HttpRequest = HttpRequest(post: bool, url: string, headers: Headers, data: Json)

  /** What the network does with a request: the session raises (any failure
      after its retries), the user interrupts it, the body is not JSON, or
      a JSON response arrives. */
  datatype NetResult = TransportFailure | Interrupted | NonJson(status: int) | Response(status: int, body: Json)

  type Network = HttpRequest -> NetResult

  /** The per-call options every registry call passes through to the base
      request; None (`Null`) means "use the API's setting". */
  datatype Options = Options(nocache: Json, cacheTimeout: Json)

  /** The settings `update` maintains. The timeout is in seconds. */
  datatype Settings = Settings(cacheDir: Json, cacheTimeout: Json, nocache: Json, githubPat: Json)

  const OneWeek: int := 7 * 24 * 60 * 60

  /** Api.__init__ before its call to update. */
  function DefaultSettings(): Settings {
    Settings(Str(".requests_cache"), Int(OneWeek), Bool(false), Null)
  }

  /** kwargs.pop(k, None) */
  function Pop(kwargs: map<string, Json>, k: string): Json {
    if k in kwargs then kwargs[k] else Null
  }

  /** Api.update (and Github.update, which also reads the token): each
      setting takes the supplied value when that value is truthy. */
  function UpdatedSettings(reg: Registry, s: Settings, kwargs: map<string, Json>): Settings {
    Settings(
      Or(Pop(kwargs, "cache_dir"), s.cacheDir),
      Or(Pop(kwargs, "cache_timeout"), s.cacheTimeout),
      Or(Pop(kwargs, "nocache"), s.nocache),
      if reg == GithubApi then Or(Pop(kwargs, "github_pat"), s.githubPat) else s.githubPat)
  }

  /** The base url of each registry's API. */
  function BaseUrl(reg: Registry): string {
    match reg
    case GithubApi => "https://api.github.com"
    case NpmApi => "https://registry.npmjs.com"
    case PypiApi => "https://pypi.org"
  }

  /** The text that identifies a request in the cache. Its md5 digest is
      modelled as the text itself. */
  function RequestId(url: string, requestType: string, headers: Headers, data: Json): string {
    url + requestType + StringDictRepr(headers) + Repr(data)
  }

  /** '%s/%s.json' % (cache_dir, digest) */
  function CachePath(dir: Json, id: string): string {
    ToStr(dir) + "/" + id + ".json"
  }

  /** The answer the cache gives, if it gives one: only when caching is on
      for this call and the file exists; then the entry if it is younger
      than the timeout. A timeout that is not a number of seconds cannot
      be added to a date. */
  function CachedAnswer(s: Settings, files: map<string, Entry>, path: string, nocache: Json, cacheTimeout: Json, now: int): Option<Result<(int, Json)>> {
    var nc := if nocache != Null then nocache else s.nocache;
    if Truthy(nc) || path !in files then None
    else
      var timeout := Or(cacheTimeout, s.cacheTimeout);
      if !timeout.Int? then Some(Err(TypeError))
      else if now < files[path].timestamp + timeout.i then Some(Ok((files[path].status, files[path].json)))
      else None
  }

  /** The network's answer and the cache afterwards: only a 2xx JSON
      response is written, stamped with the current time. */
  function Fetched(files: map<string, Entry>, path: string, n: NetResult, now: int): (Result<(int, Json)>, map<string, Entry>) {
    match n
    case Interrupted => (Err(KeyboardInterrupt), files)
    case TransportFailure => (Ok((0, Null)), files)
    case NonJson(_) => (Ok((0, Null)), files)
    case Response(st, body) =>
      (Ok((st, body)), if 200 <= st < 300 then files[path := Entry(st, body, now)] else files)
  }

  /** Api.request: the answer and the cache afterwards. */
  function Respond(s: Settings, files: map<string, Entry>, url: string, requestType: string, opts: Options,
                   headers: Headers, data: Json, now: int, net: Network): (Result<(int, Json)>, map<string, Entry>)
  {
    var path := CachePath(s.cacheDir, RequestId(url, requestType, headers, data));
    match CachedAnswer(s, files, path, opts.nocache, opts.cacheTimeout, now)
    case Some(a) => (a, files)
    case None => Fetched(files, path, net(HttpRequest(requestType == "post", url, headers, data)), now)
  }

  /** headers[k] = v */
  function SetHeader(h: Headers, k: string, v: string): (r: Headers)
    ensures (k, v) in r
    ensures forall p :: p in h && p.0 != k ==> p in r
    ensures forall p :: p in r ==> p == (k, v) || p in h
  {
    if h == [] then [(k, v)]
    else if h[0].0 == k then [(k, v)] + h[1..]
    else [h[0]] + SetHeader(h[1..], k, v)
  }

  /** The headers Github.request sends: the token when one is set. */
  function AuthHeaders(reg: Registry, s: Settings, h: Headers): Headers {
    if reg == GithubApi && Truthy(s.githubPat) then SetHeader(h, "Authorization", "token " + ToStr(s.githubPat)) else h
  }

  /** The status checks each registry makes on answers from its own API. */
  function Interpret(reg: Registry, base: string, s: Settings, url: string, r: Result<(int, Json)>): Result<(int, Json)> {
    if r.Err? || !Contains(url, base) then r
    else
      match reg
      case GithubApi =>
        if r.value.0 == 401 then Err(BadGithubToken)
        else if r.value.0 == 403 then Err(GithubRateLimited(Truthy(s.githubPat)))
        else r
      case NpmApi => if r.value.0 == 429 then Err(NpmRateLimited) else r
      case PypiApi => r
  }

  /** A registry's request: its headers, the base request, its status checks. */
  function RegistryRespond(reg: Registry, base: string, s: Settings, files: map<string, Entry>, url: string,
                           opts: Options, headers: Headers, now: int, net: Network): (Result<(int, Json)>, map<string, Entry>)
  {
    var resp := Respond(s, files, url, "get", opts, AuthHeaders(reg, s, headers), Obj([]), now, net);
    (Interpret(reg, base, s, url, resp.0), resp.1)
  }

  /** `url.strip('/').split('/')[-2]` on a str: None when there are fewer
      than two segments. */
  function UrlOrg(url: string): (r: Option<string>)
    ensures var parts := Split(Strip(url, '/'), '/');
      && (r.Some? <==> |parts| >= 2)
      && (r.Some? ==> r.value == parts[|parts| - 2])
  {
    var parts := Split(Strip(url, '/'), '/');
    if |parts| < 2 then None else Some(parts[|parts| - 2])
  }

  /** The same on any value: str methods raise on a non-str, and a short
      list raises IndexError. */
  function OrgSegment(url: Json): Result<string> {
    if !url.Str? then Err(AttributeError("strip"))
    else
      match UrlOrg(url.s)
      case None => Err(IndexError)
      case Some(org) => Ok(org)
  }

  /** '%s/repos/%s/%s' % (base, org, name) */
  function RepoUrl(base: string, org: string, name: string): string {
    base + "/repos/" + org + "/" + name
  }

  /** _make_api_url of each registry. */
  function ApiUrl(reg: Registry, base: string, p: Project): Result<string> {
    match reg
    case GithubApi =>
      if SpecHas(p.uuids, "name") && SpecHas(p.meta, "org") then
        var name :- SpecValue(p.attrs, p.uuids, "name");
        var org :- SpecValue(p.attrs, p.meta, "org");
        Ok(RepoUrl(base, ToStr(org), ToStr(name)))
      else
        var url :- SpecValue(p.attrs, p.uuids, "url");
        var name :- GetName(p);
        var org :- OrgSegment(url);
        Ok(RepoUrl(base, org, ToStr(name)))
    case NpmApi =>
      var name :- GetName(p);
      Ok(base + "/" + ToStr(name))
    case PypiApi =>
      var name :- GetName(p);
      Ok(base + "/pypi/" + ToStr(name) + "/json")
  }

  /** dict.pop on a value that is not a dict: lists refuse a string index,
      other values have no `pop`. */
  function NotADict(j: Json): Error {
    if j.Arr? then TypeError else AttributeError("pop")
  }

  /** d.pop(k) */
  function PopKey(d: Json, k: string): (r: Result<(Json, Fields)>)
    ensures r.Ok? ==> d.Obj? && Get(d.fields, k) == Some(r.value.0) && r.value.1 == Remove(d.fields, k)
    ensures d.Obj? && Get(d.fields, k).None? ==> r == Err(KeyError(k))
  {
    if !d.Obj? then Err(NotADict(d))
    else
      match Get(d.fields, k)
      case None => Err(KeyError(k))
      case Some(v) => Ok((v, Remove(d.fields, k)))
  }

  /** d.update(e) for a dict e: every key of e takes e's value. (Python's
      dicts hold each key once, so the order the entries are set in only
      decides where new keys appear.) */
  function Merge(d: Fields, e: Fields): (r: Fields)
    ensures forall k :: Get(e, k).Some? ==> Get(r, k) == Get(e, k)
    ensures forall k :: Get(e, k).None? ==> Get(r, k) == Get(d, k)
    decreases |e|
  {
    if e == [] then d
    else Set(Merge(d, e[1..]), e[0].0, e[0].1)
  }

  /** One element of the iterable `dict.update` is given: it must unpack
      into exactly a key and a value. */
  function PairOf(e: Json): Result<(Json, Json)> {
    match e
    case Arr(items) => if |items| == 2 then Ok((items[0], items[1])) else Err(ValueError)
    case Str(s) => if |s| == 2 then Ok((Str([s[0]]), Str([s[1]]))) else Err(ValueError)
    case Obj(fields) => if |fields| == 2 then Ok((Str(fields[0].0), Str(fields[1].0))) else Err(ValueError)
    case _ => Err(TypeError)
  }

  /** d.update(pairs), pair by pair, with whether every key is a string: a
      list or dict key is unhashable; any other key is stored, but then the
      dict can no longer be passed with `**`, so only that fact is kept. */
  function UpdatePairs(d: Fields, ps: seq<Json>): Result<(Fields, bool)>
    decreases |ps|
  {
    if ps == [] then Ok((d, true))
    else
      var prev :- UpdatePairs(d, ps[..|ps| - 1]);
      var pair :- PairOf(ps[|ps| - 1]);
      if pair.0.Arr? || pair.0.Obj? then Err(TypeError)
      else if pair.0.Str? then Ok((Set(prev.0, pair.0.s, pair.1), prev.1))
      else Ok((prev.0, false))
  }

  /** d.update(e), and whether all keys are strings: a dict is merged in;
      any other iterable must yield key-value pairs; other values are not
      iterable. */
  function DictUpdate(d: Fields, e: Json): Result<(Fields, bool)> {
    if e.Obj? then Ok((Merge(d, e.fields), true))
    else
      var items :- Iterate(e);
      UpdatePairs(d, items)
  }

  /** What get_project makes of a 200 answer: the keyword arguments it
      passes to project.update. */
  function ProjectData(reg: Registry, data: Json): Result<Fields> {
    match reg
    case GithubApi =>
      // the answer's 'url' is stored under 'api_url'
      var (url, rest) :- PopKey(data, "url");
      Ok(Set(rest, "api_url", url))
    case NpmApi =>
      var (_, rest) :- PopKey(data, "versions");
      Ok(rest)
    case PypiApi =>
      var (_, rest) :- PopKey(data, "releases");
      var (info, rest2) :- PopKey(Obj(rest), "info");
      var (merged, strKeys) :- DictUpdate(rest2, info);
      // project.update(**data) takes string keys only
      if strKeys then Ok(merged) else Err(TypeError)
  }

  /** The project after get_project has seen the answer: unchanged unless
      the status is 200. */
  function ProjectFromAnswer(reg: Registry, p: Project, status: int, data: Json): Result<Project> {
    if status != 200 then Ok(p)
    else
      var kwargs :- ProjectData(reg, data);
      UpdateProject(p, ToMap(kwargs))
  }

  /** The class and uuid spec of a version each registry creates. */
  function NewVersionClass(reg: Registry): VersionClass {
    match reg
    case GithubApi => GithubCommit
    case NpmApi => NpmVersion
    case PypiApi => PypiRelease
  }

  function NewVersionUuids(reg: Registry): Spec {
    match reg
    case GithubApi => [("commit", "sha")]
    case NpmApi => [("version", "version")]
    case PypiApi => [("version", "version")]
  }

  /** The keyword arguments of one version's data: only a dict can be
      passed with `**`. */
  function VersionData(v: Json): Result<map<string, Json>> {
    if v.Obj? then Ok(ToMap(v.fields)) else Err(TypeError)
  }

  /** The entries get_versions walks, as key-value pairs: every item of
      the registry's dict, or in 'latest' mode the one entry
      `{key: versions[key]}`. */
  function Entries(all: Json, latest: bool, latestKey: Json): Result<seq<(Json, Json)>> {
    if latest then
      var v :- Index(all, latestKey);
      Ok([(latestKey, v)])
    else if all.Obj? then Ok(seq(|all.fields|, i requires 0 <= i < |all.fields| => (Str(all.fields[i].0), all.fields[i].1)))
    else Err(AttributeError("items"))
  }

  /** A pypi release entry: the first dict of its list, or {} when the
      list is empty, with 'version' set to the release key. */
  function ReleaseData(vstr: Json, files: Json): Result<Json> {
    var first :- if Truthy(files) then Index(files, Int(0)) else Ok(Obj([]));
    if !first.Obj? then Err(TypeError) else Ok(Obj(Set(first.fields, "version", vstr)))
  }

  /** The keyword arguments one entry gives find_version and the version it
      updates or creates: pypi passes the release entry, the others the
      entry's value. */
  function EntryData(reg: Registry, key: Json, value: Json): Result<map<string, Json>> {
    if reg == PypiApi then
      var d :- ReleaseData(key, value);
      VersionData(d)
    else VersionData(value)
  }

  /** The key of the answer that holds the versions. */
  function VersionsKey(reg: Registry): string {
    if reg == NpmApi then "versions" else "releases"
  }

  /** The key of the latest version: data['dist-tags']['latest'] (npm) or
      data['info']['version'] (pypi). */
  function LatestKey(reg: Registry, data: Json): Result<Json> {
    var tags :- Subscript(data, if reg == NpmApi then "dist-tags" else "info");
    Subscript(tags, if reg == NpmApi then "latest" else "version")
  }

  /** The loop over one answer's entries: each upserts its version in
      turn; the first error stops the loop, and the versions keep what the
      entries before it did. */
  function AddAll(reg: Registry, vs: seq<Version>, entries: seq<(Json, Json)>, latest: bool): (seq<Version>, Option<Error>)
    decreases |entries|
  {
    if entries == [] then (vs, None)
    else
      match EntryData(reg, entries[0].0, entries[0].1)
      case Err(e) => (vs, Some(e))
      case Ok(kwargs) =>
        match UpsertVersion(vs, kwargs, latest, NewVersionClass(reg), NewVersionUuids(reg))
        case Err(e) => (vs, Some(e))
        case Ok(next) => AddAll(reg, next, entries[1..], latest)
  }

  /** What npm's and pypi's get_versions make of a 200 answer. */
  function PackageAnswer(reg: Registry, vs: seq<Version>, data: Json, latest: bool): (seq<Version>, Option<Error>) {
    match Subscript(data, VersionsKey(reg))
    case Err(e) => (vs, Some(e))
    case Ok(all) =>
      match (if latest then LatestKey(reg, data) else Ok(Null))
      case Err(e) => (vs, Some(e))
      case Ok(key) =>
        match Entries(all, latest, key)
        case Err(e) => (vs, Some(e))
        case Ok(entries) => AddAll(reg, vs, entries, latest)
  }

  /** npm's and pypi's get_versions: one request; an answer that is not
      200 changes nothing. The cache afterwards comes last. */
  function PackageWalk(reg: Registry, base: string, s: Settings, files: map<string, Entry>, vs: seq<Version>,
                       apiUrl: string, latest: bool, opts: Options, now: int, net: Network)
    : (seq<Version>, Option<Error>, map<string, Entry>)
  {
    var resp := RegistryRespond(reg, base, s, files, apiUrl, opts, [], now, net);
    var a := resp.0;
    if a.Err? then (vs, Some(a.error), resp.1)
    else if a.value.0 != 200 then (vs, None, resp.1)
    else
      var added := PackageAnswer(reg, vs, a.value.1, latest);
      (added.0, added.1, resp.1)
  }

  /** '%s/commits?page=%d' % (api_url, page) */
  function PageUrl(apiUrl: string, page: nat): string {
    apiUrl + "/commits?page=" + NatToDecimal(page)
  }

  /** data[:1] in 'latest' mode, else data. */
  function FirstIf(latest: bool, items: seq<Json>): (r: seq<Json>)
    ensures latest ==> r == items[..if items == [] then 0 else 1]
    ensures !latest ==> r == items
  {
    if latest && items != [] then items[..1] else items
  }

  /** A page's commits as entries; GitHub's loop has no keys. */
  function Unkeyed(items: seq<Json>): seq<(Json, Json)> {
    seq(|items|, i requires 0 <= i < |items| => (Null, items[i]))
  }

  /** The commits of one non-empty page: only a list can be walked (a
      dict or string yields strings, which `**` refuses). */
  function PageCommits(reg: Registry, vs: seq<Version>, data: Json, latest: bool): (seq<Version>, Option<Error>) {
    if !data.Arr? then (vs, Some(TypeError))
    else AddAll(reg, vs, Unkeyed(FirstIf(latest, data.items)), latest)
  }

  /** What one page's answer does: the versions after it, the error, and
      whether the next page is read. */
  function PageStep(reg: Registry, vs: seq<Version>, a: Result<(int, Json)>, latest: bool): (seq<Version>, Option<Error>, bool) {
    if a.Err? then (vs, Some(a.error), false)
    else if a.value.0 != 200 then (vs, None, true)
    else if !Truthy(a.value.1) then (vs, None, false)
    else
      var (out, e) := PageCommits(reg, vs, a.value.1, latest);
      (out, e, e.None? && !latest)
  }

  /** How the pages of a walk are fetched: from the cache before and a
      page number, the answer and the cache after. */
  type PageSource = (map<string, Entry>, nat) -> (Result<(int, Json)>, map<string, Entry>)

  /** The registry's request of each commit page. */
  function CommitPages(reg: Registry, base: string, s: Settings, apiUrl: string, opts: Options, now: int, net: Network): PageSource {
    (f: map<string, Entry>, page: nat) => RegistryRespond(reg, base, s, f, PageUrl(apiUrl, page), opts, [], now, net)
  }

  /** GitHub's get_versions from `page` on: a page that is not a 200 answer
      is skipped, an empty one ends the walk, and in 'latest' mode the first
      page with commits is the last one read. The source counts pages
      without end; `maxPages` bounds the walk. */
  function GithubPages(reg: Registry, fetch: PageSource, files: map<string, Entry>, vs: seq<Version>,
                       latest: bool, page: nat, maxPages: nat): (seq<Version>, Option<Error>, map<string, Entry>)
  {
    Pages(CommitStep(reg, latest), fetch, files, vs, page, maxPages)
  }

  /** What one page does to the versions: the list after it, the error
      that stopped the walk, and whether the walk goes on. */
  type PageStepper = (seq<Version>, Result<(int, Json)>) -> (seq<Version>, Option<Error>, bool)

  /** PageStep, as a stepper. */
  function CommitStep(reg: Registry, latest: bool): PageStepper {
    (vs: seq<Version>, a: Result<(int, Json)>) => PageStep(reg, vs, a, latest)
  }

  /** The page loop: fetch page after page and apply the step to each,
      until the step says stop or `maxPages` is passed. */
  function Pages(step: PageStepper, fetch: PageSource, files: map<string, Entry>, vs: seq<Version>,
                 page: nat, maxPages: nat): (seq<Version>, Option<Error>, map<string, Entry>)
    decreases maxPages + 1 - page
  {
    if page > maxPages then (vs, None, files)
    else
      var r := fetch(files, page);
      var st := step(vs, r.0);
      if st.2 then Pages(step, fetch, r.1, st.0, page + 1, maxPages)
      else (st.0, st.1, r.1)
  }

  /** get_project: the project and the cache afterwards. */
  function FetchProject(reg: Registry, base: string, s: Settings, files: map<string, Entry>, p: Project,
                        opts: Options, now: int, net: Network): (Result<Project>, map<string, Entry>)
  {
    match ApiUrl(reg, base, p)
    case Err(e) => (Err(e), files)
    case Ok(u) =>
      var resp := RegistryRespond(reg, base, s, files, u, opts, [], now, net);
      var a := resp.0;
      (if a.Err? then Err(a.error) else ProjectFromAnswer(reg, p, a.value.0, a.value.1), resp.1)
  }

  /** get_versions: the project with its versions refreshed, the error that
      stopped it, and the cache afterwards. */
  function FetchVersions(reg: Registry, base: string, s: Settings, files: map<string, Entry>, p: Project,
                         latest: bool, maxPages: nat, opts: Options, now: int, net: Network)
    : (Project, Option<Error>, map<string, Entry>)
  {
    match ApiUrl(reg, base, p)
    case Err(e) => (p, Some(e), files)
    case Ok(u) =>
      var walk := if reg == GithubApi then GithubPages(reg, CommitPages(reg, base, s, u, opts, now, net), files, p.versions, latest, 1, maxPages)
                  else PackageWalk(reg, base, s, files, p.versions, u, latest, opts, now, net);
      (p.(versions := walk.0), walk.1, walk.2)
  }

  /** What get_versions does to a version list: outside 'latest' mode it
      keeps every version in place and only appends new versions of the
      registry's kind; in 'latest' mode it leaves at most one version, or
      the list it found. */
  predicate VersionsKept(reg: Registry, latest: bool, before: seq<Version>, after: seq<Version>) {
    && (!latest ==> Extends(before, after, NewVersionClass(reg), NewVersionUuids(reg)))
    && (latest ==> |after| <= 1 || after == before)
  }

  class Api {
    const registry: Registry
    const baseApiUrl: string
    var cacheDir: Json
    var cacheTimeout: Json
    var nocache: Json
    var githubPat: Json
    /** The cache directory's files: path -> entry. */
    var files: map<string, Entry>

    function CurrentSettings(): Settings
      reads this
    {
      Settings(cacheDir, cacheTimeout, nocache, githubPat)
    }

    /** The defaults, then update(**kwargs). `files` is what the disk holds. */
    constructor (reg: Registry, kwargs: map<string, Json>, disk: map<string, Entry>)
      ensures registry == reg && baseApiUrl == BaseUrl(reg)
      ensures CurrentSettings() == UpdatedSettings(reg, DefaultSettings(), kwargs)
      ensures files == disk
    {
      registry := reg;
      baseApiUrl := BaseUrl(reg);
      var d := DefaultSettings();
      cacheDir := d.cacheDir;
      cacheTimeout := d.cacheTimeout;
      nocache := d.nocache;
      githubPat := d.githubPat;
      files := disk;
      new;
      Update(kwargs);
    }

    method Update(kwargs: map<string, Json>)
      modifies this
      ensures CurrentSettings() == UpdatedSettings(registry, old(CurrentSettings()), kwargs)
      ensures files == old(files)
    {
      cacheDir := Or(Pop(kwargs, "cache_dir"), cacheDir);
      cacheTimeout := Or(Pop(kwargs, "cache_timeout"), cacheTimeout);
      nocache := Or(Pop(kwargs, "nocache"), nocache);
      if registry == GithubApi {
        githubPat := Or(Pop(kwargs, "github_pat"), githubPat);
      }
    }

    /** Api.request, with its early returns. */
    method BaseRequest(url: string, requestType: string, opts: Options, headers: Headers, data: Json, now: int, net: Network)
      returns (r: Result<(int, Json)>)
      modifies this
      ensures (r, files) == Respond(old(CurrentSettings()), old(files), url, requestType, opts, headers, data, now, net)
      ensures CurrentSettings() == old(CurrentSettings())
    {
      var path := CachePath(cacheDir, RequestId(url, requestType, headers, data));
      var nc := if opts.nocache != Null then opts.nocache else nocache;
      if !Truthy(nc) {
        var timeout := Or(opts.cacheTimeout, cacheTimeout);
        if path in files {
          var cached := files[path];
          if !timeout.Int? {
            return Err(TypeError);
          }
          if now < cached.timestamp + timeout.i {
            return Ok((cached.status, cached.json));
          }
        }
      }
      var answer := net(HttpRequest(requestType == "post", url, headers, data));
      match answer {
        case Interrupted => return Err(KeyboardInterrupt);
        case TransportFailure => return Ok((0, Null));
        case NonJson(_) => return Ok((0, Null));
        case Response(st, body) =>
          if 200 <= st < 300 {
            files := files[path := Entry(st, body, now)];
          }
          r := Ok((st, body));
      }
    }

    /** The registry's request. */
    method Request(url: string, opts: Options, headers: Headers, now: int, net: Network)
      returns (r: Result<(int, Json)>)
      modifies this
      ensures (r, files) == RegistryRespond(registry, baseApiUrl, old(CurrentSettings()), old(files), url, opts, headers, now, net)
      ensures CurrentSettings() == old(CurrentSettings())
    {
      var h := headers;
      if registry == GithubApi && Truthy(githubPat) {
        h := SetHeader(h, "Authorization", "token " + ToStr(githubPat));
      }
      r := BaseRequest(url, "get", opts, h, Obj([]), now, net);
      if r.Ok? && Contains(url, baseApiUrl) {
        var status := r.value.0;
        if registry == GithubApi {
          if status == 401 {
            r := Err(BadGithubToken);
          } else if status == 403 {
            r := Err(GithubRateLimited(Truthy(githubPat)));
          }
        } else if registry == NpmApi {
          if status == 429 {
            r := Err(NpmRateLimited);
          }
        }
      }
    }

    /** clear_cache: every file under the cache directory is removed, and
        no file is added. */
    method ClearCache()
      modifies this
      ensures forall path :: path in files ==> !StartsWith(path, ToStr(cacheDir) + "/")
      ensures forall path :: path in old(files) && !StartsWith(path, ToStr(cacheDir) + "/") ==> path in files && files[path] == old(files)[path]
      ensures forall path :: path in files ==> path in old(files)
      ensures files == map path | path in old(files) && !StartsWith(path, ToStr(cacheDir) + "/") :: old(files)[path]
      ensures CurrentSettings() == old(CurrentSettings())
    {
      var dir := ToStr(cacheDir) + "/";
      files := map path | path in files && !StartsWith(path, dir) :: files[path];
    }

    /** get_project: the project after the registry's metadata is merged
        in; nothing but its attributes changes. */
    method GetProject(p: Project, opts: Options, now: int, net: Network) returns (r: Result<Project>)
      modifies this
      ensures (r, files) == FetchProject(registry, baseApiUrl, old(CurrentSettings()), old(files), p, opts, now, net)
      ensures r.Ok? ==> r.value == p.(attrs := r.value.attrs)
      ensures CurrentSettings() == old(CurrentSettings())
    {
      FetchProjectOnlyAttrs(registry, baseApiUrl, CurrentSettings(), files, p, opts, now, net);
      var u := ApiUrl(registry, baseApiUrl, p);
      if u.Err? {
        return Err(u.error);
      }
      var a := Request(u.value, opts, [], now, net);
      if a.Err? {
        return Err(a.error);
      }
      var (status, data) := a.value;
      if status != 200 {
        return Ok(p);
      }
      var kwargs := ProjectData(registry, data);
      if kwargs.Err? {
        return Err(kwargs.error);
      }
      r := UpdateProject(p, ToMap(kwargs.value));
    }

    /** The loop over one answer's entries. */
    method AddVersions(vs: seq<Version>, entries: seq<(Json, Json)>, latest: bool) returns (out: seq<Version>, err: Option<Error>)
      ensures (out, err) == AddAll(registry, vs, entries, latest)
      ensures VersionsKept(registry, latest, vs, out)
    {
      AddAllKept(registry, vs, entries, latest);
      out := vs;
      var i := 0;
      while i < |entries|
        invariant 0 <= i <= |entries|
        invariant AddAll(registry, vs, entries, latest) == AddAll(registry, out, entries[i..], latest)
      {
        var kwargs := EntryData(registry, entries[i].0, entries[i].1);
        if kwargs.Err? {
          return out, Some(kwargs.error);
        }
        var next := UpsertVersionIn(out, kwargs.value, latest, NewVersionClass(registry), NewVersionUuids(registry));
        if next.Err? {
          return out, Some(next.error);
        }
        assert entries[i..][1..] == entries[i + 1..];
        out := next.value;
        i := i + 1;
      }
      err := None;
    }

    /** get_versions: the project with its versions refreshed from the
        registry; nothing but the versions changes. */
    method GetVersions(p: Project, historical: string, maxPages: nat, opts: Options, now: int, net: Network)
      returns (q: Project, err: Option<Error>)
      modifies this
      ensures (q, err, files) == FetchVersions(registry, baseApiUrl, old(CurrentSettings()), old(files), p, historical == "latest", maxPages, opts, now, net)
      ensures q == p.(versions := q.versions)
      ensures VersionsKept(registry, historical == "latest", p.versions, q.versions)
      ensures CurrentSettings() == old(CurrentSettings())
    {
      FetchVersionsKept(registry, baseApiUrl, CurrentSettings(), files, p, historical == "latest", maxPages, opts, now, net);
      var apiUrl := ApiUrl(registry, baseApiUrl, p);
      if apiUrl.Err? {
        return p, Some(apiUrl.error);
      }
      var vs;
      if registry == GithubApi {
        vs, err := GithubVersions(p.versions, apiUrl.value, historical == "latest", maxPages, opts, now, net);
      } else {
        vs, err := PackageVersions(p.versions, apiUrl.value, historical == "latest", opts, now, net);
      }
      q := p.(versions := vs);
    }

    /** GitHub's commit pages, fetched in turn from page 1. */
    method GithubVersions(vs: seq<Version>, apiUrl: string, latest: bool, maxPages: nat, opts: Options, now: int, net: Network)
      returns (out: seq<Version>, err: Option<Error>)
      modifies this
      ensures (out, err, files) == GithubPages(registry, CommitPages(registry, baseApiUrl, old(CurrentSettings()), apiUrl, opts, now, net),
                                               old(files), vs, latest, 1, maxPages)
      ensures CurrentSettings() == old(CurrentSettings())
    {
      ghost var pages := CommitPages(registry, baseApiUrl, CurrentSettings(), apiUrl, opts, now, net);
      out := vs;
      err := None;
      var page := 1;
      while page <= maxPages
        invariant 1 <= page
        invariant err.None?
        invariant CurrentSettings() == old(CurrentSettings())
        invariant GithubPages(registry, pages, old(files), vs, latest, 1, maxPages) == GithubPages(registry, pages, files, out, latest, page, maxPages)
        decreases maxPages + 1 - page
      {
        ghost var before := files;
        var a := Request(PageUrl(apiUrl, page), opts, [], now, net);
        assert (a, files) == pages(before, page);
        if a.Err? {
          return out, Some(a.error);
        }
        var (status, data) := a.value;
        if status != 200 {
          page := page + 1;
          continue;
        }
        if !Truthy(data) {
          return;
        }
        if !data.Arr? {
          return out, Some(TypeError);
        }
        out, err := AddVersions(out, Unkeyed(FirstIf(latest, data.items)), latest);
        if err.Some? || latest {
          return;
        }
        page := page + 1;
      }
    }

    /** npm's and pypi's get_versions: one answer, whose 'versions' (npm) or
        'releases' (pypi) are walked; in 'latest' mode only the entry named
        by 'dist-tags'.'latest' (npm) or 'info'.'version' (pypi). */
    method PackageVersions(vs: seq<Version>, apiUrl: string, latest: bool, opts: Options, now: int, net: Network)
      returns (out: seq<Version>, err: Option<Error>)
      modifies this
      ensures (out, err, files) == PackageWalk(registry, baseApiUrl, old(CurrentSettings()), old(files), vs, apiUrl, latest, opts, now, net)
      ensures CurrentSettings() == old(CurrentSettings())
    {
      var a := Request(apiUrl, opts, [], now, net);
      if a.Err? {
        return vs, Some(a.error);
      }
      var (status, data) := a.value;
      if status != 200 {
        return vs, None;
      }
      var all := Subscript(data, VersionsKey(registry));
      if all.Err? {
        return vs, Some(all.error);
      }
      var key := Null;
      if latest {
        var k := LatestKey(registry, data);
        if k.Err? {
          return vs, Some(k.error);
        }
        key := k.value;
      }
      var entries := Entries(all.value, latest, key);
      if entries.Err? {
        return vs, Some(entries.error);
      }
      out, err := AddVersions(vs, entries.value, latest);
    }
  }

  // ---------------------------------------------------------------------
  // Properties

  /** update ignores falsy values: a setting changes exactly when a truthy
      value is supplied, so a nocache already true stays true. Updating
      twice with the same values is updating once. */
  lemma UpdateIgnoresFalsy(reg: Registry, s: Settings, kwargs: map<string, Json>)
    ensures var u := UpdatedSettings(reg, s, kwargs);
      && (Truthy(Pop(kwargs, "cache_dir")) ==> u.cacheDir == kwargs["cache_dir"])
      && (!Truthy(Pop(kwargs, "cache_dir")) ==> u.cacheDir == s.cacheDir)
      && (Truthy(Pop(kwargs, "cache_timeout")) ==> u.cacheTimeout == kwargs["cache_timeout"])
      && (!Truthy(Pop(kwargs, "cache_timeout")) ==> u.cacheTimeout == s.cacheTimeout)
      && (!Truthy(Pop(kwargs, "nocache")) ==> u.nocache == s.nocache)
      && (Truthy(s.nocache) ==> Truthy(u.nocache))
      && (reg != GithubApi ==> u.githubPat == s.githubPat)
      && UpdatedSettings(reg, u, kwargs) == u
  {
  }

  /** Without keyword arguments an API has the defaults: the
      '.requests_cache' directory, a one-week timeout, caching on. */
  lemma Defaults(reg: Registry)
    ensures UpdatedSettings(reg, DefaultSettings(), map[]) ==
      Settings(Str(".requests_cache"), Int(604800), Bool(false), Null)
  {
  }

  /** A fresh cache entry is returned as it was stored, without a network
      call, and the cache is left alone. */
  lemma FreshEntryServed(s: Settings, files: map<string, Entry>, url: string, requestType: string, opts: Options,
                         headers: Headers, data: Json, now: int, net: Network)
    requires var path := CachePath(s.cacheDir, RequestId(url, requestType, headers, data));
      var timeout := Or(opts.cacheTimeout, s.cacheTimeout);
      && !Truthy(if opts.nocache != Null then opts.nocache else s.nocache)
      && path in files && timeout.Int? && now < files[path].timestamp + timeout.i
    ensures var path := CachePath(s.cacheDir, RequestId(url, requestType, headers, data));
      Respond(s, files, url, requestType, opts, headers, data, now, net) == (Ok((files[path].status, files[path].json)), files)
  {
  }

  /** With caching off for the call, the network is asked whatever the
      cache holds; a per-call nocache that is not None decides over the
      API's setting. */
  lemma NocacheAsksNetwork(s: Settings, files: map<string, Entry>, url: string, requestType: string, opts: Options,
                           headers: Headers, data: Json, now: int, net: Network)
    requires Truthy(if opts.nocache != Null then opts.nocache else s.nocache)
    ensures var path := CachePath(s.cacheDir, RequestId(url, requestType, headers, data));
      Respond(s, files, url, requestType, opts, headers, data, now, net)
        == Fetched(files, path, net(HttpRequest(requestType == "post", url, headers, data)), now)
  {
  }

  /** Transport failures and non-JSON bodies give (0, None) and leave the
      cache; an interrupt propagates; a JSON answer is returned as it came
      and written exactly when its status is 2xx. */
  lemma FetchedOutcomes(files: map<string, Entry>, path: string, n: NetResult, now: int)
    ensures (n.TransportFailure? || n.NonJson?) ==> Fetched(files, path, n, now) == (Ok((0, Null)), files)
    ensures n.Interrupted? ==> Fetched(files, path, n, now) == (Err(KeyboardInterrupt), files)
    ensures n.Response? ==>
      var (r, f) := Fetched(files, path, n, now);
      && r == Ok((n.status, n.body))
      && (path in f && f[path] == Entry(n.status, n.body, now) <==> 200 <= n.status < 300 || (path in files && files[path] == Entry(n.status, n.body, now)))
      && (forall k :: k != path ==> (k in f <==> k in files) && (k in f ==> f[k] == files[k]))
  {
  }

  /** A request changes the cache at most at its own path, and only to
      store a 2xx answer. */
  lemma RespondWritesOnly2xx(s: Settings, files: map<string, Entry>, url: string, requestType: string, opts: Options,
                             headers: Headers, data: Json, now: int, net: Network)
    ensures var path := CachePath(s.cacheDir, RequestId(url, requestType, headers, data));
      var (r, f) := Respond(s, files, url, requestType, opts, headers, data, now, net);
      && (forall k :: k != path ==> (k in f <==> k in files) && (k in f ==> f[k] == files[k]))
      && (f != files ==> path in f && 200 <= f[path].status < 300 && f[path].timestamp == now && r == Ok((f[path].status, f[path].json)))
  {
  }

  /** With a token set, GitHub requests carry 'Authorization: token <pat>'. */
  lemma GithubSendsToken(s: Settings, h: Headers)
    requires Truthy(s.githubPat)
    ensures ("Authorization", "token " + ToStr(s.githubPat)) in AuthHeaders(GithubApi, s, h)
    ensures forall p :: p in h && p.0 != "Authorization" ==> p in AuthHeaders(GithubApi, s, h)
  {
  }

  /** GitHub: 401 and 403 from its API raise, the rate-limit error saying
      whether a token is set; answers from other urls pass unchanged. */
  lemma GithubStatusChecks(base: string, s: Settings, url: string, status: int, body: Json)
    ensures Contains(url, base) && status == 401 ==> Interpret(GithubApi, base, s, url, Ok((status, body))) == Err(BadGithubToken)
    ensures Contains(url, base) && status == 403 ==>
      Interpret(GithubApi, base, s, url, Ok((status, body))) == Err(GithubRateLimited(Truthy(s.githubPat)))
    ensures !Contains(url, base) || (status != 401 && status != 403) ==>
      Interpret(GithubApi, base, s, url, Ok((status, body))) == Ok((status, body))
  {
  }

  /** npm: 429 from its registry raises; everything else passes. */
  lemma NpmStatusChecks(base: string, s: Settings, url: string, status: int, body: Json)
    ensures Contains(url, base) && status == 429 ==> Interpret(NpmApi, base, s, url, Ok((status, body))) == Err(NpmRateLimited)
    ensures !Contains(url, base) || status != 429 ==> Interpret(NpmApi, base, s, url, Ok((status, body))) == Ok((status, body))
  {
  }

  /** PyPI never raises on a status. */
  lemma PypiPassesThrough(base: string, s: Settings, url: string, r: Result<(int, Json)>)
    ensures Interpret(PypiApi, base, s, url, r) == r
  {
  }

  /** The npm and PyPI API urls are built from the project's name. */
  lemma PackageApiUrls(base: string, p: Project)
    ensures GetName(p).Ok? ==> ApiUrl(NpmApi, base, p) == Ok(base + "/" + ToStr(GetName(p).value))
    ensures GetName(p).Ok? ==> ApiUrl(PypiApi, base, p) == Ok(base + "/pypi/" + ToStr(GetName(p).value) + "/json")
    ensures GetName(p).Err? ==> ApiUrl(NpmApi, base, p) == Err(GetName(p).error) && ApiUrl(PypiApi, base, p) == Err(GetName(p).error)
  {
  }

  /** A GitHub project known only by its url gets the API url of the
      url's org segment and the project's name (the url's last segment,
      by GetName). */
  lemma GithubApiUrlFromUrl(base: string, p: Project, url: string, org: string)
    requires !SpecHas(p.uuids, "name")
    requires SpecValue(p.attrs, p.uuids, "url") == Ok(Str(url))
    requires UrlOrg(url) == Some(org)
    ensures GetName(p).Ok? && ApiUrl(GithubApi, base, p) == Ok(RepoUrl(base, org, ToStr(GetName(p).value)))
  {
    assert SpecHas(p.uuids, "url");
    assert OrgSegment(Str(url)) == Ok(org);
  }

  /** A url with fewer than two segments raises IndexError. */
  lemma GithubApiUrlShortUrl(base: string, p: Project, url: string)
    requires !SpecHas(p.uuids, "name")
    requires SpecValue(p.attrs, p.uuids, "url") == Ok(Str(url))
    requires UrlOrg(url).None?
    ensures ApiUrl(GithubApi, base, p) == Err(IndexError)
  {
    assert SpecHas(p.uuids, "url");
    assert GetName(p) == LastUrlSegment(Str(url));
    assert OrgSegment(Str(url)) == Err(IndexError);
  }

  /** With a name uuid and an org meta accessor, the url is not consulted. */
  lemma GithubApiUrlFromMeta(base: string, p: Project, org: Json, name: Json)
    requires SpecHas(p.uuids, "name") && SpecHas(p.meta, "org")
    requires SpecValue(p.attrs, p.uuids, "name") == Ok(name) && SpecValue(p.attrs, p.meta, "org") == Ok(org)
    ensures ApiUrl(GithubApi, base, p) == Ok(RepoUrl(base, ToStr(org), ToStr(name)))
  {
  }

  /** get_project leaves the project unchanged on any status but 200. */
  lemma GetProjectNon200(reg: Registry, p: Project, status: int, data: Json)
    requires status != 200
    ensures ProjectFromAnswer(reg, p, status, data) == Ok(p)
  {
  }

  /** GitHub's 'url' is stored as 'api_url' and removed, so the repo's own
      url attribute is left alone; npm drops 'versions'; pypi drops
      'releases' and lifts the keys of 'info' to the top. Each raises
      KeyError when the key it pops is missing. */
  lemma ProjectDataShape(reg: Registry, d: Fields)
    ensures reg == GithubApi && ProjectData(reg, Obj(d)).Ok? ==>
      && Get(d, "url").Some?
      && Get(ProjectData(reg, Obj(d)).value, "api_url") == Get(d, "url")
      && forall k :: k != "api_url" && k != "url" ==> Get(ProjectData(reg, Obj(d)).value, k) == Get(d, k)
    ensures reg == NpmApi && ProjectData(reg, Obj(d)).Ok? ==>
      && Get(ProjectData(reg, Obj(d)).value, "versions") == None
      && forall k :: k != "versions" ==> Get(ProjectData(reg, Obj(d)).value, k) == Get(d, k)
    ensures reg == PypiApi && Get(d, "releases").Some? && Get(d, "info").Some? && Get(d, "info").value.Obj? ==>
      var info := Get(d, "info").value;
      && ProjectData(reg, Obj(d)).Ok?
      && (forall k :: Get(info.fields, k).Some? ==> Get(ProjectData(reg, Obj(d)).value, k) == Get(info.fields, k))
      && (forall k :: Get(info.fields, k).None? && k != "info" && k != "releases" ==>
            Get(ProjectData(reg, Obj(d)).value, k) == Get(d, k))
    ensures reg == GithubApi && Get(d, "url").None? ==> ProjectData(reg, Obj(d)) == Err(KeyError("url"))
    ensures reg == GithubApi && Get(d, "url").Some? ==>
      ProjectData(reg, Obj(d)).Ok? && Get(ProjectData(reg, Obj(d)).value, "url") == None
    ensures reg == NpmApi && Get(d, "versions").None? ==> ProjectData(reg, Obj(d)) == Err(KeyError("versions"))
    ensures reg == PypiApi && Get(d, "releases").None? ==> ProjectData(reg, Obj(d)) == Err(KeyError("releases"))
    ensures reg == PypiApi && Get(d, "releases").Some? && Get(d, "info").None? ==> ProjectData(reg, Obj(d)) == Err(KeyError("info"))
  {
    if reg == PypiApi && Get(d, "releases").Some? {
      var rest := Remove(d, "releases");
      assert Get(rest, "info") == Get(d, "info");
    }
  }

  /** pypi's 'info' need not be a dict: dict.update then takes the pairs a
      list gives (the last pair for a key wins), refuses a non-empty string
      (its one-character elements are not pairs) and values that are not
      iterable. */
  lemma PypiInfoNotADict(d: Fields, k: string)
    requires Get(d, "releases").Some? && Get(d, "info").Some?
    ensures var info := Get(d, "info").value;
      (info.Null? || info.Bool? || info.Int?) ==> ProjectData(PypiApi, Obj(d)) == Err(TypeError)
    ensures var info := Get(d, "info").value;
      info.Str? && info.s != "" ==> ProjectData(PypiApi, Obj(d)) == Err(ValueError)
    ensures var info := Get(d, "info").value;
      var rest := Remove(Remove(d, "releases"), "info");
      info.Arr? && StrPairs(info.items) ==>
        && ProjectData(PypiApi, Obj(d)).Ok?
        && ((forall i :: 0 <= i < |info.items| ==> info.items[i].items[0] != Str(k)) ==>
              Get(ProjectData(PypiApi, Obj(d)).value, k) == Get(rest, k))
        && (forall i :: 0 <= i < |info.items| && info.items[i].items[0] == Str(k) && LastFor(info.items, i) ==>
              Get(ProjectData(PypiApi, Obj(d)).value, k) == Some(info.items[i].items[1]))
  {
    var info := Get(d, "info").value;
    var rest := Remove(Remove(d, "releases"), "info");
    assert Get(Remove(d, "releases"), "info") == Get(d, "info");
    DictUpdateNonDicts(rest, info);
    if info.Arr? && StrPairs(info.items) {
      UpdatePairsLastWins(rest, info.items, k);
    }
  }

  /** dict.update on values that are not dicts: a string yields its
      characters, which do not unpack into pairs, so only "" is accepted;
      values that are not iterable raise. */
  lemma DictUpdateNonDicts(d: Fields, e: Json)
    ensures (e.Null? || e.Bool? || e.Int?) ==> DictUpdate(d, e) == Err(TypeError)
    ensures e.Str? && e.s == "" ==> DictUpdate(d, e) == Ok((d, true))
    ensures e.Str? && e.s != "" ==> DictUpdate(d, e) == Err(ValueError)
    ensures e.Arr? && e.items == [] ==> DictUpdate(d, e) == Ok((d, true))
  {
    if e.Str? {
      CharsAreNoPairs(d, Iterate(e).value);
    }
  }

  lemma {:induction false} CharsAreNoPairs(d: Fields, ps: seq<Json>)
    requires forall i :: 0 <= i < |ps| ==> ps[i].Str? && |ps[i].s| == 1
    ensures UpdatePairs(d, ps) == if ps == [] then Ok((d, true)) else Err(ValueError)
    decreases |ps|
  {
    if ps != [] {
      CharsAreNoPairs(d, ps[..|ps| - 1]);
    }
  }

  /** Two-item lists whose first item is a string: pairs dict.update
      stores. */
  predicate StrPairs(ps: seq<Json>) {
    forall j :: 0 <= j < |ps| ==> ps[j].Arr? && |ps[j].items| == 2 && ps[j].items[0].Str?
  }

  /** No pair after the i-th has the i-th's key. */
  predicate LastFor(ps: seq<Json>, i: int)
    requires 0 <= i < |ps|
    requires StrPairs(ps)
  {
    forall j :: i < j < |ps| ==> ps[j].items[0] != ps[i].items[0]
  }

  /** dict.update with string-keyed pairs succeeds, and every key is a
      string. */
  lemma {:induction false} UpdatePairsOk(d: Fields, ps: seq<Json>)
    requires StrPairs(ps)
    ensures UpdatePairs(d, ps).Ok? && UpdatePairs(d, ps).value.1
    decreases |ps|
  {
    if ps != [] {
      var pre := ps[..|ps| - 1];
      assert StrPairs(pre) by {
        assert forall i :: 0 <= i < |pre| ==> pre[i] == ps[i];
      }
      UpdatePairsOk(d, pre);
    }
  }

  /** The last pair for a key before the final pair, if that names
      another key, is the last one in the prefix. */
  lemma LastForPrefix(ps: seq<Json>, i: int)
    requires StrPairs(ps) && 0 <= i < |ps| - 1 && LastFor(ps, i)
    ensures StrPairs(ps[..|ps| - 1]) && LastFor(ps[..|ps| - 1], i)
    ensures ps[..|ps| - 1][i] == ps[i] && ps[|ps| - 1].items[0] != ps[i].items[0]
  {
    var pre := ps[..|ps| - 1];
    assert forall j :: 0 <= j < |pre| ==> pre[j] == ps[j];
  }

  /** dict.update with string-keyed pairs: each key takes the value of the
      last pair that names it; other keys keep their value. */
  lemma UpdatePairsLastWins(d: Fields, ps: seq<Json>, k: string)
    requires StrPairs(ps)
    ensures UpdatePairs(d, ps).Ok? && UpdatePairs(d, ps).value.1
    ensures (forall i :: 0 <= i < |ps| ==> ps[i].items[0] != Str(k)) ==> Get(UpdatePairs(d, ps).value.0, k) == Get(d, k)
    ensures forall i :: 0 <= i < |ps| && ps[i].items[0] == Str(k) && LastFor(ps, i) ==>
      Get(UpdatePairs(d, ps).value.0, k) == Some(ps[i].items[1])
  {
    UpdatePairsOk(d, ps);
    if forall i :: 0 <= i < |ps| ==> ps[i].items[0] != Str(k) {
      UpdatePairsUnnamed(d, ps, k);
    }
    forall i | 0 <= i < |ps| && ps[i].items[0] == Str(k) && LastFor(ps, i)
      ensures Get(UpdatePairs(d, ps).value.0, k) == Some(ps[i].items[1])
    {
      UpdatePairsLast(d, ps, k, i);
    }
  }

  lemma {:induction false} UpdatePairsUnnamed(d: Fields, ps: seq<Json>, k: string)
    requires StrPairs(ps)
    requires forall i :: 0 <= i < |ps| ==> ps[i].items[0] != Str(k)
    ensures UpdatePairs(d, ps).Ok? && Get(UpdatePairs(d, ps).value.0, k) == Get(d, k)
    decreases |ps|
  {
    UpdatePairsOk(d, ps);
    if ps != [] {
      var n := |ps| - 1;
      var pre := ps[..n];
      assert forall i :: 0 <= i < n ==> pre[i] == ps[i];
      UpdatePairsOk(d, pre);
      UpdatePairsUnnamed(d, pre, k);
      assert UpdatePairs(d, ps).value.0 == Set(UpdatePairs(d, pre).value.0, ps[n].items[0].s, ps[n].items[1]);
    }
  }

  lemma {:induction false} UpdatePairsLast(d: Fields, ps: seq<Json>, k: string, i: int)
    requires StrPairs(ps) && 0 <= i < |ps| && ps[i].items[0] == Str(k) && LastFor(ps, i)
    ensures UpdatePairs(d, ps).Ok? && Get(UpdatePairs(d, ps).value.0, k) == Some(ps[i].items[1])
    decreases |ps|
  {
    var n := |ps| - 1;
    UpdatePairsSnoc(d, ps);
    var key := ps[n].items[0].s;
    if i < n {
      LastForPrefix(ps, i);
      UpdatePairsLast(d, ps[..n], k, i);
      assert key != k;
    } else {
      assert key == k;
    }
  }

  /** The last pair is stored over what the pairs before it left. */
  lemma UpdatePairsSnoc(d: Fields, ps: seq<Json>)
    requires StrPairs(ps) && ps != []
    ensures var pre := UpdatePairs(d, ps[..|ps| - 1]);
      && UpdatePairs(d, ps).Ok? && pre.Ok?
      && UpdatePairs(d, ps).value.0 == Set(pre.value.0, ps[|ps| - 1].items[0].s, ps[|ps| - 1].items[1])
  {
    UpdatePairsOk(d, ps);
    UpdatePairsOk(d, ps[..|ps| - 1]);
  }

  /** A pypi release uses the first dict of its list, or {} for an empty
      list, and its 'version' is the release key whatever the dict said. A
      non-empty dict has no index 0. */
  lemma ReleaseDataShape(vstr: Json, files: Json)
    ensures !Truthy(files) ==> ReleaseData(vstr, files) == Ok(Obj([("version", vstr)]))
    ensures files.Arr? && files.items != [] && files.items[0].Obj? ==>
      && ReleaseData(vstr, files).Ok?
      && Get(ReleaseData(vstr, files).value.fields, "version") == Some(vstr)
      && forall k :: k != "version" ==> Get(ReleaseData(vstr, files).value.fields, k) == Get(files.items[0].fields, k)
    ensures files.Arr? && files.items != [] && !files.items[0].Obj? ==> ReleaseData(vstr, files) == Err(TypeError)
    ensures files.Obj? && files.fields != [] ==> ReleaseData(vstr, files) == Err(KeyError("0"))
  {
  }

  /** 'latest' keeps only the entry the latest key names; otherwise every
      item of a dict is walked, in order, and anything else has no items. */
  lemma EntriesShape(all: Json, key: string, ignored: Json)
    ensures all.Obj? && Get(all.fields, key).Some? ==> Entries(all, true, Str(key)) == Ok([(Str(key), Get(all.fields, key).value)])
    ensures all.Obj? && Get(all.fields, key).None? ==> Entries(all, true, Str(key)) == Err(KeyError(key))
    ensures !all.Obj? ==> Entries(all, false, ignored) == Err(AttributeError("items"))
    ensures all.Obj? ==> var r := Entries(all, false, ignored);
      && r.Ok? && |r.value| == |all.fields|
      && forall i :: 0 <= i < |all.fields| ==> r.value[i] == (Str(all.fields[i].0), all.fields[i].1)
  {
  }

  /** Walking entries one after another is walking them together: the
      second part starts where the first stopped, unless it failed. */
  lemma {:induction false} AddAllAppend(reg: Registry, vs: seq<Version>, a: seq<(Json, Json)>, b: seq<(Json, Json)>, latest: bool)
    ensures AddAll(reg, vs, a + b, latest) ==
      (var (o, e) := AddAll(reg, vs, a, latest); if e.Some? then (o, e) else AddAll(reg, o, b, latest))
    decreases |a|
  {
    if a == [] {
      assert a + b == b;
    } else {
      assert (a + b)[0] == a[0];
      assert (a + b)[1..] == a[1..] + b;
      match EntryData(reg, a[0].0, a[0].1)
      case Err(_) =>
      case Ok(kwargs) =>
        match UpsertVersion(vs, kwargs, latest, NewVersionClass(reg), NewVersionUuids(reg))
        case Err(_) =>
        case Ok(next) => AddAllAppend(reg, next, a[1..], b, latest);
    }
  }

  /** The entry loop keeps every version in place and appends only new
      versions of the registry's kind; in 'latest' mode a successful walk
      of at least one entry leaves exactly one version. */
  lemma {:induction false} AddAllKept(reg: Registry, vs: seq<Version>, entries: seq<(Json, Json)>, latest: bool)
    ensures VersionsKept(reg, latest, vs, AddAll(reg, vs, entries, latest).0)
    ensures latest ==> AddAll(reg, vs, entries, latest).0 == vs || |AddAll(reg, vs, entries, latest).0| == 1
    ensures latest && entries != [] && AddAll(reg, vs, entries, latest).1.None? ==> |AddAll(reg, vs, entries, latest).0| == 1
    decreases |entries|
  {
    var c, u := NewVersionClass(reg), NewVersionUuids(reg);
    ExtendsReflexive(vs, c, u);
    if entries != [] {
      match EntryData(reg, entries[0].0, entries[0].1)
      case Err(_) =>
      case Ok(kwargs) =>
        match UpsertVersion(vs, kwargs, latest, c, u)
        case Err(_) =>
        case Ok(next) =>
          AddAllKept(reg, next, entries[1..], latest);
          if latest {
            UpsertVersionLatest(vs, kwargs, c, u);
          } else {
            UpsertVersionAll(vs, kwargs, c, u);
            ExtendsTransitive(vs, next, AddAll(reg, next, entries[1..], latest).0, c, u);
          }
    }
  }

  lemma PageCommitsKept(reg: Registry, vs: seq<Version>, data: Json, latest: bool)
    ensures VersionsKept(reg, latest, vs, PageCommits(reg, vs, data, latest).0)
  {
    ExtendsReflexive(vs, NewVersionClass(reg), NewVersionUuids(reg));
    if data.Arr? {
      AddAllKept(reg, vs, Unkeyed(FirstIf(latest, data.items)), latest);
    }
  }

  /** A page keeps the versions already there; the walk goes on only
      after a page with no error, outside 'latest' mode or when the page
      changed nothing. */
  lemma PageStepKept(reg: Registry, vs: seq<Version>, a: Result<(int, Json)>, latest: bool)
    ensures var (out, e, more) := PageStep(reg, vs, a, latest);
      && VersionsKept(reg, latest, vs, out)
      && (more ==> e.None? && (latest ==> out == vs))
  {
    ExtendsReflexive(vs, NewVersionClass(reg), NewVersionUuids(reg));
    if a.Ok? && a.value.0 == 200 && Truthy(a.value.1) {
      PageCommitsKept(reg, vs, a.value.1, latest);
    }
  }

  /** Every page keeps the versions already there, so the walk does too,
      whatever the pages say. */
  lemma GithubPagesKept(reg: Registry, fetch: PageSource, files: map<string, Entry>, vs: seq<Version>,
                        latest: bool, page: nat, maxPages: nat)
    ensures VersionsKept(reg, latest, vs, GithubPages(reg, fetch, files, vs, latest, page, maxPages).0)
  {
    var step := CommitStep(reg, latest);
    if latest {
      forall us: seq<Version>, a: Result<(int, Json)>
        ensures var st := step(us, a); (|st.0| <= 1 || st.0 == us) && (st.2 ==> st.0 == us)
      {
        PageStepKept(reg, us, a, true);
      }
      PagesLatest(step, fetch, files, vs, page, maxPages);
    } else {
      forall us: seq<Version>, a: Result<(int, Json)>
        ensures Extends(us, step(us, a).0, NewVersionClass(reg), NewVersionUuids(reg))
      {
        PageStepKept(reg, us, a, false);
      }
      PagesExtend(step, NewVersionClass(reg), NewVersionUuids(reg), fetch, files, vs, page, maxPages);
    }
  }

  /** Pages whose every step only appends versions of one kind append
      only those. */
  lemma {:induction false} PagesExtend(step: PageStepper, c: VersionClass, uuids: Spec, fetch: PageSource,
                                       files: map<string, Entry>, vs: seq<Version>, page: nat, maxPages: nat)
    requires forall us: seq<Version>, a: Result<(int, Json)> :: Extends(us, step(us, a).0, c, uuids)
    ensures Extends(vs, Pages(step, fetch, files, vs, page, maxPages).0, c, uuids)
    decreases maxPages + 1 - page
  {
    ExtendsReflexive(vs, c, uuids);
    if page <= maxPages {
      var r := fetch(files, page);
      var st := step(vs, r.0);
      if st.2 {
        PagesExtend(step, c, uuids, fetch, r.1, st.0, page + 1, maxPages);
        ExtendsTransitive(vs, st.0, Pages(step, fetch, r.1, st.0, page + 1, maxPages).0, c, uuids);
      }
    }
  }

  /** Pages whose every step leaves at most one version, and goes on only
      when it changed nothing, leave at most one version or the list they
      started from. */
  lemma {:induction false} PagesLatest(step: PageStepper, fetch: PageSource, files: map<string, Entry>, vs: seq<Version>,
                                       page: nat, maxPages: nat)
    requires forall us: seq<Version>, a: Result<(int, Json)> ::
      (|step(us, a).0| <= 1 || step(us, a).0 == us) && (step(us, a).2 ==> step(us, a).0 == us)
    ensures var out := Pages(step, fetch, files, vs, page, maxPages).0;
      |out| <= 1 || out == vs
    decreases maxPages + 1 - page
  {
    if page <= maxPages {
      var r := fetch(files, page);
      if step(vs, r.0).2 {
        PagesLatest(step, fetch, r.1, vs, page + 1, maxPages);
      }
    }
  }

  lemma PackageWalkKept(reg: Registry, base: string, s: Settings, files: map<string, Entry>, vs: seq<Version>,
                        apiUrl: string, latest: bool, opts: Options, now: int, net: Network)
    ensures VersionsKept(reg, latest, vs, PackageWalk(reg, base, s, files, vs, apiUrl, latest, opts, now, net).0)
  {
    ExtendsReflexive(vs, NewVersionClass(reg), NewVersionUuids(reg));
    var a := RegistryRespond(reg, base, s, files, apiUrl, opts, [], now, net).0;
    if a.Ok? && a.value.0 == 200 {
      var data := a.value.1;
      match Subscript(data, VersionsKey(reg))
      case Err(_) =>
      case Ok(all) =>
        match (if latest then LatestKey(reg, data) else Ok(Null))
        case Err(_) =>
        case Ok(key) =>
          match Entries(all, latest, key)
          case Err(_) =>
          case Ok(entries) => AddAllKept(reg, vs, entries, latest);
    }
  }

  /** get_versions changes nothing but the project's versions, and those
      as VersionsKept says. */
  lemma FetchVersionsKept(reg: Registry, base: string, s: Settings, files: map<string, Entry>, p: Project,
                          latest: bool, maxPages: nat, opts: Options, now: int, net: Network)
    ensures var q := FetchVersions(reg, base, s, files, p, latest, maxPages, opts, now, net).0;
      q == p.(versions := q.versions) && VersionsKept(reg, latest, p.versions, q.versions)
  {
    ExtendsReflexive(p.versions, NewVersionClass(reg), NewVersionUuids(reg));
    match ApiUrl(reg, base, p)
    case Err(_) =>
    case Ok(u) =>
      if reg == GithubApi {
        GithubPagesKept(reg, CommitPages(reg, base, s, u, opts, now, net), files, p.versions, latest, 1, maxPages);
      } else {
        PackageWalkKept(reg, base, s, files, p.versions, u, latest, opts, now, net);
      }
  }

  /** get_project changes nothing but the project's attributes. */
  lemma FetchProjectOnlyAttrs(reg: Registry, base: string, s: Settings, files: map<string, Entry>, p: Project,
                              opts: Options, now: int, net: Network)
    ensures var r := FetchProject(reg, base, s, files, p, opts, now, net).0;
      r.Ok? ==> r.value == p.(attrs := r.value.attrs)
  {
  }

  /** How many pages the page loop requests. */
  function PagesAsked(step: PageStepper, fetch: PageSource, files: map<string, Entry>, vs: seq<Version>,
                      page: nat, maxPages: nat): nat
    decreases maxPages + 1 - page
  {
    if page > maxPages then 0
    else
      var r := fetch(files, page);
      var st := step(vs, r.0);
      if st.2 then 1 + PagesAsked(step, fetch, r.1, st.0, page + 1, maxPages) else 1
  }

  /** A source whose every page is an answer other than 200. */
  ghost predicate AllNon200(fetch: PageSource) {
    forall f: map<string, Entry>, n: nat :: fetch(f, n).0.Ok? && fetch(f, n).0.value.0 != 200
  }

  /** As written, a commits endpoint that never answers 200 (a removed
      repository's 404, say) is asked page after page: the walk changes
      nothing, reports no error, and only the bound ends it. */
  lemma {:induction false} GithubNon200NeverStops(reg: Registry, fetch: PageSource, files: map<string, Entry>,
                                                  vs: seq<Version>, latest: bool, page: nat, maxPages: nat)
    requires AllNon200(fetch)
    ensures GithubPages(reg, fetch, files, vs, latest, page, maxPages).0 == vs
    ensures GithubPages(reg, fetch, files, vs, latest, page, maxPages).1 == None
    ensures PagesAsked(CommitStep(reg, latest), fetch, files, vs, page, maxPages) == if page > maxPages then 0 else maxPages + 1 - page
    decreases maxPages + 1 - page
  {
    if page <= maxPages {
      var r := fetch(files, page);
      assert r.0.Ok? && r.0.value.0 != 200;
      GithubNon200NeverStops(reg, fetch, r.1, vs, latest, page + 1, maxPages);
    }
  }

  /** One page as evidently intended: an answer other than 200 ends the
      walk instead of moving on to the next page. */
  function IntendedPageStep(reg: Registry, vs: seq<Version>, a: Result<(int, Json)>, latest: bool): (seq<Version>, Option<Error>, bool) {
    if a.Ok? && a.value.0 != 200 then (vs, None, false) else PageStep(reg, vs, a, latest)
  }

  function IntendedCommitStep(reg: Registry, latest: bool): PageStepper {
    (vs: seq<Version>, a: Result<(int, Json)>) => IntendedPageStep(reg, vs, a, latest)
  }

  /** The corrected page walk. */
  function IntendedGithubPages(reg: Registry, fetch: PageSource, files: map<string, Entry>, vs: seq<Version>,
                               latest: bool, page: nat, maxPages: nat): (seq<Version>, Option<Error>, map<string, Entry>)
  {
    Pages(IntendedCommitStep(reg, latest), fetch, files, vs, page, maxPages)
  }

  /** The corrected walk stops at the first answer other than 200, having
      asked for that page only. */
  lemma IntendedNon200Stops(reg: Registry, fetch: PageSource, files: map<string, Entry>,
                            vs: seq<Version>, latest: bool, page: nat, maxPages: nat)
    requires page <= maxPages
    requires fetch(files, page).0.Ok? && fetch(files, page).0.value.0 != 200
    ensures IntendedGithubPages(reg, fetch, files, vs, latest, page, maxPages) == (vs, None, fetch(files, page).1)
    ensures PagesAsked(IntendedCommitStep(reg, latest), fetch, files, vs, page, maxPages) == 1
  {
  }

  /** A source that answers 200 or fails, but never another status. */
  ghost predicate NoNon200(fetch: PageSource) {
    forall f: map<string, Entry>, n: nat :: !(fetch(f, n).0.Ok? && fetch(f, n).0.value.0 != 200)
  }

  /** Where no page answers another status than 200, the corrected walk is
      the walk as written. */
  lemma {:induction false} IntendedAgreesOn200(reg: Registry, fetch: PageSource, files: map<string, Entry>,
                                               vs: seq<Version>, latest: bool, page: nat, maxPages: nat)
    requires NoNon200(fetch)
    ensures IntendedGithubPages(reg, fetch, files, vs, latest, page, maxPages) == GithubPages(reg, fetch, files, vs, latest, page, maxPages)
    decreases maxPages + 1 - page
  {
    if page <= maxPages {
      var r := fetch(files, page);
      assert !(r.0.Ok? && r.0.value.0 != 200);
      var st := PageStep(reg, vs, r.0, latest);
      assert IntendedPageStep(reg, vs, r.0, latest) == st;
      IntendedAgreesOn200(reg, fetch, r.1, st.0, latest, page + 1, maxPages);
    }
  }

}
