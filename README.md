# r2c input-set generator, modelled in Dafny

This project models the core of `r2c_isg`, the r2c input-set generator. The
generator builds a **dataset**: a list of **projects**, each holding a list of
**versions**. It fills the dataset from a CSV file or an r2c input-set JSON
file and enriches it from the GitHub, npm and PyPI registry APIs. The APIs sit
behind an on-disk response cache. The dataset can be trimmed, sampled and
sorted, and it exports as an r2c input set: a JSON object whose `inputs` are
`GitRepo`, `GitRepoCommit`, `HttpUrl` or `PackageVersion` items.

The modules follow the package:

| module (file) | models |
|---|---|
| `Outcomes` (outcomes.dfy) | the exceptions the core raises, as a `Result` / `Option` pair |
| `Json` (json.dfy) | JSON values with ordered objects, Python truthiness, `or` |
| `PyStr` (pystr.dfy) | the `str` methods the core uses: `replace`, `strip`, `split`, `lower`, `startswith` |
| `Entities` (entities.dfy) | the uuid-based `Project` and `Version` classes and their registry subclasses |
| `Identity` (identity.dfy) | the linear searches `find_project` and `find_version` |
| `Upsert` (upsert.dfy) | the "find, then update, else create and append" step of the loaders and APIs |
| `Apis` (api.dfy) | `Api` and its `Github`, `Npm` and `Pypi` subclasses: cache, status checks, API urls, `get_project`, `get_versions` |
| `Sorting` (sorting.dfy) | `sort`: the parameter reshuffle and the stable key sorts |
| `Datasets` (datasets.dfy) | the `Dataset` class: `__init__`, `update`, `trim`, `sample`, `sort`, `to_inputset`, `find_project`, the two API walks |
| `CsvLoader` (csv_loader.dfy) | `CsvLoader.load` |
| `R2cLoader` (r2c_loader.dfy) | `R2cLoader.load` |
| `StructureCore` (structure_core.dfy) | `BaseStructure.__eq__` of the dataclass structures |
| `Structures` (structures.dfy) | the dataclass `GithubRepo`, `NpmPackage`, `PypiProject` and their versions: derived properties and the filtering `to_inputset` |
| `Util` (util.dfy) | `get_str`, `url_from_name`, `get_dataset` |
| `Utils` (utils.dfy) | `clean_url` |

Collections take the form the source gives them:
- Project and version objects are values (datatypes).
- `Dataset` and `Api` are classes whose fields change in place.
- A loop in the source is a `method` with a `while` loop. Each such method's
  `ensures` equates its results and new state with a specification function
  of its inputs and old state, or, where randomness leaves the result open
  (`sample`) or the source promises a property (`clear_cache`), states that
  property outright.
- The lemmas state the source's promises about those functions.

A uuid or meta entry of the source is a lambda `lambda p: p.<attr>`. A `Spec`
models such a dict: an ordered list of (key, attribute name) pairs. An entity's
attributes, set by `setattr`, are a map from names to JSON values. The network
is an oracle function from a request to its outcome. The clock is a number of
seconds, read once per call. The cache directory is a map from file path to
entry. The registry subclasses of `Api` are one class with a `registry` tag.

Two places where the code and its own docstring disagree; the model follows the code:
- `clean_url`'s docstring gives a result with a trailing '/'. The code strips
  trailing slashes, so `Utils.ScpStyleAddress` proves no trailing '/'.
- The claim that a cleaned url never ends in '/' has one exception.
  `Utils.TrailingAtGivesBareScheme` shows it: a path whose last character is
  '@' cleans to the bare `https://`.

## Model

| member | source | states |
|---|---|---|
| StructureCore.DifferentTypesNeverEqual | r2c_isg/structures/core.py:59-61 | structures of different concrete types are never equal |
| StructureCore.StructEqCharacterised | r2c_isg/structures/core.py:70-78 | definition of the loop, unfolded: same-type structures are equal iff their id maps share a key and agree on every shared key |
| StructureCore.NoSharedIdsNotEqual | r2c_isg/structures/core.py:65-78 | no shared id key (including an empty id map) means not equal |
| StructureCore.StructEqSymmetric | r2c_isg/structures/core.py:70-75 | equality is symmetric |
| StructureCore.StructEqReflexive | r2c_isg/structures/core.py:70-78 | a structure with a non-empty id map equals itself |
| StructureCore.StructEqNotTransitive | r2c_isg/structures/core.py:70-78 | {name} equals {name, url} and {name, url} equals {url}, yet {name} does not equal {url} |
| Json.Position | r2c_isg/apis/pypi.py:87 | Python's index into a sequence of length n exists iff -n <= i < n, counting negative indices from the end |
| Json.Index | r2c_isg/apis/npm.py:83 | `c[k]`: a dict finds a present key and raises KeyError otherwise (TypeError for a list or dict key); a list takes a number as a Python index, IndexError out of range; non-containers raise TypeError |
| Json.Subscript | r2c_isg/apis/npm.py:78 | `d[k]` with a string key succeeds iff d is a dict holding k, with k's value; KeyError for a missing key, TypeError on a non-dict |
| Json.Iterate | r2c_isg/loaders/core/r2c_loader.py:35 | iterating a list gives its items, a dict its keys, a string its characters; anything else raises TypeError |
| Json.Get | r2c_isg/structures/projects/_project.py:40 | a key's accessor is found exactly when the spec holds that key, and it is the one stored with it |
| Entities.SpecSet | r2c_isg/structures/projects/_project.py:13-18 | `spec[k] = f` makes k map to f, leaves every other key alone, and appends k only when it is new |
| Entities.Attr | r2c_isg/structures/projects/_project.py:72 | reading an attribute succeeds iff it was set, else AttributeError |
| Entities.SpecValue | r2c_isg/structures/projects/_project.py:72 | calling `spec[k]()` raises KeyError for a missing key, else reads the accessor's attribute |
| Entities.UuidEqFalse | r2c_isg/structures/projects/_project.py:69-74 | `__eq__` is False exactly when every uuid of self compares without error and unequal; an empty uuid map gives False |
| Entities.UuidEqTrue | r2c_isg/structures/projects/_project.py:69-74 | `__eq__` is True exactly when some uuid key matches the same key on other, every earlier key having compared unequal |
| Entities.UuidEqMissingKeyRaises | r2c_isg/structures/projects/_project.py:71-72 | a uuid key that other lacks raises KeyError once the walk reaches it |
| Entities.NewProject | r2c_isg/structures/projects/_project.py:8-21 | a new project has no versions, exactly the given uuid and meta specs and the keyword attributes; it exists iff its class's guarantees hold |
| Entities.NewVersion | r2c_isg/structures/versions/github_commit.py:5-9 | a new version has the given uuid spec and the keyword attributes; it exists iff its class's guarantees hold |
| Entities.UpdateProject | r2c_isg/structures/projects/_project.py:23-29 | update sets every keyword to its value, keeps every other attribute, and never changes the specs, versions or class |
| Entities.UpdateVersion | r2c_isg/structures/projects/_project.py:23-29 | the same for a version |
| Entities.UpdateProjectKeepsGuarantees | r2c_isg/structures/projects/_project.py:23-29 | on a valid project update always succeeds, and applying the same kwargs twice equals applying them once |
| Entities.UpdateVersionKeepsGuarantees | r2c_isg/structures/projects/_project.py:23-29 | the same for a valid version |
| Entities.BaseGetName | r2c_isg/structures/projects/_project.py:36-40 | the vanilla get_name yields '' exactly when there is no 'name' uuid, else that uuid's accessor |
| Entities.LastUrlSegment | r2c_isg/structures/projects/github_repo.py:18 | the url's last '/'-segment after stripping '/', with no '/' in it; a non-str url raises AttributeError |
| Entities.GetName | r2c_isg/structures/projects/github_repo.py:12-18 | the name uuid's value if present; else the url's last segment; KeyError('url') when neither uuid exists |
| Entities.VersionInputset | r2c_isg/structures/versions/github_commit.py:11-14 | a commit exports {'commit_hash': commit}, an npm or PyPI version {'version': version}, after the guarantee check; the other classes raise |
| Entities.VersionItemsElementwise | r2c_isg/structures/projects/github_repo.py:39-43 | the comprehension succeeds iff every version exports, item i merging the head with version i's dict |
| Entities.BaseProjectHasNoInputset | r2c_isg/structures/projects/_project.py:61-67 | the vanilla Project raises on to_inputset |
| Entities.DefaultProjectInputset | r2c_isg/structures/projects/default_project.py:5-17 | without a url uuid the guarantee fails; otherwise exactly one HttpUrl item holding the url, whatever the versions |
| Entities.GithubRepoInputsetShape | r2c_isg/structures/projects/github_repo.py:20-43 | a repo with no valid guarantees raises; with no versions it exports one GitRepo; otherwise one GitRepoCommit per version, in order |
| Entities.PackageInputsetShape | r2c_isg/structures/projects/npm_package.py:19-32 | a package with no versions raises; otherwise one PackageVersion per version, carrying get_name(), in order |
| Entities.ConstructorGuarantees | r2c_isg/structures/projects/github_repo.py:5-10 | each class's check_guarantees: DefaultProject needs url, GithubRepo url or name+org, npm/PyPI name or url, commits 'commit', releases 'version' |
| Identity.ProjectIdents | r2c_isg/structures/dataset.py:274-279 | the search sees exactly each project's attributes and uuid spec, position for position |
| Identity.Find | r2c_isg/structures/dataset.py:267-284 | the search loop, copying each candidate's uuid accessors into the probe and then evaluating `probe == candidate` (the candidate's own `__eq__` for a subclass candidate), returns exactly the first-equal position of Scan |
| Identity.VersionIdents | r2c_isg/structures/projects/_project.py:42-59 | the version search sees exactly each version's attributes and uuid spec, position for position |
| Identity.CopySpec | r2c_isg/structures/dataset.py:278-279 | the copy loop computes SpecMerge: each candidate accessor is set on the probe, in the candidate's order |
| Identity.FirstEqualFindsFirst | r2c_isg/structures/projects/_project.py:50-57 | a found position is equal and every earlier one unequal |
| Identity.FirstEqualNone | r2c_isg/structures/projects/_project.py:59 | None iff every comparison is unequal |
| Identity.ScanFindsFirst | r2c_isg/structures/projects/_project.py:42-59 | a found position is the first candidate that equals the probe (the candidate's `__eq__` runs, walking the candidate's uuid keys against the probe), all earlier ones unequal; None iff every comparison is unequal; an error is that of the first failing comparison |
| Identity.CompareNoKeyError | r2c_isg/structures/projects/_project.py:69-74 | a subclass candidate's comparison never raises KeyError, because the probe holds every key of the candidate's spec; only a missing attribute can fail it |
| Identity.ScanNoKeyError | r2c_isg/structures/dataset.py:267-284 | when every candidate is of a subclass of the probe's class, the search fails only with AttributeError, never KeyError |
| Identity.CandidateKeysDecide | r2c_isg/structures/dataset.py:274-282 | a probe with url and name, against a name-only project whose name differs and then a url-only project with the same url, finds the second project |
| Identity.CandidateOrderRaises | r2c_isg/structures/projects/_project.py:69-74 | a probe with only a url, against a project whose spec lists 'name' before 'url', raises AttributeError('name') although the urls match: the candidate's key order decides |
| Identity.ProbeHasCandidateKeys | r2c_isg/structures/dataset.py:278-281 | after the copy, the probe holds every uuid key of candidate i, so the candidate's `__eq__` finds each of its keys on the probe |
| Identity.ProbeSpecGrows | r2c_isg/structures/dataset.py:274-279 | the probe's uuid spec only grows while scanning: keys copied from earlier candidates stay |
| Upsert.UpsertVersionAll | r2c_isg/loaders/file/csv_loader.py:76-92 | outside 'latest' mode the first version that equals the data's probe (by the version's own `__eq__`) is updated in place and the rest kept, or exactly one new version is appended, or the guarantee check refuses it |
| Upsert.UpsertVersionLatest | r2c_isg/apis/npm.py:86-101 | in 'latest' mode a successful step leaves exactly one version, the new one when none matched |
| Upsert.UpsertVersionIn | r2c_isg/apis/github.py:126-142 | the find-update-or-append step as the source runs it computes UpsertVersion |
| Upsert.UpsertProjectFound | r2c_isg/loaders/file/csv_loader.py:55-58 | the project find_project returns (the first that equals the data's probe by its own `__eq__`) is updated where it stands, keeping its class, uuids and versions |
| Upsert.UpsertProjectNew | r2c_isg/loaders/file/csv_loader.py:60-73 | when find_project returns None (no project's `__eq__` matches the probe), one new versionless project is appended, or the guarantee check raises |
| Upsert.UpsertProjectShape | r2c_isg/loaders/core/r2c_loader.py:48-67 | the project list keeps every other project and grows by at most one |
| Upsert.AddRecordShape | r2c_isg/loaders/core/r2c_loader.py:48-86 | one record adds at most one project and extends the concerned project's versions by at most one, in place |
| Apis.Api.constructor | r2c_isg/apis/_api.py:16-22 | the defaults, then update(**kwargs); the registry's base url |
| Apis.Api.Update | r2c_isg/apis/github.py:20-25 | every setting takes the supplied value when it is truthy |
| Apis.UpdateIgnoresFalsy | r2c_isg/apis/_api.py:24-36 | a setting changes exactly when a truthy value for it is passed |
| Apis.Defaults | r2c_isg/apis/_api.py:17-19 | without kwargs: '.requests_cache', one week, caching on, no token |
| Apis.Api.BaseRequest | r2c_isg/apis/_api.py:38-108 | the request's answer and the new cache are those of Respond; the settings are unchanged |
| Apis.FreshEntryServed | r2c_isg/apis/_api.py:53-65 | a cache entry younger than the timeout is returned as stored, without asking the network |
| Apis.NocacheAsksNetwork | r2c_isg/apis/_api.py:51-53 | with caching off for the call, the network is asked whatever the cache holds |
| Apis.FetchedOutcomes | r2c_isg/apis/_api.py:76-108 | transport failures and non-JSON bodies give (0, None), an interrupt propagates, a response gives its status and body |
| Apis.RespondWritesOnly2xx | r2c_isg/apis/_api.py:97-106 | a request changes the cache only at its own path, and only for a 2xx status |
| Apis.Api.ClearCache | r2c_isg/apis/_api.py:110-113 | the files afterwards are exactly the old files outside the cache directory, with their old contents: every file under it is gone and none is added |
| Apis.Api.Request | r2c_isg/apis/github.py:27-61 | the registry's request: its headers, the base request, its status checks |
| Apis.SetHeader | r2c_isg/apis/github.py:33 | `headers[k] = v` holds (k, v) and keeps every other header |
| Apis.GithubSendsToken | r2c_isg/apis/github.py:32-33 | with a token set, GitHub requests carry 'Authorization: token <pat>' and every other header |
| Apis.GithubStatusChecks | r2c_isg/apis/github.py:41-61 | 401 and 403 from GitHub's API raise; anything else passes through |
| Apis.NpmStatusChecks | r2c_isg/apis/npm.py:30-36 | 429 from the npm registry raises; anything else passes through |
| Apis.PypiPassesThrough | r2c_isg/apis/pypi.py:15-28 | PyPI never raises on a status |
| Apis.UrlOrg | r2c_isg/apis/github.py:72 | the second-last '/'-segment of the stripped url, present iff there are at least two segments |
| Apis.PackageApiUrls | r2c_isg/apis/npm.py:38-40 | npm's API url is base/name and PyPI's base/pypi/name/json; get_name's error propagates |
| Apis.GithubApiUrlFromUrl | r2c_isg/apis/github.py:68-74 | a repo known by its url gets base/repos/org/name from that url |
| Apis.GithubApiUrlShortUrl | r2c_isg/apis/github.py:72 | a url with fewer than two segments raises IndexError |
| Apis.GithubApiUrlFromMeta | r2c_isg/apis/github.py:64-66 | with a name uuid and an org meta entry, the url is not consulted |
| Apis.PopKey | r2c_isg/apis/npm.py:57 | `d.pop(k)` returns k's value and the dict without k, or raises KeyError |
| Apis.Merge | r2c_isg/apis/pypi.py:52 | `d.update(e)`: every key of e takes e's value, every other key keeps d's |
| Apis.Api.GetProject | r2c_isg/apis/github.py:76-94 | the project and the cache are those FetchProject gives from the old cache: the API url, the request, and for a 200 answer ProjectData passed to update; only the attributes change |
| Apis.GetProjectNon200 | r2c_isg/apis/npm.py:49-54 | any status but 200 leaves the project unchanged |
| Apis.ProjectDataShape | r2c_isg/apis/pypi.py:48-55 | GitHub's 'url' is stored as 'api_url' and removed, so the repo's own url attribute is untouched; npm drops 'versions'; PyPI drops 'releases' and flattens a dict 'info'; for each registry a missing popped key ('url', 'versions', 'releases', 'info') raises KeyError |
| Apis.PypiInfoNotADict | r2c_isg/apis/pypi.py:52 | an `info` that is not a dict: None, a bool or an int raise TypeError, a non-empty string ValueError; a list of string-keyed pairs updates each key to its last pair's value and keeps every other key |
| Apis.DictUpdateNonDicts | r2c_isg/apis/pypi.py:52 | `d.update(e)` raises TypeError for a non-iterable e and ValueError for a non-empty string; '' and [] change nothing |
| Apis.UpdatePairsLastWins | r2c_isg/apis/pypi.py:52 | `d.update(pairs)` with string keys: a key takes the value of the last pair naming it; unnamed keys keep theirs |
| Apis.Api.AddVersions | r2c_isg/apis/npm.py:85-101 | the entry loop computes AddAll: each entry's data goes to UpsertVersion in turn, the first error stops the walk; the versions are kept as VersionsKept says |
| Apis.AddAllAppend | r2c_isg/apis/npm.py:85-101 | walking a + b is walking a, then b from where a stopped, unless a failed |
| Apis.AddAllKept | r2c_isg/apis/pypi.py:80-112 | the walk keeps every version in place and appends only new ones; in 'latest' mode it leaves one version after a successful walk of an entry |
| Apis.Api.GetVersions | r2c_isg/apis/github.py:96-147 | the project, error and cache are those FetchVersions gives: GitHub's page walk or the npm/PyPI answer walk; only the versions change, as VersionsKept says |
| Apis.Api.GithubVersions | r2c_isg/apis/github.py:104-147 | the page loop computes GithubPages: page i from 1, a non-200 page skipped, a falsy page stops, a non-empty page's commits (only the first in 'latest' mode) upserted, 'latest' stops after it |
| Apis.PageStepKept | r2c_isg/apis/github.py:110-147 | one page keeps the versions already there; the walk goes on only after an error-free page, and in 'latest' mode only after a page that changed nothing |
| Apis.GithubPagesKept | r2c_isg/apis/github.py:104-147 | whatever the pages say, the page walk keeps the versions as VersionsKept says |
| Apis.PagesExtend | r2c_isg/apis/github.py:104-147 | a page walk whose every step keeps the versions and appends new ones keeps them too |
| Apis.PagesLatest | r2c_isg/apis/github.py:144-147 | a page walk whose steps leave at most one version, and go on only when nothing changed, ends with at most one version or none changed |
| Apis.GithubNon200NeverStops | r2c_isg/apis/github.py:109-114 | as written: when every page answers non-200 the walk asks for every page it is allowed and ends with the versions unchanged and no error, however many pages it is allowed, so the unbounded source loop never ends |
| Apis.IntendedNon200Stops | r2c_isg/apis/github.py:109-114 | corrected: a non-200 page ends the walk after that one request, with the versions unchanged and no error |
| Apis.IntendedAgreesOn200 | r2c_isg/apis/github.py:104-147 | the corrected walk is the source's walk whenever no page answers non-200 |
| Apis.Api.PackageVersions | r2c_isg/apis/pypi.py:61-112 | the result and cache are those of PackageWalk: one request; a non-200 answer changes nothing; `data['versions']`/`data['releases']` and the latest key by subscripts, then Entries walked by AddAll |
| Apis.PackageWalkKept | r2c_isg/apis/npm.py:66-101 | the npm/PyPI walk keeps the versions as VersionsKept says |
| Apis.FetchVersionsKept | r2c_isg/apis/github.py:96-147 | get_versions changes nothing of the project but its versions, kept as VersionsKept says |
| Apis.FetchProjectOnlyAttrs | r2c_isg/apis/npm.py:42-60 | get_project changes nothing of the project but its attributes |
| Apis.EntriesShape | r2c_isg/apis/npm.py:80-85 | 'latest' keeps only the entry the latest key names, or raises KeyError; otherwise every item of a dict in order, and AttributeError('items') on a non-dict |
| Apis.ReleaseDataShape | r2c_isg/apis/pypi.py:86-94 | a release uses the first dict of its list, or {} when the list is empty, with 'version' set to the version string |
| Datasets.MetaUpdateFields | r2c_isg/dataset.py:44-53 | a metadata field takes the passed value exactly when its key was passed, even a falsy one |
| Datasets.MetaUpdateCompose | r2c_isg/dataset.py:44-53 | two updates are one update with the later values winning; an update repeated is the update |
| Datasets.RegistryApi | r2c_isg/dataset.py:40-42 | only 'github', 'npm' and 'pypi' select an API client, each its own |
| Datasets.ProjectClassFor | r2c_isg/loaders/file/csv_loader.py:71 | no registry (or an unknown one) gives DefaultProject, else the registry's project class |
| Datasets.VersionClassFor | r2c_isg/loaders/file/csv_loader.py:91 | no registry (or an unknown one) gives DefaultVersion, else the registry's version class |
| Datasets.Dataset.constructor | r2c_isg/dataset.py:20-42 | no projects; author and email from git, then update(**kwargs); an API client exactly for a known registry |
| Datasets.Dataset.Create | r2c_isg/dataset.py:32-36 | an unknown registry name raises InvalidRegistry, and otherwise a fresh, empty dataset is built |
| Datasets.Dataset.Update | r2c_isg/structures/dataset.py:48-57 | only the metadata changes, as MetaUpdate says |
| Datasets.MetaFieldsKeys | r2c_isg/dataset.py:322-328 | a metadata entry is written exactly when its field is truthy |
| Datasets.AllInputsProperties | r2c_isg/dataset.py:330-334 | the export fails iff some project fails, with the first failure's error, and exporting a + b concatenates the two exports |
| Datasets.DatasetInputsetShape | r2c_isg/structures/dataset.py:168-192 | export succeeds iff name and version are truthy and every project exports; it starts with name and version and ends with the inputs |
| Datasets.ExportMeta | r2c_isg/dataset.py:322-328 | the metadata dict written by the `if value:` statements |
| Datasets.ExportAll | r2c_isg/dataset.py:331-334 | the extend loop computes AllInputs |
| Datasets.AddIfTruthy | r2c_isg/dataset.py:322-328 | one `if value:` statement writes the field exactly when it is truthy |
| Datasets.Dataset.ToInputset | r2c_isg/dataset.py:312-336 | to_inputset returns DatasetInputset of the metadata and projects |
| Datasets.Dataset.FindProject | r2c_isg/structures/dataset.py:267-284 | the first project that equals the probe, by the project's own `__eq__`, as Scan says |
| Datasets.Prefix | r2c_isg/dataset.py:308 | the Python slice `s[:n]`: min(n, len) elements for n >= 0, len + n (at least 0) for negative n, always a prefix |
| Datasets.PrefixIdempotent | r2c_isg/functions/trim.py:12 | cutting again with the same n >= 0 changes nothing |
| Datasets.Dataset.Trim | r2c_isg/dataset.py:291-310 | on versions every list is cut to its first n, on projects the list to its first n; dropped is what was removed |
| Datasets.TrimVersions | r2c_isg/functions/trim.py:8-13 | the on_versions loop computes TrimmedVersions, dropped = versions before minus after |
| Datasets.TrimmedVersions | r2c_isg/functions/trim.py:10-13 | each project keeps the Prefix of its versions, everything else unchanged |
| Datasets.TrimmedVersionsTotal | r2c_isg/functions/trim.py:10-13 | trimming never adds a version and leaves at most n per project |
| Datasets.TrimmedVersionsTwice | r2c_isg/functions/trim.py:10-13 | trimming twice with the same n is trimming once |
| Datasets.TotalVersionsBound | r2c_isg/dataset.py:296-300 | at most n versions per project means at most n times the number of projects in total |
| Datasets.PickSubBag | r2c_isg/dataset.py:177 | drawing distinct positions takes each element at most as often as the population holds it |
| Datasets.SampleShape | r2c_isg/dataset.py:186 | a sample has exactly n elements, drawn from the population |
| Datasets.SampleOf | r2c_isg/functions/sample.py:20 | `random.sample(s, n)` for n not above the population returns a sample |
| Datasets.SampleVersions | r2c_isg/functions/sample.py:15-21 | the on_versions loop samples every project with more than n versions, keeps the others, and counts what was dropped |
| Datasets.SampledVersionsShape | r2c_isg/dataset.py:174-178 | after sampling versions each project has min(n, its count) versions, drawn from its own |
| Datasets.Dataset.Sample | r2c_isg/dataset.py:164-192 | on versions every project is sampled; on projects n < len samples, otherwise raises; Python's ValueError for negative n |
| Datasets.Dataset.Sort | r2c_isg/dataset.py:194-289 | an empty list raises IndexError; otherwise the caller's list is prefixed and the passes run over the reorganised list |
| Datasets.RunPasses | r2c_isg/dataset.py:213-285 | the walk over the reorganised parameters computes Passes |
| Datasets.SortProjects | r2c_isg/dataset.py:281 | the project sort computes ProjectPass |
| Datasets.SortVersions | r2c_isg/dataset.py:284-285 | the version sort loop computes VersionPass |
| Datasets.Dataset.GetProjectsMeta | r2c_isg/dataset.py:380-393 | without an API it raises; otherwise projects, error and cache are those of MetaWalk over get_project, and only attributes change |
| Datasets.Dataset.GetProjectVersions | r2c_isg/dataset.py:395-409 | without an API it raises; otherwise projects, error and cache are those of VersionsWalk over get_versions; only versions change, kept as VersionsKept says |
| Datasets.GetEachProject | r2c_isg/dataset.py:387-390 | the project loop computes MetaWalk: get_project on each project in turn with the cache threaded through, the first error ending the walk |
| Datasets.GetEachVersions | r2c_isg/dataset.py:402-405 | the project loop computes VersionsWalk: get_versions on each project in turn, the failing project keeping what its walk did |
| Datasets.ProjectFetchAttrsOnly | r2c_isg/apis/github.py:76-94 | get_project changes only a project's attributes |
| Datasets.VersionFetchVersionsOnly | r2c_isg/apis/github.py:96-147 | get_versions changes only a project's versions, kept as VersionsKept says |
| Datasets.MetaWalkShape | r2c_isg/dataset.py:387-390 | the metadata walk keeps the number of projects and changes only attributes; after an error the later projects are untouched |
| Datasets.VersionsWalkShape | r2c_isg/dataset.py:402-405 | the versions walk keeps the number of projects and changes only versions, kept as VersionsKept says |
| Datasets.VersionsWalkKept | r2c_isg/dataset.py:402-405 | each project's versions change only as VersionsKept says |
| Datasets.VersionsWalkStops | r2c_isg/dataset.py:402-405 | after an error every later project is as it was |
| Sorting.Prefixed | r2c_isg/functions/sort.py:12-13 | 'asc' is inserted in front unless the list already starts with an order |
| Sorting.Reverse | r2c_isg/functions/sort.py:15 | `params[::-1]` |
| Sorting.RegroupInPlace | r2c_isg/functions/sort.py:17-22 | the pop/insert index loop computes Regroup |
| Sorting.Organise | r2c_isg/dataset.py:198-210 | an empty list raises IndexError; otherwise the prefixed list and the list the passes walk |
| Sorting.RegroupPermutation | r2c_isg/functions/sort.py:18-22 | regrouping only moves tokens |
| Sorting.RegroupStartsWithOrder | r2c_isg/functions/sort.py:18-22 | once an order token lies ahead, the regrouped list starts with one |
| Sorting.OrganisedShape | r2c_isg/functions/sort.py:12-22 | the walked list is a permutation of the prefixed list and starts with an order |
| Sorting.ParseAttrKey | r2c_isg/functions/sort.py:41-50 | 'attr' sorts projects on an attribute, 'v.attr' versions |
| Sorting.ParseSpecKey | r2c_isg/dataset.py:229-258 | 'uuids.k' and 'meta.k', with or without 'v.', sort on that uuid or meta entry |
| Sorting.ParseMissingPart | r2c_isg/dataset.py:238-258 | 'uuids' or 'meta' without a key, and a bare 'v', raise IndexError |
| Sorting.FieldValue | r2c_isg/dataset.py:241-274 | a missing uuid or meta key raises; a plain key naming the element's version list, uuid or meta dict, or a method, gives a value that cannot be ordered; any other missing attribute is ''; a string attribute is lower-cased |
| Sorting.StringKey | r2c_isg/dataset.py:270-274 | keys are compared as strings; any other key value is refused |
| Sorting.SortListCorrect | r2c_isg/dataset.py:281 | a sort succeeds iff every key computes; it permutes the list into key order, elements sharing a key kept in order |
| Sorting.LeTotal | r2c_isg/dataset.py:281 | the string order on keys is total |
| Sorting.LeTransitive | r2c_isg/dataset.py:281 | the string order on keys is transitive |
| Sorting.SortByKeySorted | r2c_isg/dataset.py:281 | the key sort leaves the keys in order and permutes the elements |
| Sorting.SortByKeyStable | r2c_isg/dataset.py:281 | the key sort keeps elements with equal keys in their original order |
| Sorting.SortListPermutes | r2c_isg/dataset.py:285 | a successful sort keeps the length and permutes the list |
| Sorting.ProjectPassSorts | r2c_isg/functions/sort.py:93-95 | a project pass succeeds iff every key computes, and leaves the projects stably sorted |
| Sorting.ProjectPassPermutes | r2c_isg/functions/sort.py:95 | a project pass permutes the projects |
| Sorting.VersionPassShape | r2c_isg/functions/sort.py:97-99 | a version pass keeps the project list and changes only the order of each project's versions |
| Sorting.VersionPassSorts | r2c_isg/functions/sort.py:98-99 | a version pass fails iff some project's versions cannot be keyed; otherwise every project's versions are sorted |
| Sorting.VersionPassKeepsBags | r2c_isg/dataset.py:284-285 | a version pass leaves every project but the order of its versions |
| Sorting.PassesPermute | r2c_isg/dataset.py:213-285 | the whole sort preserves the projects and, in each, the versions |
| CsvLoader.HeaderRow | r2c_isg/loaders/file/csv_loader.py:36 | `[h[1:] for h in row]`: each header without its first character |
| CsvLoader.RowDataProjectKeys | r2c_isg/loaders/file/csv_loader.py:44-52 | a key is in the project data iff some cell's header, without 'v.', names it |
| CsvLoader.RowDataVersionKeys | r2c_isg/loaders/file/csv_loader.py:44-52 | a key is in the version data iff some cell's header is 'v.' + key |
| CsvLoader.RowDataValues | r2c_isg/loaders/file/csv_loader.py:45-52 | the value of a key is the last cell with that header |
| CsvLoader.NewSpecs | r2c_isg/loaders/file/csv_loader.py:62-68 | name and url uuids, the org meta entry, and the version and commit uuids exist iff those columns were given, each reading its own attribute |
| CsvLoader.ReadRows | r2c_isg/loaders/file/csv_loader.py:30-92 | the row loop computes LoadRows |
| CsvLoader.Load | r2c_isg/loaders/file/csv_loader.py:11-94 | the headers from fileargs (a non-str raises), the dataset from kwargs but fileargs, then the rows |
| CsvLoader.LoadRowsGrows | r2c_isg/loaders/file/csv_loader.py:55-73 | the projects grow by at most one per row, and none is removed |
| CsvLoader.UserHeadersStay | r2c_isg/loaders/file/csv_loader.py:31-36 | with user-defined headers, header rows in the file change nothing |
| CsvLoader.DataRows | r2c_isg/loaders/file/csv_loader.py:31 | the rows that are not header rows |
| CsvLoader.OnlyHeaderRows | r2c_isg/loaders/file/csv_loader.py:31-36 | a file of header rows only loads no project |
| CsvLoader.DefaultHeadersNeedRegistry | r2c_isg/loaders/file/csv_loader.py:22-72 | with the default headers and no registry the first data row's DefaultProject lacks a url and raises |
| R2cLoader.DictGet | r2c_isg/loaders/core/r2c_loader.py:29-32 | `data.get(k, None)`: None for a missing key, AttributeError on a non-dict |
| R2cLoader.LoadedMetaFields | r2c_isg/loaders/core/r2c_loader.py:24-32 | a metadata field already set is kept; an unset one is read from the file |
| R2cLoader.FullMetaKept | r2c_isg/loaders/core/r2c_loader.py:24-32 | with every field set the file's metadata is never read |
| R2cLoader.PartKeys | r2c_isg/loaders/core/r2c_loader.py:39-46 | the project and version data hold exactly the listed keys present in the input, with their input values |
| R2cLoader.SplitInput | r2c_isg/loaders/core/r2c_loader.py:41-46 | the key loop computes the two parts |
| R2cLoader.NewSpecs | r2c_isg/loaders/core/r2c_loader.py:56-82 | name reads package_name; url reads url, else repo_url; version reads version and commit reads commit_hash, each only when given |
| R2cLoader.ReadInput | r2c_isg/loaders/core/r2c_loader.py:38-86 | one input computes InputRecord |
| R2cLoader.ReadInputs | r2c_isg/loaders/core/r2c_loader.py:35-86 | the input loop computes LoadInputs |
| R2cLoader.ReadData | r2c_isg/loaders/core/r2c_loader.py:22-86 | the metadata, then the inputs, as LoadData says |
| R2cLoader.Load | r2c_isg/loaders/core/r2c_loader.py:12-88 | an invalid registry raises; otherwise the dataset's metadata and projects are those LoadData gives from an emptied project list |
| R2cLoader.LoadInputsGrows | r2c_isg/loaders/core/r2c_loader.py:48-67 | the projects grow by at most one per input |
| R2cLoader.LoadInputsAppend | r2c_isg/loaders/core/r2c_loader.py:35-86 | loading a + b is loading a and then b from its result |
| R2cLoader.FirstInputNeedsUrl | r2c_isg/loaders/core/r2c_loader.py:56-66 | without a registry an input with no url or repo_url makes a DefaultProject that raises |
| R2cLoader.InputsMustBeDicts | r2c_isg/loaders/core/r2c_loader.py:41 | a non-dict input raises AttributeError('items') |
| Structures.NoneIfEmpty | r2c_isg/structures/github.py:16 | definition: `x or None` on a string |
| Structures.FirstStr | r2c_isg/structures/npm.py:13-16 | the first non-empty string of the two lookups, else None |
| Structures.Commit | r2c_isg/structures/github.py:12-16 | the data 'commit', else the metadata 'sha', else None; never '' |
| Structures.VersionOf | r2c_isg/structures/npm.py:12-16 | the data 'version', else the metadata 'version', else None |
| Structures.PackageName | r2c_isg/structures/npm.py:23-30 | the data name, else the name parsed from the data url, else the metadata name, else None |
| Structures.OrNone | r2c_isg/structures/github.py:38 | definition: `(...) or None` |
| Structures.NameUrl | r2c_isg/util.py:42-43 | definition: None for '', prefix + name otherwise |
| Structures.NameUrlIsUrlFromName | r2c_isg/util.py:42-43 | NameUrl is the corrected url_from_name on the GitHub template |
| Structures.GithubUrl | r2c_isg/structures/github.py:23-38 | the data url, else an org/name name's url, else org/name's url, else html_url, else full_name's url |
| Structures.GithubUrlAsWrittenDropsDataUrl | r2c_isg/structures/github.py:32-38 | as written a data url is lost when the data holds no name and the metadata no html_url or full_name, while the corrected chain returns it |
| Structures.GithubUrlAsWrittenRaises | r2c_isg/structures/github.py:32-38 | as written an org/name name with no data url raises |
| Structures.KeptIsFilter | r2c_isg/structures/npm.py:49-58 | the kept versions are versions of the right class with a value (or include_invalid), never more than there were |
| Structures.KeptAllWhenIncluded | r2c_isg/structures/npm.py:49-58 | with include_invalid every version of the right class is kept |
| Structures.CommitItemsElementwise | r2c_isg/structures/github.py:83-87 | item i is the GitRepoCommit of kept version i |
| Structures.PackageItemsElementwise | r2c_isg/structures/pypi.py:60-64 | item i is the PackageVersion of kept version i |
| Structures.GithubRepoInputset | r2c_isg/structures/github.py:59-89 | the filter loop's output equals the export built on the corrected url, and equals the as-written export whenever the as-written url property agrees with the corrected one |
| Structures.GithubRepoItemsAsWrittenDiffers | r2c_isg/structures/github.py:32-38 | with the url property as written, a repo holding only a data url and no versions exports [] where the corrected export gives one GitRepo, and an org/name name without a url makes to_inputset raise KeyError('name') |
| Structures.CommitInputs | r2c_isg/structures/github.py:71-89 | the filter loop appends exactly the items of the kept commits |
| Structures.PackageInputset | r2c_isg/structures/npm.py:42-66 | to_inputset computes PackageItemsOf |
| Structures.PackageVersionInputs | r2c_isg/structures/pypi.py:48-66 | the filter loop appends exactly the items of the kept versions |
| Structures.GithubRepoItemsShape | r2c_isg/structures/github.py:59-89 | for both the corrected and the as-written url: a url-less repo exports [] unless include_invalid; a versionless one exactly one GitRepo; otherwise at most one item per version; as written, an error of the url property is raised |
| Structures.PackageItemsShape | r2c_isg/structures/npm.py:42-66 | a nameless package exports [] unless include_invalid; never more items than versions |
| Util.GetStr | r2c_isg/util.py:31-34 | definition: the stored value when it is a str, else '' |
| Util.UrlFromNameAsWrittenRaises | r2c_isg/util.py:42-43 | as written, a {name} template and a non-empty name raise KeyError('name') |
| Util.UrlFromNameFills | r2c_isg/util.py:42-43 | corrected: None for '', the template filled with the name otherwise |
| Util.GetDataset | r2c_isg/util.py:46-54 | definition: the context's dataset when present, else an error |
| Utils.Cleaned | utils.py:22-37 | the rewritten url never ends in '/' |
| Utils.Qualify | utils.py:39-51 | defined iff 2 or 3 segments; 2 segments get 'github.com/', 3 are kept |
| Utils.HttpsAfterAt | utils.py:53-56 | 'https://' plus the text after the last '@', which ends the input |
| Utils.CleanUrlShape | utils.py:14-60 | None outside the 2/3-segment rule; otherwise 'https://' + a tail of the qualified path with no '@', and no trailing '/' unless bare |
| Utils.StripDotGitNone | utils.py:11-22 | a url that does not end in '.git', nor in a newline, loses nothing to the regex |
| Utils.CleanedUnchanged | utils.py:22-37 | a path in which no token occurs as a substring, not ending in '/', a newline or '.git', is left as it is |
| Utils.RewriteNoToken | utils.py:23-36 | a string in which none of the thirteen tokens occurs passes the replace chain unchanged |
| Utils.NoTokenInNames | utils.py:23-36 | every token holds one of ' ', '+', ':', '.' and '@', so a path of letters, digits, '-', '_' and '/' holds none |
| Utils.QualifyTwoSegments | utils.py:43-45 | org/repo gets the GitHub host |
| Utils.QualifyThreeSegments | utils.py:46-48 | host/org/repo is kept |
| Utils.HttpsWithoutAt | utils.py:53-56 | with no '@' the whole path is kept |
| Utils.HttpsAfterFinalAt | utils.py:53-56 | a final '@' keeps nothing after it |
| Utils.OrgRepoShorthand | utils.py:43-56 | 'org/repo', with no separator in either part, no token anywhere and no '.git' ending, becomes 'https://github.com/org/repo' |
| Utils.TrailingAtGivesBareScheme | utils.py:53-56 | 'org/repo@' becomes the bare 'https://' |
| Utils.ScpStyleAddress | utils.py:16-56 | 'git@github.com:org/repo', under the same conditions, becomes 'https://github.com/org/repo' |
| Utils.NamedOrgRepo | utils.py:14-56 | for org and repo names of letters, digits, '-' and '_', both 'org/repo' and 'git@github.com:org/repo' become 'https://github.com/org/repo' |
| Utils.BlueprintShorthand | utils.py:44 | the comment's example 'palantir/blueprint' becomes 'https://github.com/palantir/blueprint' |
| Utils.GulpUglifyScp | utils.py:18-19 | the docstring's example 'git@github.com:terinjokes/gulp-uglify' becomes 'https://github.com/terinjokes/gulp-uglify', without the trailing '/' the docstring shows |
| Utils.ScpCleaned | utils.py:23-37 | the rewrites turn 'git@github.com:' + path into 'github.com/' + path |

## Left out

- md5 over the request text is the identity on that text: distinct requests are taken to have distinct cache files.
- The clock is a parameter, a number of seconds, read once per request. Parsing and formatting datetimes is not modelled.
- The network, its retries and back-off are an oracle parameter of each request. It yields a failure, an interrupt, a non-JSON body or a status with JSON.
- The JSON format of cache files is not modelled. An entry holds the status, the JSON and the time it was written.
- `os.makedirs` in `update` is not modelled: the cache directory always exists in the model.
- Apis.Api.GithubVersions: GitHub pagination has no bound in the source. The model fetches at most `maxPages` pages (a parameter of get_versions and of get_project_versions), so a paging that never ends is not modelled. Because a non-200 page is skipped without ending the loop, an endpoint that never answers 200 keeps the source asking forever; the model follows the code as written and states that hang in `Apis.GithubNon200NeverStops` (see "## Findings").
- Datasets.Dataset.FindProject: models find_project of r2c_isg/structures/dataset.py:267-284, whose probe is the vanilla project of r2c_isg/structures/projects. The copy at r2c_isg/dataset.py:411-428 builds its probe from the abstract `Project` of r2c_isg/structures/core.py (imported at r2c_isg/dataset.py:10), so `Project(**kwargs)` raises TypeError on every call; that copy's behaviour is not modelled.
- Apis.ProjectDataShape: states the PyPI case for a dict 'info' only. Apis.PypiInfoNotADict states the non-dict cases: a scalar, a string, and a list of string-keyed pairs. ProjectData also models a list whose pairs are two-character strings or two-key dicts, or whose keys are not strings, but no lemma states those cases.
- Structures.GithubRepoInputset, Structures.GithubRepoItemsShape: the export the rest of the model uses is built on the corrected `GithubUrl`, not on the url property as written (r2c_isg/structures/github.py:32-38). As written, a repo whose data hold only a url and no versions exports `[]` instead of one GitRepo, and a repo whose data name is an org/name pair without a url raises KeyError('name'). `Structures.GithubRepoItemsAsWritten` models the as-written export, and `Structures.GithubRepoItemsAsWrittenDiffers` states both outcomes.
- Sorting.StringKey: keys are compared as strings only. A key value that is not a str, such as an int that Python would order, is refused with an error, because Python's ordering of non-string and mixed values is not modelled.
- Sorting.FieldValue: `getattr(o, attr, '')` reads any attribute of the object. The model lists the members a plain key can hit (`versions`, `uuids_`, `meta_` and the structure's methods) and refuses them as unorderable, as Sorting.StringKey does for every non-str key. In the source the TypeError comes only when two such keys are compared, so a list of one element still sorts. Python's own object attributes (`__class__`, `__dict__`, `__module__` and the like) are not modelled: a key naming one of them counts as a missing attribute, ''.
- Sorting.FieldValue: lower-casing folds 'A'-'Z' only. Python's `str.lower()` also folds non-ASCII letters such as 'É', so two attributes that differ only in such letters may sort differently.
- Lambdas and `setattr` are an attribute map plus a spec of attribute names. `MethodType` rebinding is the copy of those names into the probe.
- Entities.UpdateProject, Entities.NewProject, Entities.UpdateVersion, Entities.NewVersion: every keyword becomes an ordinary attribute. In the source `update` calls `setattr` for every keyword (r2c_isg/structures/projects/_project.py:23-26), so a keyword named `versions`, `uuids_`, `meta_` or after a method (`update`, `check_guarantees`, `get_name`, `find_version`, `to_inputset`) replaces that field or method. For example, a CSV column headed "versions" turns the version list into a string, and the later `project.versions.append` (r2c_isg/loaders/file/csv_loader.py:92) raises AttributeError; npm.py:57 pops 'versions' to avoid this. The model keeps attributes apart from versions and specs, so these overwrites and their later errors are not modelled.
- Projects and versions are values. Two places never share one object, so aliasing is not modelled.
- The `Version` base class and `DefaultVersion` are not part of this model. They are taken to behave like `Project`: `DefaultVersion` guarantees nothing and has no input-set form.
- `project_map`, `version_map` and `api_map` are not part of this model. They are taken to map 'github', 'npm' and 'pypi' to their classes.
- `random.seed` is ignored. `random.sample` is any choice of n distinct positions.
- The counts that `trim` and `sample` print are not part of the result. `Datasets.Dataset.Trim` returns the dropped count.
- `print` and `tqdm` are not modelled.
- `trim` and `sample` with a negative n model Python's negative slice and `random.sample`'s ValueError. They are not excluded.
- File reading is not modelled. The CSV loader takes the parsed rows and the r2c loader the parsed JSON value.
- JSON objects are ordered lists of entries. The model's lookup finds the first entry of a key, while Python's `json.load` keeps the last value of a duplicate key. Objects are therefore taken to have distinct keys.
- Json.PyEq: numbers compare by value only at the top level. Inside lists and dicts values compare structurally, so `[True]` and `[1]` differ, and two dicts with the same items in different orders differ. Python compares element by element and ignores dict order. Uuid equality (`Entities.UuidEq`, `StructureCore.StructEq`) inherits this for list and dict uuid values.
- JSON floats are not modelled: `Json` has no float case, so a float in a registry answer or a float cache timeout cannot be represented.
- `Dataset.load_file`, `load_web`, `restore`, `backup`, `import_inputset`, `export_inputset` and `to_json` are file, pickle and introspection wrappers, and are not modelled.
- The function registration loop of r2c_isg/structures/dataset.py:44-46 is not modelled. `r2c_isg/functions/trim.py`, `sample.py` and `sort.py` are the same code as the `Dataset` methods, and one model serves both versions of each method except find_project (see the `Datasets.Dataset.FindProject:` line).
- `name_from_url` is a regex match. It is a parameter `parse` of `Structures.PackageName`.
- `GithubRepo.full_name` is a regex chain, and no core operation uses it. It is not modelled.
- The `url` properties of `NpmPackage` and `PypiProject` are not used by `to_inputset`. They are not modelled.
- `get_name` and `get_email` run git. Their results are parameters of the dataset's constructor.
- Utils.ScpStyleAddress: proved for org and repo parts that hold no '/', '@', ':' or newline, in which no token of the replace chain occurs as a substring, and whose repo does not end in '.git'. A name such as 'www.x' or 'a git+b', which the chain rewrites, is not covered. `Utils.NamedOrgRepo` discharges the conditions for every name of letters, digits, '-' and '_'.
- Utils.OrgRepoShorthand: proved under the same conditions as `Utils.ScpStyleAddress`.

## Findings

| source | as written | input that shows it | evidently intended | confidence | as-written member | corrected member |
|---|---|---|---|---|---|---|
| r2c_isg/util.py:43 | `url_literal.format(name)` passes the name positionally to a `{name}` template | any non-empty name, e.g. 'a/b' with 'https://github.com/{name}': KeyError('name') | `url_literal.format(name=name)`, giving 'https://github.com/a/b' | not executed | Util.UrlFromNameAsWrittenRaises | Util.UrlFromNameFills |
| r2c_isg/structures/github.py:32-38 | the conditional expression binds loosest, so the whole `or` chain is split by `if '/' in name` | data {'url': 'https://github.com/a/b'} with no name: url is None; data {'name': 'a/b'} with no url: KeyError | a fallback chain in which a data url always wins | not executed | Structures.GithubUrlAsWrittenDropsDataUrl | Structures.GithubUrl |
| r2c_isg/apis/github.py:109-114 | a non-200 page only `continue`s to the next page, so it never reaches the empty-page `break` | a commits endpoint that answers 404 (or 409, or 5xx) to every page: the loop asks for page after page and never ends | a bound on the walk; one plausible fix, modelled here, ends the walk at a non-200 page and keeps the versions gathered so far (the source's "skip this page" comment suggests walking on was meant, which still needs a page bound) | not executed | Apis.GithubNon200NeverStops | Apis.IntendedNon200Stops |
