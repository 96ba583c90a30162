/**
 * The list logic of the HTTP API: the tracked-repository configuration file
 * `config/tracked_repos.json` and the reshaping of the trending list.
 *
 * The configuration file is a value: absent, unreadable as JSON, or a
 * config whose `repositories` key may be absent. An entry is kept whole;
 * only its `full_name` is read, and `None` marks an entry without that key
 * (reading it raises `KeyError`). Every handler wraps its body in
 * `except Exception`, so whatever it raises becomes a 500 response.
 */
module ApiServer {
  import opened Wrappers
  import opened Text
  import opened GithubTracker

  datatype Entry = Entry(fullName: Option<string>)
  datatype Config = Config(repositories: Option<seq<Entry>>)
  datatype ConfigFile = Missing | Malformed | Present(config: Config)

  /** What a handler body raises before the generic handler catches it. */
  datatype Failure = NoTrackedRepositories | MissingFullName | BadJson

  /** A handler's answer: a message, or an HTTP error status. */
  datatype Reply = Done(message: string) | HttpError(status: int)

  const TrackedMessage := "Repository tracked successfully"
  const UntrackedMessage := "Repository untracked successfully"
  const ServerError := 500

  /** `config.get('repositories', [])`. */
  function RepoList(c: Config): seq<Entry> {
    c.repositories.GetOr([])
  }

  predicate AllNamed(list: seq<Entry>) {
    forall i :: 0 <= i < |list| ==> list[i].fullName.Some?
  }

  predicate IsTracked(list: seq<Entry>, name: string) {
    exists i :: 0 <= i < |list| && list[i].fullName == Some(name)
  }

  /** No two entries share a full name. */
  predicate NoDuplicates(list: seq<Entry>) {
    forall i, j :: 0 <= i < j < |list| ==> list[i].fullName != list[j].fullName
  }

  /**
   * `any(repo['full_name'] == name for repo in repo_list)`: stops at the
   * first match; `None` when an entry before it has no `full_name`.
   */
  function Scan(list: seq<Entry>, name: string): (r: Option<bool>)
    ensures AllNamed(list) ==> r == Some(IsTracked(list, name))
    ensures r == Some(true) ==> IsTracked(list, name)
    ensures r == Some(false) ==> AllNamed(list) && !IsTracked(list, name)
    ensures r == None ==> !AllNamed(list)
  {
    if list == [] then Some(false)
    else if list[0].fullName.None? then None
    else if list[0].fullName == Some(name) then Some(true)
    else
      var rest := Scan(list[1..], name);
      assert forall i :: 1 <= i < |list| ==> list[i] == list[1..][i - 1];
      rest
  }

  /** `[repo for repo in repo_list if repo['full_name'] != name]`, for entries that all have a full name. */
  function Without(list: seq<Entry>, name: string): (r: seq<Entry>)
    ensures |r| <= |list|
    ensures forall e :: e in r <==> e in list && e.fullName != Some(name)
  {
    if list == [] then []
    else
      var last := list[|list| - 1];
      assert list == list[..|list| - 1] + [last];
      Without(list[..|list| - 1], name) + (if last.fullName != Some(name) then [last] else [])
  }

  /** The list after `track_repo` adds a name it does not find. */
  function Added(list: seq<Entry>, name: string): seq<Entry> {
    list + [Entry(Some(name))]
  }

  /** `track_repo(name)`: the configuration file afterwards and the reply. */
  function Track(file: ConfigFile, name: string): (r: (ConfigFile, Reply))
    ensures r.1.HttpError? ==> r.0 == file && r.1.status == ServerError
    ensures r.1.Done? ==> r.1.message == TrackedMessage
  {
    match file
    case Malformed => (file, HttpError(ServerError))
    case Missing => (Present(Config(Some(Added([], name)))), Done(TrackedMessage))
    case Present(c) =>
      match Scan(RepoList(c), name)
      case None => (file, HttpError(ServerError))
      case Some(true) => (file, Done(TrackedMessage))
      case Some(false) => (Present(Config(Some(Added(RepoList(c), name)))), Done(TrackedMessage))
  }

  /** The body of `untrack_repo(name)`, before its `except Exception`. */
  function UntrackBody(file: ConfigFile, name: string): (r: Result<ConfigFile, Failure>)
    ensures file.Missing? <==> r == Err(NoTrackedRepositories)
  {
    match file
    case Missing => Err(NoTrackedRepositories)
    case Malformed => Err(BadJson)
    case Present(c) =>
      if !AllNamed(RepoList(c)) then Err(MissingFullName)
      else Ok(Present(Config(Some(Without(RepoList(c), name)))))
  }

  /** The status a failure is raised with inside the handler: only the missing file is a 404. */
  function RaisedStatus(f: Failure): int {
    if f == NoTrackedRepositories then 404 else ServerError
  }

  /** `untrack_repo(name)`: whatever the body raises reaches the client as a 500. */
  function Untrack(file: ConfigFile, name: string): (r: (ConfigFile, Reply))
    ensures r.1.HttpError? ==> r.0 == file && r.1.status == ServerError
    ensures r.1.Done? ==> r.1.message == UntrackedMessage
  {
    match UntrackBody(file, name)
    case Err(_) => (file, HttpError(ServerError))
    case Ok(after) => (after, Done(UntrackedMessage))
  }

  /** `get_tracked_repos()`: the error is the reply's status. */
  function GetTrackedRepos(file: ConfigFile): (r: Result<seq<Entry>, int>)
    ensures file.Missing? ==> r == Ok([])
    ensures file.Malformed? ==> r == Err(ServerError)
    ensures file.Present? ==> r == Ok(RepoList(file.config))
  {
    match file
    case Missing => Ok([])
    case Malformed => Err(ServerError)
    case Present(c) => Ok(RepoList(c))
  }

  /**
   * On a readable file whose entries all have a full name, `track_repo`
   * leaves the list unchanged when the name is tracked and otherwise appends
   * `{"full_name": name}` after the existing entries.
   */
  lemma TrackAppendsOnlyNew(c: Config, name: string)
    requires AllNamed(RepoList(c))
    ensures var (after, reply) := Track(Present(c), name);
      reply == Done(TrackedMessage) &&
      after == if IsTracked(RepoList(c), name) then Present(c) else Present(Config(Some(Added(RepoList(c), name))))
  {
  }

  /** Tracking a name twice gives what tracking it once gives. */
  lemma TrackIdempotent(file: ConfigFile, name: string)
    ensures var once := Track(file, name).0; Track(once, name) == (once, Track(file, name).1)
  {
    var once := Track(file, name).0;
    if once.Present? && once != file {
      var list := RepoList(once.config);
      assert list[|list| - 1] == Entry(Some(name));
      if file.Present? {
        assert AllNamed(RepoList(file.config));
      }
      assert AllNamed(list);
    }
  }

  /** Tracking never introduces duplicate full names. */
  lemma TrackKeepsNoDuplicates(file: ConfigFile, name: string)
    requires file.Present? ==> NoDuplicates(RepoList(file.config))
    ensures Track(file, name).0.Present? ==> NoDuplicates(RepoList(Track(file, name).0.config))
  {
    if file.Present? && Track(file, name).0 != file {
      var list := RepoList(file.config);
      var after := Added(list, name);
      forall i, j | 0 <= i < j < |after| ensures after[i].fullName != after[j].fullName {
        if j == |list| {
          assert after[i] == list[i];
        }
      }
    }
  }

  /** `untrack_repo` keeps, in order, exactly the entries with another full name. */
  lemma UntrackFilters(c: Config, name: string)
    requires AllNamed(RepoList(c))
    ensures Untrack(Present(c), name) == (Present(Config(Some(Without(RepoList(c), name)))), Done(UntrackedMessage))
    ensures !IsTracked(Without(RepoList(c), name), name)
  {
  }

  /** Filtering out a name that no entry carries gives the same list. */
  lemma {:induction false} WithoutAbsent(list: seq<Entry>, name: string)
    requires !IsTracked(list, name)
    ensures Without(list, name) == list
  {
    if list != [] {
      var init := list[..|list| - 1];
      WithoutAbsent(init, name);
      assert list[|list| - 1].fullName != Some(name);
      assert list == init + [list[|list| - 1]];
    }
  }

  /** Untracking a name that is not tracked leaves the list as it was. */
  lemma UntrackAbsent(c: Config, name: string)
    requires AllNamed(RepoList(c)) && !IsTracked(RepoList(c), name)
    ensures Untrack(Present(c), name) == (Present(Config(Some(RepoList(c)))), Done(UntrackedMessage))
  {
    WithoutAbsent(RepoList(c), name);
  }

  /** Tracking and then untracking a name that was not tracked restores the list. */
  lemma TrackThenUntrack(file: ConfigFile, name: string)
    requires file.Missing? || (file.Present? && AllNamed(RepoList(file.config)) && !IsTracked(RepoList(file.config), name))
    ensures var before := if file.Missing? then [] else RepoList(file.config);
      Untrack(Track(file, name).0, name) == (Present(Config(Some(before))), Done(UntrackedMessage))
  {
    var before := if file.Missing? then [] else RepoList(file.config);
    var after := Present(Config(Some(Added(before, name))));
    assert Track(file, name).0 == after;
    AddedThenWithout(before, name);
    assert AllNamed(Added(before, name));
  }

  /** Filtering out the name just appended, absent before, gives back the earlier list. */
  lemma AddedThenWithout(before: seq<Entry>, name: string)
    requires !IsTracked(before, name)
    ensures Without(Added(before, name), name) == before
  {
    var added := Added(before, name);
    WithoutAbsent(before, name);
    assert added[..|added| - 1] == before;
  }

  /** A missing file makes `untrack_repo` raise 404 inside, and the client sees 500. */
  lemma UntrackMissingIsServerError(name: string)
    ensures UntrackBody(Missing, name).Err? && RaisedStatus(UntrackBody(Missing, name).error) == 404
    ensures Untrack(Missing, name) == (Missing, HttpError(500))
  {
  }

  /** The configuration file, which `track_repo` and `untrack_repo` rewrite. */
  class TrackedRepoConfig {
    var file: ConfigFile

    constructor (file: ConfigFile)
      ensures this.file == file
    {
      this.file := file;
    }

    /** `track_repo(request)`: scans for the name, appends when absent and rewrites the file. */
    method TrackRepo(name: string) returns (reply: Reply)
      modifies this
      ensures (file, reply) == Track(old(file), name)
    {
      var list: seq<Entry>;
      match file {
        case Malformed => return HttpError(ServerError);
        case Missing => list := [];
        case Present(c) => list := RepoList(c);
      }
      var i := 0;
      while i < |list|
        invariant 0 <= i <= |list|
        invariant Scan(list, name) == Scan(list[i..], name)
      {
        assert list[i..][1..] == list[i + 1..];
        if list[i].fullName.None? {
          return HttpError(ServerError);
        }
        if list[i].fullName == Some(name) {
          return Done(TrackedMessage);
        }
        i := i + 1;
      }
      list := list + [Entry(Some(name))];
      file := Present(Config(Some(list)));
      reply := Done(TrackedMessage);
    }

    /** `untrack_repo(request)`: keeps the entries with another full name and rewrites the file. */
    method UntrackRepo(name: string) returns (reply: Reply)
      modifies this
      ensures (file, reply) == Untrack(old(file), name)
    {
      if !file.Present? {
        return HttpError(ServerError);
      }
      var kept := KeepOthers(RepoList(file.config), name);
      if kept.None? {
        return HttpError(ServerError);
      }
      file := Present(Config(Some(kept.value)));
      reply := Done(UntrackedMessage);
    }
  }

  /** The list comprehension of `untrack_repo`; `None` when an entry has no `full_name`. */
  method KeepOthers(list: seq<Entry>, name: string) returns (kept: Option<seq<Entry>>)
    ensures kept == if AllNamed(list) then Some(Without(list, name)) else None
  {
    var out := [];
    var i := 0;
    while i < |list|
      invariant 0 <= i <= |list|
      invariant AllNamed(list[..i]) && out == Without(list[..i], name)
    {
      assert list[..i + 1][..i] == list[..i];
      if list[i].fullName.None? {
        return None;
      }
      if list[i].fullName != Some(name) {
        out := out + [list[i]];
      }
      i := i + 1;
    }
    assert list[..i] == list;
    return Some(out);
  }

  // ---------------------------------------------------------------------------
  // get_hot_repos

  /** One repository of the `/api/hot-repos` response. */
  datatype HotRepo = HotRepo(name: string, fullName: string, description: Option<string>, stars: int, forks: int, updatedAt: string, url: string)

  /**
   * The reshaping of one trending entry: `name` is the part of the full
   * name after its last '/', forks are 0 and the update time is the current
   * time `nowIso`.
   */
  function Hot(repo: TrendingRepo, nowIso: string): (h: HotRepo)
    ensures h.fullName == repo.name && h.description == repo.description && h.stars == repo.stars && h.url == repo.url
    ensures '/' !in h.name && |h.name| <= |repo.name| && repo.name[|repo.name| - |h.name|..] == h.name
    ensures |h.name| == |repo.name| || repo.name[|repo.name| - |h.name| - 1] == '/'
    ensures h.forks == 0 && h.updatedAt == nowIso
  {
    AfterLastFacts(repo.name, '/');
    HotRepo(AfterLast(repo.name, '/'), repo.name, repo.description, repo.stars, 0, nowIso, repo.url)
  }

  /** For a full name `owner/repo`, the short name is `repo`. */
  lemma HotNameOfFullName(owner: string, repo: string, r: TrendingRepo, nowIso: string)
    requires '/' !in repo && r.name == owner + "/" + repo
    ensures Hot(r, nowIso).name == repo
  {
    AfterLastAfterSep(owner, '/', repo);
  }

  /** `get_hot_repos()` over the trending list: one reshaped entry per repository, in order. */
  method GetHotRepos(repos: seq<TrendingRepo>, nowIso: string) returns (formatted: seq<HotRepo>)
    ensures |formatted| == |repos|
    ensures forall i :: 0 <= i < |repos| ==> formatted[i] == Hot(repos[i], nowIso)
  {
    formatted := [];
    for i := 0 to |repos|
      invariant |formatted| == i
      invariant forall k :: 0 <= k < i ==> formatted[k] == Hot(repos[k], nowIso)
    {
      formatted := formatted + [Hot(repos[i], nowIso)];
    }
  }
}
