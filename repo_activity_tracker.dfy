/**
 * `RepoActivityTracker`: the last day's commits, releases, issues and pull
 * requests of each tracked repository, saved as one snapshot file per run.
 *
 * The GitHub streams are inputs (`None` when fetching raises), one clock
 * reading `now` (seconds) with its ISO text and calendar fields serves the
 * run, and times of releases and pull requests are seconds on the same time
 * line. The objects PyGithub yields carry exactly the fields copied into the
 * snapshot records, so copying a commit or an issue is the identity.
 */
module RepoActivity {
  import opened Wrappers
  import opened Text
  import opened CivilTime
  import ApiServer

  datatype Commit = Commit(sha: string, message: string, author: string, date: string, url: string)
  datatype Release = Release(tag: string, name: Option<string>, body: Option<string>, publishedAt: Option<int>, url: string)
  datatype Issue = Issue(number: int, title: string, state: string, createdAt: string, updatedAt: string, url: string)
  datatype PullRequest = PullRequest(number: int, title: string, state: string, createdAt: string, updatedAt: int, url: string)

  /**
   * What GitHub yields for one repository: commits and issues already
   * limited to the window by the API's `since`, every release, and every
   * pull request most recently updated first.
   */
  datatype Streams = Streams(commits: seq<Commit>, releases: seq<Release>, issues: seq<Issue>, pulls: seq<PullRequest>)

  datatype Stats = Stats(commitCount: nat, releaseCount: nat, issueCount: nat, prCount: nat)

  /** The dict `get_repo_activities` returns; `NoActivities` is `{}`. */
  datatype Snapshot =
    | NoActivities
    | Snapshot(repository: string, timestamp: string, commits: seq<Commit>, releases: seq<Release>,
               issues: seq<Issue>, pullRequests: seq<PullRequest>, stats: Stats)

  /** `since_date`: one day before now. */
  function Since(now: int): int {
    now - DaySeconds
  }

  /** A release is recent when it is published and published after `since`. */
  predicate RecentRelease(r: Release, since: int) {
    r.publishedAt.Some? && r.publishedAt.value > since
  }

  function RecentReleases(rs: seq<Release>, since: int): (kept: seq<Release>)
    ensures |kept| <= |rs|
  {
    if rs == [] then []
    else RecentReleases(rs[..|rs| - 1], since) + (if RecentRelease(rs[|rs| - 1], since) then [rs[|rs| - 1]] else [])
  }

  /** The pull requests updated after `since`, wherever they stand in the stream. */
  function RecentPulls(ps: seq<PullRequest>, since: int): (kept: seq<PullRequest>)
    ensures |kept| <= |ps|
  {
    if ps == [] then []
    else RecentPulls(ps[..|ps| - 1], since) + (if ps[|ps| - 1].updatedAt > since then [ps[|ps| - 1]] else [])
  }

  /** A release is kept exactly when it is published and published strictly after `since`; the kept ones keep their order. */
  lemma {:induction false} RecentReleasesMembers(rs: seq<Release>, since: int)
    ensures forall r :: r in RecentReleases(rs, since) <==> r in rs && RecentRelease(r, since)
  {
    if rs != [] {
      RecentReleasesMembers(rs[..|rs| - 1], since);
      assert rs == rs[..|rs| - 1] + [rs[|rs| - 1]];
    }
  }

  /** A pull request is kept exactly when it was updated strictly after `since`. */
  lemma {:induction false} RecentPullsMembers(ps: seq<PullRequest>, since: int)
    ensures forall p :: p in RecentPulls(ps, since) <==> p in ps && p.updatedAt > since
  {
    if ps != [] {
      RecentPullsMembers(ps[..|ps| - 1], since);
      assert ps == ps[..|ps| - 1] + [ps[|ps| - 1]];
    }
  }

  /**
   * The whole pull-request stream is scanned: an old pull request does not
   * stop the scan, and the recent ones after it are still kept.
   */
  lemma {:induction false} RecentPullsSplit(a: seq<PullRequest>, b: seq<PullRequest>, since: int)
    ensures RecentPulls(a + b, since) == RecentPulls(a, since) + RecentPulls(b, since)
    decreases |b|
  {
    if b != [] {
      var init := b[..|b| - 1];
      assert (a + b)[..|a + b| - 1] == a + init;
      RecentPullsSplit(a, init, since);
    } else {
      assert a + b == a;
    }
  }

  function StatsOf(commits: seq<Commit>, releases: seq<Release>, issues: seq<Issue>, pulls: seq<PullRequest>): Stats {
    Stats(|commits|, |releases|, |issues|, |pulls|)
  }

  /** `get_repo_activities(repo_full_name)` on what GitHub yields for it. */
  function ActivitiesSpec(name: string, fetched: Option<Streams>, now: int, nowIso: string): Snapshot {
    match fetched
    case None => NoActivities
    case Some(st) =>
      var since := Since(now);
      var releases := RecentReleases(st.releases, since);
      var pulls := RecentPulls(st.pulls, since);
      Snapshot(name, nowIso, st.commits, releases, st.issues, pulls, StatsOf(st.commits, releases, st.issues, pulls))
  }

  /** The counts are the lengths of the four lists, and a failed fetch gives `{}`. */
  lemma StatsAreLengths(name: string, fetched: Option<Streams>, now: int, nowIso: string)
    ensures var a := ActivitiesSpec(name, fetched, now, nowIso);
      (a == NoActivities <==> fetched.None?) &&
      (a.Snapshot? ==> a.stats == Stats(|a.commits|, |a.releases|, |a.issues|, |a.pullRequests|))
  {
  }

  /** In a snapshot every release and every pull request lies strictly after the cutoff, and none that does is lost. */
  lemma SnapshotFilters(name: string, st: Streams, now: int, nowIso: string)
    ensures var a := ActivitiesSpec(name, Some(st), now, nowIso);
      (forall r :: r in a.releases <==> r in st.releases && r.publishedAt.Some? && r.publishedAt.value > now - DaySeconds) &&
      (forall p :: p in a.pullRequests <==> p in st.pulls && p.updatedAt > now - DaySeconds) &&
      a.commits == st.commits && a.issues == st.issues
  {
    RecentReleasesMembers(st.releases, Since(now));
    RecentPullsMembers(st.pulls, Since(now));
  }

  method GetRepoActivities(name: string, fetched: Option<Streams>, now: int, nowIso: string) returns (a: Snapshot)
    ensures a == ActivitiesSpec(name, fetched, now, nowIso)
  {
    if fetched.None? {
      return NoActivities;
    }
    var st := fetched.value;
    var since := now - DaySeconds;
    var commits := st.commits;

    var releases := [];
    for i := 0 to |st.releases|
      invariant releases == RecentReleases(st.releases[..i], since)
    {
      assert st.releases[..i + 1][..i] == st.releases[..i];
      var release := st.releases[i];
      if release.publishedAt.Some? && release.publishedAt.value > since {
        releases := releases + [release];
      }
    }
    assert st.releases[..|st.releases|] == st.releases;

    var issues := st.issues;

    var pulls := [];
    for i := 0 to |st.pulls|
      invariant pulls == RecentPulls(st.pulls[..i], since)
    {
      assert st.pulls[..i + 1][..i] == st.pulls[..i];
      if st.pulls[i].updatedAt > since {
        pulls := pulls + [st.pulls[i]];
      }
    }
    assert st.pulls[..|st.pulls|] == st.pulls;

    a := Snapshot(name, nowIso, commits, releases, issues, pulls,
                  Stats(|commits|, |releases|, |issues|, |pulls|));
  }

  // ---------------------------------------------------------------------------
  // save_activities

  /** The snapshot's file name inside `data/repo_activities`: the repository with every '/' made '_', then the suffix. */
  function SnapshotFileName(repository: string, at: Civil): (n: string)
    ensures |n| == |repository| + |StampSuffix(at)| && n[|repository|..] == StampSuffix(at)
    ensures forall i :: 0 <= i < |repository| ==> n[i] == if repository[i] == '/' then '_' else repository[i]
  {
    ReplaceChar(repository, '/', '_') + StampSuffix(at)
  }

  /** `_{YYYYmmdd_HHMMSS}.json` */
  function StampSuffix(at: Civil): string {
    "_" + Stamp(at) + ".json"
  }

  /** The suffix is 21 characters and holds the stamp right after its `_`. */
  lemma StampSuffixLayout(at: Civil)
    requires Valid(at)
    ensures |StampSuffix(at)| == 21 && StampSuffix(at)[1..16] == Stamp(at)
    ensures '/' !in StampSuffix(at)
  {
    StampLayout(at);
    var t := StampSuffix(at);
    forall k | 0 <= k < |t| ensures t[k] != '/' {
      if 1 <= k < 16 {
        assert t[k] == Stamp(at)[k - 1];
      }
    }
  }

  /** Two concatenations with equally long tails are equal piece by piece. */
  lemma SplitEqualTails<T>(a1: seq<T>, b1: seq<T>, a2: seq<T>, b2: seq<T>)
    requires a1 + b1 == a2 + b2 && |b1| == |b2|
    ensures a1 == a2 && b1 == b2
  {
    assert a1 == (a1 + b1)[..|a1|] && a2 == (a2 + b2)[..|a2|];
    assert b1 == (a1 + b1)[|a1|..] && b2 == (a2 + b2)[|a2|..];
  }

  /** `save_activities(activities)`: `None` for `{}` or a failed write, else the file name. */
  function SaveActivities(a: Snapshot, at: Civil, writeSucceeds: bool): (r: Option<string>)
    ensures a.NoActivities? ==> r.None?
    ensures r.Some? ==> r.value == SnapshotFileName(a.repository, at)
  {
    if a.NoActivities? || !writeSucceeds then None else Some(SnapshotFileName(a.repository, at))
  }

  /** A snapshot file always lies in the snapshot directory itself: its name has no '/'. */
  lemma SnapshotFileNameFlat(repository: string, at: Civil)
    requires Valid(at)
    ensures '/' !in SnapshotFileName(repository, at)
  {
    StampSuffixLayout(at);
    assert '/' !in ReplaceChar(repository, '/', '_');
  }

  /** `ReplaceChar` on `owner/repo` for an owner without `_` and a repository without `/`. */
  lemma ReplacedParts(owner: string, repo: string)
    requires '/' !in owner && '/' !in repo
    ensures ReplaceChar(owner + "/" + repo, '/', '_') == owner + "_" + repo
  {
    var s := owner + "/" + repo;
    var t := owner + "_" + repo;
    assert |ReplaceChar(s, '/', '_')| == |t|;
    forall k | 0 <= k < |t| ensures ReplaceChar(s, '/', '_')[k] == t[k] {
      if k < |owner| {
        assert s[k] == owner[k];
      } else if k > |owner| {
        assert s[k] == repo[k - |owner| - 1] && t[k] == repo[k - |owner| - 1];
      }
    }
  }

  /**
   * GitHub owner names have no `_`, so for `owner/repo` names the snapshot
   * file name determines the repository and the second it was taken.
   */
  lemma SnapshotFileNameInjective(owner1: string, repo1: string, at1: Civil, owner2: string, repo2: string, at2: Civil)
    requires '/' !in owner1 && '_' !in owner1 && '/' !in repo1 && Valid(at1)
    requires '/' !in owner2 && '_' !in owner2 && '/' !in repo2 && Valid(at2)
    requires SnapshotFileName(owner1 + "/" + repo1, at1) == SnapshotFileName(owner2 + "/" + repo2, at2)
    ensures owner1 == owner2 && repo1 == repo2 && at1 == at2
  {
    ReplacedParts(owner1, repo1);
    ReplacedParts(owner2, repo2);
    StampSuffixLayout(at1);
    StampSuffixLayout(at2);
    SplitEqualTails(owner1 + "_" + repo1, StampSuffix(at1), owner2 + "_" + repo2, StampSuffix(at2));
    StampInjective(at1, at2);
    FirstUnderscore(owner1, repo1, owner2, repo2);
  }

  /** The owner ends at the first `_`. */
  lemma FirstUnderscore(owner1: string, repo1: string, owner2: string, repo2: string)
    requires '_' !in owner1 && '_' !in owner2
    requires owner1 + "_" + repo1 == owner2 + "_" + repo2
    ensures owner1 == owner2 && repo1 == repo2
  {
    var p := owner1 + "_" + repo1;
    IndexOfConcat(owner1, '_', repo1);
    IndexOfConcat(owner2, '_', repo2);
    assert owner1 == p[..|owner1|];
    assert owner2 == p[..|owner2|];
  }

  // ---------------------------------------------------------------------------
  // _load_tracked_repos, display_activities and track_all_repos

  /** `_load_tracked_repos()`: a missing or malformed configuration gives the empty list. */
  function LoadTrackedRepos(file: ApiServer.ConfigFile): (r: seq<ApiServer.Entry>)
    ensures !file.Present? ==> r == []
    ensures file.Present? ==> r == ApiServer.RepoList(file.config)
  {
    if file.Present? then ApiServer.RepoList(file.config) else []
  }

  /** A line boundary of `str.splitlines`. */
  predicate LineBreak(c: char) {
    c in "\n\r\U{000B}\U{000C}\U{001C}\U{001D}\U{001E}\U{0085}\U{2028}\U{2029}"
  }

  /** `s.splitlines()[0]`; `None` for the empty text, where the index raises. */
  function FirstLine(s: string): (r: Option<string>)
    ensures s == [] <==> r.None?
    ensures r.Some? ==> r.value <= s && forall k :: 0 <= k < |r.value| ==> !LineBreak(r.value[k])
    ensures r.Some? && |r.value| < |s| ==> LineBreak(s[|r.value|])
  {
    if s == [] then None
    else if LineBreak(s[0]) then Some("")
    else
      match FirstLine(s[1..])
      case None => Some(s)
      case Some(rest) => Some([s[0]] + rest)
  }

  /** What `display_activities` lists of a snapshot; `Nothing` is the notice printed for `{}`. */
  datatype Display = Nothing | Display(commitLines: seq<string>, releases: seq<Release>, issues: seq<Issue>, pulls: seq<PullRequest>)

  const Shown := 5

  /** The first lines of some commit messages; `None` when one is empty. */
  function CommitLines(cs: seq<Commit>): (r: Option<seq<string>>)
    ensures r.Some? ==> |r.value| == |cs|
  {
    if cs == [] then Some([])
    else
      match (CommitLines(cs[..|cs| - 1]), FirstLine(cs[|cs| - 1].message))
      case (Some(before), Some(line)) => Some(before + [line])
      case _ => None
  }

  /**
   * `display_activities(activities)`: for `{}` only the notice; otherwise
   * the first five commits, issues and pull requests and every release, or
   * `None` when a listed commit message is empty (its first line does not
   * exist) and the call raises.
   */
  function DisplayActivities(a: Snapshot): (r: Option<Display>)
    ensures a.NoActivities? ==> r == Some(Nothing)
    ensures a.Snapshot? && r.Some? ==> r.value.Display?
    ensures r.Some? && r.value.Display? ==> |r.value.commitLines| == |Take(a.commits, Shown)| <= Shown
    ensures r.Some? && r.value.Display? ==> r.value.releases == a.releases
    ensures r.Some? && r.value.Display? ==> r.value.issues == Take(a.issues, Shown) && r.value.pulls == Take(a.pullRequests, Shown)
  {
    if a.NoActivities? then Some(Nothing)
    else
      match CommitLines(Take(a.commits, Shown))
      case None => None
      case Some(lines) => Some(Display(lines, a.releases, Take(a.issues, Shown), Take(a.pullRequests, Shown)))
  }

  /** Each listed commit shows the first line of its message. */
  lemma {:induction false} CommitLinesAt(cs: seq<Commit>, i: nat)
    requires CommitLines(cs).Some? && i < |cs|
    ensures FirstLine(cs[i].message).Some? && CommitLines(cs).value[i] == FirstLine(cs[i].message).value
  {
    if i < |cs| - 1 {
      CommitLinesAt(cs[..|cs| - 1], i);
    }
  }

  /** The first lines of commits exist exactly when no message is empty. */
  lemma {:induction false} CommitLinesFail(cs: seq<Commit>)
    ensures CommitLines(cs).None? <==> exists i :: 0 <= i < |cs| && cs[i].message == ""
  {
    if cs != [] {
      var before := cs[..|cs| - 1];
      CommitLinesFail(before);
      assert forall i :: 0 <= i < |before| ==> before[i] == cs[i];
      if CommitLines(cs).None? && CommitLines(before).Some? {
        assert cs[|cs| - 1].message == "";
      }
    }
  }

  /** `display_activities` raises on a snapshot exactly when one of the first five commit messages is empty. */
  lemma DisplayFails(a: Snapshot)
    requires a.Snapshot?
    ensures DisplayActivities(a).None? <==> exists i :: 0 <= i < |a.commits| && i < Shown && a.commits[i].message == ""
  {
    var listed := Take(a.commits, Shown);
    CommitLinesFail(listed);
    assert forall i :: 0 <= i < |listed| ==> listed[i] == a.commits[i];
  }

  /** What `track_all_repos` did for one tracked repository; `shown` is `None` when the display raised. */
  datatype Outcome = Saved(file: string, shown: Option<Display>) | NotSaved | NoData

  /**
   * A whole run: nothing tracked, each repository's outcome, or a run ended
   * by an exception, with the outcomes up to it: a `KeyError` on an entry
   * without `full_name`, or an `IndexError` from displaying a saved snapshot.
   */
  datatype Run = NothingTracked | Ran(outcomes: seq<Outcome>) | Crashed(outcomes: seq<Outcome>)

  /** One repository's outcome: fetched, then saved and displayed only when there is data. */
  function Process(name: string, fetched: Option<Streams>, now: int, nowIso: string, at: Civil, writeSucceeds: bool): (o: Outcome)
    ensures o.NoData? <==> fetched.None?
  {
    var a := ActivitiesSpec(name, fetched, now, nowIso);
    if a.NoActivities? then NoData
    else
      match SaveActivities(a, at, writeSucceeds)
      case None => NotSaved
      case Some(f) => Saved(f, DisplayActivities(a))
  }

  /** One tracked entry's outcome, `None` for an entry without `full_name`. */
  function Step(e: ApiServer.Entry, fetch: string -> Option<Streams>, writes: string -> bool,
                now: int, nowIso: string, at: Civil): Option<Outcome> {
    if e.fullName.None? then None
    else Some(Process(e.fullName.value, fetch(e.fullName.value), now, nowIso, at, writes(e.fullName.value)))
  }

  /** An outcome that ends the run: an entry without `full_name`, or a saved snapshot whose display raised. */
  predicate Halting(step: Option<Outcome>) {
    step.None? || (step.value.Saved? && step.value.shown.None?)
  }

  /** The entry ends the run. */
  predicate Halts(e: ApiServer.Entry, fetch: string -> Option<Streams>, writes: string -> bool,
                  now: int, nowIso: string, at: Civil) {
    Halting(Step(e, fetch, writes, now, nowIso, at))
  }

  /** The outcome of every tracked entry, as if each were processed. */
  function Steps(tracked: seq<ApiServer.Entry>, fetch: string -> Option<Streams>, writes: string -> bool,
                 now: int, nowIso: string, at: Civil): (r: seq<Option<Outcome>>)
    ensures |r| == |tracked|
  {
    if tracked == [] then []
    else [Step(tracked[0], fetch, writes, now, nowIso, at)] + Steps(tracked[1..], fetch, writes, now, nowIso, at)
  }

  /** The i-th outcome is the i-th entry's own. */
  lemma {:induction false} StepsAt(tracked: seq<ApiServer.Entry>, fetch: string -> Option<Streams>, writes: string -> bool,
                                   now: int, nowIso: string, at: Civil, i: nat)
    requires i < |tracked|
    ensures Steps(tracked, fetch, writes, now, nowIso, at)[i] == Step(tracked[i], fetch, writes, now, nowIso, at)
  {
    if i > 0 {
      StepsAt(tracked[1..], fetch, writes, now, nowIso, at, i - 1);
    }
  }

  /**
   * A run over the entries' outcomes, in order: the outcomes recorded and
   * whether an entry ended the run. An entry without `full_name` is not
   * recorded; a display that raised is recorded, and nothing after it is.
   */
  function RunOf(steps: seq<Option<Outcome>>): (seq<Outcome>, bool) {
    if steps == [] then ([], false)
    else match steps[0]
      case None => ([], true)
      case Some(o) =>
        if Halting(steps[0]) then ([o], true)
        else var (rest, crashed) := RunOf(steps[1..]); ([o] + rest, crashed)
  }

  /**
   * A run goes through every entry exactly when none of them ends it, and
   * records each outcome in order; otherwise it stops at the first entry
   * that ends it, recording that one only if its display raised.
   */
  lemma {:induction false} RunOfFacts(steps: seq<Option<Outcome>>)
    ensures var (outs, crashed) := RunOf(steps);
      |outs| <= |steps| && forall k :: 0 <= k < |outs| ==> steps[k] == Some(outs[k])
    ensures var (outs, crashed) := RunOf(steps);
      (!crashed <==> forall k :: 0 <= k < |steps| ==> !Halting(steps[k])) && (!crashed ==> |outs| == |steps|)
    ensures var (outs, crashed) := RunOf(steps); var n := |outs|;
      crashed ==>
        (n < |steps| && steps[n].None? && forall k :: 0 <= k < n ==> !Halting(steps[k])) ||
        (n >= 1 && Halting(steps[n - 1]) && forall k :: 0 <= k < n - 1 ==> !Halting(steps[k]))
  {
    if steps != [] && steps[0].Some? && !Halting(steps[0]) {
      var tail := steps[1..];
      RunOfFacts(tail);
      var (rest, crashed) := RunOf(tail);
      var outs := [steps[0].value] + rest;
      assert RunOf(steps) == (outs, crashed);
      assert forall k :: 1 <= k < |steps| ==> steps[k] == tail[k - 1];
      assert forall k :: 1 <= k < |outs| ==> outs[k] == rest[k - 1];
      if !crashed {
        assert forall k :: 0 <= k < |steps| ==> !Halting(steps[k]) by {
          forall k | 0 <= k < |steps| ensures !Halting(steps[k]) {
            if k > 0 { assert !Halting(tail[k - 1]); }
          }
        }
      } else {
        var j :| 0 <= j < |tail| && Halting(tail[j]);
        assert Halting(steps[j + 1]);
      }
    }
  }

  /** One entry further into a run: what is recorded so far, then the rest. */
  lemma RunFrom(steps: seq<Option<Outcome>>, i: nat, done: seq<Outcome>)
    requires i < |steps|
    ensures var rest := RunOf(steps[i + 1..]);
      (done + RunOf(steps[i..]).0, RunOf(steps[i..]).1) ==
        if steps[i].None? then (done, true)
        else if Halting(steps[i]) then (done + [steps[i].value], true)
        else ((done + [steps[i].value]) + rest.0, rest.1)
  {
    assert steps[i..][0] == steps[i] && steps[i..][1..] == steps[i + 1..];
    if steps[i].None? {
      assert done + [] == done;
    } else if !Halting(steps[i]) {
      var rest := RunOf(steps[i + 1..]);
      assert RunOf(steps[i..]) == ([steps[i].value] + rest.0, rest.1);
      assert (done + [steps[i].value]) + rest.0 == done + ([steps[i].value] + rest.0);
    }
  }

  /**
   * For the tracked entries: the run of `track_all_repos` goes through all
   * of them exactly when none has a missing `full_name` or a display that
   * raises, and the i-th outcome recorded is the i-th entry's.
   */
  lemma TrackedRunFacts(tracked: seq<ApiServer.Entry>, fetch: string -> Option<Streams>, writes: string -> bool,
                        now: int, nowIso: string, at: Civil)
    ensures var (outs, crashed) := RunOf(Steps(tracked, fetch, writes, now, nowIso, at));
      (!crashed <==> forall k :: 0 <= k < |tracked| ==> !Halts(tracked[k], fetch, writes, now, nowIso, at)) &&
      |outs| <= |tracked| &&
      (forall k :: 0 <= k < |outs| ==> Step(tracked[k], fetch, writes, now, nowIso, at) == Some(outs[k])) &&
      (!crashed ==> |outs| == |tracked|)
  {
    var steps := Steps(tracked, fetch, writes, now, nowIso, at);
    RunOfFacts(steps);
    forall k | 0 <= k < |tracked| ensures steps[k] == Step(tracked[k], fetch, writes, now, nowIso, at) {
      StepsAt(tracked, fetch, writes, now, nowIso, at, k);
    }
  }

  /**
   * `track_all_repos()`: `fetch` gives what GitHub yields for each full
   * name and `writes` whether each snapshot write succeeds. The loop
   * processes the entries in order until one ends the run.
   */
  method TrackAllRepos(tracked: seq<ApiServer.Entry>, fetch: string -> Option<Streams>, writes: string -> bool,
                       now: int, nowIso: string, at: Civil) returns (run: Run)
    ensures tracked == [] <==> run == NothingTracked
    ensures tracked != [] ==> var (outs, crashed) := RunOf(Steps(tracked, fetch, writes, now, nowIso, at));
      run == if crashed then Crashed(outs) else Ran(outs)
    ensures run.Ran? <==> tracked != [] && forall k :: 0 <= k < |tracked| ==> !Halts(tracked[k], fetch, writes, now, nowIso, at)
    ensures !run.NothingTracked? ==>
      |run.outcomes| <= |tracked| && (run.Ran? ==> |run.outcomes| == |tracked|) &&
      forall k :: 0 <= k < |run.outcomes| ==> Step(tracked[k], fetch, writes, now, nowIso, at) == Some(run.outcomes[k])
  {
    if tracked == [] {
      return NothingTracked;
    }
    TrackedRunFacts(tracked, fetch, writes, now, nowIso, at);
    ghost var steps := Steps(tracked, fetch, writes, now, nowIso, at);
    var outcomes: seq<Outcome> := [];
    assert steps[0..] == steps;
    assert outcomes + RunOf(steps).0 == RunOf(steps).0;
    for i := 0 to |tracked|
      invariant RunOf(steps) == (outcomes + RunOf(steps[i..]).0, RunOf(steps[i..]).1)
    {
      var step := TrackAt(tracked, i, fetch, writes, now, nowIso, at);
      RunFrom(steps, i, outcomes);
      if step.None? {
        return Crashed(outcomes);
      }
      if Halting(step) {
        return Crashed(outcomes + [step.value]);
      }
      outcomes := outcomes + [step.value];
    }
    assert steps[|tracked|..] == [];
    return Ran(outcomes);
  }

  /** One pass of the loop body of `track_all_repos`: fetch, then save, then display. */
  method TrackOne(e: ApiServer.Entry, fetch: string -> Option<Streams>, writes: string -> bool,
                  now: int, nowIso: string, at: Civil) returns (step: Option<Outcome>)
    ensures step == Step(e, fetch, writes, now, nowIso, at)
  {
    if e.fullName.None? {
      return None;
    }
    var name := e.fullName.value;
    var activities := GetRepoActivities(name, fetch(name), now, nowIso);
    if activities.NoActivities? {
      return Some(NoData);
    }
    var file := SaveActivities(activities, at, writes(name));
    if file.None? {
      return Some(NotSaved);
    }
    var shown := DisplayActivities(activities);
    return Some(Saved(file.value, shown));
  }

  /** Processes the i-th tracked entry. */
  method TrackAt(tracked: seq<ApiServer.Entry>, i: nat, fetch: string -> Option<Streams>, writes: string -> bool,
                 now: int, nowIso: string, at: Civil) returns (step: Option<Outcome>)
    requires i < |tracked|
    ensures step == Steps(tracked, fetch, writes, now, nowIso, at)[i]
  {
    step := TrackOne(tracked[i], fetch, writes, now, nowIso, at);
    StepsAt(tracked, fetch, writes, now, nowIso, at, i);
  }

  /**
   * In the source's terms: an entry ends the run exactly when it has no
   * `full_name`, or its snapshot is saved and one of its first five commit
   * messages is empty.
   */
  lemma HaltsIff(e: ApiServer.Entry, fetch: string -> Option<Streams>, writes: string -> bool,
                 now: int, nowIso: string, at: Civil)
    ensures Halts(e, fetch, writes, now, nowIso, at) <==>
      e.fullName.None? ||
      (Step(e, fetch, writes, now, nowIso, at).value.Saved? &&
       var a := ActivitiesSpec(e.fullName.value, fetch(e.fullName.value), now, nowIso);
       exists i :: 0 <= i < |a.commits| && i < Shown && a.commits[i].message == "")
  {
    if e.fullName.Some? {
      var a := ActivitiesSpec(e.fullName.value, fetch(e.fullName.value), now, nowIso);
      if Step(e, fetch, writes, now, nowIso, at).value.Saved? {
        DisplayFails(a);
      }
    }
  }

  /** An empty commit message in a saved snapshot ends the run at that repository: the ones after it are never fetched. */
  lemma EmptyMessageStopsRun(e: ApiServer.Entry, fetch: string -> Option<Streams>, writes: string -> bool,
                             now: int, nowIso: string, at: Civil)
    requires Step(e, fetch, writes, now, nowIso, at).Some? && Step(e, fetch, writes, now, nowIso, at).value.Saved?
    requires var a := ActivitiesSpec(e.fullName.value, fetch(e.fullName.value), now, nowIso);
      a.Snapshot? && a.commits != [] && a.commits[0].message == ""
    ensures Halts(e, fetch, writes, now, nowIso, at)
  {
    var a := ActivitiesSpec(e.fullName.value, fetch(e.fullName.value), now, nowIso);
    var listed := Take(a.commits, Shown);
    assert listed[0] == a.commits[0];
    if CommitLines(listed).Some? {
      CommitLinesAt(listed, 0);
    }
  }
}
