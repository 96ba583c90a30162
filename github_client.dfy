/**
 * `GitHubClient`: repository lists with their translations, the activity
 * report of one repository with translations and a summary, and the cache
 * keys its requests are stored under.
 *
 * What PyGithub yields is taken as input sequences, the language model as
 * the oracle of `BaseLlm`, and the clock as one reading `now` in seconds.
 */
module GithubClient {
  import opened Wrappers
  import opened Text
  import opened CivilTime
  import opened BaseLlm
  import Cache
  import GithubBase
  import RateLimiting

  // ---------------------------------------------------------------------------
  // Repository lists

  /**
   * One repository dict as `search_repos` and `get_tracked_repos` build it;
   * `nameZh` and `descriptionZh` are the optional `name_zh` and
   * `description_zh` keys, `None` when absent.
   */
  datatype RepoDict = RepoDict(name: string, fullName: string, description: Option<string>, stars: int, forks: int,
                               updatedAt: string, url: string, nameZh: Option<string>, descriptionZh: Option<string>)

  /** `(repo.get('name', ''), repo.get('description', ''))`; a `None` description is falsy like "". */
  function RepoItem(r: RepoDict): Item {
    Item(r.name, r.description.GetOr(""))
  }

  /** The copy of `r` with the keys a truthy translation provides. */
  function WithTranslation(r: RepoDict, t: Translation): RepoDict {
    r.(nameZh := if Truthy(t.name) then t.name else r.nameZh,
       descriptionZh := if Truthy(t.description) then t.description else r.descriptionZh)
  }

  /** `zip(xs, ys)` followed by `pair`: as long as the shorter of the two. */
  function Zip<A, B, C>(xs: seq<A>, ys: seq<B>, pair: (A, B) -> C): (r: seq<C>)
    ensures |r| == if |xs| <= |ys| then |xs| else |ys|
  {
    seq(if |xs| <= |ys| then |xs| else |ys|, i requires 0 <= i < |xs| && i < |ys| => pair(xs[i], ys[i]))
  }

  /** `get_repos_with_translation(repos)` with the translations already at hand. */
  function Translated(repos: seq<RepoDict>, ts: seq<Translation>): seq<RepoDict> {
    Zip(repos, ts, WithTranslation)
  }

  /** `get_repos_with_translation(repos)`. */
  function ReposWithTranslation(repos: seq<RepoDict>, model: Prompt -> string): seq<RepoDict> {
    Translated(repos, BatchTranslateSpec(Map(RepoItem, repos), model).0)
  }

  /**
   * The output keeps the input order and length; the i-th repository gets
   * `name_zh` and `description_zh` from the i-th translation exactly when those
   * are truthy, and every other field is copied unchanged.
   */
  lemma ReposTranslatedInPlace(repos: seq<RepoDict>, model: Prompt -> string)
    ensures var ts := BatchTranslateSpec(Map(RepoItem, repos), model).0;
      var out := ReposWithTranslation(repos, model);
      |out| == |repos| &&
      forall i :: 0 <= i < |out| ==>
        out[i].(nameZh := repos[i].nameZh, descriptionZh := repos[i].descriptionZh) == repos[i] &&
        (out[i].nameZh == if Truthy(ts[i].name) then ts[i].name else repos[i].nameZh) &&
        (out[i].descriptionZh == if Truthy(ts[i].description) then ts[i].description else repos[i].descriptionZh)
  {
    var ts := BatchTranslateSpec(Map(RepoItem, repos), model).0;
    var out := ReposWithTranslation(repos, model);
    forall i | 0 <= i < |out|
      ensures out[i] == WithTranslation(repos[i], ts[i])
    {
    }
  }

  /** A repository without the optional keys gets none for a translation that is all falsy. */
  lemma FalsyTranslationAddsNoKeys(r: RepoDict, t: Translation)
    requires r.nameZh.None? && r.descriptionZh.None?
    requires !Truthy(t.name) && !Truthy(t.description)
    ensures WithTranslation(r, t) == r
  {
  }

  /** `get_repos_with_translation(repos)`: one batch translation, then the `zip` loop. */
  method GetReposWithTranslation(repos: seq<RepoDict>, model: Prompt -> string) returns (out: seq<RepoDict>)
    ensures out == ReposWithTranslation(repos, model)
  {
    var ts, _ := BatchTranslate(Map(RepoItem, repos), model);
    out := PairAll(repos, ts, WithTranslation);
  }

  /** A `for a, b in zip(xs, ys): out.append(pair(a, b))` loop. */
  method PairAll<A, B, C>(xs: seq<A>, ys: seq<B>, pair: (A, B) -> C) returns (out: seq<C>)
    ensures out == Zip(xs, ys, pair)
  {
    out := [];
    var i := 0;
    while i < |xs| && i < |ys|
      invariant 0 <= i <= |xs| && i <= |ys|
      invariant out == Zip(xs[..i], ys[..i], pair)
    {
      out := out + [pair(xs[i], ys[i])];
      i := i + 1;
    }
    assert xs[..i] == xs || ys[..i] == ys;
  }

  // ---------------------------------------------------------------------------
  // Activities

  datatype GhCommit = GhCommit(sha: string, message: string, author: string, date: string, url: string)
  datatype GhIssue = GhIssue(number: int, title: string, body: Option<string>, state: string,
                             createdAt: string, updatedAt: string, url: string)
  /** A pull request; `updatedAt` is the instant in seconds, `updatedIso` its ISO text. */
  datatype GhPull = GhPull(number: int, title: string, body: Option<string>, state: string,
                           createdAt: string, updatedAt: int, updatedIso: string, url: string)
  /** A release; `createdAt` is the instant in seconds, `createdIso` its ISO text. */
  datatype GhRelease = GhRelease(tag: string, title: Option<string>, body: Option<string>, createdAt: int,
                                 createdIso: string, url: string)

  /**
   * What `get_commits(since=…)`, `get_issues(state='all', since=…)`,
   * `get_pulls(state='all', sort='updated', direction='desc')` and
   * `get_releases()` yield; each is asked twice and taken to yield the same.
   */
  datatype Streams = Streams(commits: seq<GhCommit>, issues: seq<GhIssue>, pulls: seq<GhPull>, releases: seq<GhRelease>)

  datatype CommitData = CommitData(sha: string, message: string, messageZh: Option<string>, author: string, date: string, url: string)
  datatype IssueData = IssueData(number: int, title: string, titleZh: Option<string>, body: Option<string>, bodyZh: Option<string>,
                                 state: string, createdAt: string, updatedAt: string, url: string)
  datatype ReleaseData = ReleaseData(tag: string, name: Option<string>, nameZh: Option<string>, body: Option<string>,
                                     bodyZh: Option<string>, date: string, url: string)

  /** The dict `_get_activities` returns; pull requests have the same fields as issues. */
  datatype Activities = Activities(timestamp: string, commits: seq<CommitData>, issues: seq<IssueData>,
                                   pulls: seq<IssueData>, releases: seq<ReleaseData>, summary: string)

  function CommitItem(c: GhCommit): Item { Item(c.message, "") }
  function IssueItem(i: GhIssue): Item { Item(i.title, i.body.GetOr("")) }
  function PullItem(p: GhPull): Item { Item(p.title, p.body.GetOr("")) }
  function ReleaseItem(r: GhRelease): Item { Item(r.title.GetOr(""), r.body.GetOr("")) }

  function CommitPair(c: GhCommit, t: Translation): CommitData {
    CommitData(c.sha, c.message, t.name, c.author, c.date, c.url)
  }

  function IssuePair(i: GhIssue, t: Translation): IssueData {
    IssueData(i.number, i.title, t.name, i.body, t.description, i.state, i.createdAt, i.updatedAt, i.url)
  }

  function PullPair(p: GhPull, t: Translation): IssueData {
    IssueData(p.number, p.title, t.name, p.body, t.description, p.state, p.createdAt, p.updatedIso, p.url)
  }

  function ReleasePair(r: GhRelease, t: Translation): ReleaseData {
    ReleaseData(r.tag, r.title, t.name, r.body, t.description, r.createdIso, r.url)
  }

  function PullAt(p: GhPull): int { p.updatedAt }
  function ReleaseAt(r: GhRelease): int { r.createdAt }

  /** `datetime.now() - timedelta(days=days)`. */
  function Cutoff(now: int, days: int): int {
    now - days * DaySeconds
  }

  /** The items a loop with `if at(x) < cutoff: break` goes through: the longest prefix not before the cutoff. */
  function Recent<A>(xs: seq<A>, at: A -> int, cutoff: int): seq<A> {
    if xs == [] || at(xs[0]) < cutoff then [] else [xs[0]] + Recent(xs[1..], at, cutoff)
  }

  /** The prefix kept is not before the cutoff, an item exactly at it included, and the first item left out is before it. */
  lemma {:induction false} RecentFacts<A>(xs: seq<A>, at: A -> int, cutoff: int)
    ensures Recent(xs, at, cutoff) <= xs
    ensures forall i :: 0 <= i < |Recent(xs, at, cutoff)| ==> at(xs[i]) >= cutoff
    ensures |Recent(xs, at, cutoff)| < |xs| ==> at(xs[|Recent(xs, at, cutoff)|]) < cutoff
    decreases |xs|
  {
    if xs != [] && at(xs[0]) >= cutoff {
      RecentFacts(xs[1..], at, cutoff);
    }
  }

  /** A prefix whose items are all at or after the cutoff, ending where the stream does or at an earlier item, is the one kept. */
  lemma {:induction false} RecentIsPrefix<A>(xs: seq<A>, at: A -> int, cutoff: int, n: nat)
    requires n <= |xs|
    requires forall j :: 0 <= j < n ==> at(xs[j]) >= cutoff
    requires n == |xs| || at(xs[n]) < cutoff
    ensures Recent(xs, at, cutoff) == xs[..n]
    decreases n
  {
    if n > 0 {
      RecentIsPrefix(xs[1..], at, cutoff, n - 1);
      assert xs[..n] == [xs[0]] + xs[1..][..n - 1];
    }
  }

  /**
   * The second loop as written: `zip` of the stream with the translations,
   * stopping at the first item before the cutoff.
   */
  function ZipUntil<A, B, C>(xs: seq<A>, ys: seq<B>, at: A -> int, cutoff: int, pair: (A, B) -> C): seq<C> {
    if xs == [] || ys == [] || at(xs[0]) < cutoff then []
    else [pair(xs[0], ys[0])] + ZipUntil(xs[1..], ys[1..], at, cutoff, pair)
  }

  /** With one translation per kept item, the second loop pairs the i-th kept item with the i-th translation. */
  lemma {:induction false} ZipUntilPairsRecent<A, B, C>(xs: seq<A>, ys: seq<B>, at: A -> int, cutoff: int, pair: (A, B) -> C)
    requires |ys| == |Recent(xs, at, cutoff)|
    ensures ZipUntil(xs, ys, at, cutoff, pair) == Zip(Recent(xs, at, cutoff), ys, pair)
    decreases |xs|
  {
    if xs != [] && ys != [] && at(xs[0]) >= cutoff {
      ZipUntilPairsRecent(xs[1..], ys[1..], at, cutoff, pair);
      assert Recent(xs, at, cutoff) == [xs[0]] + Recent(xs[1..], at, cutoff);
    }
  }

  /** A zip of the prefixes up to where the second loop stops is what that loop yields. */
  lemma {:induction false} ZipUntilStops<A, B, C>(xs: seq<A>, ys: seq<B>, at: A -> int, cutoff: int, pair: (A, B) -> C, n: nat)
    requires n <= |xs| && n <= |ys|
    requires forall j :: 0 <= j < n ==> at(xs[j]) >= cutoff
    requires n == |xs| || n == |ys| || at(xs[n]) < cutoff
    ensures ZipUntil(xs, ys, at, cutoff, pair) == Zip(xs[..n], ys[..n], pair)
    decreases n
  {
    if n > 0 {
      ZipUntilStops(xs[1..], ys[1..], at, cutoff, pair, n - 1);
      assert Zip(xs[..n], ys[..n], pair) == [pair(xs[0], ys[0])] + Zip(xs[1..][..n - 1], ys[1..][..n - 1], pair);
    }
  }

  /** A `for x in xs: items.append(item(x))` loop. */
  method CollectItems<A>(xs: seq<A>, item: A -> Item) returns (items: seq<Item>)
    ensures items == Map(item, xs)
  {
    items := [];
    for i := 0 to |xs|
      invariant items == Map(item, xs[..i])
    {
      items := items + [item(xs[i])];
    }
    assert xs[..|xs|] == xs;
  }

  /** A `for x in xs: if at(x) < cutoff: break; items.append(item(x))` loop. */
  method CollectRecentItems<A>(xs: seq<A>, at: A -> int, cutoff: int, item: A -> Item) returns (items: seq<Item>)
    ensures items == Map(item, Recent(xs, at, cutoff))
  {
    items := [];
    var i := 0;
    while i < |xs|
      invariant 0 <= i <= |xs|
      invariant forall j :: 0 <= j < i ==> at(xs[j]) >= cutoff
      invariant items == Map(item, xs[..i])
    {
      if at(xs[i]) < cutoff {
        break;
      }
      items := items + [item(xs[i])];
      i := i + 1;
    }
    RecentIsPrefix(xs, at, cutoff, i);
  }

  /** A `for x, t in zip(xs, ys): if at(x) < cutoff: break; out.append(pair(x, t))` loop. */
  method PairRecent<A, B, C>(xs: seq<A>, ys: seq<B>, at: A -> int, cutoff: int, pair: (A, B) -> C) returns (out: seq<C>)
    ensures out == ZipUntil(xs, ys, at, cutoff, pair)
  {
    out := [];
    var i := 0;
    while i < |xs| && i < |ys|
      invariant 0 <= i <= |xs| && i <= |ys|
      invariant forall j :: 0 <= j < i ==> at(xs[j]) >= cutoff
      invariant out == Zip(xs[..i], ys[..i], pair)
    {
      if at(xs[i]) < cutoff {
        break;
      }
      out := out + [pair(xs[i], ys[i])];
      i := i + 1;
    }
    ZipUntilStops(xs, ys, at, cutoff, pair, i);
  }

  /** The lists of `activities` before the summary is added. */
  datatype Lists = Lists(commits: seq<CommitData>, issues: seq<IssueData>, pulls: seq<IssueData>, releases: seq<ReleaseData>)

  /** The four collections of `_get_activities`, each translated in one batch. */
  function ListsSpec(st: Streams, cutoff: int, model: Prompt -> string): Lists {
    var commitTs := BatchTranslateSpec(Map(CommitItem, st.commits), model).0;
    var issueTs := BatchTranslateSpec(Map(IssueItem, st.issues), model).0;
    var pullTs := BatchTranslateSpec(Map(PullItem, Recent(st.pulls, PullAt, cutoff)), model).0;
    var releaseTs := BatchTranslateSpec(Map(ReleaseItem, Recent(st.releases, ReleaseAt, cutoff)), model).0;
    Lists(Zip(st.commits, commitTs, CommitPair),
          Zip(st.issues, issueTs, IssuePair),
          ZipUntil(st.pulls, pullTs, PullAt, cutoff, PullPair),
          ZipUntil(st.releases, releaseTs, ReleaseAt, cutoff, ReleasePair))
  }

  /** `_get_activities()` inside `get_repo_activities_with_translation(repo_name, days)`. */
  function ActivitiesSpec(st: Streams, days: int, now: int, nowIso: string, model: Prompt -> string): Activities {
    var l := ListsSpec(st, Cutoff(now, days), model);
    Activities(nowIso, l.commits, l.issues, l.pulls, l.releases, Summarize(SummaryInput(days, l), model).reply)
  }

  /**
   * Every commit and issue is reported, the i-th with the i-th translation;
   * pull requests and releases are the longest prefix of their stream not
   * before the cutoff, again paired position by position.
   */
  lemma ActivitiesPaired(st: Streams, cutoff: int, model: Prompt -> string)
    ensures var l := ListsSpec(st, cutoff, model);
      var commitTs := BatchTranslateSpec(Map(CommitItem, st.commits), model).0;
      var issueTs := BatchTranslateSpec(Map(IssueItem, st.issues), model).0;
      |l.commits| == |st.commits| && |l.issues| == |st.issues| &&
      (forall i :: 0 <= i < |st.commits| ==> l.commits[i] == CommitPair(st.commits[i], commitTs[i])) &&
      (forall i :: 0 <= i < |st.issues| ==> l.issues[i] == IssuePair(st.issues[i], issueTs[i]))
    ensures var l := ListsSpec(st, cutoff, model);
      var kept := Recent(st.pulls, PullAt, cutoff);
      var pullTs := BatchTranslateSpec(Map(PullItem, kept), model).0;
      |l.pulls| == |kept| && forall i :: 0 <= i < |kept| ==> l.pulls[i] == PullPair(kept[i], pullTs[i])
    ensures var l := ListsSpec(st, cutoff, model);
      var kept := Recent(st.releases, ReleaseAt, cutoff);
      var releaseTs := BatchTranslateSpec(Map(ReleaseItem, kept), model).0;
      |l.releases| == |kept| && forall i :: 0 <= i < |kept| ==> l.releases[i] == ReleasePair(kept[i], releaseTs[i])
  {
    var kept := Recent(st.pulls, PullAt, cutoff);
    ZipUntilPairsRecent(st.pulls, BatchTranslateSpec(Map(PullItem, kept), model).0, PullAt, cutoff, PullPair);
    var keptR := Recent(st.releases, ReleaseAt, cutoff);
    ZipUntilPairsRecent(st.releases, BatchTranslateSpec(Map(ReleaseItem, keptR), model).0, ReleaseAt, cutoff, ReleasePair);
  }

  /** A pull request updated exactly at the cutoff is kept: the comparison that stops the loop is strict. */
  lemma PullAtCutoffKept(p: GhPull, rest: seq<GhPull>, cutoff: int)
    requires p.updatedAt == cutoff
    ensures var kept := Recent([p] + rest, PullAt, cutoff); kept != [] && kept[0] == p
  {
  }

  /** `get_repo_activities_with_translation(repo_name, days)` past the cache: four collections, then the summary. */
  method GetRepoActivitiesWithTranslation(st: Streams, days: int, now: int, nowIso: string, model: Prompt -> string)
    returns (a: Activities)
    ensures a == ActivitiesSpec(st, days, now, nowIso, model)
  {
    var cutoff := Cutoff(now, days);
    var l := CollectLists(st, cutoff, model);
    var text := SummaryInput(days, l);
    var summary := Summarize(text, model);
    a := Activities(nowIso, l.commits, l.issues, l.pulls, l.releases, summary.reply);
  }

  /** The four pairs of loops of `_get_activities`. */
  method CollectLists(st: Streams, cutoff: int, model: Prompt -> string) returns (l: Lists)
    ensures l == ListsSpec(st, cutoff, model)
  {
    var commitItems := CollectItems(st.commits, CommitItem);
    var commitTs, _ := BatchTranslate(commitItems, model);
    var commits := PairAll(st.commits, commitTs, CommitPair);

    var issueItems := CollectItems(st.issues, IssueItem);
    var issueTs, _ := BatchTranslate(issueItems, model);
    var issues := PairAll(st.issues, issueTs, IssuePair);

    var pullItems := CollectRecentItems(st.pulls, PullAt, cutoff, PullItem);
    var pullTs, _ := BatchTranslate(pullItems, model);
    var pulls := PairRecent(st.pulls, pullTs, PullAt, cutoff, PullPair);

    var releaseItems := CollectRecentItems(st.releases, ReleaseAt, cutoff, ReleaseItem);
    var releaseTs, _ := BatchTranslate(releaseItems, model);
    var releases := PairRecent(st.releases, releaseTs, ReleaseAt, cutoff, ReleasePair);

    l := Lists(commits, issues, pulls, releases);
  }

  // ---------------------------------------------------------------------------
  // The summary text

  /** Items listed per kind. */
  const Listed := 5

  /** The indentation the triple-quoted text carries on every line but the first. */
  const Indent := "            "
  const Blank := Indent + "\n"

  /** `{kind}：{n}个`. */
  function CountLine(kind: string, n: nat): string {
    Indent + kind + "：" + NatToString(n) + "个\n"
  }

  /** A numbered heading and the first five `- …` lines joined by newlines. */
  function KindBlock(heading: string, lines: seq<string>): string {
    Indent + heading + "\n" + Indent + Join(Take(lines, Listed), "\n") + "\n"
  }

  function Dashed(s: string): string { "- " + s }
  function CommitLine(c: CommitData): string { Dashed(c.message) }
  function TitleLine(i: IssueData): string { Dashed(i.title) }
  function ReleaseLine(r: ReleaseData): string { Dashed(PyStr(r.name)) }

  /** The pieces of `activities_text`, in order. */
  function SummaryParts(days: int, l: Lists): seq<string> {
    ["\n" + Indent + "最近" + IntToString(days) + "天的更新：\n", Blank,
     CountLine("提交", |l.commits|), CountLine("议题", |l.issues|),
     CountLine("PR", |l.pulls|), CountLine("发布", |l.releases|), Blank,
     Indent + "主要更新内容：\n", Blank,
     KindBlock("1. 提交：", Map(CommitLine, l.commits)), Blank,
     KindBlock("2. 议题：", Map(TitleLine, l.issues)), Blank,
     KindBlock("3. PR：", Map(TitleLine, l.pulls)), Blank,
     KindBlock("4. 发布：", Map(ReleaseLine, l.releases)), Indent]
  }

  /** `activities_text`, the text handed to `summarize`. */
  function SummaryInput(days: int, l: Lists): string {
    Concat(SummaryParts(days, l))
  }

  /** The summary text reports the four counts, and under each heading at most the first five entries. */
  lemma SummaryReports(days: int, l: Lists)
    ensures var text := SummaryInput(days, l);
      Contains(text, CountLine("提交", |l.commits|)) && Contains(text, CountLine("议题", |l.issues|)) &&
      Contains(text, CountLine("PR", |l.pulls|)) && Contains(text, CountLine("发布", |l.releases|))
    ensures var text := SummaryInput(days, l);
      Contains(text, KindBlock("1. 提交：", Map(CommitLine, l.commits))) &&
      Contains(text, KindBlock("2. 议题：", Map(TitleLine, l.issues))) &&
      Contains(text, KindBlock("3. PR：", Map(TitleLine, l.pulls))) &&
      Contains(text, KindBlock("4. 发布：", Map(ReleaseLine, l.releases)))
  {
    var parts := SummaryParts(days, l);
    ConcatContainsPart(parts, 2);
    ConcatContainsPart(parts, 3);
    ConcatContainsPart(parts, 4);
    ConcatContainsPart(parts, 5);
    ConcatContainsPart(parts, 9);
    ConcatContainsPart(parts, 11);
    ConcatContainsPart(parts, 13);
    ConcatContainsPart(parts, 15);
  }

  /** A count line can be read back: its digits spell the count. */
  lemma CountLineReadsBack(kind: string, n: nat)
    ensures var digits := NatToString(n);
      CountLine(kind, n) == Indent + kind + "：" + digits + "个\n" && DigitsValue(digits) == n
  {
    NatToStringValue(n);
  }

  /** A kind's block lists the first five lines in order, and no more. */
  lemma KindBlockListsFive(heading: string, lines: seq<string>)
    ensures var listed := Take(lines, Listed);
      KindBlock(heading, lines) == Indent + heading + "\n" + Indent + Join(listed, "\n") + "\n" &&
      |listed| <= Listed && listed <= lines && (|lines| <= Listed ==> listed == lines)
  {
  }

  // ---------------------------------------------------------------------------
  // Cache keys

  function SearchKey(query: string): string {
    "search_" + query
  }

  function TrackedReposKey(names: seq<string>): string {
    "tracked_repos_" + Join(names, ",")
  }

  function ActivitiesKey(repo: string, days: int): string {
    "activities_" + repo + "_" + IntToString(days)
  }

  /** Requests of different kinds never share a cache entry. */
  lemma KeysOfKindsDiffer(query: string, names: seq<string>, repo: string, days: int)
    ensures SearchKey(query) != TrackedReposKey(names)
    ensures SearchKey(query) != ActivitiesKey(repo, days)
    ensures TrackedReposKey(names) != ActivitiesKey(repo, days)
  {
    assert SearchKey(query)[0] == 's';
    assert TrackedReposKey(names)[0] == 't';
    assert ActivitiesKey(repo, days)[0] == 'a';
  }

  /** Two activity requests share a cache entry only when they ask for the same repository and the same number of days. */
  lemma ActivitiesKeyInjective(r1: string, d1: int, r2: string, d2: int)
    requires ActivitiesKey(r1, d1) == ActivitiesKey(r2, d2)
    ensures r1 == r2 && d1 == d2
  {
    AfterLastAfterSep("activities_" + r1, '_', IntToString(d1));
    AfterLastAfterSep("activities_" + r2, '_', IntToString(d2));
    assert ActivitiesKey(r1, d1) == "activities_" + r1 + ['_'] + IntToString(d1);
    assert ActivitiesKey(r2, d2) == "activities_" + r2 + ['_'] + IntToString(d2);
    IntToStringInjective(d1, d2);
    var k := ActivitiesKey(r1, d1);
    assert r1 == k[11..11 + |r1|];
    assert r2 == k[11..11 + |r2|];
  }

  /** A full name `owner/name` puts a `/` into the activity key, so its cache file names a sub-directory. */
  lemma ActivitiesPathNested(repo: string, days: int)
    requires '/' in repo
    ensures !Cache.TopLevel(ActivitiesKey(repo, days))
  {
    var i :| 0 <= i < |repo| && repo[i] == '/';
    assert ActivitiesKey(repo, days)[11 + i] == '/';
  }

  /**
   * As written, `set` of an activity report for a repository given by its
   * full name fails, and a later `get` misses.
   */
  lemma ActivitiesNeverCached<V>(files: Cache.Dir<V>, ttl: int, repo: string, days: int, value: Option<V>, at: real, now: real)
    requires Cache.Flat(files) && '/' in repo
    ensures !Cache.StoreAsWritten(files, ActivitiesKey(repo, days), value, at).0
    ensures Cache.Lookup(Cache.StoreAsWritten(files, ActivitiesKey(repo, days), value, at).1, ttl, ActivitiesKey(repo, days), now) == (None, files)
  {
    ActivitiesPathNested(repo, days);
    Cache.SlashKeyNeverCached(files, ttl, ActivitiesKey(repo, days), value, at, now);
  }

  /**
   * So, as written, `get_repo_activities_with_translation` for a full name
   * raises on every call: the report is built, the limiter records the
   * request, and the caller gets the exception from `set` instead of the report.
   */
  lemma ActivitiesRequestRaises<V>(files: Cache.Dir<V>, ttl: int, ts: seq<real>, repo: string, days: int,
                                   response: GithubBase.Reply<V>, now: real, doneAt: real)
    requires Cache.Flat(files) && '/' in repo
    ensures GithubBase.RequestStepAsWritten(files, ttl, ts, ActivitiesKey(repo, days), response, now, doneAt) ==
      (GithubBase.Raised, true, RateLimiting.WaitStep(ts, GithubBase.LimitCalls, GithubBase.LimitPeriod, now).0, files)
  {
    ActivitiesPathNested(repo, days);
    GithubBase.SlashKeyAlwaysRaises(files, ttl, ts, ActivitiesKey(repo, days), response, now, doneAt);
  }

  /** The same holds for the tracked-repository list as soon as one name is a full name. */
  lemma TrackedReposPathNested(names: seq<string>)
    requires '/' in Join(names, ",")
    ensures !Cache.TopLevel(TrackedReposKey(names))
  {
    var j := Join(names, ",");
    var i :| 0 <= i < |j| && j[i] == '/';
    assert TrackedReposKey(names)[14 + i] == '/';
  }

  /** Likewise `get_tracked_repos` raises on every call once one tracked name is a full name. */
  lemma TrackedRequestRaises<V>(files: Cache.Dir<V>, ttl: int, ts: seq<real>, names: seq<string>,
                                response: GithubBase.Reply<V>, now: real, doneAt: real)
    requires Cache.Flat(files) && '/' in Join(names, ",")
    ensures GithubBase.RequestStepAsWritten(files, ttl, ts, TrackedReposKey(names), response, now, doneAt) ==
      (GithubBase.Raised, true, RateLimiting.WaitStep(ts, GithubBase.LimitCalls, GithubBase.LimitPeriod, now).0, files)
  {
    TrackedReposPathNested(names);
    GithubBase.SlashKeyAlwaysRaises(files, ttl, ts, TrackedReposKey(names), response, now, doneAt);
  }

  /** The repository of the documentation's example is one such name. */
  lemma ExampleActivitiesKeyNested()
    ensures !Cache.TopLevel(ActivitiesKey("octocat/Hello-World", 7))
  {
    ActivitiesPathNested("octocat/Hello-World", 7);
  }
}
