/**
 * `GitHubTracker`: trending repositories per language, their grouping for
 * display, the keyword search and the data file name.
 *
 * The GitHub search is the parameter `search`, from a query string to the
 * repositories it yields in order (`None` when the call raises); the date a
 * week back and the clock reading are parameters too.
 */
module GithubTracker {
  import opened Wrappers
  import opened Text
  import opened CivilTime

  /** The fields read from a PyGithub repository object. */
  datatype GithubRepo = GithubRepo(fullName: string, description: Option<string>, stars: int, url: string, language: Option<string>)

  /** One entry of `get_trending_repositories`; `name` is the full name. */
  datatype TrendingRepo = TrendingRepo(name: string, description: Option<string>, stars: int, url: string, language: Option<string>)

  /** `self.languages`. */
  const Languages: seq<string> := ["python", "java"]

  /** Repositories taken per language. */
  const PerLanguage := 5

  /** What a query for `language` starts with. */
  function QueryPrefix(language: string): string {
    "language:" + language + " created:>"
  }

  /**
   * The search query for one language: created after the date a week back,
   * written `%Y-%m-%d` after the prefix.
   */
  function Query(language: string, weekAgo: Civil): (q: string)
    ensures StartsWith(q, QueryPrefix(language)) && q[|QueryPrefix(language)|..] == DateStamp(weekAgo)
  {
    QueryPrefix(language) + DateStamp(weekAgo)
  }

  /** The date in a query is ten characters, `YYYY-MM-DD`, and ends it. */
  lemma QueryLayout(language: string, weekAgo: Civil)
    requires Valid(weekAgo)
    ensures var q := Query(language, weekAgo); var n := |QueryPrefix(language)|;
      |q| == n + 10 && q[n + 4] == '-' && q[n + 7] == '-'
  {
    DateStampLayout(weekAgo);
    assert Query(language, weekAgo)[|QueryPrefix(language)|..] == DateStamp(weekAgo);
  }

  /** The query for a language names one date: two dates give the same query only when they are the same day. */
  lemma QueryDeterminesDate(language: string, a: Civil, b: Civil)
    requires Valid(a) && Valid(b) && Query(language, a) == Query(language, b)
    ensures a.year == b.year && a.month == b.month && a.day == b.day
  {
    assert DateStamp(a) == Query(language, a)[|QueryPrefix(language)|..];
    DateStampInjective(a, b);
  }

  function Trend(r: GithubRepo): (t: TrendingRepo)
    ensures t.name == r.fullName && t.description == r.description && t.stars == r.stars
    ensures t.url == r.url && t.language == r.language
  {
    TrendingRepo(r.fullName, r.description, r.stars, r.url, r.language)
  }

  function Trends(rs: seq<GithubRepo>): (ts: seq<TrendingRepo>)
    ensures |ts| == |rs| && forall i :: 0 <= i < |rs| ==> ts[i] == Trend(rs[i])
  {
    seq(|rs|, i requires 0 <= i < |rs| => Trend(rs[i]))
  }

  /** The first five results, or all of them when there are fewer. */
  function Top(rs: seq<GithubRepo>): (ts: seq<TrendingRepo>)
    ensures |ts| <= PerLanguage && |ts| <= |rs|
    ensures |rs| <= PerLanguage ==> ts == Trends(rs)
  {
    Trends(if |rs| <= PerLanguage then rs else rs[..PerLanguage])
  }

  /**
   * The trending list for the languages `langs`, in their order; `None` when
   * any of their searches raises.
   */
  function Collect(langs: seq<string>, search: string -> Option<seq<GithubRepo>>, weekAgo: Civil): Option<seq<TrendingRepo>>
  {
    if langs == [] then Some([])
    else
      match Collect(langs[..|langs| - 1], search, weekAgo)
      case None => None
      case Some(before) =>
        match search(Query(langs[|langs| - 1], weekAgo))
        case None => None
        case Some(rs) => Some(before + Top(rs))
  }

  /** At most five repositories per language. */
  lemma {:induction false} CollectBound(langs: seq<string>, search: string -> Option<seq<GithubRepo>>, weekAgo: Civil)
    ensures Collect(langs, search, weekAgo).Some? ==> |Collect(langs, search, weekAgo).value| <= PerLanguage * |langs|
    decreases |langs|
  {
    if langs != [] {
      CollectBound(langs[..|langs| - 1], search, weekAgo);
    }
  }

  /** `get_trending_repositories()`: any exception gives the empty list. */
  function TrendingSpec(search: string -> Option<seq<GithubRepo>>, weekAgo: Civil): seq<TrendingRepo> {
    Collect(Languages, search, weekAgo).GetOr([])
  }

  /**
   * The trending list is the Python block followed by the Java block, each
   * the first five results of its search in search order; if either search
   * raises, it is empty.
   */
  lemma TrendingGrouped(search: string -> Option<seq<GithubRepo>>, weekAgo: Civil)
    ensures var py, java := search(Query("python", weekAgo)), search(Query("java", weekAgo));
      TrendingSpec(search, weekAgo) == if py.Some? && java.Some? then Top(py.value) + Top(java.value) else []
  {
    CollectTwo("python", "java", search, weekAgo);
  }

  /** One more language appends its block, or fails. */
  lemma CollectSnoc(langs: seq<string>, language: string, search: string -> Option<seq<GithubRepo>>, weekAgo: Civil)
    ensures Collect(langs + [language], search, weekAgo) ==
      match Collect(langs, search, weekAgo)
      case None => None
      case Some(before) =>
        match search(Query(language, weekAgo))
        case None => None
        case Some(rs) => Some(before + Top(rs))
  {
    assert (langs + [language])[..|langs|] == langs;
  }

  /** Two languages give the first one's block followed by the second one's, or a failure. */
  lemma CollectTwo(first: string, second: string, search: string -> Option<seq<GithubRepo>>, weekAgo: Civil)
    ensures var a, b := search(Query(first, weekAgo)), search(Query(second, weekAgo));
      Collect([first, second], search, weekAgo) == if a.Some? && b.Some? then Some(Top(a.value) + Top(b.value)) else None
  {
    CollectSnoc([], first, search, weekAgo);
    CollectSnoc([first], second, search, weekAgo);
    assert [] + [first] == [first] && [first] + [second] == [first, second];
    var a := search(Query(first, weekAgo));
    if a.Some? {
      assert [] + Top(a.value) == Top(a.value);
    }
  }

  /** At most ten repositories in all. */
  lemma TrendingAtMostTen(search: string -> Option<seq<GithubRepo>>, weekAgo: Civil)
    ensures |TrendingSpec(search, weekAgo)| <= 10
  {
    CollectBound(Languages, search, weekAgo);
  }

  method GetTrendingRepositories(search: string -> Option<seq<GithubRepo>>, weekAgo: Civil) returns (trending: seq<TrendingRepo>)
    ensures trending == TrendingSpec(search, weekAgo)
  {
    trending := [];
    var k := 0;
    while k < |Languages|
      invariant 0 <= k <= |Languages|
      invariant Collect(Languages[..k], search, weekAgo) == Some(trending)
    {
      var found := search(Query(Languages[k], weekAgo));
      CollectStep(Languages, k, search, weekAgo);
      if found.None? {
        CollectNonePropagates(Languages, k + 1, search, weekAgo);
        return [];
      }
      trending := AppendTop(trending, found.value);
      k := k + 1;
    }
    assert Languages[..k] == Languages;
  }

  /** One more language: its top results follow those of the languages before it. */
  lemma CollectStep(langs: seq<string>, k: nat, search: string -> Option<seq<GithubRepo>>, weekAgo: Civil)
    requires k < |langs|
    ensures Collect(langs[..k + 1], search, weekAgo) ==
      match Collect(langs[..k], search, weekAgo)
      case None => None
      case Some(before) =>
        match search(Query(langs[k], weekAgo))
        case None => None
        case Some(rs) => Some(before + Top(rs))
  {
    assert langs[..k + 1][..k] == langs[..k];
  }

  /** The inner loop: append repositories in search order, stopping once five are taken. */
  method AppendTop(trending: seq<TrendingRepo>, repos: seq<GithubRepo>) returns (out: seq<TrendingRepo>)
    ensures out == trending + Top(repos)
  {
    out := trending;
    var count := 0;
    while count < |repos|
      invariant 0 <= count <= PerLanguage && count <= |repos|
      invariant out == trending + Trends(repos[..count])
    {
      if count >= PerLanguage {
        break;
      }
      out := out + [Trend(repos[count])];
      count := count + 1;
      assert repos[..count] == repos[..count - 1] + [repos[count - 1]];
    }
    assert repos[..count] == if |repos| <= PerLanguage then repos else repos[..PerLanguage];
  }

  /** Once a prefix of the languages fails, every longer prefix fails. */
  lemma {:induction false} CollectNonePropagates(langs: seq<string>, k: nat, search: string -> Option<seq<GithubRepo>>, weekAgo: Civil)
    requires k <= |langs| && Collect(langs[..k], search, weekAgo).None?
    ensures Collect(langs, search, weekAgo) == None
    decreases |langs| - k
  {
    if k < |langs| {
      assert langs[..k + 1][..k] == langs[..k];
      CollectNonePropagates(langs, k + 1, search, weekAgo);
    } else {
      assert langs[..k] == langs;
    }
  }

  // ---------------------------------------------------------------------------
  // display_data: repositories grouped by language

  /** The languages of `repos`, each once, in the order they first appear. */
  function FirstSeen(repos: seq<TrendingRepo>): (langs: seq<Option<string>>)
    ensures forall l :: l in langs ==> exists r :: r in repos && r.language == l
  {
    if repos == [] then []
    else
      var before := FirstSeen(repos[..|repos| - 1]);
      var l := repos[|repos| - 1].language;
      if l in before then before else before + [l]
  }

  /** The repositories of one language, in their order. */
  function OfLanguage(repos: seq<TrendingRepo>, l: Option<string>): (rs: seq<TrendingRepo>)
    ensures forall r :: r in rs ==> r in repos && r.language == l
  {
    if repos == [] then []
    else
      OfLanguage(repos[..|repos| - 1], l) + (if repos[|repos| - 1].language == l then [repos[|repos| - 1]] else [])
  }

  /** The languages first seen are distinct, and every repository's language is among them. */
  lemma {:induction false} FirstSeenFacts(repos: seq<TrendingRepo>)
    ensures forall i, j :: 0 <= i < j < |FirstSeen(repos)| ==> FirstSeen(repos)[i] != FirstSeen(repos)[j]
    ensures forall r :: r in repos ==> r.language in FirstSeen(repos)
  {
    if repos != [] {
      var init := repos[..|repos| - 1];
      FirstSeenFacts(init);
      assert repos == init + [repos[|repos| - 1]];
    }
  }

  /**
   * A repository lies in the group of its own language and in no other, so
   * the groups split the list.
   */
  lemma {:induction false} OneGroupEach(repos: seq<TrendingRepo>, r: TrendingRepo, l: Option<string>)
    requires r in repos
    ensures r in OfLanguage(repos, r.language)
    ensures l != r.language ==> r !in OfLanguage(repos, l)
  {
    var init := repos[..|repos| - 1];
    assert repos == init + [repos[|repos| - 1]];
    if r != repos[|repos| - 1] {
      OneGroupEach(init, r, l);
    }
  }

  /** A language not yet seen has an empty group. */
  lemma OfLanguageUnseen(repos: seq<TrendingRepo>, l: Option<string>)
    requires l !in FirstSeen(repos)
    ensures OfLanguage(repos, l) == []
  {
    FirstSeenFacts(repos);
  }

  /**
   * `display_data`'s `repos_by_language`: an insertion-ordered dict, as its
   * key order `keys` and its map `groups`.
   */
  method GroupByLanguage(repos: seq<TrendingRepo>) returns (keys: seq<Option<string>>, groups: map<Option<string>, seq<TrendingRepo>>)
    ensures keys == FirstSeen(repos)
    ensures groups.Keys == set l | l in keys
    ensures forall l :: l in groups ==> groups[l] == OfLanguage(repos, l)
  {
    keys, groups := [], map[];
    var i := 0;
    while i < |repos|
      invariant 0 <= i <= |repos|
      invariant keys == FirstSeen(repos[..i])
      invariant groups.Keys == set l | l in keys
      invariant forall l :: l in groups ==> groups[l] == OfLanguage(repos[..i], l)
    {
      var repo := repos[i];
      var lang := repo.language;
      assert repos[..i + 1][..i] == repos[..i];
      if lang !in groups {
        OfLanguageUnseen(repos[..i], lang);
        keys := keys + [lang];
        groups := groups[lang := []];
      }
      groups := groups[lang := groups[lang] + [repo]];
      i := i + 1;
    }
    assert repos[..i] == repos;
  }

  // ---------------------------------------------------------------------------
  // search_repositories

  /** One item of the search response; `None` marks a key the item lacks (for `description`, `Some(None)` is a JSON null). */
  datatype SearchItem = SearchItem(
    fullName: Option<string>, description: Option<Option<string>>, stars: Option<int>,
    forks: Option<int>, updatedAt: Option<string>, htmlUrl: Option<string>)

  /** The HTTP response: a failed request (`raise_for_status`), or a body whose `items` key may be missing. */
  datatype SearchResponse = HttpFailure | Body(items: Option<seq<SearchItem>>)

  /** The reason `search_repositories` re-raises. */
  datatype SearchError = RequestFailed | MissingKey

  datatype FoundRepo = FoundRepo(name: string, description: Option<string>, stars: int, forks: int, updatedAt: Option<string>, url: string)

  /** Results kept from one search. */
  const SearchLimit := 10

  /** One result; an item without `full_name` or `html_url` raises `KeyError`. */
  function Shape(item: SearchItem): (r: Option<FoundRepo>)
    ensures r.Some? <==> item.fullName.Some? && item.htmlUrl.Some?
    ensures r.Some? ==> r.value.name == item.fullName.value && r.value.url == item.htmlUrl.value
    ensures r.Some? ==> r.value.description == item.description.GetOr(Some(""))
    ensures r.Some? ==> r.value.stars == item.stars.GetOr(0) && r.value.forks == item.forks.GetOr(0)
  {
    if item.fullName.None? || item.htmlUrl.None? then None
    else Some(FoundRepo(item.fullName.value, item.description.GetOr(Some("")), item.stars.GetOr(0),
                        item.forks.GetOr(0), item.updatedAt, item.htmlUrl.value))
  }

  /** The shaped items in order, or the error of the first one that raises. */
  function ShapeAll(items: seq<SearchItem>): Result<seq<FoundRepo>, SearchError> {
    if items == [] then Ok([])
    else
      match ShapeAll(items[..|items| - 1])
      case Err(e) => Err(e)
      case Ok(before) =>
        match Shape(items[|items| - 1])
        case None => Err(MissingKey)
        case Some(f) => Ok(before + [f])
  }

  /** `data.get("items", [])[:10]`. */
  function Kept(items: Option<seq<SearchItem>>): (r: seq<SearchItem>)
    ensures |r| <= SearchLimit
  {
    var all := items.GetOr([]);
    if |all| <= SearchLimit then all else all[..SearchLimit]
  }

  function SearchSpec(response: SearchResponse): Result<seq<FoundRepo>, SearchError> {
    match response
    case HttpFailure => Err(RequestFailed)
    case Body(items) => ShapeAll(Kept(items))
  }

  /** Shaping keeps one result per item, each the shape of the item at its position. */
  lemma {:induction false} ShapeAllPositions(items: seq<SearchItem>)
    ensures ShapeAll(items).Ok? ==> |ShapeAll(items).value| == |items|
    ensures ShapeAll(items).Ok? ==> forall i :: 0 <= i < |items| ==> Shape(items[i]) == Some(ShapeAll(items).value[i])
  {
    if items != [] {
      ShapeAllPositions(items[..|items| - 1]);
    }
  }

  /** A successful search returns at most ten results, the first ten items in order. */
  lemma SearchAtMostTen(response: SearchResponse)
    ensures SearchSpec(response).Ok? ==> |SearchSpec(response).value| <= SearchLimit
    ensures SearchSpec(response).Ok? ==> response.Body? && |SearchSpec(response).value| == |Kept(response.items)|
    ensures SearchSpec(response).Ok? ==> forall i :: 0 <= i < |SearchSpec(response).value| ==>
      Shape(Kept(response.items)[i]) == Some(SearchSpec(response).value[i])
  {
    if response.Body? {
      ShapeAllPositions(Kept(response.items));
    }
  }

  /** `search_repositories(query)` on the response to its request. */
  method SearchRepositories(response: SearchResponse) returns (r: Result<seq<FoundRepo>, SearchError>)
    ensures r == SearchSpec(response)
  {
    if response.HttpFailure? {
      return Err(RequestFailed);
    }
    var items := Kept(response.items);
    var repos := [];
    var i := 0;
    while i < |items|
      invariant 0 <= i <= |items|
      invariant ShapeAll(items[..i]) == Ok(repos)
    {
      assert items[..i + 1][..i] == items[..i];
      var shaped := Shape(items[i]);
      if shaped.None? {
        ShapeAllErrPropagates(items, i + 1);
        return Err(MissingKey);
      }
      repos := repos + [shaped.value];
      i := i + 1;
    }
    assert items[..i] == items;
    return Ok(repos);
  }

  /** Once an item raises, the whole search raises. */
  lemma {:induction false} ShapeAllErrPropagates(items: seq<SearchItem>, k: nat)
    requires k <= |items| && ShapeAll(items[..k]).Err?
    ensures ShapeAll(items) == Err(ShapeAll(items[..k]).error)
    decreases |items| - k
  {
    if k < |items| {
      assert items[..k + 1][..k] == items[..k];
      ShapeAllErrPropagates(items, k + 1);
    } else {
      assert items[..k] == items;
    }
  }

  // ---------------------------------------------------------------------------
  // save_data

  /** The data file's name inside the data directory: the prefix, the clock stamp, `.json`. */
  function DataFileName(c: Civil): (n: string)
    ensures |n| == |Stamp(c)| + 17 && n[..12] == "github_data_" && n[12..|n| - 5] == Stamp(c) && n[|n| - 5..] == ".json"
  {
    "github_data_" + Stamp(c) + ".json"
  }

  /** For a valid reading the name is 32 characters and names a file directly in the data directory. */
  lemma DataFileNameLayout(c: Civil)
    requires Valid(c)
    ensures |DataFileName(c)| == 32 && '/' !in DataFileName(c)
  {
    StampLayout(c);
    var n := DataFileName(c);
    forall k | 0 <= k < |n| ensures n[k] != '/' {
      if 12 <= k < 27 {
        assert n[k] == Stamp(c)[k - 12];
      } else if k < 12 {
        assert n[k] == "github_data_"[k];
      } else {
        assert n[k] == ".json"[k - 27];
      }
    }
  }

  /** Data saved in different seconds goes to different files. */
  lemma DataFileNameInjective(a: Civil, b: Civil)
    requires Valid(a) && Valid(b) && DataFileName(a) == DataFileName(b)
    ensures a == b
  {
    assert Stamp(a) == DataFileName(a)[12..|DataFileName(a)| - 5];
    assert Stamp(b) == DataFileName(b)[12..|DataFileName(b)| - 5];
    StampInjective(a, b);
  }
}
