# github-tracker, modelled in Dafny

github-tracker follows GitHub projects. It collects the week's trending repositories for a few languages and searches GitHub. It tracks a list of repositories and records their recent commits, issues, pull requests and releases. It translates and summarises that material with a language model and mails the updates. A small HTTP API serves the hot list and lets a user add repositories to the tracked list or remove them.

This project models the core of that program, one Dafny module per source file:

- `Cache` (`src/utils/cache.py`): the file cache, keyed by request, with a time-to-live. `CacheManager` is a class over the directory's files.
- `RateLimiting` (`src/utils/rate_limiter.py`): the sliding-window rate limiter. `RateLimiter` is a class whose `Wait` prunes its call list and reports the sleep it would take.
- `GithubBase` (`src/llm/base.py`): `_make_request`, which tries the cache, waits for the limiter, runs the request and stores the result.
- `BaseLlm` (`src/llm/base_llm.py`): `translate`, `summarize` and `batch_translate`: the numbered prompt, the parsing of the reply line by line, padding and truncation.
- `GithubClient` (`src/llm/github_client.py`): translation of repository lists, the activity report with its cut-off loops and summary text, and the cache keys.
- `GithubTracker` (`src/github_tracker.py`): the trending collection with its per-language cap, the grouping for display, the shaping of search results and the data file name.
- `RepoActivity` (`src/repo_activity_tracker.py`): loading the tracked list, the activity filters and stats, the snapshot file name, the display caps and `track_all_repos`.
- `ApiServer` (`src/api_server.py`): `get_hot_repos`, `get_tracked_repos`, `track_repo` and `untrack_repo` over the tracked-repository file. `TrackedRepoConfig` is a class over that file.
- `MailService` (`src/mail/mail_service.py`): the configuration check, the HTML bodies and the send guards.
- `SummaryService` (`src/llm/summary_service.py`): the prompt content for the hot and tracked summaries, and the fallback reply.
- `ErrorHandler` (`src/handlers/error_handler.py`): the HTTP error for each kind of failure.
- `DateHandling` (`src/date_handler.py`): the time-zone helpers over microsecond instants with a fixed +08:00 zone.
- `CivilTime`, `Text` and `Wrappers` are shared helpers. They model `strftime`, Python's string operations and `Option`/`Result`.

Outside effects become parameters or oracles:

- A clock reading is a `now` parameter.
- A language model is a function from prompt to reply.
- A GitHub listing is the sequence it yields.
- A file on disk is an entry in a map from path to contents.
- `time.sleep` is reported as the number of seconds it would sleep.

The source's loops that build a result or change state are `while` or `for` loops here. Each is proved against a function that states its result, and the properties are lemmas about those functions. The loops of `display_activities` only print, so they are recursive functions that return the printed lines.

## Model

| member | source | states |
|---|---|---|
| Cache.CachePath | src/utils/cache.py:22-24 | the file of a key is the key with `.json` appended |
| Cache.CachePathInjective | src/utils/cache.py:22-24 | two keys share a file exactly when they are the same key |
| Cache.Lookup | src/utils/cache.py:26-53 | `get` returns a value only from a readable entry of that key at most `ttl` seconds old; it never adds or alters a file, it can only delete one |
| Cache.Store | src/utils/cache.py:55-71 | `set` writes `{timestamp: now, value}` under the key's file and leaves every other file as it was |
| Cache.Parent | src/utils/cache.py:22-24 | the directory part of a path is what precedes its last `/`, and `""` for a top-level path |
| Cache.StoreAsWritten | src/utils/cache.py:63-71 | `set` as written succeeds exactly when the key has no `/` or its sub-directory already holds a file, and otherwise leaves the directory unchanged |
| Cache.FlatWritable | src/utils/cache.py:63-71 | in a cache directory without sub-directories, exactly the keys without `/` can be written |
| Cache.NestedKeyWritable | src/utils/cache.py:63-71 | with `a/b.json` present, `set("a/c")` writes `a/c.json` |
| Cache.Remove | src/utils/cache.py:73-82 | `delete` removes the key's file, and only that file |
| Cache.GetMissing | src/utils/cache.py:36-39 | a key without a file reads as `None` and nothing changes |
| Cache.GetUnreadable | src/utils/cache.py:41-53 | a file whose timestamp does not load reads as `None` and is kept |
| Cache.GetTimedNoValue | src/utils/cache.py:46-53 | a record with a timestamp and no `value` is deleted once it is older than `ttl`, since expiry is checked before the value is read; otherwise it reads as `None` and is kept |
| Cache.GetExpired | src/utils/cache.py:46-49 | an entry older than `ttl` reads as `None` and is deleted, and nothing else is |
| Cache.GetAtTtl | src/utils/cache.py:47-51 | an entry exactly `ttl` seconds old is still returned, because the comparison is strict |
| Cache.SetThenGet | src/utils/cache.py:26-71 | after `set(k, v)`, a `get(k)` within `ttl` returns `v` and changes nothing |
| Cache.SetOverwrites | src/utils/cache.py:63-71 | a second `set` of the same key replaces the first one entirely |
| Cache.SetOtherKey | src/utils/cache.py:22-71 | `set(k, v)` leaves what `get` returns for every other key unchanged |
| Cache.DeleteRemovesOnly | src/utils/cache.py:73-82 | after `delete(k)`, `get(k)` finds nothing and every other key reads as before |
| Cache.DeleteAbsent | src/utils/cache.py:80-82 | deleting a key that has no file changes nothing |
| Cache.Cleared | src/utils/cache.py:84-87 | `clear` deletes exactly the top-level `*.json` files, and every other file stays with its contents |
| Cache.GetAfterClear | src/utils/cache.py:84-87 | after `clear`, every key without `/` reads as `None` |
| Cache.ClearKeepsNested | src/utils/cache.py:84-87 | a key with `/` reads after `clear` as it did before, because `glob("*.json")` does not reach its file |
| Cache.ClearFlatStore | src/utils/cache.py:84-87 | a directory holding only top-level `.json` files is emptied |
| Cache.SlashKeyNeverCached | src/utils/cache.py:22-24 | as written, a key containing `/` is never cached: the write fails and a later `get` finds nothing |
| Cache.FlatPreserved | src/utils/cache.py:22-87 | a directory holding only top-level files stays that way under `get`, `set` as written, and `delete` |
| Cache.CacheManager.constructor | src/utils/cache.py:10-20 | the manager keeps `ttl` and the files already in the directory |
| Cache.CacheManager.Get | src/utils/cache.py:26-53 | the result and the new directory are those of `Lookup` |
| Cache.CacheManager.Set | src/utils/cache.py:55-71 | the new directory is `Store` of the old one |
| Cache.CacheManager.SetAsWritten | src/utils/cache.py:63-71 | the success flag and the new directory are those of `StoreAsWritten`: the write fails only for a key whose sub-directory does not exist |
| Cache.CacheManager.Delete | src/utils/cache.py:73-82 | the new directory is `Remove` of the old one |
| Cache.CacheManager.Clear | src/utils/cache.py:84-87 | unlinking the matched files one by one leaves `Cleared` of the old directory |
| RateLimiting.PruneMembers | src/utils/rate_limiter.py:27 | pruning keeps exactly the times later than the cutoff, and never lengthens the list |
| RateLimiting.PruneSorted | src/utils/rate_limiter.py:27 | pruning keeps the surviving times in their order, so a sorted list stays sorted |
| RateLimiting.WaitFails | src/utils/rate_limiter.py:29-31 | `wait` raises `IndexError` on `timestamps[0]` exactly when `calls <= 0` and no recent time is on record |
| RateLimiting.WaitRecent | src/utils/rate_limiter.py:24-37 | after a successful `wait`, every stored time lies within the last `period` seconds, and the last one is `now` |
| RateLimiting.WaitBounded | src/utils/rate_limiter.py:27-37 | with `calls >= 1`, a list of at most `calls` times stays that short, and `wait` never fails |
| RateLimiting.WaitWithRoom | src/utils/rate_limiter.py:27-37 | below the limit, nothing is slept or removed, and `now` is appended to the pruned list |
| RateLimiting.WaitWhenFull | src/utils/rate_limiter.py:29-37 | at the limit, exactly the oldest time is removed, and the sleep lasts until it leaves the window; that sleep is always positive |
| RateLimiting.WaitSorted | src/utils/rate_limiter.py:24-37 | if the clock never goes back, the list stays sorted |
| RateLimiting.RateLimiter.constructor | src/utils/rate_limiter.py:8-18 | the limiter keeps `calls` and `period` and starts with no timestamps |
| RateLimiting.RateLimiter.Wait | src/utils/rate_limiter.py:20-37 | the new list and the outcome are those of `WaitStep`, and a bounded limiter stays bounded and never fails |
| GithubBase.RequestStep | src/llm/base.py:44-69 | the request runs exactly when the cache has no value; a hit returns the cached value and touches neither the limiter nor the cache; a miss waits once on the limiter and ends as the request does: a returned value is cached under the key, and an exception passes through with the cache as the lookup left it |
| GithubBase.RequestStepAsWritten | src/llm/base.py:56-67 | as written, a miss still runs the request and records it in the limiter; a returned value comes back exactly when the key's file can be opened (no `/`, or its sub-directory holds a file), and otherwise `set` raises |
| GithubBase.AsWrittenAgreesWhenWritable | src/llm/base.py:56-67 | wherever the key's file can be opened, the code as written behaves as intended |
| GithubBase.SlashKeyAlwaysRaises | src/llm/base.py:60-67 | in a cache directory without sub-directories, a key with `/` always runs the request, records it in the limiter, and raises, leaving the directory unchanged |
| GithubBase.RaisedIsRetried | src/llm/base.py:64-67 | a request that raised caches nothing, so the next request for the key runs again |
| GithubBase.HitIsReturned | src/llm/base.py:56-58 | a fresh cached value is returned, with no request and no `wait` |
| GithubBase.CachedNullIsMiss | src/llm/base.py:56-58 | a cached JSON `null` counts as a miss, so the request runs again |
| GithubBase.MissWaitsOnceAndStores | src/llm/base.py:60-69 | on a miss, the limiter sees exactly one `wait` at `now`; a returned result is returned and stored, and an exception is passed on with nothing stored |
| GithubBase.SecondRequestHits | src/llm/base.py:44-69 | a second request for the same key within `ttl` is answered from the cache with the first result |
| GithubBase.BaseGitHubClient.constructor | src/llm/base.py:11-29 | the limiter allows 5000 calls per 3600 seconds, and the cache has the default one-hour `ttl` |
| GithubBase.BaseGitHubClient.MakeRequest | src/llm/base.py:44-69 | the reply (a value or an exception), the flag saying whether the request ran, the limiter's list and the cache are those of `RequestStep`; the limiter's bound is kept |
| GithubBase.BaseGitHubClient.MakeRequestAsWritten | src/llm/base.py:44-69 | the same four are those of `RequestStepAsWritten`, with `set` failing for a key whose sub-directory does not exist; the limiter's bound is kept |
| BaseLlm.Translate | src/llm/base_llm.py:44-65 | an empty text gives `""` without calling the model; otherwise the reply is the model's answer to the `translate` prompt for that text |
| BaseLlm.Summarize | src/llm/base_llm.py:67-82 | an empty text gives `""` without calling the model; otherwise the reply is the model's answer to the `summarize` prompt |
| BaseLlm.PromptLinesEmpty | src/llm/base_llm.py:100-108 | there are no prompt lines exactly when every name and every description is empty |
| BaseLlm.Placeholders | src/llm/base_llm.py:107-108 | `[(None, None)] * n` is `n` placeholder pairs |
| BaseLlm.Fit | src/llm/base_llm.py:140-144 | exactly `n` pairs: the parsed ones first, then placeholders |
| BaseLlm.BatchTranslateSpec | src/llm/base_llm.py:84-144 | always exactly one pair per input item |
| BaseLlm.BatchTranslate | src/llm/base_llm.py:84-144 | the loops give `BatchTranslateSpec`; the model is called exactly when some name or description is non-empty, and otherwise every pair is `(None, None)` |
| BaseLlm.BuildPromptLines | src/llm/base_llm.py:100-105 | the numbered lines: `项目{i}名称: name` if there is a name, then `项目{i}描述: desc` if there is a description, counting from 1 |
| BaseLlm.ParseResponse | src/llm/base_llm.py:121-138 | the loop over the reply lines, with `current_item` in two variables, equals the line-by-line parser followed by the final emit |
| BaseLlm.PadOrTruncate | src/llm/base_llm.py:140-144 | padding with `(None, None)` and slicing give `Fit` |
| BaseLlm.ParseLinesAppend | src/llm/base_llm.py:124-135 | parsing two runs of lines is parsing the first and then continuing with the second |
| BaseLlm.SplitJoin | src/llm/base_llm.py:112-124 | splitting at `\n` the lines joined with `\n` gives them back, when no line holds a `\n` |
| BaseLlm.NameLineParses | src/llm/base_llm.py:103-133 | a name line is left unchanged by `strip`, is recognised as a name line, and yields the name |
| BaseLlm.DescriptionLineNotName | src/llm/base_llm.py:105-129 | a description line holds the name marker only if the description does |
| BaseLlm.DescriptionLineParses | src/llm/base_llm.py:105-135 | a description line is recognised as one and yields the description |
| BaseLlm.ParseNameLine | src/llm/base_llm.py:129-133 | a name line emits the pair being assembled, if that pair has a name, and starts a new pair |
| BaseLlm.ParseDescriptionLine | src/llm/base_llm.py:134-135 | a description line sets the description of the pair being assembled |
| BaseLlm.ItemLinesParse | src/llm/base_llm.py:101-135 | the lines of an echoable item leave exactly that item's pair being assembled |
| BaseLlm.EchoLines | src/llm/base_llm.py:101-138 | parsing the prompt lines of echoable items gives the items back |
| BaseLlm.EchoSplit | src/llm/base_llm.py:112-124 | splitting the prompt text at line breaks gives back its lines |
| BaseLlm.EchoReply | src/llm/base_llm.py:100-138 | the parser inverts the prompt builder on echoable items |
| BaseLlm.EchoRoundTrip | src/llm/base_llm.py:84-144 | a model that echoes the prompt text makes `batch_translate` return every echoable item unchanged |
| BaseLlm.NamelessItemShifts | src/llm/base_llm.py:101-142 | the format's blind spot: a description without a name is attached to the item before it, and the list is padded at the end |
| GithubClient.Zip | src/llm/github_client.py:39 | `zip` stops at the shorter of the two sequences |
| GithubClient.ReposTranslatedInPlace | src/llm/github_client.py:21-47 | same order and length as the input; the i-th repository gets `name_zh` / `description_zh` from the i-th translation exactly when it is truthy, and every other field is copied unchanged |
| GithubClient.FalsyTranslationAddsNoKeys | src/llm/github_client.py:40-44 | a translation that is all falsy adds no key to the copy |
| GithubClient.GetReposWithTranslation | src/llm/github_client.py:21-47 | one batch translation, then the `zip` loop, gives `ReposWithTranslation` |
| GithubClient.PairAll | src/llm/github_client.py:39-45 | the `for … in zip(…)` append loop equals `Zip` |
| GithubClient.RecentFacts | src/llm/github_client.py:176-178 | the items kept before `break` are a prefix of the stream, all at or after the cutoff, and the first item dropped is before it |
| GithubClient.RecentIsPrefix | src/llm/github_client.py:176-178 | when the first `n` items are at or after the cutoff and the next is before it (or the stream ends), exactly those `n` are kept |
| GithubClient.ZipUntilPairsRecent | src/llm/github_client.py:187-189 | the second `zip` loop with its `break` pairs the kept prefix with the translations |
| GithubClient.ZipUntilStops | src/llm/github_client.py:216-218 | the second loop stops at the first item before the cutoff |
| GithubClient.CollectItems | src/llm/github_client.py:128-133 | the commit (and issue) collection loop maps every item to its `(text, body or "")` pair |
| GithubClient.CollectRecentItems | src/llm/github_client.py:204-211 | the loop with `break` maps exactly the kept prefix |
| GithubClient.PairRecent | src/llm/github_client.py:216-228 | the second loop with `break` equals `ZipUntil` |
| GithubClient.ActivitiesPaired | src/llm/github_client.py:127-228 | every commit and issue is reported, the i-th with the i-th translation; pull requests and releases are the kept prefix of their stream, paired position by position |
| GithubClient.PullAtCutoffKept | src/llm/github_client.py:177-178 | a pull request updated exactly at the cutoff is kept |
| GithubClient.GetRepoActivitiesWithTranslation | src/llm/github_client.py:114-256 | the four collection loops and the summary give `ActivitiesSpec` |
| GithubClient.CollectLists | src/llm/github_client.py:127-228 | the four pairs of loops give `ListsSpec` |
| GithubClient.SummaryReports | src/llm/github_client.py:231-252 | the summary text holds the four count lines and the four per-kind blocks |
| GithubClient.CountLineReadsBack | src/llm/github_client.py:234-237 | a count line's digits spell back the count |
| GithubClient.KindBlockListsFive | src/llm/github_client.py:241-251 | a kind's block lists the first five entries in order, and all of them when there are at most five |
| GithubClient.KeysOfKindsDiffer | src/llm/github_client.py:74-258 | search, tracked-list and activity requests never share a cache key |
| GithubClient.ActivitiesKeyInjective | src/llm/github_client.py:258 | two activity requests share a key only with the same repository and the same days |
| GithubClient.ActivitiesPathNested | src/llm/github_client.py:258 | a full name `owner/name` puts a `/` into the activity key |
| GithubClient.ActivitiesNeverCached | src/llm/github_client.py:258 | as written, storing an activity report under a full name fails and the next lookup misses |
| GithubClient.TrackedReposPathNested | src/llm/github_client.py:101 | the tracked-list key holds a `/` as soon as one name does |
| GithubClient.ExampleActivitiesKeyNested | src/llm/github_client.py:258 | `activities_octocat/Hello-World_7` is such a key |
| GithubClient.ActivitiesRequestRaises | src/llm/github_client.py:258 | as written, every activity request for a full name runs, is recorded by the limiter, and raises from `set` instead of returning the report |
| GithubClient.TrackedRequestRaises | src/llm/github_client.py:101 | likewise, the tracked-list request raises as soon as one name is a full name |
| GithubTracker.Query | src/github_tracker.py:35-36 | the query is `language:<lang> created:>` followed by exactly the `%Y-%m-%d` stamp of the date a week back |
| GithubTracker.QueryLayout | src/github_tracker.py:35-36 | the date fills the last ten characters of the query, as `YYYY-MM-DD` |
| GithubTracker.QueryDeterminesDate | src/github_tracker.py:35-36 | two dates give the same query only when they are the same day |
| GithubTracker.Top | src/github_tracker.py:40-53 | at most five repositories are taken, and all of them when there are five or fewer |
| GithubTracker.CollectBound | src/github_tracker.py:33-53 | at most five repositories per language |
| GithubTracker.CollectSnoc | src/github_tracker.py:33-53 | one more language appends its top five to the list so far, and a raising search fails the whole |
| GithubTracker.CollectTwo | src/github_tracker.py:33-53 | two languages give the first one's top five followed by the second one's, or a failure if either search raises |
| GithubTracker.TrendingGrouped | src/github_tracker.py:28-58 | the list is the first five Python results followed by the first five Java results, in search order; if either search raises, the list is empty |
| GithubTracker.TrendingAtMostTen | src/github_tracker.py:39-43 | at most ten repositories in all |
| GithubTracker.GetTrendingRepositories | src/github_tracker.py:28-58 | the loop over the languages yields `TrendingSpec`, the empty list included when a search raises |
| GithubTracker.AppendTop | src/github_tracker.py:40-53 | the inner loop appends the repositories in search order and stops once five are taken |
| GithubTracker.CollectNonePropagates | src/github_tracker.py:56-58 | once one language's search raises, the whole result is the failure |
| GithubTracker.FirstSeen | src/github_tracker.py:104-109 | every key of `repos_by_language` is the language of some repository |
| GithubTracker.OfLanguage | src/github_tracker.py:104-109 | every repository in a group is from the list and has the group's language |
| GithubTracker.FirstSeenFacts | src/github_tracker.py:104-109 | the keys are distinct, and every repository's language is among them |
| GithubTracker.OneGroupEach | src/github_tracker.py:104-109 | a repository is in the group of its own language, and in no other |
| GithubTracker.GroupByLanguage | src/github_tracker.py:104-109 | the dict's keys, in insertion order, are the languages in order of first appearance, and each group lists that language's repositories in order |
| GithubTracker.Shape | src/github_tracker.py:149-156 | an item yields a result exactly when it has `full_name` and `html_url`; missing `description`, `stargazers_count` and `forks_count` default to `""`, 0 and 0 |
| GithubTracker.Kept | src/github_tracker.py:148 | at most ten items are kept |
| GithubTracker.ShapeAllPositions | src/github_tracker.py:148-156 | one result per item, each the shape of the item at the same position |
| GithubTracker.SearchAtMostTen | src/github_tracker.py:123-158 | a successful search returns at most ten results, the first ten items shaped in order |
| GithubTracker.SearchRepositories | src/github_tracker.py:123-161 | the loop yields `SearchSpec`: a failed request or an item without a required key re-raises |
| GithubTracker.ShapeAllErrPropagates | src/github_tracker.py:159-161 | once an item raises, the whole search raises |
| GithubTracker.DataFileName | src/github_tracker.py:81 | the name is `github_data_`, the `%Y%m%d_%H%M%S` stamp, then `.json` |
| GithubTracker.DataFileNameLayout | src/github_tracker.py:81 | for a valid reading the name is 32 characters with no `/` |
| GithubTracker.DataFileNameInjective | src/github_tracker.py:81 | data saved in different seconds goes to different files |
| RepoActivity.RecentReleasesMembers | src/repo_activity_tracker.py:55-64 | a release is kept exactly when it is published, and published strictly after `since` |
| RepoActivity.RecentPullsMembers | src/repo_activity_tracker.py:79-89 | a pull request is kept exactly when it was updated strictly after `since` |
| RepoActivity.RecentPullsSplit | src/repo_activity_tracker.py:80-81 | the whole pull-request stream is scanned: an old pull request does not stop the scan |
| RepoActivity.StatsAreLengths | src/repo_activity_tracker.py:91-109 | the stats are the lengths of the four lists, and a failed fetch gives `{}` |
| RepoActivity.SnapshotFilters | src/repo_activity_tracker.py:37-106 | commits and issues are kept as fetched; releases and pull requests are exactly those after the one-day cutoff |
| RepoActivity.GetRepoActivities | src/repo_activity_tracker.py:37-109 | the loops build `ActivitiesSpec` |
| RepoActivity.StampSuffixLayout | src/repo_activity_tracker.py:122 | the suffix `_<stamp>.json` is 21 characters, holds the stamp and has no `/` |
| RepoActivity.SnapshotFileName | src/repo_activity_tracker.py:121-122 | the name is the repository with each `/` made `_`, character by character, followed by `_<stamp>.json` |
| RepoActivity.SaveActivities | src/repo_activity_tracker.py:111-130 | `{}` is not saved; a saved snapshot's file name is the repository with `/` replaced by `_`, then the stamp |
| RepoActivity.SnapshotFileNameFlat | src/repo_activity_tracker.py:121-122 | a snapshot file name has no `/`, so the file lies in the snapshot directory itself |
| RepoActivity.ReplacedParts | src/repo_activity_tracker.py:121 | `owner/repo` becomes `owner_repo` |
| RepoActivity.SnapshotFileNameInjective | src/repo_activity_tracker.py:121-122 | for `owner/repo` names, the file name determines the repository and the second the snapshot was taken |
| RepoActivity.LoadTrackedRepos | src/repo_activity_tracker.py:24-35 | a missing or malformed configuration gives `[]`; otherwise `repositories`, defaulting to `[]` |
| RepoActivity.FirstLine | src/repo_activity_tracker.py:151 | `splitlines()[0]` raises exactly on the empty text; otherwise it is the prefix up to the first line boundary |
| RepoActivity.CommitLines | src/repo_activity_tracker.py:150-151 | one line per listed commit |
| RepoActivity.DisplayActivities | src/repo_activity_tracker.py:132-170 | `{}` shows only the notice; otherwise the first five commits, issues and pull requests and every release are shown |
| RepoActivity.CommitLinesAt | src/repo_activity_tracker.py:150-151 | each listed commit shows the first line of its message |
| RepoActivity.CommitLinesFail | src/repo_activity_tracker.py:150-151 | the first lines exist exactly when no message is empty |
| RepoActivity.DisplayFails | src/repo_activity_tracker.py:148-151 | `display_activities` raises on a snapshot exactly when one of its first five commit messages is empty |
| RepoActivity.Process | src/repo_activity_tracker.py:179-188 | a repository yields no data exactly when its fetch failed |
| RepoActivity.StepsAt | src/repo_activity_tracker.py:178-188 | the i-th listed outcome is that of the i-th tracked entry |
| RepoActivity.RunOfFacts | src/repo_activity_tracker.py:178-188 | a run goes through every entry exactly when none ends it, recording each outcome in order; otherwise it stops at the first that ends it, recording it only when its display raised |
| RepoActivity.RunFrom | src/repo_activity_tracker.py:178-188 | one entry further into a run: it stops there, stops after recording it, or records it and goes on |
| RepoActivity.TrackedRunFacts | src/repo_activity_tracker.py:178-188 | over the tracked entries, the run completes exactly when no entry lacks `full_name` and no saved snapshot's display raises, and the i-th recorded outcome is the i-th entry's |
| RepoActivity.TrackOne | src/repo_activity_tracker.py:179-188 | one pass of the loop body gives the entry's outcome, `None` for a missing `full_name` |
| RepoActivity.TrackAt | src/repo_activity_tracker.py:179-188 | the pass for the i-th entry gives the i-th listed outcome |
| RepoActivity.TrackAllRepos | src/repo_activity_tracker.py:172-188 | an empty list does nothing; otherwise the run is `RunOf` of the entries' outcomes: it completes exactly when no entry lacks `full_name` and no saved snapshot's display raises, with the i-th recorded outcome the i-th entry's, and stops at the first entry that does |
| RepoActivity.HaltsIff | src/repo_activity_tracker.py:178-188 | an entry ends the run exactly when it has no `full_name`, or its snapshot is saved and one of its first five commit messages is empty |
| RepoActivity.EmptyMessageStopsRun | src/repo_activity_tracker.py:150-186 | a saved snapshot whose first commit has an empty message ends the run: `splitlines()[0]` raises inside `display_activities` |
| ApiServer.Scan | src/api_server.py:101-102 | the scan stops at the first match; when every entry has a `full_name` it says whether the name is tracked, and an entry without one before any match raises |
| ApiServer.Without | src/api_server.py:130-134 | the kept entries are exactly those whose full name differs from the name |
| ApiServer.Track | src/api_server.py:83-115 | an error leaves the file as it was and replies 500; success replies `Repository tracked successfully` |
| ApiServer.UntrackBody | src/api_server.py:120-140 | the body raises its 404 exactly when the configuration file is missing |
| ApiServer.Untrack | src/api_server.py:117-142 | an error leaves the file as it was and replies 500; success replies `Repository untracked successfully` |
| ApiServer.GetTrackedRepos | src/api_server.py:68-81 | a missing file gives `[]`, an unreadable one 500, otherwise `config.get('repositories', [])` |
| ApiServer.TrackAppendsOnlyNew | src/api_server.py:100-113 | on a readable file, a tracked name leaves the list unchanged and a new name is appended after the existing entries |
| ApiServer.TrackIdempotent | src/api_server.py:100-113 | tracking a name twice gives the same file and reply as tracking it once |
| ApiServer.TrackKeepsNoDuplicates | src/api_server.py:100-107 | tracking never introduces a duplicate full name |
| ApiServer.UntrackFilters | src/api_server.py:129-140 | untracking keeps, in order, exactly the entries with another full name, so the name is no longer tracked |
| ApiServer.WithoutAbsent | src/api_server.py:130-134 | filtering out a name that no entry carries gives the same list |
| ApiServer.UntrackAbsent | src/api_server.py:129-140 | untracking a name that is not tracked rewrites the same list |
| ApiServer.TrackThenUntrack | src/api_server.py:83-142 | tracking and then untracking a name that was not tracked restores the list |
| ApiServer.AddedThenWithout | src/api_server.py:104-106 | filtering out the entry just appended gives back the earlier list |
| ApiServer.UntrackMissingIsServerError | src/api_server.py:122-123 | a missing file raises 404 inside `untrack_repo`, and `except Exception` turns it into a 500 for the client |
| ApiServer.TrackedRepoConfig.constructor | src/api_server.py:73 | the configuration file as found |
| ApiServer.TrackedRepoConfig.TrackRepo | src/api_server.py:83-115 | the loop scan and the append leave the file and reply of `Track` |
| ApiServer.TrackedRepoConfig.UntrackRepo | src/api_server.py:117-142 | leaves the file and reply of `Untrack` |
| ApiServer.KeepOthers | src/api_server.py:131-134 | the comprehension gives `Without` when every entry has a `full_name`, and raises otherwise |
| ApiServer.Hot | src/api_server.py:53-61 | `name` is the part of the full name after its last `/`; it ends the full name and holds no `/`; forks are 0, `updated_at` is the current time, and the other fields are copied |
| ApiServer.HotNameOfFullName | src/api_server.py:54 | for a full name `owner/repo`, the short name is `repo` |
| ApiServer.GetHotRepos | src/api_server.py:51-63 | one reshaped entry per trending repository, in order |
| MailService.ValidateConfig | src/mail/mail_service.py:21-29 | valid exactly when server, user name and password are all truthy, exactly when nothing is reported missing; each setting is reported missing exactly when it is falsy |
| MailService.SectionPresentIff | src/mail/mail_service.py:125-159 | a kind's section is empty exactly when it has no entries |
| MailService.OverflowCounts | src/mail/mail_service.py:130-131 | the `... 还有 n 个` line appears exactly when there are more than five items, and reports the number not listed |
| MailService.SectionLists | src/mail/mail_service.py:125-132 | a non-empty section is its heading, the first five entries in order, the overflow line and `</ul>` |
| MailService.CommitEntryFirstLine | src/mail/mail_service.py:128-129 | a commit entry carries only the first line of its message, with the author |
| MailService.BlocksInOrder | src/mail/mail_service.py:115-163 | the blocks appear in the order of the updates |
| MailService.BlockEnds | src/mail/mail_service.py:162-163 | every repository block ends with its link and a rule |
| MailService.BodyFrame | src/mail/mail_service.py:111-166 | the body opens with `<html><body>` and closes with `</body></html>` |
| MailService.BuildUpdateEmailBody | src/mail/mail_service.py:102-168 | the accumulating loop gives `UpdateEmailBody`: header, one block per update, footer |
| MailService.BuildBlock | src/mail/mail_service.py:116-163 | one repository's appends give its block |
| MailService.AppendSection | src/mail/mail_service.py:125-132 | appending a section extends the body by exactly that section |
| MailService.ListFirstFive | src/mail/mail_service.py:127-129 | the loop over `[:5]` lists the first five entries, in order |
| MailService.DailySummaryHolds | src/mail/mail_service.py:81-90 | both summaries can be read back from their places in the daily body, which is framed like the update mail |
| MailService.SendRepoUpdates | src/mail/mail_service.py:31-60 | nothing is sent exactly when the configuration is incomplete; otherwise the mail goes from the user name to the recipient with the update subject and body |
| MailService.SendDailySummary | src/mail/mail_service.py:62-100 | nothing is sent exactly when the configuration is incomplete; otherwise the mail carries the daily subject and body |
| SummaryService.Answer | src/llm/summary_service.py:46-50 | the model's reply when the call succeeds, and the fixed `生成总结时出错，请稍后重试。` when it raises |
| SummaryService.HotInOrder | src/llm/summary_service.py:29-34 | the hot content is one block per repository, in order |
| SummaryService.TrackedInOrder | src/llm/summary_service.py:63-72 | the tracked content is one block per repository, in order |
| SummaryService.HotBlockLayout | src/llm/summary_service.py:31-34 | a hot block opens with the repository's name line and ends with a blank line |
| SummaryService.TrackedBlockLayout | src/llm/summary_service.py:65-72 | a tracked block opens with the full-name line and ends with a blank line |
| SummaryService.UpdatesEndInNewline | src/llm/summary_service.py:66-71 | the updates part is empty or ends in a newline |
| SummaryService.ConcatEndsInNewline | src/llm/summary_service.py:68-71 | pieces that each end in a newline join into text that is empty or ends in one |
| SummaryService.ActivityEndsInNewline | src/llm/summary_service.py:69-71 | every activity's lines end in a newline |
| SummaryService.OnlyFirstFiveListed | src/llm/summary_service.py:68 | activities after the fifth never reach the prompt |
| SummaryService.NoUpdatesNoActivities | src/llm/summary_service.py:65-72 | a repository without updates contributes only its name line and a blank line |
| SummaryService.DescriptionLineIff | src/llm/summary_service.py:69-71 | the indented description line appears exactly when the description is truthy |
| SummaryService.GenerateHotReposSummary | src/llm/summary_service.py:27-50 | the content loop, the prompt and the fallback give `HotSummary` |
| SummaryService.BuildHotContent | src/llm/summary_service.py:29-34 | the accumulating loop gives one block per repository |
| SummaryService.BuildHotBlock | src/llm/summary_service.py:31-34 | the four appends give the repository's block |
| SummaryService.GenerateTrackedReposSummary | src/llm/summary_service.py:61-88 | the content loop, the prompt and the fallback give `TrackedSummary` |
| SummaryService.BuildTrackedBlock | src/llm/summary_service.py:65-72 | one repository's appends give its block |
| SummaryService.ListActivities | src/llm/summary_service.py:68-71 | the loop over `[:5]` lists the first five activities, in order |
| ErrorHandler.HandleGithubError | src/handlers/error_handler.py:11-42 | the first of `rate limit exceeded`, `not found`, `bad credentials` found in the lower-cased message gives 429, 404 or 401 with its fixed detail; a message with none of them gives 500 with the message behind the fixed prefix |
| ErrorHandler.HandleCacheError | src/handlers/error_handler.py:44-58 | always 500, the message behind the cache prefix |
| ErrorHandler.HandleValidationError | src/handlers/error_handler.py:60-74 | always 400, the message behind the validation prefix |
| ErrorHandler.StatusIgnoresCase | src/handlers/error_handler.py:23 | a message and its lower-cased text get the same status |
| ErrorHandler.SameLowerSameStatus | src/handlers/error_handler.py:23 | messages equal up to letter case get the same status |
| ErrorHandler.StatusesKnown | src/handlers/error_handler.py:25-42 | the status is one of 429, 404, 401 and 500 |
| ErrorHandler.RateLimitFirst | src/handlers/error_handler.py:25-29 | a message holding `rate limit exceeded` gives 429 whatever else it holds |
| ErrorHandler.CapitalisedNotFound | src/handlers/error_handler.py:23-33 | `404 Not Found` gives 404 |
| ErrorHandler.OtherErrorKeepsMessage | src/handlers/error_handler.py:38-42 | a 500 detail is the fixed prefix followed by the message itself |
| DateHandling.Now | src/date_handler.py:10-16 | the current instant, in the Asia/Shanghai zone |
| DateHandling.GetRecentTime | src/date_handler.py:18-25 | the instant `days` days before now, still in the default zone |
| DateHandling.ToAware | src/date_handler.py:84-93 | a naive datetime gets Asia/Shanghai at the same wall-clock reading; an aware one is returned unchanged |
| DateHandling.ToNaive | src/date_handler.py:75-82 | the zone is dropped and the wall-clock reading kept |
| DateHandling.Parse | src/date_handler.py:27-38 | a text that does not parse is an error; otherwise the result is aware, keeps its wall-clock reading, and keeps its own zone if it had one |
| DateHandling.IsAfterRecentTime | src/date_handler.py:52-62 | true exactly when the target's instant, read in the default zone if naive, is strictly later than `days` days ago |
| DateHandling.IsWithinDays | src/date_handler.py:40-50 | a parse error propagates; otherwise true exactly when the parsed instant is strictly later than `days` days ago |
| DateHandling.IsAfterRecentTimeStr | src/date_handler.py:64-73 | a text that does not parse propagates the error |
| DateHandling.CutoffIsNotRecent | src/date_handler.py:50 | the test is strict: exactly `days` days ago is not recent, one microsecond later is |
| DateHandling.ToAwareIdempotent | src/date_handler.py:84-93 | `to_aware` twice equals `to_aware` once |
| DateHandling.NaiveReadInShanghai | src/date_handler.py:91-92 | a naive datetime's instant lies eight hours before its wall-clock reading |
| DateHandling.WithinDaysAgrees | src/date_handler.py:40-73 | `is_within_days` and `is_after_recent_time_str` agree on every input, a failing parse included |
| DateHandling.NaiveRoundTrip | src/date_handler.py:75-93 | the round trip restores every field, zone name included, exactly when `dt` is in the default zone; this is equality of the fields, stricter than Python's `==` |
| DateHandling.NaiveRoundTripInstant | src/date_handler.py:75-93 | under Python's `==`, which compares instants, the round trip keeps an aware datetime exactly when its zone's offset is +08:00, whatever the zone is called |
| CivilTime.ZeroPadWidth | src/github_tracker.py:81 | a number below `10^w` fills exactly `w` digits |
| CivilTime.SameField | src/github_tracker.py:81 | equal zero-padded fields of one width hold the same number |
| CivilTime.DatePartLayout | src/github_tracker.py:81 | `%Y%m%d` is eight digits |
| CivilTime.ClockPartLayout | src/github_tracker.py:81 | `%H%M%S` is six digits |
| CivilTime.StampLayout | src/repo_activity_tracker.py:122 | `%Y%m%d_%H%M%S` is fifteen characters, `_` at index 8 and digits everywhere else |
| CivilTime.DatePartInjective | src/github_tracker.py:81 | equal date parts mean the same year, month and day |
| CivilTime.ClockPartInjective | src/github_tracker.py:81 | equal clock parts mean the same hour, minute and second |
| CivilTime.StampInjective | src/repo_activity_tracker.py:122 | two readings of the clock give the same stamp only when they are the same to the second |
| CivilTime.DateStampLayout | src/github_tracker.py:35 | `%Y-%m-%d` is ten characters with `-` at indexes 4 and 7 |
| CivilTime.DateStampInjective | src/github_tracker.py:35 | equal `%Y-%m-%d` stamps mean the same year, month and day |

## Left out

- File and network I/O, SMTP delivery, logging and `print`. Their effects are inputs, or returned values such as the email that would be sent and the file that would be written.
- YAML and JSON parsing. A configuration file is "missing", "unreadable" or its parsed contents. Of a tracked-repository entry only `full_name` is kept.
- Configuration shapes: only a JSON object whose `repositories` is a list or absent is modelled. A top-level value that is not an object makes `config.get` raise `AttributeError` out of the constructor. A `"repositories": null` makes the iteration in track and untrack raise, and the client gets a 500.
- `dateutil.isoparse` and `zoneinfo`. Parsing is an oracle returning a datetime or an error. A zone is a name with a fixed offset. The default zone, Asia/Shanghai, is +08:00, and its historical daylight-saving rules are not modelled. `Parse` keeps whatever zone the oracle returns, so other offsets do occur.
- The prompt templates of the language-model clients are folded into the model oracle. The `ollama` and `zhipu` clients, the scheduler, `main.py` and the web front end are not part of this model.
- Some calls to `async` summary methods lack `await`. The model treats every call as returning its string.
- `time.sleep` is not performed. `RateLimiter.Wait` reports how long it would sleep; like the source, it records the call at the clock reading taken before the sleep.
- Clock reads. The source reads `datetime.now()` many times:
  - once per language in `get_trending_repositories` (src/github_tracker.py:35);
  - for the cut-off, the snapshot timestamp and the file name in `get_repo_activities` and `save_activities` (src/repo_activity_tracker.py:41, 93, 122);
  - for each reshaped entry in `get_hot_repos` (src/api_server.py:59);
  - for each item scanned in `get_repo_activities_with_translation` (src/llm/github_client.py:177, 188, 206, 217).
  The model takes one reading per operation. `TrackAllRepos` takes one `now`, `nowIso` and `at` for the whole run, and `GetHotRepos` takes one `nowIso` for every entry.
- Query: the date a week back is the parameter `weekAgo`. The subtraction of seven days and the calendar arithmetic are not modelled. The search's `sort="stars", order="desc"` (src/github_tracker.py:37) is taken as a property of the search oracle, whose results arrive in that order.
- `get_repo_activities_with_translation` asks PyGithub for each stream twice. The model takes both passes to yield the same items.
- `str.lower` is modelled for ASCII letters only.
- Clock readings are limited to four-digit years (1000-9999), so the file-name stamps have a fixed width.
- Floating point. Python's `time.time()` seconds (src/utils/rate_limiter.py:24) and the cache's `datetime` differences in `timedelta` seconds (src/utils/cache.py:46-47) are exact `real` numbers here, and the date helpers count whole microseconds as `int`. Rounding is not modelled.
- Directories of the cache. A sub-directory counts as existing while some file lies below it. The model does not record empty directories: once the last file in one is deleted, by `delete` or by an expired read, `StoreAsWritten` treats the directory as gone, although on disk it stays.
- FastAPI's routing, CORS and the conversion of an `HTTPException` into a response. `ErrorHandler` returns the error its handler raises.
- The JSON content that `save_data` writes and the console layout of `display_data`. The grouping and the file name are modelled.
- The parsing of `SMTP_PORT`.
- `KeyError` from a repository dict without the expected key in `summary_service`. The model's dicts always have their keys.
- Comparisons of PyGithub datetimes with a naive cut-off. The cut-off is `datetime.now() - timedelta(...)`, with no zone, in `get_repo_activities` (src/repo_activity_tracker.py:41) and in `get_repo_activities_with_translation` (src/llm/github_client.py:177, 188, 206, 217).
  - PyGithub 1.x returns naive UTC datetimes, so the comparison goes through but mixes UTC with local time.
  - PyGithub 2.x returns aware datetimes, so the comparison raises `TypeError`. In `get_repo_activities` the handler at src/repo_activity_tracker.py:107 turns that into `{}`. In `get_repo_activities_with_translation` it escapes.
  - The model assumes the 1.x reading on a single time line, taking the local clock and PyGithub's values as readings of the same clock. The `TypeError` of the 2.x reading is not modelled.

## Findings

| source | as written | input that shows it | evidently intended | confidence | as-written member | corrected member |
|---|---|---|---|---|---|---|
| src/utils/cache.py:22-24 with src/llm/github_client.py:101 and :258 | the cache file is `cache_dir / f"{key}.json"`, and nothing creates sub-directories; the activity and tracked-list keys hold the repository's full name, so their file lies in a missing directory, and `set` raises after the request has run and the limiter has recorded it; `_make_request` passes the exception to its caller, so every such call fails | `activities_octocat/Hello-World_7` | each key is cached under its own name, so a second request within the time-to-live is served from the cache | not executed | Cache.StoreAsWritten, Cache.SlashKeyNeverCached, GithubBase.RequestStepAsWritten, GithubBase.SlashKeyAlwaysRaises, GithubClient.ActivitiesNeverCached, GithubClient.ActivitiesRequestRaises, GithubClient.TrackedRequestRaises, GithubClient.ExampleActivitiesKeyNested | Cache.Store, Cache.SetThenGet, GithubBase.RequestStep, GithubBase.SecondRequestHits |
