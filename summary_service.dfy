/**
 * `SummaryService`: the text the hot-repository and tracked-repository
 * summaries hand to the language model, and the fixed reply that replaces
 * the model's answer when anything fails.
 *
 * The model is an oracle `model: string -> Option<string>` from the whole
 * prompt to its reply, `None` when the call raises.
 */
module SummaryService {
  import opened Wrappers
  import opened Text

  /** One hot repository dict; its description may be `None`. */
  datatype HotRepo = HotRepo(name: string, description: Option<string>, stars: int, forks: int, updatedAt: string)

  /** One activity of a tracked repository. */
  datatype Activity = Activity(kind: string, title: string, description: Option<string>)

  /** One tracked repository dict. */
  datatype TrackedRepo = TrackedRepo(fullName: string, hasUpdates: bool, activities: seq<Activity>)

  /** Activities listed per repository. */
  const Listed := 5

  const Fallback := "生成总结时出错，请稍后重试。"

  const HotHead := "请分析以下GitHub热门项目列表，生成一个简洁的总结报告。重点关注：\n1. 项目的主要类型和领域分布\n2. 最受关注的项目及其特点\n3. 当前技术趋势分析\n\n项目列表：\n"
  const TrackedHead := "请分析以下GitHub已跟踪项目的更新情况，生成一个简洁的总结报告。重点关注：\n1. 最活跃的项目及其主要更新内容\n2. 重要的版本发布、重大更新\n3. 值得关注的问题和PR\n\n更新列表：\n"
  const PromptTail := "\n\n请用中文生成总结报告。\n"

  function NameLine(name: string): string {
    "项目名称: " + name + "\n"
  }

  /** The four lines of one hot repository and the blank line after them. */
  function HotBlock(r: HotRepo): string {
    NameLine(r.name) +
    "描述: " + PyStr(r.description) + "\n" +
    "Stars: " + IntToString(r.stars) + ", Forks: " + IntToString(r.forks) + "\n" +
    "最近更新: " + r.updatedAt + "\n\n"
  }

  /** `summary_content` of `generate_hot_repos_summary`. */
  function HotContent(repos: seq<HotRepo>): string {
    Concat(Map(HotBlock, repos))
  }

  function ActivityHead(a: Activity): string {
    "- [" + a.kind + "] " + a.title + "\n"
  }

  /** An activity's line, and its indented description when that is truthy. */
  function ActivityLines(a: Activity): string {
    ActivityHead(a) + if Truthy(a.description) then "  " + a.description.value + "\n" else ""
  }

  /** The activity part of a tracked block: a heading and the first five activities, or nothing without updates. */
  function UpdatesPart(r: TrackedRepo): string {
    if r.hasUpdates then "最新活动:\n" + Concat(Map(ActivityLines, Take(r.activities, Listed))) else ""
  }

  /** One tracked repository: its name line, its updates, a blank line. */
  function TrackedBlock(r: TrackedRepo): string {
    NameLine(r.fullName) + UpdatesPart(r) + "\n"
  }

  /** `summary_content` of `generate_tracked_repos_summary`. */
  function TrackedContent(repos: seq<TrackedRepo>): string {
    Concat(Map(TrackedBlock, repos))
  }

  /** The model's reply, or the fixed text when the call fails. */
  function Answer(model: string -> Option<string>, prompt: string): (r: string)
    ensures model(prompt).None? ==> r == Fallback
    ensures model(prompt).Some? ==> r == model(prompt).value
  {
    match model(prompt)
    case Some(reply) => reply
    case None => Fallback
  }

  /** `generate_hot_repos_summary(repos)`. */
  function HotSummary(repos: seq<HotRepo>, model: string -> Option<string>): string {
    Answer(model, HotHead + HotContent(repos) + PromptTail)
  }

  /** `generate_tracked_repos_summary(repos)`. */
  function TrackedSummary(repos: seq<TrackedRepo>, model: string -> Option<string>): string {
    Answer(model, TrackedHead + TrackedContent(repos) + PromptTail)
  }

  /** The last character is a newline. */
  predicate EndsInNewline(s: string) {
    |s| > 0 && s[|s| - 1] == '\n'
  }

  /** Hot repositories appear in input order: the content for `a + b` is that of `a`, then that of `b`. */
  lemma HotInOrder(a: seq<HotRepo>, b: seq<HotRepo>)
    ensures HotContent(a + b) == HotContent(a) + HotContent(b)
  {
    MapAppend(HotBlock, a, b);
    ConcatAppend(Map(HotBlock, a), Map(HotBlock, b));
  }

  /** Tracked repositories appear in input order. */
  lemma TrackedInOrder(a: seq<TrackedRepo>, b: seq<TrackedRepo>)
    ensures TrackedContent(a + b) == TrackedContent(a) + TrackedContent(b)
  {
    MapAppend(TrackedBlock, a, b);
    ConcatAppend(Map(TrackedBlock, a), Map(TrackedBlock, b));
  }

  /** A hot block opens with the repository's name line and closes with a blank line. */
  lemma HotBlockLayout(r: HotRepo)
    ensures StartsWith(HotBlock(r), NameLine(r.name))
    ensures EndsWith(HotBlock(r), "\n\n")
  {
    var b := HotBlock(r);
    var n := NameLine(r.name);
    assert b == n + b[|n|..];
    assert b == b[..|b| - 2] + "\n\n";
  }

  /** A tracked block opens with `项目名称: {full_name}` and closes with a blank line. */
  lemma TrackedBlockLayout(r: TrackedRepo)
    ensures StartsWith(TrackedBlock(r), NameLine(r.fullName))
    ensures EndsWith(TrackedBlock(r), "\n\n")
  {
    var n := NameLine(r.fullName);
    var u := UpdatesPart(r);
    UpdatesEndInNewline(r);
    assert EndsInNewline(n + u) by {
      if u == "" {
        assert n + u == n;
      } else {
        assert (n + u)[|n + u| - 1] == u[|u| - 1];
      }
    }
    var b := TrackedBlock(r);
    assert b == n + (u + "\n");
    assert b[|b| - 2..] == [(n + u)[|n + u| - 1], '\n'];
  }

  /** The updates part is empty or ends in a newline. */
  lemma UpdatesEndInNewline(r: TrackedRepo)
    ensures UpdatesPart(r) == "" || EndsInNewline(UpdatesPart(r))
  {
    if r.hasUpdates {
      var parts := Map(ActivityLines, Take(r.activities, Listed));
      ConcatEndsInNewline(parts);
      var c := Concat(parts);
      var head := "最新活动:\n";
      if c == "" {
        assert UpdatesPart(r) == head;
      } else {
        assert UpdatesPart(r) == head + c;
        assert (head + c)[|head + c| - 1] == c[|c| - 1];
      }
    }
  }

  /** Parts that each end in a newline concatenate to a text that is empty or ends in one. */
  lemma {:induction false} ConcatEndsInNewline(parts: seq<string>)
    requires forall i :: 0 <= i < |parts| ==> EndsInNewline(parts[i])
    ensures Concat(parts) == "" || EndsInNewline(Concat(parts))
    decreases |parts|
  {
    if parts != [] {
      var last := parts[|parts| - 1];
      assert EndsInNewline(last);
      var s := Concat(parts);
      assert s == Concat(parts[..|parts| - 1]) + last;
      assert s[|s| - 1] == last[|last| - 1];
    }
  }

  /** Each activity's text ends in a newline. */
  lemma ActivityEndsInNewline(a: Activity)
    ensures EndsInNewline(ActivityLines(a))
  {
    var h := ActivityHead(a);
    assert h[|h| - 1] == '\n';
    if Truthy(a.description) {
      var d := "  " + a.description.value + "\n";
      assert ActivityLines(a)[|ActivityLines(a)| - 1] == d[|d| - 1];
    } else {
      assert ActivityLines(a) == h;
    }
  }

  /** Activities past the fifth never reach the summary. */
  lemma OnlyFirstFiveListed(r: TrackedRepo)
    ensures TrackedBlock(r) == TrackedBlock(r.(activities := Take(r.activities, Listed)))
  {
    assert Take(Take(r.activities, Listed), Listed) == Take(r.activities, Listed);
  }

  /** Without updates a tracked block is the name line and the blank line, whatever its activities. */
  lemma NoUpdatesNoActivities(r: TrackedRepo)
    requires !r.hasUpdates
    ensures TrackedBlock(r) == NameLine(r.fullName) + "\n"
  {
  }

  /** The indented description line follows an activity exactly when its description is truthy. */
  lemma DescriptionLineIff(a: Activity)
    ensures ActivityLines(a) != ActivityHead(a) <==> Truthy(a.description)
    ensures Truthy(a.description) ==> ActivityLines(a) == ActivityHead(a) + "  " + a.description.value + "\n"
  {
    if Truthy(a.description) {
      assert |ActivityLines(a)| > |ActivityHead(a)|;
    }
  }

  /** `generate_hot_repos_summary(repos)`: the content grown block by block, the prompt, the model call. */
  method GenerateHotReposSummary(repos: seq<HotRepo>, model: string -> Option<string>) returns (summary: string)
    ensures summary == HotSummary(repos, model)
  {
    var content := BuildHotContent(repos);
    summary := Answer(model, HotHead + content + PromptTail);
  }

  /** The `for repo in repos` loop of `generate_hot_repos_summary`. */
  method BuildHotContent(repos: seq<HotRepo>) returns (content: string)
    ensures content == HotContent(repos)
  {
    content := "";
    for i := 0 to |repos|
      invariant content == HotContent(repos[..i])
    {
      var block := BuildHotBlock(repos[i]);
      AppendMapped(HotBlock, "", repos, i, content, block);
      content := content + block;
    }
    assert repos[..|repos|] == repos;
  }

  /** The four lines one turn of the loop of `generate_hot_repos_summary` appends. */
  method BuildHotBlock(r: HotRepo) returns (block: string)
    ensures block == HotBlock(r)
  {
    block := NameLine(r.name);
    block := block + "描述: " + PyStr(r.description) + "\n";
    block := block + "Stars: " + IntToString(r.stars) + ", Forks: " + IntToString(r.forks) + "\n";
    block := block + "最近更新: " + r.updatedAt + "\n\n";
  }

  /** `generate_tracked_repos_summary(repos)`. */
  method GenerateTrackedReposSummary(repos: seq<TrackedRepo>, model: string -> Option<string>) returns (summary: string)
    ensures summary == TrackedSummary(repos, model)
  {
    var content := "";
    for i := 0 to |repos|
      invariant content == TrackedContent(repos[..i])
    {
      var r := repos[i];
      var block := BuildTrackedBlock(r);
      AppendMapped(TrackedBlock, "", repos, i, content, block);
      content := content + block;
    }
    assert repos[..|repos|] == repos;
    summary := Answer(model, TrackedHead + content + PromptTail);
  }

  /** One turn of the outer loop of `generate_tracked_repos_summary`. */
  method BuildTrackedBlock(r: TrackedRepo) returns (block: string)
    ensures block == TrackedBlock(r)
  {
    block := NameLine(r.fullName);
    if r.hasUpdates {
      var lines := ListActivities(r.activities);
      block := block + "最新活动:\n" + lines;
    }
    block := block + "\n";
  }

  /** The `for activity in repo['activities'][:5]` loop. */
  method ListActivities(acts: seq<Activity>) returns (lines: string)
    ensures lines == Concat(Map(ActivityLines, Take(acts, Listed)))
  {
    lines := "";
    var listed := Take(acts, Listed);
    for i := 0 to |listed|
      invariant lines == Concat(Map(ActivityLines, listed[..i]))
    {
      var a := listed[i];
      ghost var before := lines;
      lines := lines + ActivityHead(a);
      if Truthy(a.description) {
        lines := lines + "  " + a.description.value + "\n";
      }
      assert lines == before + ActivityLines(a);
      AppendMapped(ActivityLines, "", listed, i, before, ActivityLines(a));
    }
    assert listed[..|listed|] == listed;
  }
}
