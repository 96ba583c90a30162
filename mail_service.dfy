/**
 * `MailService`: the configuration check, the HTML body of the update mail
 * and of the daily summary mail, and the guards that keep both send methods
 * from building or sending anything without a complete configuration.
 *
 * The SMTP transport is left out: a send that gets past its guard returns
 * the message it would hand to `_send_email`.
 */
module MailService {
  import opened Wrappers
  import opened Text

  /** The settings read from the environment; `None` is an unset variable. */
  datatype MailConfig = MailConfig(server: Option<string>, username: Option<string>, password: Option<string>)

  /**
   * `validate_config()`: whether the server, user name and password are all
   * set, with the names of the missing ones in the order they are logged.
   */
  function ValidateConfig(c: MailConfig): (r: (bool, seq<string>))
    ensures r.0 <==> Truthy(c.server) && Truthy(c.username) && Truthy(c.password)
    ensures r.0 <==> r.1 == []
    ensures ("SMTP_SERVER" in r.1 <==> !Truthy(c.server)) && ("SMTP_USERNAME" in r.1 <==> !Truthy(c.username))
    ensures "SMTP_PASSWORD" in r.1 <==> !Truthy(c.password)
  {
    var missing :=
      (if Truthy(c.server) then [] else ["SMTP_SERVER"]) +
      (if Truthy(c.username) then [] else ["SMTP_USERNAME"]) +
      (if Truthy(c.password) then [] else ["SMTP_PASSWORD"]);
    (missing == [], missing)
  }

  // ---------------------------------------------------------------------------
  // The update mail

  datatype RepoInfo = RepoInfo(name: string, fullName: string, stars: int, forks: int, url: string)
  datatype CommitItem = CommitItem(message: string, author: string)
  /** An issue or a pull request: its title and state. */
  datatype StateItem = StateItem(title: string, state: string)
  /** A release; its name may be `None`, which an f-string renders as `None`. */
  datatype ReleaseItem = ReleaseItem(name: Option<string>, tag: string)

  /** One element of `updates`; a missing activity key reads like an empty list. */
  datatype Update = Update(repo: RepoInfo, commits: seq<CommitItem>, issues: seq<StateItem>, pulls: seq<StateItem>, releases: seq<ReleaseItem>)

  /** Items listed per kind. */
  const Listed := 5

  const HtmlOpen := "<html><body>"
  const HtmlClose := "</body></html>"
  const Header := HtmlOpen + "<h2>GitHub 项目更新通知</h2>" + "<p>以下是您关注的项目在最近一周的更新动态：</p>"
  const Footer := "<p>此邮件由 GitHub 项目追踪器自动发送，请勿直接回复。</p>" + HtmlClose

  /** The line that reports the items not listed; empty when all are listed. */
  function Overflow(count: nat, kind: string): string {
    if count > Listed then "<li>... 还有 " + NatToString(count - Listed) + " 个" + kind + "</li>" else ""
  }

  function SectionOpen(heading: string): string {
    "<h4>" + heading + "</h4><ul>"
  }

  /** One section: its heading, the first five entries, the overflow line; nothing for an empty list. */
  function Section(heading: string, kind: string, entries: seq<string>): string {
    if entries == [] then ""
    else SectionOpen(heading) + Concat(Take(entries, Listed)) + Overflow(|entries|, kind) + "</ul>"
  }

  /** A commit shows the first line of its message and its author. */
  function CommitEntry(c: CommitItem): string {
    "<li>" + BeforeFirst(c.message, '\n') + " (作者: " + c.author + ")</li>"
  }

  function StateEntry(i: StateItem): string {
    "<li>" + i.title + " (状态: " + i.state + ")</li>"
  }

  function ReleaseEntry(r: ReleaseItem): string {
    "<li>" + PyStr(r.name) + " (标签: " + r.tag + ")</li>"
  }

  /** The part of one repository before its activity sections. */
  function RepoHead(r: RepoInfo): string {
    "<h3>" + r.name + " (" + r.fullName + ")</h3>" +
    "<p>Stars: " + IntToString(r.stars) + ", Forks: " + IntToString(r.forks) + "</p>"
  }

  const Rule := "<hr/>"

  /** The link and the rule that close one repository's block. */
  function RepoTail(r: RepoInfo): string {
    "<p><a href=\"" + r.url + "\">访问仓库</a></p>" + Rule
  }

  /** One repository: its head, the sections for commits, issues, pull requests and releases, its tail. */
  function Block(u: Update): string {
    RepoHead(u.repo) +
    Section("最新提交", "提交", Map(CommitEntry, u.commits)) +
    Section("最新议题", "议题", Map(StateEntry, u.issues)) +
    Section("最新拉取请求", "拉取请求", Map(StateEntry, u.pulls)) +
    Section("最新发布", "发布", Map(ReleaseEntry, u.releases)) +
    RepoTail(u.repo)
  }


  /** `_build_update_email_body(updates)`. */
  function UpdateEmailBody(updates: seq<Update>): string {
    Header + Concat(Map(Block, updates)) + Footer
  }

  /** A section appears exactly when its list is not empty. */
  lemma SectionPresentIff(heading: string, kind: string, entries: seq<string>)
    ensures Section(heading, kind, entries) == "" <==> entries == []
  {
    if entries != [] {
      assert Section(heading, kind, entries)[0] == '<';
    }
  }

  /**
   * The overflow line appears exactly when there are more than five items,
   * and the number it reports plus the five listed is the item count.
   */
  lemma OverflowCounts(count: nat, kind: string)
    ensures Overflow(count, kind) != "" <==> count > Listed
    ensures count > Listed ==> var n := NatToString(count - Listed);
      Overflow(count, kind) == "<li>... 还有 " + n + " 个" + kind + "</li>" && DigitsValue(n) + Listed == count
  {
    if count > Listed {
      NatToStringValue(count - Listed);
    }
  }

  /** A section lists the first five entries in order, and no more. */
  lemma SectionLists(heading: string, kind: string, entries: seq<string>)
    requires entries != []
    ensures var listed := if |entries| <= Listed then entries else entries[..Listed];
      Section(heading, kind, entries) == SectionOpen(heading) + Concat(listed) + Overflow(|entries|, kind) + "</ul>"
      && |listed| <= Listed && listed <= entries
  {
  }

  /** A commit's entry carries only the first line of its message. */
  lemma CommitEntryFirstLine(c: CommitItem)
    ensures var line := BeforeFirst(c.message, '\n');
      CommitEntry(c) == "<li>" + line + " (作者: " + c.author + ")</li>" &&
      '\n' !in line && line <= c.message && (line == c.message || c.message[|line|] == '\n')
  {
  }

  /** Blocks appear in the order of the updates: a mail for `a + b` carries the blocks of `a`, then those of `b`. */
  lemma BlocksInOrder(a: seq<Update>, b: seq<Update>)
    ensures Concat(Map(Block, a + b)) == Concat(Map(Block, a)) + Concat(Map(Block, b))
  {
    MapAppend(Block, a, b);
    ConcatAppend(Map(Block, a), Map(Block, b));
  }

  /** Each repository's block ends with its link and a rule. */
  lemma BlockEnds(u: Update)
    ensures EndsWith(Block(u), Rule)
    ensures EndsWith(Block(u), RepoTail(u.repo))
  {
    var t := RepoTail(u.repo);
    var b := Block(u);
    assert b == b[..|b| - |t|] + t;
    EndsOfConcat(b[..|b| - |t|], t, Rule);
  }

  /** The body opens with `<html><body>` and closes with `</body></html>`. */
  lemma BodyFrame(updates: seq<Update>)
    ensures StartsWith(UpdateEmailBody(updates), HtmlOpen)
    ensures EndsWith(UpdateEmailBody(updates), HtmlClose)
  {
    var body := UpdateEmailBody(updates);
    var rest := body[|HtmlOpen|..];
    assert body == HtmlOpen + rest;
    var init := body[..|body| - |HtmlClose|];
    assert body == init + HtmlClose;
  }

  /** `_build_update_email_body(updates)`, growing the body as the source does. */
  method BuildUpdateEmailBody(updates: seq<Update>) returns (body: string)
    ensures body == UpdateEmailBody(updates)
  {
    body := Header;
    for k := 0 to |updates|
      invariant body == Header + Concat(Map(Block, updates[..k]))
    {
      var u := updates[k];
      var block := BuildBlock(u);
      AppendMapped(Block, Header, updates, k, body, block);
      body := body + block;
    }
    assert updates[..|updates|] == updates;
    body := body + Footer;
  }

  /** One turn of the outer loop: the repository's head, its four sections, its tail. */
  method BuildBlock(u: Update) returns (block: string)
    ensures block == Block(u)
  {
    block := RepoHead(u.repo);
    block := AppendSection(block, "最新提交", "提交", Map(CommitEntry, u.commits));
    block := AppendSection(block, "最新议题", "议题", Map(StateEntry, u.issues));
    block := AppendSection(block, "最新拉取请求", "拉取请求", Map(StateEntry, u.pulls));
    block := AppendSection(block, "最新发布", "发布", Map(ReleaseEntry, u.releases));
    block := block + RepoTail(u.repo);
  }

  /** One section of the loop body: heading, at most five entries, overflow line, closing tag. */
  method AppendSection(body: string, heading: string, kind: string, entries: seq<string>) returns (out: string)
    ensures out == body + Section(heading, kind, entries)
  {
    if entries == [] {
      return body;
    }
    var listed := ListFirstFive(entries);
    out := body + SectionOpen(heading) + listed + Overflow(|entries|, kind) + "</ul>";
  }

  /** The `for item in items[:5]` loop of a section, collecting the entries it appends. */
  method ListFirstFive(entries: seq<string>) returns (listed: string)
    ensures listed == Concat(Take(entries, Listed))
  {
    listed := "";
    var i := 0;
    while i < |entries| && i < Listed
      invariant 0 <= i <= |entries| && i <= Listed
      invariant listed == Concat(entries[..i])
    {
      assert entries[..i + 1][..i] == entries[..i];
      listed := listed + entries[i];
      i := i + 1;
    }
    assert entries[..i] == Take(entries, Listed);
  }

  // ---------------------------------------------------------------------------
  // Sending

  /** A message as handed to `_send_email`. */
  datatype Email = Email(sender: string, recipient: string, subject: string, htmlBody: string)

  const DailyOpen := HtmlOpen + "<h2>GitHub 项目每日总结</h2>" + "<h3>热门项目总结</h3>" + "<p>"
  const DailyMiddle := "</p>" + "<h3>已追踪项目更新总结</h3>" + "<p>"
  const DailyClose := "</p>" + HtmlClose

  /** The body of the daily summary mail: the two summaries under their headings. */
  function DailySummaryBody(hot: string, tracked: string): string {
    DailyOpen + hot + DailyMiddle + tracked + DailyClose
  }

  /** Both summaries can be read back from their places in the body, and the body is framed like the update mail. */
  lemma DailySummaryHolds(hot: string, tracked: string)
    ensures var body := DailySummaryBody(hot, tracked);
      var t := |DailyOpen| + |hot| + |DailyMiddle|;
      body[|DailyOpen|..|DailyOpen| + |hot|] == hot && body[t..t + |tracked|] == tracked &&
      StartsWith(body, HtmlOpen) && EndsWith(body, HtmlClose)
  {
    var body := DailySummaryBody(hot, tracked);
    assert body == DailyOpen + (hot + (DailyMiddle + (tracked + DailyClose)));
    assert DailyOpen == HtmlOpen + DailyOpen[|HtmlOpen|..];
    assert body[|body| - |HtmlClose|..] == HtmlClose;
  }

  /** `send_repo_updates(to_email, updates)`: `None` when the configuration is incomplete. */
  function SendRepoUpdates(c: MailConfig, to: string, updates: seq<Update>): (r: Option<Email>)
    ensures r.None? <==> !ValidateConfig(c).0
    ensures r.Some? ==> r.value == Email(c.username.value, to, "GitHub 项目更新通知", UpdateEmailBody(updates))
  {
    if !ValidateConfig(c).0 then None
    else Some(Email(c.username.value, to, "GitHub 项目更新通知", UpdateEmailBody(updates)))
  }

  /** `send_daily_summary(to_email, hot, tracked)`: `None` when the configuration is incomplete. */
  function SendDailySummary(c: MailConfig, to: string, hot: string, tracked: string): (r: Option<Email>)
    ensures r.None? <==> !ValidateConfig(c).0
    ensures r.Some? ==> r.value == Email(c.username.value, to, "GitHub 项目每日总结", DailySummaryBody(hot, tracked))
  {
    if !ValidateConfig(c).0 then None
    else Some(Email(c.username.value, to, "GitHub 项目每日总结", DailySummaryBody(hot, tracked)))
  }
}
