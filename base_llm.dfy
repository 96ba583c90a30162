/**
 * The language-model wrapper's own logic: the empty-text short cuts of
 * `translate` and `summarize`, and `batch_translate`, which numbers N
 * (name, description) pairs into prompt lines, parses the model's reply line
 * by line and pads or truncates the parsed pairs to exactly N.
 *
 * The model is an oracle `model: Prompt -> string`; loading and filling the
 * prompt template is folded into it, so a `Prompt` records which template is
 * used and what goes into its `text` field. A result's `asked` component is
 * the prompt the model was called with, or `None` when it was not called.
 */
module BaseLlm {
  import opened Wrappers
  import opened Text

  /** What is handed to the model: the template used and the values that fill it. */
  datatype Prompt =
    | TranslatePrompt(text: string, fromLang: string, toLang: string)
    | SummarizePrompt(text: string)

  /** The reply of `translate` or `summarize` and the prompt the model saw, if it was called. */
  datatype Answer = Answer(reply: string, asked: Option<Prompt>)

  /** One `(name, description)` input pair; Python's falsy values (`None`, "") are "". */
  datatype Item = Item(name: string, description: string)

  /** One output pair; `None` is Python's `None`. */
  datatype Translation = Translation(name: Option<string>, description: Option<string>)

  const Placeholder: Translation := Translation(None, None)

  /** `translate(text)`: "" for an empty text without calling the model. */
  function Translate(text: string, fromLang: string, toLang: string, model: Prompt -> string): (r: Answer)
    ensures r.asked == None <==> text == ""
    ensures r.asked == None ==> r.reply == ""
    ensures r.asked != None ==> r.asked == Some(TranslatePrompt(text, fromLang, toLang)) && r.reply == model(r.asked.value)
  {
    if text == "" then Answer("", None)
    else
      var p := TranslatePrompt(text, fromLang, toLang);
      Answer(model(p), Some(p))
  }

  /** `summarize(text)`: "" for an empty text without calling the model. */
  function Summarize(text: string, model: Prompt -> string): (r: Answer)
    ensures r.asked == None <==> text == ""
    ensures r.asked == None ==> r.reply == ""
    ensures r.asked != None ==> r.asked == Some(SummarizePrompt(text)) && r.reply == model(r.asked.value)
  {
    if text == "" then Answer("", None)
    else
      var p := SummarizePrompt(text);
      Answer(model(p), Some(p))
  }

  // ---------------------------------------------------------------------
  // Prompt lines

  /** `项目{n}名称`, the part of a name line before its colon. */
  function NameHead(n: nat): string {
    "项目" + NatToString(n) + "名称"
  }

  /** `项目{n}描述`, the part of a description line before its colon. */
  function DescriptionHead(n: nat): string {
    "项目" + NatToString(n) + "描述"
  }

  /** The line `项目{n}名称: {name}` */
  function NameLine(n: nat, name: string): string {
    NameHead(n) + ": " + name
  }

  /** The line `项目{n}描述: {desc}` */
  function DescriptionLine(n: nat, desc: string): string {
    DescriptionHead(n) + ": " + desc
  }

  /** The lines item number `n` contributes: its name line if it has a name, then its description line if it has one. */
  function ItemLines(it: Item, n: nat): seq<string> {
    (if it.name != "" then [NameLine(n, it.name)] else [])
    + (if it.description != "" then [DescriptionLine(n, it.description)] else [])
  }

  /** The lines for `items[k..]`, numbered from `k + 1` as `enumerate(items, 1)` does. */
  function PromptLines(items: seq<Item>, k: nat): seq<string>
    requires k <= |items|
    decreases |items| - k
  {
    if k == |items| then [] else ItemLines(items[k], k + 1) + PromptLines(items, k + 1)
  }

  predicate Blank(it: Item) {
    it.name == "" && it.description == ""
  }

  /** Every item from index `k` on has neither a name nor a description. */
  predicate BlankFrom(items: seq<Item>, k: nat) {
    forall i :: k <= i < |items| ==> Blank(items[i])
  }

  /** There are no prompt lines exactly when every name and every description is empty. */
  lemma {:induction false} PromptLinesEmpty(items: seq<Item>, k: nat)
    requires k <= |items|
    ensures PromptLines(items, k) == [] <==> BlankFrom(items, k)
    decreases |items| - k
  {
    if k < |items| {
      PromptLinesEmpty(items, k + 1);
      assert ItemLines(items[k], k + 1) == [] <==> Blank(items[k]);
    }
  }

  // ---------------------------------------------------------------------
  // Reply parser

  /** The parser's state: the pairs emitted so far and the pair being assembled. */
  datatype ParseState = ParseState(done: seq<Translation>, current: Translation)

  const Start: ParseState := ParseState([], Placeholder)

  /** A line that, once stripped, starts with `项目` and contains `名称:`. */
  predicate IsNameLine(line: string) {
    StartsWith(line, "项目") && Contains(line, "名称:")
  }

  /** A line that, once stripped, starts with `项目`, contains `描述:` and is not a name line. */
  predicate IsDescriptionLine(line: string) {
    StartsWith(line, "项目") && !Contains(line, "名称:") && Contains(line, "描述:")
  }

  /** `line.split(":", 1)[1].strip()`: the field value of a name or description line. */
  function FieldValue(line: string): string
    requires IsNameLine(line) || IsDescriptionLine(line)
  {
    assert ':' in line by {
      if IsNameLine(line) { ContainsChar(line, "名称:", ':'); } else { ContainsChar(line, "描述:", ':'); }
    }
    Strip(AfterFirst(line, ':'))
  }

  /** How one reply line changes the parser's state. */
  function ParseLine(st: ParseState, raw: string): ParseState {
    var line := Strip(raw);
    if line == "" then st
    else if IsNameLine(line) then
      var st' := if st.current.name != None then ParseState(st.done + [st.current], Placeholder) else st;
      st'.(current := st'.current.(name := Some(FieldValue(line))))
    else if IsDescriptionLine(line) then
      st.(current := st.current.(description := Some(FieldValue(line))))
    else st
  }

  function ParseLines(st: ParseState, lines: seq<string>): ParseState
    decreases |lines|
  {
    if lines == [] then st else ParseLines(ParseLine(st, lines[0]), lines[1..])
  }

  lemma ParseLinesStep(st: ParseState, lines: seq<string>, j: nat)
    requires j < |lines|
    ensures ParseLines(st, lines[j..]) == ParseLines(ParseLine(st, lines[j]), lines[j + 1..])
  {
    assert lines[j..][0] == lines[j];
    assert lines[j..][1..] == lines[j + 1..];
  }

  /** After the last line the pair being assembled is emitted if it holds anything. */
  function Finish(st: ParseState): seq<Translation> {
    if st.current.name != None || st.current.description != None then st.done + [st.current] else st.done
  }

  /** The pairs parsed from the model's reply, before padding or truncation. */
  function ParseReply(response: string): seq<Translation> {
    Finish(ParseLines(Start, Split(response, '\n')))
  }

  /** `n` placeholder pairs, `[(None, None)] * n`. */
  function Placeholders(n: nat): (r: seq<Translation>)
    ensures |r| == n && forall i :: 0 <= i < n ==> r[i] == Placeholder
  {
    seq(n, _ => Placeholder)
  }

  /** The parsed pairs padded with placeholders and truncated to exactly `n`. */
  function Fit(ts: seq<Translation>, n: nat): (r: seq<Translation>)
    ensures |r| == n
    ensures forall i :: 0 <= i < n ==> r[i] == if i < |ts| then ts[i] else Placeholder
  {
    if |ts| >= n then ts[..n] else ts + Placeholders(n - |ts|)
  }

  /** `batch_translate` as a function: the pairs it returns and the prompt the model saw, if any. */
  function BatchTranslateSpec(items: seq<Item>, model: Prompt -> string): (r: (seq<Translation>, Option<Prompt>))
    ensures |r.0| == |items|
  {
    if items == [] then ([], None)
    else
      var lines := PromptLines(items, 0);
      if lines == [] then (Placeholders(|items|), None)
      else
        var p := TranslatePrompt(Join(lines, "\n"), "en", "zh");
        (Fit(ParseReply(model(p)), |items|), Some(p))
  }

  /**
   * `batch_translate(items)` with the default languages. The prompt lines are
   * built in a loop, the reply is parsed line by line, and the parsed pairs
   * are padded and cut to exactly `|items|`.
   */
  method BatchTranslate(items: seq<Item>, model: Prompt -> string) returns (r: seq<Translation>, asked: Option<Prompt>)
    ensures (r, asked) == BatchTranslateSpec(items, model)
    ensures |r| == |items|
    ensures asked == None <==> BlankFrom(items, 0)
    ensures asked == None ==> r == Placeholders(|items|)
  {
    PromptLinesEmpty(items, 0);
    if items == [] {
      return [], None;
    }
    var texts := BuildPromptLines(items);
    if texts == [] {
      return Placeholders(|items|), None;
    }
    var p := TranslatePrompt(Join(texts, "\n"), "en", "zh");
    asked := Some(p);
    var response := model(p);
    var parsed := ParseResponse(Split(response, '\n'));
    r := PadOrTruncate(parsed, |items|);
  }

  /** The loop of `batch_translate` that numbers the items into prompt lines. */
  method BuildPromptLines(items: seq<Item>) returns (texts: seq<string>)
    ensures texts == PromptLines(items, 0)
  {
    texts := [];
    var i := 0;
    while i < |items|
      invariant 0 <= i <= |items|
      invariant texts == LinesBefore(items, i)
    {
      var it := items[i];
      ghost var before := texts;
      if it.name != "" {
        texts := texts + [NameLine(i + 1, it.name)];
      }
      if it.description != "" {
        texts := texts + [DescriptionLine(i + 1, it.description)];
      }
      assert texts == before + ItemLines(it, i + 1);
      i := i + 1;
    }
    LinesBeforeAll(items, |items|);
    assert items[..|items|] == items;
  }

  /** The prompt lines of `items[..k]`. */
  function LinesBefore(items: seq<Item>, k: nat): seq<string>
    requires k <= |items|
  {
    if k == 0 then [] else LinesBefore(items, k - 1) + ItemLines(items[k - 1], k)
  }

  /** Building the lines of a prefix and then those of the rest gives all the prompt lines. */
  lemma {:induction false} LinesBeforeAll(items: seq<Item>, k: nat)
    requires k <= |items|
    ensures LinesBefore(items, k) + PromptLines(items, k) == PromptLines(items, 0)
  {
    if k > 0 {
      LinesBeforeAll(items, k - 1);
      assert PromptLines(items, k - 1) == ItemLines(items[k - 1], k) + PromptLines(items, k);
    }
  }

  /**
   * The loop of `batch_translate` over the lines of the reply, with
   * `current_item` held in two variables.
   */
  method ParseResponse(lines: seq<string>) returns (translations: seq<Translation>)
    ensures translations == Finish(ParseLines(Start, lines))
  {
    translations := [];
    var name: Option<string> := None;
    var desc: Option<string> := None;
    var j := 0;
    while j < |lines|
      invariant 0 <= j <= |lines|
      invariant ParseLines(ParseState(translations, Translation(name, desc)), lines[j..]) == ParseLines(Start, lines)
    {
      ParseLinesStep(ParseState(translations, Translation(name, desc)), lines, j);
      ghost var st := ParseState(translations, Translation(name, desc));
      var line := Strip(lines[j]);
      if line == "" {
      } else if IsNameLine(line) {
        if name != None {
          translations := translations + [Translation(name, desc)];
          name, desc := None, None;
        }
        name := Some(FieldValue(line));
      } else if IsDescriptionLine(line) {
        desc := Some(FieldValue(line));
      }
      assert ParseState(translations, Translation(name, desc)) == ParseLine(st, lines[j]);
      j := j + 1;
    }
    if name != None || desc != None {
      translations := translations + [Translation(name, desc)];
    }
  }

  /** The padding loop and the final slice `translations[:len(items)]`. */
  method PadOrTruncate(parsed: seq<Translation>, n: nat) returns (r: seq<Translation>)
    ensures r == Fit(parsed, n)
  {
    var translations := parsed;
    while |translations| < n
      invariant |parsed| <= |translations|
      invariant translations == parsed + Placeholders(|translations| - |parsed|)
      decreases n - |translations|
    {
      translations := translations + [Placeholder];
    }
    r := translations[..n];
  }

  // ---------------------------------------------------------------------
  // Prompt and parser together

  /** An item the reply format carries faithfully: a one-line name and an optional one-line description, without stray white space or markers. */
  predicate Echoable(it: Item) {
    && it.name != "" && Stripped(it.name) && '\n' !in it.name
    && (it.description != "" ==> Stripped(it.description) && '\n' !in it.description && !Contains(it.description, "名称:"))
  }

  /** What parsing should recover from an echoed item. */
  function Expected(it: Item): Translation {
    Translation(Some(it.name), if it.description == "" then None else Some(it.description))
  }

  function ExpectedAll(items: seq<Item>): (r: seq<Translation>)
    ensures |r| == |items| && forall i :: 0 <= i < |items| ==> r[i] == Expected(items[i])
  {
    seq(|items|, i requires 0 <= i < |items| => Expected(items[i]))
  }

  lemma {:induction false} SplitJoin(lines: seq<string>, sep: char)
    requires |lines| >= 1
    requires forall k :: 0 <= k < |lines| ==> sep !in lines[k]
    ensures Split(Join(lines, [sep]), sep) == lines
  {
    if |lines| > 1 {
      var rest := Join(lines[1..], [sep]);
      SplitJoin(lines[1..], sep);
      var joined := Join(lines, [sep]);
      assert joined == lines[0] + [sep] + rest;
      IndexOfConcat(lines[0], sep, rest);
      assert joined[..|lines[0]|] == lines[0];
      assert joined[|lines[0]| + 1..] == rest;
      assert Split(joined, sep) == [lines[0]] + Split(rest, sep);
      assert lines == [lines[0]] + lines[1..];
    }
  }

  /** What the two line heads are made of. */
  lemma HeadFacts(n: nat)
    ensures NameHead(n)[0] == '项' && DescriptionHead(n)[0] == '项'
    ensures StartsWith(NameHead(n), "项目") && StartsWith(DescriptionHead(n), "项目")
    ensures ':' !in NameHead(n) && ':' !in DescriptionHead(n)
    ensures '\n' !in NameHead(n) && '\n' !in DescriptionHead(n)
    ensures '名' !in DescriptionHead(n)
    ensures |NameHead(n)| >= 2 && NameHead(n)[|NameHead(n)| - 2..] == "名称"
    ensures |DescriptionHead(n)| >= 2 && DescriptionHead(n)[|DescriptionHead(n)| - 2..] == "描述"
  {
    var d := NatToString(n);
    assert forall c :: c in d ==> IsDigit(c);
    assert NameHead(n) == "项目" + d + "名称";
    assert DescriptionHead(n) == "项目" + d + "描述";
  }

  lemma LineStripped(head: string, value: string)
    requires StartsWith(head, "项目") && value != "" && Stripped(value)
    ensures Strip(head + ": " + value) == head + ": " + value
  {
    var line := head + ": " + value;
    assert line[0] == head[0] == '项';
    assert line[|line| - 1] == value[|value| - 1];
    StripStripped(line);
  }

  lemma LineStartsWith(head: string, value: string)
    requires StartsWith(head, "项目")
    ensures StartsWith(head + ": " + value, "项目")
  {
    var line := head + ": " + value;
    assert line[..|head|] == head;
  }

  lemma LineMarked(head: string, value: string, marker: string)
    requires |marker| == 2 && |head| >= 2 && head[|head| - 2..] == marker
    ensures Contains(head + ": " + value, marker + ":")
  {
    var line := head + ": " + value;
    assert line[|head| - 2..|head| + 1] == head[|head| - 2..] + [':'];
    assert OccursAt(line, marker + ":", |head| - 2);
  }

  lemma LineField(head: string, value: string)
    requires ':' !in head && value != "" && Stripped(value)
    ensures ':' in head + ": " + value && Strip(AfterFirst(head + ": " + value, ':')) == value
  {
    var line := head + ": " + value;
    assert line == head + [':'] + (" " + value);
    IndexOfConcat(head, ':', " " + value);
    StripLeadingBlank(value);
  }

  /** A line `head: value` whose head starts with `项目`, ends in `marker` and holds no colon. */
  lemma MarkedLine(head: string, value: string, marker: string)
    requires ':' !in head && |marker| == 2 && |head| >= 2 && head[|head| - 2..] == marker
    requires StartsWith(head, "项目") && value != "" && Stripped(value)
    ensures Strip(head + ": " + value) == head + ": " + value
    ensures StartsWith(head + ": " + value, "项目") && Contains(head + ": " + value, marker + ":")
    ensures ':' in head + ": " + value && Strip(AfterFirst(head + ": " + value, ':')) == value
  {
    LineStripped(head, value);
    LineStartsWith(head, value);
    LineMarked(head, value, marker);
    LineField(head, value);
  }

  /** The markers the parser looks for are the line heads' last two characters and a colon. */
  lemma Markers()
    ensures "名称" + ":" == "名称:" && "描述" + ":" == "描述:"
  {
  }

  /** A name line is recognised as one and yields the name. */
  lemma NameLineParses(n: nat, name: string)
    requires name != "" && Stripped(name)
    ensures Strip(NameLine(n, name)) == NameLine(n, name)
    ensures IsNameLine(NameLine(n, name)) && FieldValue(NameLine(n, name)) == name
  {
    var line := NameLine(n, name);
    assert IsNameLine(line) by {
      HeadFacts(n);
      MarkedLine(NameHead(n), name, "名称");
      Markers();
    }
    assert Strip(line) == line && FieldValue(line) == name by {
      HeadFacts(n);
      MarkedLine(NameHead(n), name, "名称");
    }
  }

  /** A description line holds the name marker only if the description does. */
  lemma DescriptionLineNotName(n: nat, desc: string)
    requires !Contains(desc, "名称:")
    ensures !Contains(DescriptionLine(n, desc), "名称:")
  {
    HeadFacts(n);
    var pre := DescriptionHead(n) + ": ";
    assert DescriptionLine(n, desc) == pre + desc;
    assert '名' !in pre;
    if Contains(pre + desc, "名称:") {
      ContainsPastPrefix(pre, desc, "名称:");
    }
  }

  /** A description line of an echoable item is recognised as one and yields the description. */
  lemma DescriptionLineParses(n: nat, desc: string)
    requires desc != "" && Stripped(desc) && !Contains(desc, "名称:")
    ensures Strip(DescriptionLine(n, desc)) == DescriptionLine(n, desc)
    ensures IsDescriptionLine(DescriptionLine(n, desc)) && FieldValue(DescriptionLine(n, desc)) == desc
  {
    var line := DescriptionLine(n, desc);
    DescriptionLineNotName(n, desc);
    assert IsDescriptionLine(line) by {
      HeadFacts(n);
      MarkedLine(DescriptionHead(n), desc, "描述");
      Markers();
    }
    assert Strip(line) == line && FieldValue(line) == desc by {
      HeadFacts(n);
      MarkedLine(DescriptionHead(n), desc, "描述");
    }
  }

  lemma {:induction false} ParseLinesAppend(st: ParseState, a: seq<string>, b: seq<string>)
    ensures ParseLines(st, a + b) == ParseLines(ParseLines(st, a), b)
    decreases |a|
  {
    if a == [] {
      assert a + b == b;
    } else {
      assert (a + b)[0] == a[0];
      assert (a + b)[1..] == a[1..] + b;
      ParseLinesAppend(ParseLine(st, a[0]), a[1..], b);
    }
  }

  /** A name line emits the pair being assembled, if it has a name, and starts a new pair. */
  lemma ParseNameLine(st: ParseState, n: nat, name: string)
    requires name != "" && Stripped(name)
    ensures ParseLine(st, NameLine(n, name))
         == ParseState(if st.current.name != None then st.done + [st.current] else st.done,
                       Translation(Some(name), if st.current.name != None then None else st.current.description))
  {
    NameLineParses(n, name);
  }

  /** A description line sets the description of the pair being assembled. */
  lemma ParseDescriptionLine(st: ParseState, n: nat, desc: string)
    requires desc != "" && Stripped(desc) && !Contains(desc, "名称:")
    ensures ParseLine(st, DescriptionLine(n, desc)) == st.(current := st.current.(description := Some(desc)))
  {
    DescriptionLineParses(n, desc);
  }

  /**
   * Parsing the lines of an echoable item emits the pair assembled so far,
   * if it has a name, and leaves this item's pair being assembled.
   */
  lemma ItemLinesParse(st: ParseState, it: Item, n: nat)
    requires Echoable(it)
    requires st.current.name != None || st.current.description == None
    ensures ParseLines(st, ItemLines(it, n))
         == ParseState(if st.current.name != None then st.done + [st.current] else st.done, Expected(it))
  {
    var st1 := ParseState(if st.current.name != None then st.done + [st.current] else st.done,
                          Translation(Some(it.name), if st.current.name != None then None else st.current.description));
    ParseNameLine(st, n, it.name);
    if it.description != "" {
      NameAndDescriptionParse(st, st1, n, it.name, it.description);
      ItemLinesBoth(n, it.name, it.description);
    } else {
      assert ItemLines(it, n) == [NameLine(n, it.name)];
      ParseOne(st, NameLine(n, it.name));
    }
  }

  lemma NameAndDescriptionParse(st: ParseState, st1: ParseState, n: nat, name: string, desc: string)
    requires name != "" && ParseLine(st, NameLine(n, name)) == st1
    requires desc != "" && Stripped(desc) && !Contains(desc, "名称:")
    ensures ParseLines(st, [NameLine(n, name), DescriptionLine(n, desc)]) == st1.(current := st1.current.(description := Some(desc)))
  {
    ParseDescriptionLine(st1, n, desc);
    ParseTwo(st, NameLine(n, name), DescriptionLine(n, desc));
  }

  lemma ItemLinesBoth(n: nat, name: string, desc: string)
    requires name != "" && desc != ""
    ensures ItemLines(Item(name, desc), n) == [NameLine(n, name), DescriptionLine(n, desc)]
  {
  }

  lemma ParseOne(st: ParseState, a: string)
    ensures ParseLines(st, [a]) == ParseLine(st, a)
  {
    assert [a][1..] == [];
  }

  lemma ParseTwo(st: ParseState, a: string, b: string)
    ensures ParseLines(st, [a, b]) == ParseLine(ParseLine(st, a), b)
  {
    assert [a, b][1..] == [b];
    ParseOne(ParseLine(st, a), b);
  }

  /**
   * After the prompt lines of the echoable `items[..k]` the parser has
   * emitted the first `k - 1` of them and is assembling the `k`-th.
   */
  lemma {:induction false} EchoPrefix(items: seq<Item>, k: nat)
    requires 1 <= k <= |items|
    requires forall i :: 0 <= i < |items| ==> Echoable(items[i])
    ensures ParseLines(Start, PromptLines(items, 0)) == ParseLines(ParseState(ExpectedAll(items[..k - 1]), Expected(items[k - 1])), PromptLines(items, k))
    decreases k
  {
    var before := if k == 1 then Start else ParseState(ExpectedAll(items[..k - 2]), Expected(items[k - 2]));
    assert ParseLines(Start, PromptLines(items, 0)) == ParseLines(before, PromptLines(items, k - 1)) by {
      if k > 1 {
        EchoPrefix(items, k - 1);
      }
    }
    var lines := ItemLines(items[k - 1], k);
    assert PromptLines(items, k - 1) == lines + PromptLines(items, k);
    ParseLinesAppend(before, lines, PromptLines(items, k));
    ItemLinesParse(before, items[k - 1], k);
    if k == 1 {
      assert ExpectedAll(items[..0]) == [];
    } else {
      ExpectedAllSnoc(items, k - 2);
    }
  }

  lemma ExpectedAllSnoc(items: seq<Item>, m: nat)
    requires m < |items|
    ensures ExpectedAll(items[..m]) + [Expected(items[m])] == ExpectedAll(items[..m + 1])
  {
    var a := ExpectedAll(items[..m]) + [Expected(items[m])];
    var b := ExpectedAll(items[..m + 1]);
    assert |a| == |b|;
    forall i | 0 <= i < |a| ensures a[i] == b[i] {
      assert items[..m + 1][i] == items[i];
      if i < m {
        assert items[..m][i] == items[i];
      }
    }
  }

  lemma {:induction false} NoNewlineInLines(items: seq<Item>, k: nat)
    requires k <= |items|
    requires forall i :: 0 <= i < |items| ==> Echoable(items[i])
    ensures forall j :: 0 <= j < |PromptLines(items, k)| ==> '\n' !in PromptLines(items, k)[j]
    decreases |items| - k
  {
    if k < |items| {
      NoNewlineInLines(items, k + 1);
      var it := items[k];
      HeadFacts(k + 1);
      assert '\n' !in NameLine(k + 1, it.name);
      assert it.description != "" ==> '\n' !in DescriptionLine(k + 1, it.description);
    }
  }

  /** Parsing the prompt lines of echoable items, one by one, gives the items back. */
  lemma EchoLines(items: seq<Item>)
    requires items != []
    requires forall i :: 0 <= i < |items| ==> Echoable(items[i])
    ensures Finish(ParseLines(Start, PromptLines(items, 0))) == ExpectedAll(items)
  {
    var n := |items|;
    EchoPrefix(items, n);
    assert PromptLines(items, n) == [];
    FinishLast(items);
  }

  /** Emitting the pair of the last item completes the list. */
  lemma FinishLast(items: seq<Item>)
    requires items != []
    requires Expected(items[|items| - 1]).name != None
    ensures Finish(ParseState(ExpectedAll(items[..|items| - 1]), Expected(items[|items| - 1]))) == ExpectedAll(items)
  {
    assert items[..|items|] == items;
    ExpectedAllSnoc(items, |items| - 1);
  }

  /** Splitting the prompt text at line breaks gives back its lines. */
  lemma EchoSplit(items: seq<Item>)
    requires forall i :: 0 <= i < |items| ==> Echoable(items[i])
    requires PromptLines(items, 0) != []
    ensures Split(Join(PromptLines(items, 0), "\n"), '\n') == PromptLines(items, 0)
  {
    NoNewlineInLines(items, 0);
    SplitJoin(PromptLines(items, 0), '\n');
  }

  /** Echoable items always produce prompt lines, since each has a name. */
  lemma EchoableLines(items: seq<Item>)
    requires items != [] && Echoable(items[0])
    ensures PromptLines(items, 0) != []
  {
    assert PromptLines(items, 0) == ItemLines(items[0], 1) + PromptLines(items, 1);
  }

  /** The parser inverts the prompt builder: parsing the prompt text gives the echoable items back. */
  lemma EchoReply(items: seq<Item>)
    requires items != []
    requires forall i :: 0 <= i < |items| ==> Echoable(items[i])
    ensures ParseReply(Join(PromptLines(items, 0), "\n")) == ExpectedAll(items)
  {
    EchoableLines(items);
    EchoSplit(items);
    EchoLines(items);
  }

  /** A model that echoes the prompt text back makes `batch_translate` return every echoable item unchanged. */
  lemma EchoRoundTrip(items: seq<Item>)
    requires items != []
    requires forall i :: 0 <= i < |items| ==> Echoable(items[i])
    ensures BatchTranslateSpec(items, (p: Prompt) => p.text).0 == ExpectedAll(items)
  {
    EchoableLines(items);
    EchoReply(items);
    assert Fit(ExpectedAll(items), |items|) == ExpectedAll(items);
  }

  /**
   * The reply format's blind spot: an item with a description but no name
   * has no name line, so its description is attached to the item before it
   * and every later pair shifts by one; the result is padded at the end.
   */
  lemma NamelessItemShifts()
    ensures BatchTranslateSpec([Item("a", ""), Item("", "d")], (p: Prompt) => p.text).0
         == [Translation(Some("a"), Some("d")), Placeholder]
  {
    var items := [Item("a", ""), Item("", "d")];
    var l1 := NameLine(1, "a");
    var l2 := DescriptionLine(2, "d");
    NamelessLines(l1, l2);
    NamelessSplit(l1, l2);
    NamelessParse(l1, l2);
    assert Fit([Translation(Some("a"), Some("d"))], 2) == [Translation(Some("a"), Some("d")), Placeholder];
  }

  lemma NamelessLines(l1: string, l2: string)
    requires l1 == NameLine(1, "a") && l2 == DescriptionLine(2, "d")
    ensures PromptLines([Item("a", ""), Item("", "d")], 0) == [l1, l2]
  {
    var items := [Item("a", ""), Item("", "d")];
    assert PromptLines(items, 2) == [];
    assert PromptLines(items, 1) == [l2];
  }

  lemma NamelessSplit(l1: string, l2: string)
    requires l1 == NameLine(1, "a") && l2 == DescriptionLine(2, "d")
    ensures Split(Join([l1, l2], "\n"), '\n') == [l1, l2]
  {
    HeadFacts(1);
    HeadFacts(2);
    SplitJoin([l1, l2], '\n');
  }

  lemma NamelessParse(l1: string, l2: string)
    requires l1 == NameLine(1, "a") && l2 == DescriptionLine(2, "d")
    ensures Finish(ParseLines(Start, [l1, l2])) == [Translation(Some("a"), Some("d"))]
  {
    assert !Contains("d", "名称:");
    NameThenDescription(1, 2, "a", "d");
  }

  /** A name line followed by a description line, from the start, assembles one pair. */
  lemma NameThenDescription(n: nat, m: nat, name: string, desc: string)
    requires name != "" && Stripped(name)
    requires desc != "" && Stripped(desc) && !Contains(desc, "名称:")
    ensures ParseLines(Start, [NameLine(n, name), DescriptionLine(m, desc)]) == ParseState([], Translation(Some(name), Some(desc)))
  {
    ParseNameLine(Start, n, name);
    ParseDescriptionLine(ParseState([], Translation(Some(name), None)), m, desc);
    ParseTwo(Start, NameLine(n, name), DescriptionLine(m, desc));
  }
}
