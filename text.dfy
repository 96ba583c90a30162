/**
 * The few Python `str` operations the core relies on, written over `seq<char>`:
 * `strip`, `split` on one character, `startswith`, `in` on substrings,
 * `lower` (ASCII letters only), `str.join`, `replace` of one character and
 * decimal rendering of integers.
 */
module Text {
  import opened Wrappers

  /** Python truthiness of an optional text: set and not empty. */
  predicate Truthy(v: Option<string>) {
    v.Some? && v.value != ""
  }

  /** `f"{v}"` for an optional text: `None` renders as `None`. */
  function PyStr(v: Option<string>): string {
    if v.Some? then v.value else "None"
  }

  /** `s[:n]`: the first `n` elements, or all of `s` when it is shorter. */
  function Take<T>(s: seq<T>, n: nat): (r: seq<T>)
    ensures r <= s && |r| == if |s| <= n then |s| else n
  {
    if |s| <= n then s else s[..n]
  }


  /** Python's `str.isspace()`: the characters that `str.strip()` removes by default. */
  predicate IsSpace(c: char) {
    || ('\t' <= c <= '\r')
    || ('\U{001C}' <= c <= ' ')
    || c == '\U{0085}' || c == '\U{00A0}' || c == '\U{1680}'
    || ('\U{2000}' <= c <= '\U{200A}')
    || c == '\U{2028}' || c == '\U{2029}' || c == '\U{202F}' || c == '\U{205F}' || c == '\U{3000}'
  }

  /** `s.lstrip()` */
  function TrimStart(s: string): (r: string)
    ensures |r| <= |s|
  {
    if s != [] && IsSpace(s[0]) then TrimStart(s[1..]) else s
  }

  /** `s.rstrip()` */
  function TrimEnd(s: string): (r: string)
    ensures |r| <= |s|
  {
    if s != [] && IsSpace(s[|s| - 1]) then TrimEnd(s[..|s| - 1]) else s
  }

  /** `s.lstrip()` removes a run of white space from the front and nothing else. */
  lemma {:induction false} TrimStartFacts(s: string)
    ensures s[|s| - |TrimStart(s)|..] == TrimStart(s)
    ensures TrimStart(s) == [] || !IsSpace(TrimStart(s)[0])
    ensures forall i :: 0 <= i < |s| - |TrimStart(s)| ==> IsSpace(s[i])
    decreases |s|
  {
    if s != [] && IsSpace(s[0]) {
      TrimStartFacts(s[1..]);
      assert s[1..][|s| - 1 - |TrimStart(s)|..] == s[|s| - |TrimStart(s)|..];
      forall i | 1 <= i < |s| - |TrimStart(s)| ensures IsSpace(s[i]) {
        assert s[1..][i - 1] == s[i];
      }
    }
  }

  /** `s.rstrip()` removes a run of white space from the back and nothing else. */
  lemma {:induction false} TrimEndFacts(s: string)
    ensures s[..|TrimEnd(s)|] == TrimEnd(s)
    ensures TrimEnd(s) == [] || !IsSpace(TrimEnd(s)[|TrimEnd(s)| - 1])
    ensures forall i :: |TrimEnd(s)| <= i < |s| ==> IsSpace(s[i])
    decreases |s|
  {
    if s != [] && IsSpace(s[|s| - 1]) {
      TrimEndFacts(s[..|s| - 1]);
      assert s[..|s| - 1][..|TrimEnd(s)|] == s[..|TrimEnd(s)|];
      forall i | |TrimEnd(s)| <= i < |s| - 1 ensures IsSpace(s[i]) {
        assert s[..|s| - 1][i] == s[i];
      }
    }
  }

  /** `s.strip()` */
  function Strip(s: string): string {
    TrimEnd(TrimStart(s))
  }

  /** A string `strip()` leaves as it is. */
  predicate Stripped(s: string) {
    s == [] || (!IsSpace(s[0]) && !IsSpace(s[|s| - 1]))
  }

  /** The result of `strip()` starts and ends with a character that is not white space. */
  lemma StripSlice(s: string)
    ensures Stripped(Strip(s))
  {
    var t := TrimStart(s);
    var r := TrimEnd(t);
    TrimStartFacts(s);
    TrimEndFacts(t);
    if r != [] {
      assert r[0] == t[0];
    }
  }

  /** `strip()` is idempotent, and it yields "" exactly for all-white-space strings. */
  lemma StripIdempotent(s: string)
    ensures Strip(Strip(s)) == Strip(s)
    ensures Strip(s) == [] <==> forall i :: 0 <= i < |s| ==> IsSpace(s[i])
  {
    var t := TrimStart(s);
    var r := TrimEnd(t);
    TrimStartFacts(s);
    TrimEndFacts(t);
    StripSlice(s);
    StripStripped(r);
    if forall i :: 0 <= i < |s| ==> IsSpace(s[i]) {
      AllSpaceStrip(s);
    }
  }

  lemma {:induction false} AllSpaceStrip(s: string)
    requires forall i :: 0 <= i < |s| ==> IsSpace(s[i])
    ensures TrimStart(s) == []
    decreases |s|
  {
    if s != [] {
      assert forall i :: 0 <= i < |s| - 1 ==> s[1..][i] == s[i + 1];
      AllSpaceStrip(s[1..]);
    }
  }

  /** The position of the first `c` in `s`. */
  function IndexOf(s: string, c: char): (i: nat)
    requires c in s
    ensures i < |s| && s[i] == c && c !in s[..i]
  {
    if s[0] == c then 0 else 1 + IndexOf(s[1..], c)
  }

  /**
   * `s.split(sep)` for a one-character separator: the pieces between the
   * separators, so there is always at least one piece.
   */
  function Split(s: string, sep: char): (r: seq<string>)
    ensures |r| >= 1
    decreases |s|
  {
    if sep !in s then [s]
    else
      var i := IndexOf(s, sep);
      [s[..i]] + Split(s[i + 1..], sep)
  }

  /** `sep.join(parts)` */
  function Join(parts: seq<string>, sep: string): string {
    if |parts| == 0 then ""
    else if |parts| == 1 then parts[0]
    else parts[0] + sep + Join(parts[1..], sep)
  }

  /** `[f(x) for x in xs]`. */
  function Map<A, B>(f: A -> B, xs: seq<A>): (r: seq<B>)
    ensures |r| == |xs|
  {
    seq(|xs|, i requires 0 <= i < |xs| => f(xs[i]))
  }

  /** Mapping a concatenation concatenates the mapped runs. */
  lemma MapAppend<A, B>(f: A -> B, a: seq<A>, b: seq<A>)
    ensures Map(f, a + b) == Map(f, a) + Map(f, b)
  {
  }

  /** `"".join(parts)`, built from the front as a `+=` loop does. */
  function Concat(parts: seq<string>): string {
    if parts == [] then "" else Concat(parts[..|parts| - 1]) + parts[|parts| - 1]
  }

  /** Extending the mapped prefix by one element appends that element's text. */
  lemma ConcatMapSnoc<T>(render: T -> string, xs: seq<T>, k: nat)
    requires k < |xs|
    ensures Concat(Map(render, xs[..k + 1])) == Concat(Map(render, xs[..k])) + render(xs[k])
  {
    assert Map(render, xs[..k + 1]) == Map(render, xs[..k]) + [render(xs[k])];
  }

  /** One turn of a loop that appends renderings to a text. */
  lemma AppendMapped<T>(render: T -> string, start: string, xs: seq<T>, k: nat, text: string, next: string)
    requires k < |xs|
    requires text == start + Concat(Map(render, xs[..k])) && next == render(xs[k])
    ensures text + next == start + Concat(Map(render, xs[..k + 1]))
  {
    ConcatMapSnoc(render, xs, k);
  }

  /** Joining two runs of parts is joining each and concatenating. */
  lemma {:induction false} ConcatAppend(a: seq<string>, b: seq<string>)
    ensures Concat(a + b) == Concat(a) + Concat(b)
    decreases |b|
  {
    if b == [] {
      assert a + b == a;
    } else {
      assert (a + b)[..|a + b| - 1] == a + b[..|b| - 1];
      ConcatAppend(a, b[..|b| - 1]);
    }
  }

  /** Splitting and joining again with the same separator gives the original string back. */
  lemma {:induction false} JoinSplit(s: string, sep: char)
    ensures Join(Split(s, sep), [sep]) == s
    decreases |s|
  {
    if sep in s {
      var i := IndexOf(s, sep);
      var rest := s[i + 1..];
      JoinSplit(rest, sep);
      assert Split(s, sep) == [s[..i]] + Split(rest, sep);
      assert s == s[..i] + [sep] + rest;
    }
  }

  /** `s.split(sep)[-1]`: the text after the last `sep`, or all of `s`. */
  function AfterLast(s: string, sep: char): string {
    var parts := Split(s, sep);
    parts[|parts| - 1]
  }

  /** The text after the last `sep` holds no `sep`, ends `s`, and follows a `sep` unless it is all of `s`. */
  lemma {:induction false} AfterLastFacts(s: string, sep: char)
    ensures sep !in AfterLast(s, sep)
    ensures |AfterLast(s, sep)| <= |s| && s[|s| - |AfterLast(s, sep)|..] == AfterLast(s, sep)
    ensures |AfterLast(s, sep)| == |s| || s[|s| - |AfterLast(s, sep)| - 1] == sep
    ensures sep !in s ==> AfterLast(s, sep) == s
    decreases |s|
  {
    if sep in s {
      var i := IndexOf(s, sep);
      var rest := s[i + 1..];
      AfterLastFacts(rest, sep);
      AfterLastStep(s, sep, i, rest);
      assert s[|s| - |rest|..] == rest;
    }
  }

  /** Past the first `sep`, the last piece is the same. */
  lemma AfterLastStep(s: string, sep: char, i: nat, rest: string)
    requires sep in s && i == IndexOf(s, sep) && rest == s[i + 1..]
    ensures AfterLast(s, sep) == AfterLast(rest, sep)
  {
    LastOfCons(s[..i], Split(rest, sep));
  }

  lemma LastOfCons(a: string, tail: seq<string>)
    requires |tail| >= 1
    ensures ([a] + tail)[|tail|] == tail[|tail| - 1]
  {
  }

  /** The text after a `sep` that is followed by no other `sep` is the last piece. */
  lemma AfterLastAfterSep(a: string, sep: char, y: string)
    requires sep !in y
    ensures AfterLast(a + [sep] + y, sep) == y
  {
    var s := a + [sep] + y;
    AfterLastFacts(s, sep);
    var z := AfterLast(s, sep);
    assert s[|s| - |y|..] == y;
    assert s[|s| - |y| - 1] == sep;
    assert forall q | |s| - |z| <= q < |s| :: s[q] == z[q - (|s| - |z|)];
  }

  /** `s.split(sep, 1)[1]`: the text after the first `sep`. */
  function AfterFirst(s: string, sep: char): (r: string)
    requires sep in s
    ensures s == s[..IndexOf(s, sep)] + [sep] + r
  {
    s[IndexOf(s, sep) + 1..]
  }

  /** `s.split(sep)[0]`: the text before the first `sep`, or all of `s`. */
  function BeforeFirst(s: string, sep: char): (r: string)
    ensures r <= s && sep !in r
    ensures r == s || s[|r|] == sep
  {
    if sep in s then s[..IndexOf(s, sep)] else s
  }

  /** It is the first piece `Split` yields. */
  lemma BeforeFirstIsFirstPiece(s: string, sep: char)
    ensures BeforeFirst(s, sep) == Split(s, sep)[0]
  {
  }

  /** `s.startswith(p)` */
  predicate StartsWith(s: string, p: string) {
    p <= s
  }

  /** `s.endswith(t)` */
  predicate EndsWith(s: string, t: string) {
    |t| <= |s| && s[|s| - |t|..] == t
  }

  /** A string ends with whatever its last part ends with. */
  lemma EndsOfConcat(a: string, t: string, r: string)
    requires EndsWith(t, r)
    ensures EndsWith(a + t, r)
  {
    assert (a + t)[|a + t| - |r|..] == t[|t| - |r|..];
  }

  /** `t` occurs in `s` at position `i`. */
  predicate OccursAt(s: string, t: string, i: int) {
    0 <= i <= |s| - |t| && s[i..i + |t|] == t
  }

  /** `t in s` for strings: `t` occurs in `s` as a contiguous piece. */
  predicate Contains(s: string, t: string) {
    exists i | 0 <= i <= |s| - |t| :: OccursAt(s, t, i)
  }

  /** A string holds every character of a piece it contains. */
  lemma ContainsChar(s: string, t: string, c: char)
    requires Contains(s, t) && c in t
    ensures c in s
  {
    var i :| 0 <= i <= |s| - |t| && OccursAt(s, t, i);
    var j :| 0 <= j < |t| && t[j] == c;
    assert s[i..i + |t|][j] == s[i + j];
  }

  /** A piece found in `s` is still found once more text follows. */
  lemma ContainsExtend(s: string, d: string, t: string)
    requires Contains(s, t)
    ensures Contains(s + d, t)
  {
    var i :| 0 <= i <= |s| - |t| && OccursAt(s, t, i);
    assert (s + d)[i..i + |t|] == s[i..i + |t|];
    assert OccursAt(s + d, t, i);
  }

  /** Every part of a concatenation occurs in it. */
  lemma {:induction false} ConcatContainsPart(parts: seq<string>, k: nat)
    requires k < |parts|
    ensures Contains(Concat(parts), parts[k])
    decreases |parts|
  {
    var init := parts[..|parts| - 1];
    if k == |parts| - 1 {
      var s := Concat(parts);
      assert s[|Concat(init)|..] == parts[k];
      assert OccursAt(s, parts[k], |Concat(init)|);
    } else {
      assert init[k] == parts[k];
      ConcatContainsPart(init, k);
      ContainsExtend(Concat(init), parts[|parts| - 1], parts[k]);
    }
  }

  /** A piece that starts with a character absent from `p` occurs in `p + d` only inside `d`. */
  lemma ContainsPastPrefix(p: string, d: string, t: string)
    requires t != [] && t[0] !in p
    requires Contains(p + d, t)
    ensures Contains(d, t)
  {
    var s := p + d;
    var i :| 0 <= i <= |s| - |t| && OccursAt(s, t, i);
    assert s[i] == t[0] by {
      assert s[i..i + |t|][0] == s[i];
    }
    assert i >= |p|;
    assert d[i - |p|..i - |p| + |t|] == s[i..i + |t|];
    assert OccursAt(d, t, i - |p|);
  }

  /** The first `c` in `a + [c] + b` is the one after `a` when `a` holds none. */
  lemma IndexOfConcat(a: string, c: char, b: string)
    requires c !in a
    ensures c in a + [c] + b && IndexOf(a + [c] + b, c) == |a|
    ensures AfterFirst(a + [c] + b, c) == b
  {
    var s := a + [c] + b;
    assert s[|a|] == c;
    assert s[..|a|] == a;
    var i := IndexOf(s, c);
    assert s[..i] <= s;
    assert s[|a| + 1..] == b;
  }

  /** A string with no white space at either end is its own `strip()`. */
  lemma StripStripped(s: string)
    requires Stripped(s)
    ensures Strip(s) == s
  {
  }

  /** `strip()` removes a leading blank. */
  lemma StripLeadingBlank(x: string)
    requires x != [] && Stripped(x)
    ensures Strip(" " + x) == x
  {
    assert (" " + x)[1..] == x;
    assert TrimStart(" " + x) == TrimStart(x);
  }

  /** `c.lower()` for ASCII letters; other characters are left alone. */
  function LowerChar(c: char): char {
    if 'A' <= c <= 'Z' then (c as int + 32) as char else c
  }

  /** `s.lower()`, restricted to ASCII letters. */
  function Lower(s: string): (r: string)
    ensures |r| == |s|
  {
    seq(|s|, i requires 0 <= i < |s| => LowerChar(s[i]))
  }

  /** Lower-casing twice is lower-casing once. */
  lemma LowerIdempotent(s: string)
    ensures Lower(Lower(s)) == Lower(s)
  {
    forall i | 0 <= i < |s| ensures Lower(Lower(s))[i] == Lower(s)[i] {
      assert LowerChar(LowerChar(s[i])) == LowerChar(s[i]);
    }
  }

  /** `s.replace(old, new)` for single characters. */
  function ReplaceChar(s: string, from: char, to: char): (r: string)
    ensures |r| == |s|
    ensures forall i :: 0 <= i < |s| ==> r[i] == if s[i] == from then to else s[i]
  {
    seq(|s|, i requires 0 <= i < |s| => if s[i] == from then to else s[i])
  }

  predicate IsDigit(c: char) {
    '0' <= c <= '9'
  }

  function Digit(d: nat): (c: char)
    requires d < 10
    ensures IsDigit(c)
  {
    ('0' as int + d) as char
  }

  /** The number a string of decimal digits denotes. */
  function DigitsValue(s: string): nat
    requires forall k :: 0 <= k < |s| ==> IsDigit(s[k])
  {
    if s == [] then 0
    else
      assert IsDigit(s[|s| - 1]);
      10 * DigitsValue(s[..|s| - 1]) + (s[|s| - 1] as int - '0' as int)
  }

  /** `str(n)` for a natural number: its decimal digits, without leading zeros. */
  function NatToString(n: nat): (r: string)
    ensures |r| >= 1 && forall k :: 0 <= k < |r| ==> IsDigit(r[k])
    ensures |r| > 1 ==> r[0] != '0'
  {
    if n < 10 then [Digit(n)] else NatToString(n / 10) + [Digit(n % 10)]
  }

  /** Reading back the digits `str(n)` wrote gives `n`. */
  lemma {:induction false} NatToStringValue(n: nat)
    ensures DigitsValue(NatToString(n)) == n
  {
    if n >= 10 {
      NatToStringValue(n / 10);
      var s := NatToString(n);
      assert s[..|s| - 1] == NatToString(n / 10);
    }
  }

  /** `str(i)` for any integer. */
  function IntToString(i: int): (r: string)
    ensures r != [] && '_' !in r && ',' !in r
  {
    if i < 0 then "-" + NatToString(-i) else NatToString(i)
  }

  /**
   * `str(i)` is one-to-one, and its text holds no `_`: `str(i) == str(j)` only when `i == j`.
   */
  lemma IntToStringInjective(i: int, j: int)
    requires IntToString(i) == IntToString(j)
    ensures i == j
  {
    NatToStringValue(if i < 0 then -i else i);
    NatToStringValue(if j < 0 then -j else j);
    if i < 0 && j < 0 {
      assert IntToString(i)[1..] == NatToString(-i);
      assert IntToString(j)[1..] == NatToString(-j);
    }
  }

  /** `n` rendered with at least `width` digits, padded with leading zeros (`%02d`, `%04d`). */
  function ZeroPad(n: nat, width: nat): (r: string)
    ensures |r| >= width && forall k :: 0 <= k < |r| ==> IsDigit(r[k])
    ensures DigitsValue(r) == n
    decreases width
  {
    if width <= 1 then NatToStringWithValue(n)
    else ZeroPad(n / 10, width - 1) + [Digit(n % 10)]
  }

  function NatToStringWithValue(n: nat): (r: string)
    ensures |r| >= 1 && forall k :: 0 <= k < |r| ==> IsDigit(r[k])
    ensures DigitsValue(r) == n
  {
    NatToStringValue(n);
    NatToString(n)
  }
}
