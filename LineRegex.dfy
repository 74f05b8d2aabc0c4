/**
  * The three line-anchored patterns `docs/generate-commit-docs.py` searches
  * its generated pages with, under Python's `re.MULTILINE`:
  * `^key:\s*(.+)$` and `^key:\s*"(.+)"$`. `^` matches at the start of the
  * text and after every newline, `\s*` is greedy and may cross newlines,
  * `.` is anything but a newline, and `$` matches before a newline or at the
  * end; the search takes the first line start where the pattern matches.
  */
module LineRegex {
  import opened Wrappers
  import opened Strings

  /** The number of leading `\s` characters. */
  function SpaceRun(r: string): (n: nat)
    ensures n <= |r|
    ensures forall i :: 0 <= i < n ==> IsSpace(r[i], Python)
    ensures n < |r| ==> !IsSpace(r[n], Python)
  {
    if |r| > 0 && IsSpace(r[0], Python) then 1 + SpaceRun(r[1..]) else 0
  }

  /** The number of leading characters that `.` matches. */
  function LineRun(r: string): (n: nat)
    ensures n <= |r|
    ensures forall i :: 0 <= i < n ==> r[i] != '\n'
    ensures n < |r| ==> r[n] == '\n'
  {
    if |r| > 0 && r[0] != '\n' then 1 + LineRun(r[1..]) else 0
  }

  /** Backtracking `\s*` from `k` characters: the longest prefix after which
    * `(.+)` can take a character. */
  function LastStart(r: string, k: nat): (m: Option<nat>)
    requires k <= |r|
    ensures m.Some? ==> m.value <= k && m.value < |r| && r[m.value] != '\n'
    ensures m.Some? ==> forall j :: m.value < j <= k && j < |r| ==> r[j] == '\n'
    ensures m.None? ==> forall j :: 0 <= j <= k && j < |r| ==> r[j] == '\n'
    decreases k
  {
    if k < |r| && r[k] != '\n' then Some(k)
    else if k == 0 then None
    else LastStart(r, k - 1)
  }

  /** `\s*(.+)$` at the start of `r`: group 1, or None where no line
    * character follows the whitespace. */
  function PlainCapture(r: string): (g: Option<string>)
    ensures g.None? <==> forall j :: 0 <= j <= SpaceRun(r) && j < |r| ==> r[j] == '\n'
    ensures g.Some? ==> g.value != "" && '\n' !in g.value
  {
    var m := LastStart(r, SpaceRun(r));
    if m.None? then None
    else
      var line := r[m.value..];
      var n := LineRun(line);
      assert line[0] == r[m.value];
      Some(line[..n])
  }

  /** What `PlainCapture` returns is a whole run of one line, preceded only by
    * whitespace and followed by a newline or the end. */
  lemma {:induction false} PlainCaptureSpec(r: string)
    requires PlainCapture(r).Some?
    ensures var g := PlainCapture(r).value;
            var a := LastStart(r, SpaceRun(r)).value;
            a + |g| <= |r| && r[a..a + |g|] == g
            && (forall i :: 0 <= i < a ==> IsSpace(r[i], Python))
            && (a + |g| == |r| || r[a + |g|] == '\n')
  {
    var a := LastStart(r, SpaceRun(r)).value;
    var n := LineRun(r[a..]);
    assert r[a..a + n] == r[a..][..n];
    assert a + n < |r| ==> r[a + n] == r[a..][n];
  }

  /** `\s*"(.+)"$` at the start of `r`: group 1, the text between the first
    * quote after the whitespace and a quote that ends the line. */
  function QuotedCapture(r: string): (g: Option<string>)
    ensures g.Some? ==> g.value != "" && '\n' !in g.value
  {
    var w := SpaceRun(r);
    if w < |r| && r[w] == '"' then
      var line := r[w..];
      var n := LineRun(line);
      if n >= 3 && line[n - 1] == '"' then
        var g := line[1..n - 1];
        assert forall i :: 0 <= i < |g| ==> g[i] == line[i + 1];
        Some(g)
      else None
    else None
  }

  /** A slice of a suffix is a slice of the whole. */
  lemma {:induction false} SliceOfSuffix(s: string, a: nat, b: nat, c: nat)
    requires a <= |s| && b <= c <= |s| - a
    ensures s[a..][b..c] == s[a + b..a + c]
  {
    forall i | 0 <= i < c - b
      ensures s[a..][b..c][i] == s[a + b..a + c][i]
    {
    }
  }

  /** What `QuotedCapture` returns sits between a quote right after the
    * whitespace and a quote that ends the line. */
  lemma {:induction false} QuotedCaptureSpec(r: string)
    requires QuotedCapture(r).Some?
    ensures var g := QuotedCapture(r).value;
            var a := SpaceRun(r);
            a + |g| + 2 <= |r| && r[a] == '"' && r[a + 1..a + 1 + |g|] == g
            && (forall i :: 0 <= i < a ==> IsSpace(r[i], Python))
            && r[a + 1 + |g|] == '"'
            && (a + |g| + 2 == |r| || r[a + |g| + 2] == '\n')
  {
    var w := SpaceRun(r);
    var line := r[w..];
    var n := LineRun(line);
    assert n >= 3 && QuotedCapture(r).value == line[1..n - 1];
    SliceOfSuffix(r, w, 1, n - 1);
    assert r[w + n - 1] == line[n - 1];
    assert w + n < |r| ==> r[w + n] == line[n];
  }

  function Capture(r: string, quoted: bool): (g: Option<string>)
    ensures g.Some? ==> g.value != "" && '\n' !in g.value
  {
    if quoted then QuotedCapture(r) else PlainCapture(r)
  }

  /** `re.search('^' + key + pattern, content, re.MULTILINE)`: group 1 of the
    * match at the first line start where the pattern matches. */
  function Search(content: string, key: string, quoted: bool): Option<string>
    decreases |content|
  {
    var here := if StartsWith(content, key) then Capture(content[|key|..], quoted) else None;
    if here.Some? then here
    else
      var k := IndexOfChar(content, '\n');
      if k < |content| then Search(content[k + 1..], key, quoted) else None
  }

  /** A text made of whole lines, each followed by a newline. */
  function Lines(ls: seq<string>): string
  {
    if ls == [] then "" else Lines(ls[..|ls| - 1]) + ls[|ls| - 1] + "\n"
  }

  lemma {:induction false} LinesSnoc(ls: seq<string>, x: string)
    ensures Lines(ls + [x]) == Lines(ls) + x + "\n"
  {
    assert (ls + [x])[..|ls|] == ls;
  }

  lemma {:induction false} LinesAppend(a: seq<string>, b: seq<string>)
    ensures Lines(a + b) == Lines(a) + Lines(b)
    decreases |b|
  {
    if b != [] {
      var b' := b[..|b| - 1];
      assert (a + b)[..|a + b| - 1] == a + b';
      LinesAppend(a, b');
    } else {
      assert a + b == a;
    }
  }

  lemma {:induction false} LinesCons(l: string, ls: seq<string>)
    ensures Lines([l] + ls) == l + "\n" + Lines(ls)
  {
    LinesAppend([l], ls);
    assert [l][..0] == [];
  }

  /** A line that does not start with the key is passed over. */
  lemma {:induction false} SearchSkipsLine(line: string, rest: string, key: string, quoted: bool)
    requires '\n' !in line && '\n' !in key && !StartsWith(line, key)
    ensures Search(line + "\n" + rest, key, quoted) == Search(rest, key, quoted)
  {
    var s := line + "\n" + rest;
    assert forall j :: 0 <= j < |line| ==> s[j] == line[j];
    assert s[|line|] == '\n';
    if |key| <= |line| {
      assert s[..|key|] == line[..|key|];
    } else {
      assert key[|line|] != s[|line|];
    }
    assert IndexOfChar(s, '\n') == |line|;
    assert s[|line| + 1..] == rest;
  }

  /** Leading lines none of which starts with the key are passed over. */
  lemma {:induction false} SearchSkipsLines(pre: seq<string>, rest: string, key: string, quoted: bool)
    requires '\n' !in key
    requires forall i :: 0 <= i < |pre| ==> '\n' !in pre[i] && !StartsWith(pre[i], key)
    ensures Search(Lines(pre) + rest, key, quoted) == Search(rest, key, quoted)
  {
    if pre != [] {
      var tail := Lines(pre[1..]) + rest;
      LinesCons(pre[0], pre[1..]);
      assert [pre[0]] + pre[1..] == pre;
      assert Lines(pre) + rest == pre[0] + "\n" + tail;
      SearchSkipsLine(pre[0], tail, key, quoted);
      SearchSkipsLines(pre[1..], rest, key, quoted);
    } else {
      assert Lines(pre) + rest == rest;
    }
  }

  /** `key: value` as a line of its own: the plain pattern gives `value` back. */
  lemma {:induction false} PlainCaptureOf(value: string, rest: string)
    requires value != "" && '\n' !in value && !IsSpace(value[0], Python)
    ensures PlainCapture(" " + value + "\n" + rest) == Some(value)
  {
    var r := " " + value + "\n" + rest;
    assert forall i :: 0 <= i < |value| ==> r[1..][i] == value[i];
    assert r[1..][|value|] == '\n';
    assert SpaceRun(r) == 1;
    assert LastStart(r, 1) == Some(1);
    assert LineRun(r[1..]) == |value|;
    assert r[1..][..|value|] == value;
  }

  /** `key: "value"` as a line of its own: the quoted pattern gives `value` back. */
  lemma {:induction false} QuotedCaptureOf(value: string, rest: string)
    requires value != "" && '\n' !in value
    ensures QuotedCapture(" \"" + value + "\"\n" + rest) == Some(value)
  {
    var r := " \"" + value + "\"\n" + rest;
    assert r[1] == '"';
    assert SpaceRun(r) == 1;
    assert forall i :: 0 <= i < |value| ==> r[1..][i + 1] == value[i];
    assert r[1..][0] == '"' && r[1..][|value| + 1] == '"' && r[1..][|value| + 2] == '\n';
    assert LineRun(r[1..]) == |value| + 2;
    assert r[1..][1..|value| + 1] == value;
  }

  /** A text that starts with the key and a match is answered at once. */
  lemma {:induction false} SearchHere(key: string, after: string, quoted: bool)
    requires Capture(after, quoted).Some?
    ensures Search(key + after, key, quoted) == Capture(after, quoted)
  {
    var content := key + after;
    assert content[..|key|] == key;
    assert content[|key|..] == after;
  }

  lemma {:induction false} LinesAround(pre: seq<string>, line: string, post: seq<string>)
    ensures Lines(pre + [line] + post) == Lines(pre) + (line + "\n" + Lines(post))
  {
    LinesAppend(pre, [line] + post);
    LinesCons(line, post);
    assert pre + [line] + post == pre + ([line] + post);
  }

  /** The search finds the first line that starts with the key and matches. */
  lemma {:induction false} SearchFindsLine(pre: seq<string>, key: string, tail: string, post: seq<string>, quoted: bool)
    requires '\n' !in key
    requires forall i :: 0 <= i < |pre| ==> '\n' !in pre[i] && !StartsWith(pre[i], key)
    requires Capture(tail + "\n" + Lines(post), quoted).Some?
    ensures Search(Lines(pre + [key + tail] + post), key, quoted) == Capture(tail + "\n" + Lines(post), quoted)
  {
    var after := tail + "\n" + Lines(post);
    var rest := key + after;
    LinesAround(pre, key + tail, post);
    assert key + tail + "\n" + Lines(post) == rest;
    SearchSkipsLines(pre, rest, key, quoted);
    SearchHere(key, after, quoted);
  }

  /** `s.split()[0]`: the first whitespace-separated word; `None` where
    * Python raises because there is none. */
  function FirstWord(s: string): (w: Option<string>)
    ensures w.Some? ==> w.value != "" && forall i :: 0 <= i < |w.value| ==> !IsSpace(w.value[i], Python)
  {
    var t := TrimStart(s, Python);
    if t == [] then None
    else Some(t[..WordRun(t)])
  }

  function WordRun(r: string): (n: nat)
    ensures n <= |r|
    ensures forall i :: 0 <= i < n ==> !IsSpace(r[i], Python)
    ensures 0 < |r| && !IsSpace(r[0], Python) ==> n > 0
    ensures n < |r| ==> IsSpace(r[n], Python)
  {
    if |r| > 0 && !IsSpace(r[0], Python) then 1 + WordRun(r[1..]) else 0
  }

  /** A date followed by a space and more: its first word is the date. */
  lemma {:induction false} FirstWordOf(word: string, rest: string)
    requires word != "" && forall i :: 0 <= i < |word| ==> !IsSpace(word[i], Python)
    ensures FirstWord(word + " " + rest) == Some(word)
  {
    var s := word + " " + rest;
    assert s[0] == word[0];
    assert TrimStart(s, Python) == s;
    assert forall i :: 0 <= i < |word| ==> s[i] == word[i];
    assert s[|word|] == ' ';
    assert WordRun(s) == |word|;
    assert s[..|word|] == word;
  }
}
