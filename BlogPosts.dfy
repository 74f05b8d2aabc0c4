/**
  * The daily blog generator (scripts/generate-blog-posts.js): it reads the last
  * month of `git log` as `hash|date|subject|author` lines, groups the commits by
  * day, and writes one Jekyll post per day, newest day first, leaving alone a
  * day whose existing post already records the same number of commits.
  *
  * The posts directory is a map from file name to text; the two
  * `toLocaleDateString` renderings of a day are parameters.
  */
module BlogPosts {
  import opened Wrappers
  import opened Strings
  import Sorting

  // ------------------------------------------------------------ log lines

  /** One commit as the script keeps it; `None` is JavaScript's `undefined`,
    * a field the line did not have. */
  datatype Entry = Entry(hash: Option<string>, subject: Option<string>, author: Option<string>)

  /** A parsed line: the key of its day's bucket and the commit. */
  datatype LogRecord = LogRecord(date: string, entry: Entry)

  /** Array destructuring: a part the split did not produce is `undefined`. */
  function Field(parts: seq<string>, i: nat): Option<string>
  {
    if i < |parts| then Some(parts[i]) else None
  }

  /** A value interpolated into a template or used as a property key:
    * `undefined` turns into the text "undefined". */
  function Text(v: Option<string>): string
  {
    if v.Some? then v.value else "undefined"
  }

  /** The line `git log --pretty=format:"%H|%ad|%s|%an"` prints for a commit. */
  function LogLine(hash: string, date: string, subject: string, author: string): string
  {
    hash + "|" + date + "|" + subject + "|" + author
  }

  /** `const [hash, date, subject, author] = line.split('|')` as written: every
    * bar cuts, so a bar inside the subject shifts its tail into `author`. */
  function ParseLineAsWritten(line: string): (r: LogRecord)
    ensures r.entry.hash.Some? && '|' !in r.entry.hash.value
    ensures r.entry.subject.Some? ==> '|' !in r.entry.subject.value
    ensures r.entry.author.Some? ==> '|' !in r.entry.author.value
    ensures |Split(line, '|')| == 4 ==>
              r.entry.subject.Some? && r.entry.author.Some?
              && LogLine(r.entry.hash.value, r.date, r.entry.subject.value, r.entry.author.value) == line
  {
    var parts := Split(line, '|');
    if |parts| == 4 then
      SplitJoin(line, '|');
      assert Join(parts[3..], "|") == parts[3];
      assert Join(parts[2..], "|") == parts[2] + "|" + parts[3] by {
        assert parts[2..][1..] == parts[3..];
      }
      assert Join(parts[1..], "|") == parts[1] + "|" + (parts[2] + "|" + parts[3]) by {
        assert parts[1..][1..] == parts[2..];
      }
      assert Join(parts, "|") == parts[0] + "|" + (parts[1] + "|" + (parts[2] + "|" + parts[3]));
      LogRecord(Text(Field(parts, 1)), Entry(Field(parts, 0), Field(parts, 2), Field(parts, 3)))
    else
      LogRecord(Text(Field(parts, 1)), Entry(Field(parts, 0), Field(parts, 2), Field(parts, 3)))
  }

  /** A subject `s1|s2` comes back from the as-written parse cut to `s1`, with
    * `s2` reported as the author and the real author dropped. */
  lemma {:induction false} SubjectWithBarAsWritten(hash: string, date: string, s1: string, s2: string, author: string)
    requires '|' !in hash && '|' !in date && '|' !in s1 && '|' !in s2 && '|' !in author
    ensures ParseLineAsWritten(LogLine(hash, date, s1 + "|" + s2, author))
      == LogRecord(date, Entry(Some(hash), Some(s1), Some(s2)))
  {
    var parts := [hash, date, s1, s2, author];
    assert Join(parts[4..], "|") == author;
    assert Join(parts[3..], "|") == s2 + "|" + author;
    assert Join(parts[2..], "|") == s1 + "|" + s2 + "|" + author;
    assert Join(parts[1..], "|") == date + "|" + s1 + "|" + s2 + "|" + author;
    assert Join(parts, "|") == LogLine(hash, date, s1 + "|" + s2, author);
    SplitOfJoin(parts, '|');
  }

  /** The same, on a concrete line. */
  lemma SubjectWithBarExample()
    ensures ParseLineAsWritten(LogLine("abc1234", "2024-01-15", "fix: a|b", "Alice")).entry.author
      == Some("b")
  {
    assert "fix: a|b" == "fix: a" + "|" + "b";
    SubjectWithBarAsWritten("abc1234", "2024-01-15", "fix: a", "b", "Alice");
  }

  /** The text before the last `sep` and the text after it. */
  function SplitLast(s: string, sep: char): (r: Option<(string, string)>)
    ensures r.None? <==> sep !in s
    ensures r.Some? ==> s == r.value.0 + [sep] + r.value.1 && sep !in r.value.1
  {
    if |s| == 0 then None
    else
      assert s == s[..|s| - 1] + [s[|s| - 1]];
      if s[|s| - 1] == sep then Some((s[..|s| - 1], ""))
      else
        var r := SplitLast(s[..|s| - 1], sep);
        if r.None? then None else Some((r.value.0, r.value.1 + [s[|s| - 1]]))
  }

  /** The parse the format calls for: hash and date end at the first two bars,
    * the author starts after the last one, and the subject is everything between. */
  function ParseLine(line: string): LogRecord
  {
    var parts := SplitMax(line, '|', 2);
    var tail := if |parts| == 3 then SplitLast(parts[2], '|') else None;
    var subject := if tail.Some? then Some(tail.value.0) else Field(parts, 2);
    var author := if tail.Some? then Some(tail.value.1) else None;
    LogRecord(Text(Field(parts, 1)), Entry(Field(parts, 0), subject, author))
  }

  /** A last part free of the separator is what `SplitLast` cuts off. */
  lemma {:induction false} SplitLastOf(before: string, sep: char, after: string)
    requires sep !in after
    ensures SplitLast(before + [sep] + after, sep) == Some((before, after))
  {
    var s := before + [sep] + after;
    if after != [] {
      var init := after[..|after| - 1];
      assert s[..|s| - 1] == before + [sep] + init;
      assert after == init + [after[|after| - 1]];
      SplitLastOf(before, sep, init);
    } else {
      assert s[..|s| - 1] == before;
    }
  }

  /** The first two bars of a log line end the hash and the date. */
  lemma {:induction false} LogLineFields(hash: string, date: string, tail: string)
    requires '|' !in hash && '|' !in date
    ensures SplitMax(hash + "|" + date + "|" + tail, '|', 2) == [hash, date, tail]
  {
    assert hash + "|" + date + "|" + tail == hash + ['|'] + (date + ['|'] + tail);
    SplitMaxField(hash, '|', date + ['|'] + tail, 1);
    SplitMaxField(date, '|', tail, 0);
    SplitMaxZero(tail, '|');
  }

  /** Every commit line comes back whole, whatever bars its subject holds. */
  lemma {:induction false} ParseLineRoundTrip(hash: string, date: string, subject: string, author: string)
    requires '|' !in hash && '|' !in date && '|' !in author
    ensures ParseLine(LogLine(hash, date, subject, author))
      == LogRecord(date, Entry(Some(hash), Some(subject), Some(author)))
  {
    var tail := subject + "|" + author;
    assert LogLine(hash, date, subject, author) == hash + "|" + date + "|" + tail;
    LogLineFields(hash, date, tail);
    SplitLastOf(subject, '|', author);
  }

  // ------------------------------------------------------------- grouping

  /** `commitsByDate`: the day keys in the order they were first seen, and each
    * day's commits. */
  datatype Groups = Groups(dates: seq<string>, buckets: map<string, seq<Entry>>)

  /** Lines 23-26 of the script for one record. */
  function Add(g: Groups, r: LogRecord): Groups
  {
    var h := if r.date in g.buckets then g else Groups(g.dates + [r.date], g.buckets[r.date := []]);
    Groups(h.dates, h.buckets[r.date := h.buckets[r.date] + [r.entry]])
  }

  function GroupAll(rs: seq<LogRecord>): Groups
  {
    if rs == [] then Groups([], map[]) else Add(GroupAll(rs[..|rs| - 1]), rs[|rs| - 1])
  }

  /** The commits of the records dated `d`, in log order. */
  function Bucket(rs: seq<LogRecord>, d: string): seq<Entry>
  {
    if rs == [] then []
    else Bucket(rs[..|rs| - 1], d) + (if rs[|rs| - 1].date == d then [rs[|rs| - 1].entry] else [])
  }

  ghost predicate Distinct(s: seq<string>)
  {
    forall i, j :: 0 <= i < j < |s| ==> s[i] != s[j]
  }

  /** The keys are the days, each once. */
  lemma {:induction false} GroupAllKeys(rs: seq<LogRecord>)
    ensures Distinct(GroupAll(rs).dates)
    ensures forall d :: d in GroupAll(rs).buckets <==> d in GroupAll(rs).dates
  {
    if rs != [] {
      GroupAllKeys(rs[..|rs| - 1]);
    }
  }

  /** A day has a key exactly when some record carries it. */
  lemma {:induction false} GroupAllDays(rs: seq<LogRecord>)
    ensures forall i :: 0 <= i < |rs| ==> rs[i].date in GroupAll(rs).buckets
    ensures forall d :: d in GroupAll(rs).buckets ==> exists i :: 0 <= i < |rs| && rs[i].date == d
  {
    if rs != [] {
      var init := rs[..|rs| - 1];
      GroupAllDays(init);
      var g := GroupAll(rs);
      assert forall i :: 0 <= i < |init| ==> rs[i] == init[i];
      forall d | d in g.buckets
        ensures exists i :: 0 <= i < |rs| && rs[i].date == d
      {
        if d in GroupAll(init).buckets {
          var i :| 0 <= i < |init| && init[i].date == d;
          assert rs[i].date == d;
        } else {
          assert rs[|rs| - 1].date == d;
        }
      }
    }
  }

  /** Each bucket holds exactly its day's commits, in log order. */
  lemma {:induction false} GroupAllBuckets(rs: seq<LogRecord>)
    ensures forall d :: d in GroupAll(rs).buckets ==>
      GroupAll(rs).buckets[d] == Bucket(rs, d) && |GroupAll(rs).buckets[d]| > 0
    ensures forall d :: d !in GroupAll(rs).buckets ==> Bucket(rs, d) == []
  {
    if rs != [] {
      var init := rs[..|rs| - 1];
      var last := rs[|rs| - 1];
      GroupAllBuckets(init);
      forall d
        ensures Bucket(rs, d) == Bucket(init, d) + (if last.date == d then [last.entry] else [])
      {
      }
    }
  }

  /** Each day of the log has one key and one bucket, holding exactly that day's
    * commits in log order. */
  lemma {:induction false} GroupAllSpec(rs: seq<LogRecord>)
    ensures Distinct(GroupAll(rs).dates)
    ensures forall d :: d in GroupAll(rs).buckets <==> d in GroupAll(rs).dates
    ensures forall i :: 0 <= i < |rs| ==> rs[i].date in GroupAll(rs).buckets
    ensures forall d :: d in GroupAll(rs).buckets ==> exists i :: 0 <= i < |rs| && rs[i].date == d
    ensures forall d :: d in GroupAll(rs).buckets ==>
      GroupAll(rs).buckets[d] == Bucket(rs, d) && |GroupAll(rs).buckets[d]| > 0
  {
    GroupAllKeys(rs);
    GroupAllDays(rs);
    GroupAllBuckets(rs);
  }

  /** `Records(lines)`: every line parsed. */
  function Records(lines: seq<string>): seq<LogRecord>
  {
    seq(|lines|, i requires 0 <= i < |lines| => ParseLine(lines[i]))
  }

  /** The `forEach` that fills `commitsByDate`. */
  method GroupByDate(lines: seq<string>) returns (g: Groups)
    ensures g == GroupAll(Records(lines))
  {
    var dates: seq<string> := [];
    var buckets: map<string, seq<Entry>> := map[];
    for i := 0 to |lines|
      invariant Groups(dates, buckets) == GroupAll(Records(lines[..i]))
    {
      var r := ParseLine(lines[i]);
      if r.date !in buckets {
        buckets := buckets[r.date := []];
        dates := dates + [r.date];
      }
      buckets := buckets[r.date := buckets[r.date] + [r.entry]];
      assert Records(lines[..i + 1]) == Records(lines[..i]) + [r];
    }
    assert lines[..|lines|] == lines;
    g := Groups(dates, buckets);
  }

  // ------------------------------------------------------------ day order

  function Reverse<T>(s: seq<T>): (r: seq<T>)
    ensures |r| == |s| && forall i :: 0 <= i < |s| ==> r[i] == s[|s| - 1 - i]
    ensures multiset(r) == multiset(s)
  {
    if s == [] then []
    else
      assert s == s[..|s| - 1] + [s[|s| - 1]];
      [s[|s| - 1]] + Reverse(s[..|s| - 1])
  }

  /** `Object.keys(commitsByDate).sort().reverse()`. */
  function DateOrder(dates: seq<string>): seq<string>
  {
    Reverse(Sorting.Sort(dates, Less))
  }

  lemma {:induction false} DistinctCounts(s: seq<string>)
    requires Distinct(s)
    ensures forall x :: multiset(s)[x] <= 1
  {
    if s != [] {
      var init := s[..|s| - 1];
      assert s == init + [s[|s| - 1]];
      DistinctCounts(init);
      assert s[|s| - 1] !in init;
    }
  }

  lemma {:induction false} CountsDistinct(s: seq<string>)
    requires forall x :: multiset(s)[x] <= 1
    ensures Distinct(s)
  {
    forall i, j | 0 <= i < j < |s|
      ensures s[i] != s[j]
    {
      assert s == s[..j] + [s[j]] + s[j + 1..];
      assert s[i] in s[..j];
      assert multiset(s)[s[i]] >= multiset(s[..j])[s[i]] + multiset([s[j]])[s[i]];
    }
  }

  /** Every day once, strictly newest first (code-point order of the keys). */
  lemma {:induction false} DateOrderSpec(dates: seq<string>)
    requires Distinct(dates)
    ensures multiset(DateOrder(dates)) == multiset(dates)
    ensures forall i, j :: 0 <= i < j < |DateOrder(dates)| ==> Less(DateOrder(dates)[j], DateOrder(dates)[i])
  {
    var sorted := Sorting.Sort(dates, Less);
    Sorting.SortPermutes(dates, Less);
    assert Sorting.StrictOrder(Less) by {
      forall a | true ensures !Less(a, a) { LessIrreflexive(a); }
      forall a, b, c | Less(a, b) && Less(b, c) ensures Less(a, c) { LessTransitive(a, b, c); }
    }
    Sorting.SortSorts(dates, Less);
    DistinctCounts(dates);
    CountsDistinct(sorted);
    forall i, j | 0 <= i < j < |sorted|
      ensures Less(sorted[i], sorted[j])
    {
      LessTotal(sorted[i], sorted[j]);
    }
  }

  // ---------------------------------------------------------------- posts

  /** The conventional-commit types the subject regex recognises. */
  const Types: seq<string> := ["feat", "fix", "docs", "style", "refactor", "test", "chore"]

  const Memo := "\U{1F4DD}"

  function TypeEmoji(t: string): string
  {
    match t
    case "feat" => "\U{2728}"
    case "fix" => "\U{1F41B}"
    case "docs" => "\U{1F4DA}"
    case "style" => "\U{1F484}"
    case "refactor" => "\U{267B}\U{FE0F}"
    case "test" => "\U{2705}"
    case "chore" => "\U{1F527}"
    case _ => Memo
  }

  /** `subject.match(/^(feat|fix|docs|style|refactor|test|chore):/)`. */
  function CommitType(subject: string): (r: Option<string>)
    ensures r.Some? ==> r.value in Types && StartsWith(subject, r.value + ":")
    ensures r.None? ==> forall t :: t in Types ==> !StartsWith(subject, t + ":")
  {
    if StartsWith(subject, "feat:") then Some("feat")
    else if StartsWith(subject, "fix:") then Some("fix")
    else if StartsWith(subject, "docs:") then Some("docs")
    else if StartsWith(subject, "style:") then Some("style")
    else if StartsWith(subject, "refactor:") then Some("refactor")
    else if StartsWith(subject, "test:") then Some("test")
    else if StartsWith(subject, "chore:") then Some("chore")
    else None
  }

  function EmojiOf(subject: string): string
  {
    var t := CommitType(subject);
    if t.Some? then TypeEmoji(t.value) else Memo
  }

  /** Two words without a colon that both start `s` followed by a colon are equal. */
  lemma {:induction false} ColonPrefixUnique(s: string, t: string, u: string)
    requires ':' !in t && ':' !in u
    requires StartsWith(s, t + ":") && StartsWith(s, u + ":")
    ensures t == u
  {
    assert forall k :: 0 <= k < |t| ==> s[k] == t[k];
    assert forall k :: 0 <= k < |u| ==> s[k] == u[k];
    assert s[|t|] == ':' && s[|u|] == ':';
    assert |t| == |u|;
    assert t == s[..|t|] == u;
  }

  /** A subject opening with a known type and a colon gets that type's emoji. */
  lemma {:induction false} EmojiOfTyped(t: string, rest: string)
    requires t in Types
    ensures EmojiOf(t + ":" + rest) == TypeEmoji(t) != Memo
  {
    var s := t + ":" + rest;
    assert StartsWith(s, t + ":") by { assert s[..|t| + 1] == t + ":"; }
    var found := CommitType(s);
    assert found.Some?;
    ColonPrefixUnique(s, found.value, t);
  }

  /** Any other subject gets the memo emoji. */
  lemma {:induction false} EmojiOfUntyped(subject: string)
    requires forall t :: t in Types ==> !StartsWith(subject, t + ":")
    ensures EmojiOf(subject) == Memo
  {
  }

  const CommitUrl := "https://github.com/" + "your-org/inventory-management-ui" + "/commit/"

  /** One commit's section; `None` where `subject.match` or `hash.substring`
    * throws on `undefined`. */
  function Section(e: Entry): Option<string>
  {
    if e.subject.None? || e.hash.None? then None
    else
      var hash := e.hash.value;
      Some("### " + EmojiOf(e.subject.value) + " " + e.subject.value + "\n\n"
        + "- **Author**: " + Text(e.author) + "\n"
        + "- **Commit**: [`" + Take(hash, 7) + "`](" + CommitUrl + hash + ")\n")
  }

  /** `commits.map(...)`: every section, or None at the first that throws. */
  function Sections(es: seq<Entry>): Option<seq<string>>
  {
    if es == [] then Some([])
    else
      var init := Sections(es[..|es| - 1]);
      var last := Section(es[|es| - 1]);
      if init.Some? && last.Some? then Some(init.value + [last.value]) else None
  }

  /** `<!-- commits-count: n -->`, the marker the skip check looks for. */
  function Marker(n: nat): string
  {
    "<!-- commits-count: " + NatToString(n) + " -->"
  }

  function CountLine(n: nat): string
  {
    if n == 1 then "This day had 1 commit:" else "This day had " + NatToString(n) + " commits:"
  }

  /** The front matter and the blank line before the marker. */
  function PostHead(date: string, title: string): string
  {
    "---\nlayout: default\ntitle: \"Daily Update - " + title + "\"\ndate: " + date + "\n---\n\n"
  }

  function PostTail(n: nat, heading: string, body: string): string
  {
    "\n\n## Development Activity for " + heading + "\n\n" + CountLine(n) + "\n\n" + body
      + "\n\n---\n\n*Total commits this day: " + NatToString(n) + "*\n"
  }

  /** The post for one day; `title` and `heading` are the two localized
    * renderings of the day. */
  function Post(date: string, es: seq<Entry>, title: string, heading: string): Option<string>
  {
    var sections := Sections(es);
    if sections.None? then None
    else Some(PostHead(date, title) + Marker(|es|) + PostTail(|es|, heading, Join(sections.value, "\n")))
  }

  /** Every post records its number of commits in the marker the skip check reads. */
  lemma {:induction false} PostCarriesMarker(date: string, es: seq<Entry>, title: string, heading: string)
    requires Post(date, es, title, heading).Some?
    ensures Contains(Post(date, es, title, heading).value, Marker(|es|))
  {
    ContainsMiddle(PostHead(date, title), Marker(|es|), PostTail(|es|, heading, Join(Sections(es).value, "\n")));
  }

  /** The template of lines 49-83, for any day and its commits. */
  type Renderer = (string, seq<Entry>) -> Option<string>

  /** The script's template, with the two date renderings it uses. */
  function PostsOf(titleOf: string -> string, headingOf: string -> string): Renderer
  {
    (d: string, es: seq<Entry>) => Post(d, es, titleOf(d), headingOf(d))
  }

  /** Every text `render` produces carries the marker of its commit count. */
  ghost predicate Marks(render: Renderer)
  {
    forall d, es :: render(d, es).Some? ==> Contains(render(d, es).value, Marker(|es|))
  }

  lemma {:induction false} PostsOfMark(titleOf: string -> string, headingOf: string -> string)
    ensures Marks(PostsOf(titleOf, headingOf))
  {
    forall d, es | PostsOf(titleOf, headingOf)(d, es).Some?
      ensures Contains(PostsOf(titleOf, headingOf)(d, es).value, Marker(|es|))
    {
      PostCarriesMarker(d, es, titleOf(d), headingOf(d));
    }
  }

  // ---------------------------------------------------------- the run

  function FileName(date: string): string
  {
    date + "-daily-update.md"
  }

  /** Different days never share a post file. */
  lemma {:induction false} FileNameInjective(a: string, b: string)
    ensures FileName(a) == FileName(b) <==> a == b
  {
    assert FileName(a)[..|a|] == a && FileName(b)[..|b|] == b;
  }

  /** The existing post for `date` already records `n` commits. */
  predicate Skips(files: map<string, string>, date: string, n: nat)
  {
    FileName(date) in files && Contains(files[FileName(date)], Marker(n))
  }

  /** What a run did: the posts it wrote, in order, and whether a commit
    * without a subject ended it early. */
  datatype Outcome = Outcome(written: seq<(string, string)>, failed: bool)

  /** The loop over the days, each day against the directory as it was. */
  function Run(dates: seq<string>, g: map<string, seq<Entry>>, files: map<string, string>,
               render: Renderer): Outcome
    requires forall d :: d in dates ==> d in g
  {
    if dates == [] then Outcome([], false)
    else
      var d := dates[|dates| - 1];
      Step(Run(dates[..|dates| - 1], g, files, render), FileName(d),
           Skips(files, d, |g[d]|), render(d, g[d]))
  }

  /** One day of the loop: after a failure nothing more happens; a day whose
    * post records its count is skipped; otherwise its post `text` is written
    * to `name`, or, when building it threw, the run fails. */
  function Step(o: Outcome, name: string, skip: bool, text: Option<string>): (r: Outcome)
    ensures r.failed <==> o.failed || (!skip && text.None?)
    ensures r.written == o.written || (!o.failed && !skip && text.Some? && r.written == o.written + [(name, text.value)])
  {
    if o.failed || skip then o
    else if text.None? then Outcome(o.written, true)
    else Outcome(o.written + [(name, text.value)], false)
  }

  /** The directory after `written` went to it in order. */
  function Apply(files: map<string, string>, written: seq<(string, string)>): map<string, string>
  {
    if written == [] then files
    else Apply(files, written[..|written| - 1])[written[|written| - 1].0 := written[|written| - 1].1]
  }

  lemma {:induction false} ApplyOthers(files: map<string, string>, written: seq<(string, string)>, name: string)
    requires forall k :: 0 <= k < |written| ==> written[k].0 != name
    ensures name in Apply(files, written) <==> name in files
    ensures name in files ==> Apply(files, written)[name] == files[name]
  {
    if written != [] {
      ApplyOthers(files, written[..|written| - 1], name);
    }
  }

  /** A run writes only the posts of its own days. */
  lemma {:induction false} RunWritesItsDays(dates: seq<string>, g: map<string, seq<Entry>>, files: map<string, string>,
                                            render: Renderer)
    requires forall d :: d in dates ==> d in g
    ensures forall k :: 0 <= k < |Run(dates, g, files, render).written| ==>
      exists d :: d in dates && Run(dates, g, files, render).written[k].0 == FileName(d)
  {
    if dates != [] {
      var init := dates[..|dates| - 1];
      var last := dates[|dates| - 1];
      RunWritesItsDays(init, g, files, render);
      var o := Run(init, g, files, render);
      var w := Run(dates, g, files, render).written;
      assert w == o.written || w == o.written + [(FileName(last), render(last, g[last]).value)];
      forall k | 0 <= k < |w|
        ensures exists d :: d in dates && w[k].0 == FileName(d)
      {
        if k < |o.written| {
          var d :| d in init && o.written[k].0 == FileName(d);
          assert d in dates && w[k] == o.written[k];
        } else {
          assert w[k].0 == FileName(last) && last in dates;
        }
      }
      assert forall k :: 0 <= k < |w| ==> exists d :: d in dates && w[k].0 == FileName(d);
    } else {
      assert Run(dates, g, files, render).written == [];
    }
  }

  /** A day not yet reached finds its file as the run found the directory. */
  lemma {:induction false} NotYetWritten(dates: seq<string>, i: nat, g: map<string, seq<Entry>>, files: map<string, string>,
                      render: Renderer)
    requires Distinct(dates) && i < |dates| && forall d :: d in dates ==> d in g
    ensures var disk := Apply(files, Run(dates[..i], g, files, render).written);
      (FileName(dates[i]) in disk <==> FileName(dates[i]) in files)
      && (FileName(dates[i]) in files ==> disk[FileName(dates[i])] == files[FileName(dates[i])])
  {
    var w := Run(dates[..i], g, files, render).written;
    RunWritesItsDays(dates[..i], g, files, render);
    forall k | 0 <= k < |w|
      ensures w[k].0 != FileName(dates[i])
    {
      var d :| d in dates[..i] && w[k].0 == FileName(d);
      FileNameInjective(d, dates[i]);
    }
    ApplyOthers(files, w, FileName(dates[i]));
  }

  /** Once a run has failed, later days change nothing. */
  lemma {:induction false} RunStaysFailed(dates: seq<string>, i: nat, g: map<string, seq<Entry>>, files: map<string, string>,
                                          render: Renderer)
    requires i <= |dates| && forall d :: d in dates ==> d in g
    requires Run(dates[..i], g, files, render).failed
    ensures Run(dates, g, files, render) == Run(dates[..i], g, files, render)
  {
    if i < |dates| {
      assert dates[..|dates| - 1][..i] == dates[..i];
      RunStaysFailed(dates[..|dates| - 1], i, g, files, render);
    } else {
      assert dates[..i] == dates;
    }
  }

  /** The `forEach` over the days: skip, or write the post, or stop at the
    * first `TypeError`. */
  method WritePosts(dates: seq<string>, g: map<string, seq<Entry>>, files: map<string, string>,
                    render: Renderer)
    returns (disk: map<string, string>, failed: bool)
    requires Distinct(dates) && forall d :: d in dates ==> d in g
    ensures disk == Apply(files, Run(dates, g, files, render).written)
    ensures failed == Run(dates, g, files, render).failed
  {
    disk, failed := files, false;
    var i := 0;
    while i < |dates| && !failed
      invariant 0 <= i <= |dates|
      invariant disk == Apply(files, Run(dates[..i], g, files, render).written)
      invariant failed == Run(dates[..i], g, files, render).failed
    {
      var d := dates[i];
      var name := FileName(d);
      NotYetWritten(dates, i, g, files, render);
      assert dates[..i + 1][..i] == dates[..i] && dates[..i + 1][i] == d;
      if name in disk && Contains(disk[name], Marker(|g[d]|)) {
        // the post already records this many commits
      } else {
        var text := render(d, g[d]);
        if text.None? {
          failed := true;
        } else {
          disk := disk[name := text.value];
        }
      }
      i := i + 1;
    }
    if failed {
      RunStaysFailed(dates, i, g, files, render);
    } else {
      assert dates[..i] == dates;
    }
  }

  /** Writing one day's post keeps the markers of the other days' posts. */
  lemma {:induction false} WriteKeepsSkips(before: map<string, string>, last: string, text: string,
                                           days: seq<string>, g: map<string, seq<Entry>>)
    requires last !in days
    requires forall d :: d in days ==> d in g && Skips(before, d, |g[d]|)
    ensures forall d :: d in days ==> Skips(before[FileName(last) := text], d, |g[d]|)
  {
    forall d | d in days
      ensures Skips(before[FileName(last) := text], d, |g[d]|)
    {
      FileNameInjective(d, last);
    }
  }

  /** The last day of a run that did not fail leaves its marker and keeps
    * the earlier days' markers. */
  lemma {:induction false} LastDayLeavesMarkers(dates: seq<string>, g: map<string, seq<Entry>>, files: map<string, string>,
                                                render: Renderer)
    requires dates != [] && Distinct(dates) && forall d :: d in dates ==> d in g
    requires Marks(render) && !Run(dates, g, files, render).failed
    requires forall d :: d in dates[..|dates| - 1] ==>
      Skips(Apply(files, Run(dates[..|dates| - 1], g, files, render).written), d, |g[d]|)
    ensures forall d :: d in dates ==>
      Skips(Apply(files, Run(dates, g, files, render).written), d, |g[d]|)
  {
    var init := dates[..|dates| - 1];
    var last := dates[|dates| - 1];
    assert last !in init;
    var o := Run(init, g, files, render);
    var skip := Skips(files, last, |g[last]|);
    var text := render(last, g[last]);
    assert Run(dates, g, files, render) == Step(o, FileName(last), skip, text);
    NotYetWritten(dates, |dates| - 1, g, files, render);
    var before := Apply(files, o.written);
    var after := Apply(files, Run(dates, g, files, render).written);
    if skip {
      assert after == before;
      assert Skips(after, last, |g[last]|);
    } else {
      assert after == before[FileName(last) := text.value];
      WriteKeepsSkips(before, last, text.value, init, g);
      assert Skips(after, last, |g[last]|);
    }
    assert forall d :: d in dates ==> d in init || d == last;
  }

  /** After a run that did not fail, every day's file records its commit count. */
  lemma {:induction false} RunLeavesMarkers(dates: seq<string>, g: map<string, seq<Entry>>, files: map<string, string>,
                                            render: Renderer)
    requires Distinct(dates) && forall d :: d in dates ==> d in g
    requires Marks(render) && !Run(dates, g, files, render).failed
    ensures forall d :: d in dates ==>
      Skips(Apply(files, Run(dates, g, files, render).written), d, |g[d]|)
  {
    if dates != [] {
      var init := dates[..|dates| - 1];
      assert Distinct(init);
      RunLeavesMarkers(init, g, files, render);
      LastDayLeavesMarkers(dates, g, files, render);
    }
  }

  /** A directory where every day's file already records its count is left alone. */
  lemma {:induction false} AllSkippedWritesNothing(dates: seq<string>, g: map<string, seq<Entry>>, files: map<string, string>,
                                                   render: Renderer)
    requires forall d :: d in dates ==> d in g && Skips(files, d, |g[d]|)
    ensures Run(dates, g, files, render) == Outcome([], false)
  {
    if dates != [] {
      AllSkippedWritesNothing(dates[..|dates| - 1], g, files, render);
    }
  }

  // ------------------------------------------------------------ the script

  /** The whole script on the output of `git log`. */
  function Generated(output: string, files: map<string, string>,
                     titleOf: string -> string, headingOf: string -> string): Outcome
  {
    var log := Trim(output, JavaScript);
    if log == "" then Outcome([], false)
    else
      var g := GroupAll(Records(Split(log, '\n')));
      GroupAllSpec(Records(Split(log, '\n')));
      DateOrderSpec(g.dates);
      assert forall d :: d in DateOrder(g.dates) ==> d in multiset(DateOrder(g.dates));
      Run(DateOrder(g.dates), g.buckets, files, PostsOf(titleOf, headingOf))
  }

  method Generate(output: string, files: map<string, string>,
                  titleOf: string -> string, headingOf: string -> string)
    returns (disk: map<string, string>, failed: bool)
    ensures disk == Apply(files, Generated(output, files, titleOf, headingOf).written)
    ensures failed == Generated(output, files, titleOf, headingOf).failed
  {
    var log := Trim(output, JavaScript);
    if log == "" {
      return files, false;
    }
    var g := GroupByDate(Split(log, '\n'));
    GroupAllSpec(Records(Split(log, '\n')));
    DateOrderSpec(g.dates);
    var order := DateOrder(g.dates);
    assert forall d :: d in order ==> d in multiset(order);
    DistinctCounts(g.dates);
    CountsDistinct(order);
    disk, failed := WritePosts(order, g.buckets, files, PostsOf(titleOf, headingOf));
  }

  /** Running the script again on the same log, over the directory the first
    * run left, writes nothing: every post already records its count. */
  lemma {:induction false} SecondRunWritesNothing(output: string, files: map<string, string>,
                                                  titleOf: string -> string, headingOf: string -> string)
    requires !Generated(output, files, titleOf, headingOf).failed
    ensures var after := Apply(files, Generated(output, files, titleOf, headingOf).written);
      Generated(output, after, titleOf, headingOf) == Outcome([], false)
  {
    var log := Trim(output, JavaScript);
    if log != "" {
      var g := GroupAll(Records(Split(log, '\n')));
      GroupAllSpec(Records(Split(log, '\n')));
      DateOrderSpec(g.dates);
      var order := DateOrder(g.dates);
      assert forall d :: d in order ==> d in multiset(order);
      DistinctCounts(g.dates);
      CountsDistinct(order);
      PostsOfMark(titleOf, headingOf);
      RunLeavesMarkers(order, g.buckets, files, PostsOf(titleOf, headingOf));
      var after := Apply(files, Run(order, g.buckets, files, PostsOf(titleOf, headingOf)).written);
      AllSkippedWritesNothing(order, g.buckets, after, PostsOf(titleOf, headingOf));
    }
  }
}
