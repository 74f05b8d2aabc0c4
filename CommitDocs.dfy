/**
  * The page `docs/generate-commit-docs.py` writes for one commit: the file
  * name (sanitized title), the commit list read from `git log`, the list of
  * changed files read from `git show --name-status`, and the page text.
  * Git's output is a parameter: `None` where the command failed, otherwise
  * its standard output with surrounding whitespace removed.
  */
module CommitDocs {
  import opened Wrappers
  import opened Strings
  import opened LineRegex

  // ------------------------------------------------------------ file names

  /** `[a-zA-Z0-9._-]` */
  predicate IsSafe(c: char)
  {
    'a' <= c <= 'z' || 'A' <= c <= 'Z' || '0' <= c <= '9' || c == '.' || c == '_' || c == '-'
  }

  predicate NoDoubleUnderscore(s: string)
  {
    forall i :: 0 <= i < |s| - 1 ==> !(s[i] == '_' && s[i + 1] == '_')
  }

  /** Only `[A-Za-z0-9._-]` and no `__`. */
  predicate SafeName(s: string)
  {
    (forall i :: 0 <= i < |s| ==> IsSafe(s[i])) && NoDoubleUnderscore(s)
  }

  /** What a sanitized name looks like. */
  predicate Clean(s: string)
  {
    SafeName(s) && (|s| > 0 ==> s[0] != '_' && s[|s| - 1] != '_')
  }

  /** `re.sub(r'[^a-zA-Z0-9._-]', '_', text)` */
  function ReplaceUnsafe(s: string): (r: string)
    ensures |r| == |s|
    ensures forall i :: 0 <= i < |r| ==> IsSafe(r[i])
    ensures forall i :: 0 <= i < |s| && IsSafe(s[i]) ==> r[i] == s[i]
  {
    seq(|s|, i requires 0 <= i < |s| => if IsSafe(s[i]) then s[i] else '_')
  }

  /** `re.sub(r'_+', '_', s)` */
  function Collapse(s: string): (r: string)
    ensures |s| == 0 <==> |r| == 0
    ensures |s| > 0 ==> r[0] == s[0] && r[|r| - 1] == s[|s| - 1]
    ensures NoDoubleUnderscore(r)
    ensures forall c :: c in r ==> c in s
    ensures NoDoubleUnderscore(s) ==> r == s
    decreases |s|
  {
    if |s| <= 1 then s
    else if s[0] == '_' && s[1] == '_' then Collapse(s[1..])
    else
      var rest := Collapse(s[1..]);
      assert forall c :: c in s[1..] ==> c in s;
      [s[0]] + rest
  }

  /** `sanitize_filename` */
  function Sanitize(text: string): string
  {
    Strip(Collapse(ReplaceUnsafe(text)), '_')
  }

  /** Only `[A-Za-z0-9._-]`, no `__`, no `_` at either end. */
  /** After the replacement and the collapse only safe characters are left. */
  lemma {:induction false} CollapsedSafe(text: string)
    ensures SafeName(Collapse(ReplaceUnsafe(text)))
  {
    var u := ReplaceUnsafe(text);
    var c := Collapse(u);
    forall i | 0 <= i < |c|
      ensures IsSafe(c[i])
    {
      assert c[i] in c;
      assert c[i] in u;
    }
  }

  /** A run of consecutive characters of a safe name is a safe name. */
  lemma {:induction false} SafeRun(c: string, k: nat, r: string)
    requires SafeName(c)
    requires k + |r| <= |c| && forall i :: 0 <= i < |r| ==> r[i] == c[k + i]
    ensures SafeName(r)
  {
    forall i | 0 <= i < |r|
      ensures IsSafe(r[i])
    {
      assert r[i] == c[k + i];
    }
    forall i | 0 <= i < |r| - 1
      ensures !(r[i] == '_' && r[i + 1] == '_')
    {
      assert r[i] == c[k + i] && r[i + 1] == c[k + i + 1];
    }
  }

  /** A suffix of a safe name is a safe name. */
  lemma {:induction false} SafeSuffix(c: string, t: string)
    requires SafeName(c) && |t| <= |c| && t == c[|c| - |t|..]
    ensures SafeName(t)
  {
    var k := |c| - |t|;
    forall i | 0 <= i < |t|
      ensures t[i] == c[k + i]
    {
      assert t[i] == c[k..][i];
    }
    SafeRun(c, k, t);
  }

  lemma {:induction false} StripStartSafe(c: string)
    requires SafeName(c)
    ensures SafeName(StripStart(c, '_'))
  {
    SafeSuffix(c, StripStart(c, '_'));
  }

  lemma {:induction false} StripEndClean(t: string)
    requires SafeName(t) && (|t| > 0 ==> t[0] != '_')
    ensures Clean(StripEnd(t, '_'))
  {
    var r := StripEnd(t, '_');
    StripEndRun(t, '_');
    SafeRun(t, 0, r);
    if |r| > 0 {
      assert r[0] == t[0];
    }
  }

  /** Stripping `_` from both ends of a safe name makes it clean. */
  lemma {:induction false} StripClean(c: string)
    requires SafeName(c)
    ensures Clean(Strip(c, '_'))
  {
    StripStartSafe(c);
    StripEndClean(StripStart(c, '_'));
  }

  lemma {:induction false} SanitizeIsClean(text: string)
    ensures Clean(Sanitize(text))
  {
    CollapsedSafe(text);
    StripClean(Collapse(ReplaceUnsafe(text)));
  }

  lemma {:induction false} ReplaceKeepsSafe(s: string)
    requires forall i :: 0 <= i < |s| ==> IsSafe(s[i])
    ensures ReplaceUnsafe(s) == s
  {
    assert forall i :: 0 <= i < |s| ==> ReplaceUnsafe(s)[i] == s[i];
  }

  /** A clean name is its own sanitized form. */
  lemma {:induction false} CleanIsFixed(s: string)
    requires Clean(s)
    ensures Sanitize(s) == s
  {
    ReplaceKeepsSafe(s);
    assert Collapse(s) == s;
    StripUntouched(s, '_');
  }

  lemma {:induction false} SanitizeIdempotent(text: string)
    ensures Sanitize(Sanitize(text)) == Sanitize(text)
  {
    SanitizeIsClean(text);
    CleanIsFixed(Sanitize(text));
  }

  /** `re.sub(r'[^0-9]', '', s)` */
  function DigitsOnly(s: string): (r: string)
    ensures forall i :: 0 <= i < |r| ==> IsDigit(r[i])
    ensures forall c :: c in r <==> c in s && IsDigit(c)
    ensures (forall i :: 0 <= i < |s| ==> IsDigit(s[i])) ==> r == s
  {
    if s == [] then []
    else if IsDigit(s[0]) then [s[0]] + DigitsOnly(s[1..])
    else DigitsOnly(s[1..])
  }

  /** The date part of the file name: the `%Y%m%d%H%M%S` rendering when the
    * date parses (`parsed`), otherwise the date's digits cut to fourteen. */
  function FileDate(date: string, parsed: Option<string>): (r: string)
    ensures parsed.None? ==> |r| <= 14 && forall i :: 0 <= i < |r| ==> IsDigit(r[i])
  {
    if parsed.Some? then parsed.value else Take(DigitsOnly(date), 14)
  }

  datatype Commit = Commit(hash: string, date: string, title: string, author: string)

  /** `f"{file_date}-{short_hash}-{safe_title}.md"` */
  function FileName(c: Commit, parsed: Option<string>): (r: string)
  {
    FileDate(c.date, parsed) + "-" + Take(c.hash, 7) + "-" + Sanitize(c.title) + ".md"
  }

  /** The name ends in `.md`, and its title part is clean whatever the title. */
  lemma {:induction false} FileNameParts(c: Commit, parsed: Option<string>)
    ensures var name := FileName(c, parsed);
            var prefix := FileDate(c.date, parsed) + "-" + Take(c.hash, 7) + "-";
            |name| >= 3 && name[|name| - 3..] == ".md" && name[..|prefix|] == prefix
            && Clean(name[|prefix|..|name| - 3])
            && |Take(c.hash, 7)| <= 7
  {
    var prefix := FileDate(c.date, parsed) + "-" + Take(c.hash, 7) + "-";
    var name := FileName(c, parsed);
    assert name == prefix + Sanitize(c.title) + ".md";
    assert name[|prefix|..|name| - 3] == Sanitize(c.title);
    SanitizeIsClean(c.title);
  }

  // ---------------------------------------------------------------- git log

  /** A line of `git log --pretty=format:%H|%ci|%s|%an`. */
  function LogLine(c: Commit): string
  {
    c.hash + "|" + c.date + "|" + c.title + "|" + c.author
  }

  /** A non-blank line that `split('|', 3)` cuts into four fields. */
  predicate IsCommitLine(line: string)
  {
    Trim(line, Python) != "" && |SplitMax(line, '|', 3)| == 4
  }

  function ToCommit(line: string): Commit
    requires IsCommitLine(line)
  {
    var parts := SplitMax(line, '|', 3);
    Commit(parts[0], parts[1], parts[2], parts[3])
  }

  /** The loop body: a stripped, non-blank line that splits into four
    * fields gives one commit; any other line is skipped. */
  function LineCommits(line: string): seq<Commit>
  {
    if IsCommitLine(line) then [ToCommit(line)] else []
  }

  /** The commits of the log lines, in log order. */
  function CommitsOf(lines: seq<string>): (r: seq<Commit>)
    ensures |r| <= |lines|
  {
    if lines == [] then [] else CommitsOf(lines[..|lines| - 1]) + LineCommits(lines[|lines| - 1])
  }

  /** `get_commits`: an empty or failed log gives no commits. */
  function Commits(output: Option<string>): seq<Commit>
  {
    if output.None? || output.value == "" then [] else CommitsOf(Split(output.value, '\n'))
  }

  lemma {:induction false} CommitsOfSnoc(lines: seq<string>, line: string)
    ensures CommitsOf(lines + [line]) == CommitsOf(lines) + LineCommits(line)
  {
    assert (lines + [line])[..|lines|] == lines;
  }

  lemma {:induction false} CommitsOfStep(lines: seq<string>, i: nat)
    requires i < |lines|
    ensures CommitsOf(lines[..i + 1]) == CommitsOf(lines[..i]) + LineCommits(lines[i])
  {
    assert lines[..i + 1] == lines[..i] + [lines[i]];
    CommitsOfSnoc(lines[..i], lines[i]);
  }

  method GetCommits(output: Option<string>) returns (commits: seq<Commit>)
    ensures commits == Commits(output)
  {
    if output.None? || output.value == "" {
      return [];
    }
    var lines := Split(output.value, '\n');
    commits := [];
    var i := 0;
    while i < |lines|
      invariant 0 <= i <= |lines|
      invariant commits == CommitsOf(lines[..i])
    {
      CommitsOfStep(lines, i);
      commits := commits + LineCommits(lines[i]);
      i := i + 1;
    }
    assert lines[..|lines|] == lines;
  }

  /** `split('|', 3)` cuts a log line back into its four fields. */
  lemma {:induction false} LogLineFields(c: Commit)
    requires '|' !in c.hash && '|' !in c.date && '|' !in c.title
    ensures SplitMax(LogLine(c), '|', 3) == [c.hash, c.date, c.title, c.author]
  {
    var line := LogLine(c);
    var r2 := c.title + ['|'] + c.author;
    var r1 := c.date + ['|'] + r2;
    assert line == c.hash + ['|'] + r1;
    SplitMaxZero(c.author, '|');
    SplitMaxField(c.title, '|', c.author, 0);
    assert SplitMax(r2, '|', 1) == [c.title, c.author];
    SplitMaxField(c.date, '|', r2, 1);
    assert SplitMax(r1, '|', 2) == [c.date, c.title, c.author];
    SplitMaxField(c.hash, '|', r1, 2);
  }

  /** A commit whose first three fields hold no `|` is read back from its log
    * line; the author may hold any character. */
  lemma {:induction false} LogLineRoundTrip(c: Commit)
    requires '|' !in c.hash && '|' !in c.date && '|' !in c.title
    ensures IsCommitLine(LogLine(c)) && ToCommit(LogLine(c)) == c
  {
    var line := LogLine(c);
    LogLineFields(c);
    assert line[|c.hash|] == '|';
    assert !IsSpace(line[|c.hash|], Python);
    TrimBlank(line, Python);
  }

  /** As written, `split('|', 3)` ends the title at its first bar: a title
    * `t1|t2` comes back as `t1`, and `t2|` is put in front of the author. */
  lemma {:induction false} TitleWithBarAsWritten(hash: string, date: string, t1: string, t2: string, author: string)
    requires '|' !in hash && '|' !in date && '|' !in t1
    ensures var line := LogLine(Commit(hash, date, t1 + "|" + t2, author));
            IsCommitLine(line) && ToCommit(line) == Commit(hash, date, t1, t2 + "|" + author)
  {
    var cut := Commit(hash, date, t1, t2 + "|" + author);
    assert LogLine(Commit(hash, date, t1 + "|" + t2, author)) == LogLine(cut);
    LogLineRoundTrip(cut);
  }

  lemma {:induction false} LogLineCommits(c: Commit)
    requires '|' !in c.hash && '|' !in c.date && '|' !in c.title
    ensures LineCommits(LogLine(c)) == [c]
  {
    LogLineRoundTrip(c);
  }

  function LogLines(cs: seq<Commit>): (r: seq<string>)
    ensures |r| == |cs| && forall i :: 0 <= i < |cs| ==> r[i] == LogLine(cs[i])
  {
    if cs == [] then [] else LogLines(cs[..|cs| - 1]) + [LogLine(cs[|cs| - 1])]
  }

  predicate LogSafe(c: Commit)
  {
    '|' !in c.hash && '|' !in c.date && '|' !in c.title
    && '\n' !in c.hash && '\n' !in c.date && '\n' !in c.title && '\n' !in c.author
  }

  /** The log lines of a list of commits read back as that list, in order. */
  lemma {:induction false} CommitsOfLogLines(cs: seq<Commit>)
    requires forall i :: 0 <= i < |cs| ==> LogSafe(cs[i])
    ensures CommitsOf(LogLines(cs)) == cs
  {
    if cs != [] {
      var init := cs[..|cs| - 1];
      var last := cs[|cs| - 1];
      CommitsOfLogLines(init);
      LogLineCommits(last);
      assert LogLines(cs) == LogLines(init) + [LogLine(last)];
      CommitsOfSnoc(LogLines(init), LogLine(last));
      assert cs == init + [last];
    }
  }

  lemma {:induction false} LogLinesSingleLine(cs: seq<Commit>)
    requires forall i :: 0 <= i < |cs| ==> LogSafe(cs[i])
    ensures forall i :: 0 <= i < |cs| ==> '\n' !in LogLines(cs)[i]
  {
  }

  /** `git log` output of a non-empty list of commits gives that list back. */
  lemma {:induction false} GitLogRoundTrip(cs: seq<Commit>)
    requires cs != [] && forall i :: 0 <= i < |cs| ==> LogSafe(cs[i])
    ensures Commits(Some(Join(LogLines(cs), "\n"))) == cs
  {
    var lines := LogLines(cs);
    var text := Join(lines, "\n");
    CommitsOfLogLines(cs);
    LogLinesSingleLine(cs);
    SplitOfJoin(lines, '\n');
    assert Split(text, '\n') == lines;
    JoinHead(lines, "\n");
    assert lines[0] == LogLine(cs[0]);
    assert |lines[0]| > 0;
    assert text != "";
  }

  /** A join starts with its first part. */
  lemma {:induction false} JoinHead(parts: seq<string>, sep: string)
    requires |parts| >= 1
    ensures |Join(parts, sep)| >= |parts[0]| && Join(parts, sep)[..|parts[0]|] == parts[0]
  {
  }

  // --------------------------------------------------------- changed files

  const NoFilesChanged := "No files changed in this commit."

  datatype Change = Added | Modified | Deleted | Renamed | Copied | Changed

  /** The kind of change a `--name-status` code stands for. */
  function ChangeOf(status: string): (k: Change)
    ensures k == Added <==> status == "A"
    ensures k == Modified <==> status == "M"
    ensures k == Deleted <==> status == "D"
    ensures k == Renamed <==> StartsWith(status, "R")
    ensures k == Copied <==> StartsWith(status, "C")
  {
    if status == "A" then Added
    else if status == "M" then Modified
    else if status == "D" then Deleted
    else if StartsWith(status, "R") then Renamed
    else if StartsWith(status, "C") then Copied
    else Changed
  }

  function Emoji(k: Change): string
  {
    match k
    case Added => "\U{2705}"
    case Modified => "\U{1F4DD}"
    case Deleted => "\U{274C}"
    case Renamed => "\U{1F504}"
    case Copied => "\U{1F4CB}"
    case Changed => "\U{1F4C4}"
  }

  function Label(k: Change): string
  {
    match k
    case Added => "Added"
    case Modified => "Modified"
    case Deleted => "Deleted"
    case Renamed => "Renamed"
    case Copied => "Copied"
    case Changed => "Changed"
  }

  /** One bullet: ``- <emoji> **<Label>:** `<path>` ``. */
  function Bullet(status: string, filename: string): (r: string)
    ensures var tail := "`" + filename + "`";
            |r| >= |tail| && r[|r| - |tail|..] == tail && r[..2] == "- "
  {
    "- " + Emoji(ChangeOf(status)) + " **" + Label(ChangeOf(status)) + ":** `" + filename + "`"
  }

  /** A stripped, non-blank line that `split('\t', 1)` cuts in two. */
  predicate IsFileLine(line: string)
  {
    Trim(line, Python) != "" && |SplitMax(Trim(line, Python), '\t', 1)| == 2
  }

  /** The loop body: a stripped, non-blank line that splits at its first tab
    * gives one bullet; any other line is skipped. */
  function LineBullets(line: string): seq<string>
  {
    if IsFileLine(line) then
      var parts := SplitMax(Trim(line, Python), '\t', 1);
      [Bullet(parts[0], parts[1])]
    else []
  }

  function BulletsOf(lines: seq<string>): (r: seq<string>)
    ensures |r| <= |lines|
  {
    if lines == [] then [] else BulletsOf(lines[..|lines| - 1]) + LineBullets(lines[|lines| - 1])
  }

  /** `get_files_changed`: the bullets joined by newlines, or the placeholder. */
  function FilesChanged(output: Option<string>): string
  {
    if output.None? || output.value == "" then NoFilesChanged
    else
      var bullets := BulletsOf(Split(output.value, '\n'));
      if bullets == [] then NoFilesChanged else Join(bullets, "\n")
  }

  lemma {:induction false} BulletsOfStep(lines: seq<string>, i: nat)
    requires i < |lines|
    ensures BulletsOf(lines[..i + 1]) == BulletsOf(lines[..i]) + LineBullets(lines[i])
  {
    assert lines[..i + 1][..i] == lines[..i];
  }

  method GetFilesChanged(output: Option<string>) returns (md: string)
    ensures md == FilesChanged(output)
  {
    if output.None? || output.value == "" {
      return NoFilesChanged;
    }
    var lines := Split(output.value, '\n');
    var bullets: seq<string> := [];
    var i := 0;
    while i < |lines|
      invariant 0 <= i <= |lines|
      invariant bullets == BulletsOf(lines[..i])
    {
      BulletsOfStep(lines, i);
      bullets := bullets + LineBullets(lines[i]);
      i := i + 1;
    }
    assert lines[..|lines|] == lines;
    md := if bullets == [] then NoFilesChanged else Join(bullets, "\n");
  }

  /** A `--name-status` line of a status code and a path, neither with
    * surrounding spaces, gives the bullet for that path. */
  lemma {:induction false} NameStatusLine(status: string, filename: string)
    requires status != "" && '\t' !in status && !IsSpace(status[0], Python)
    requires filename != "" && !IsSpace(filename[|filename| - 1], Python)
    ensures LineBullets(status + "\t" + filename) == [Bullet(status, filename)]
  {
    var line := status + ['\t'] + filename;
    assert line == status + "\t" + filename;
    assert line[0] == status[0] && line[|line| - 1] == filename[|filename| - 1];
    TrimUntouched(line, Python);
    assert Trim(line, Python) == line;
    SplitMaxZero(filename, '\t');
    SplitMaxField(status, '\t', filename, 0);
    assert SplitMax(line, '\t', 1) == [status, filename];
  }

  // ---------------------------------------------------------- the page

  const TitleKey := "title:"
  const DateKey := "date:"
  const HashKey := "commit_hash:"

  /** The page's front matter, read back by the index and by the next run. */
  function FrontMatter(c: Commit): seq<string>
  {
    ["---",
     "layout: default",
     TitleKey + " \"" + c.title + "\"",
     DateKey + " " + c.date,
     "author: " + c.author,
     HashKey + " " + c.hash,
     "nav_exclude: true",
     "---"]
  }

  /** The page's lines; the text is each followed by a newline. */
  function PageLines(c: Commit, message: string, files: string): seq<string>
  {
    FrontMatter(c) + Body(c, message, files)
  }

  function Body(c: Commit, message: string, files: string): seq<string>
  {
    ["",
     "# " + c.title,
     "",
     "**Commit:** `" + c.hash + "`  ",
     "**Date:** " + c.date + "  ",
     "**Author:** " + c.author + "  ",
     "",
     "## Commit Message",
     "",
     "```",
     message,
     "```",
     "",
     "## Files Changed",
     "",
     files,
     "",
     "## Links",
     "",
     "- [View commit on GitHub](https://github.com/metanull/inventory-management-ui/commit/" + c.hash + ")",
     "- [Browse repository at this commit](https://github.com/metanull/inventory-management-ui/tree/" + c.hash + ")",
     "",
     "---",
     "",
     "*This documentation was automatically generated from Git commit data.*"]
  }

  /** `generate_markdown`: the file name and the page text. */
  function Page(c: Commit, parsed: Option<string>, message: string, files: string): (string, string)
  {
    (FileName(c, parsed), Lines(PageLines(c, message, files)))
  }
}
