/**
  * Reading back the pages `docs/generate-commit-docs.py` wrote: the hash of
  * the latest documented commit, where the next run starts from, and the
  * index of the twenty newest pages. The documentation directory is a
  * parameter: `None` when it does not exist, otherwise its `*.md` files with
  * their modification times and contents.
  */
module CommitIndex {
  import opened Wrappers
  import opened Strings
  import opened Lists
  import opened Sorting
  import opened LineRegex
  import opened CommitDocs

  datatype DocFile = DocFile(name: string, mtime: int, content: string)

  const IndexName := "index.md"

  /** `match.group(1).strip('"')` of the first `commit_hash:` line. */
  function HashOf(content: string): (h: Option<string>)
  {
    var g := Search(content, HashKey, false);
    if g.Some? then Some(Strip(g.value, '"')) else None
  }

  /** `max(files, key=mtime)`: the first of the newest files. */
  function Newest(files: seq<DocFile>): (k: nat)
    requires |files| > 0
    ensures k < |files|
    ensures forall i :: 0 <= i < |files| ==> files[i].mtime <= files[k].mtime
    ensures forall i :: 0 <= i < k ==> files[i].mtime < files[k].mtime
  {
    if |files| == 1 then 0
    else
      var k := Newest(files[..|files| - 1]);
      if files[|files| - 1].mtime > files[k].mtime then |files| - 1 else k
  }

  /** `get_latest_documented_commit` as written: the hash in the newest `.md`
    * file of the directory, whichever file that is. It agrees with the
    * corrected lookup as long as the directory holds no index. */
  function LatestDocumentedAsWritten(docs: Option<seq<DocFile>>): (h: Option<string>)
    ensures docs.None? ==> h.None?
    ensures docs.Some? && (forall i :: 0 <= i < |docs.value| ==> docs.value[i].name != IndexName)
            ==> h == LatestDocumented(docs)
  {
    PagesWithoutIndex(docs);
    if docs.None? || docs.value == [] then None
    else HashOf(docs.value[Newest(docs.value)].content)
  }

  /** A directory holding no index is all commit pages. */
  lemma {:induction false} PagesWithoutIndex(docs: Option<seq<DocFile>>)
    ensures docs.Some? && (forall i :: 0 <= i < |docs.value| ==> docs.value[i].name != IndexName)
            ==> Pages(docs.value) == docs.value
  {
    if docs.Some? && (forall i :: 0 <= i < |docs.value| ==> docs.value[i].name != IndexName) {
      PagesOfPages(docs.value);
    }
  }

  predicate IsPage(f: DocFile)
  {
    f.name != IndexName
  }

  /** The commit pages: every `.md` file but the index. */
  function Pages(files: seq<DocFile>): (r: seq<DocFile>)
    ensures forall f :: f in r <==> f in files && f.name != IndexName
  {
    Filter(files, IsPage)
  }

  /** `get_latest_documented_commit` reading only commit pages. */
  function LatestDocumented(docs: Option<seq<DocFile>>): (h: Option<string>)
    ensures docs.None? ==> h.None?
  {
    if docs.None? then None
    else
      var pages := Pages(docs.value);
      if pages == [] then None else HashOf(pages[Newest(pages)].content)
  }

  /** What the page template needs for its hash, title and date lines to read back. */
  predicate Readable(c: Commit)
  {
    c.hash != "" && '\n' !in c.hash && !IsSpace(c.hash[0], Python)
    && c.hash[0] != '"' && c.hash[|c.hash| - 1] != '"'
    && '\n' !in c.title && '\n' !in c.date && '\n' !in c.author
  }

  function PageText(c: Commit, message: string, files: string): string
  {
    Lines(PageLines(c, message, files))
  }

  /** The hash written into the front matter is the hash read back,
    * whatever follows it. */
  lemma {:induction false} FrontMatterHash(c: Commit, body: seq<string>)
    requires Readable(c)
    ensures HashOf(Lines(FrontMatter(c) + body)) == Some(c.hash)
  {
    var fm := FrontMatter(c);
    var ls := fm + body;
    var pre := fm[..5];
    var post := fm[6..] + body;
    assert ls == pre + [HashKey + " " + c.hash] + post;
    assert HashKey + " " + c.hash == HashKey + (" " + c.hash);
    assert pre[2][0] == 't' && pre[3][0] == 'd' && pre[4][0] == 'a';
    assert pre[2] == TitleKey + " \"" + c.title + "\"";
    assert pre[3] == DateKey + " " + c.date;
    assert pre[4] == "author: " + c.author;
    assert pre[0][0] == '-' && pre[1][0] == 'l';
    forall i | 0 <= i < |pre|
      ensures '\n' !in pre[i] && !StartsWith(pre[i], HashKey)
    {
      assert pre[i][0] != HashKey[0];
    }
    PlainCaptureOf(c.hash, Lines(post));
    SearchFindsLine(pre, HashKey, " " + c.hash, post, false);
    StripUntouched(c.hash, '"');
  }

  lemma {:induction false} PageHashRoundTrip(c: Commit, message: string, files: string)
    requires Readable(c)
    ensures HashOf(PageText(c, message, files)) == Some(c.hash)
  {
    FrontMatterHash(c, Body(c, message, files));
  }

  /** The index lines above the entries: its front matter and title, then
    * the introduction. */
  const IndexHeader: seq<string> := IndexTop + IndexIntro

  const IndexTop: seq<string> := [
    "---",
    "layout: default",
    "title: Commit Documentation",
    "nav_exclude: true",
    "---",
    "",
    "# Commit Documentation",
    ""]

  // The long sentence is written in four pieces so that the proof that it
  // holds no line break checks four short literals instead of one long one.
  const IndexIntro: seq<string> := [
    "This directory contains " + "automatically generated " + "documentation for each " + "commit to the main branch.",
    "",
    "## Recent Commits",
    ""]

  function FooterLine(now: string): string
  {
    "*Documentation automatically generated on " + now + "*"
  }

  function IndexFooter(now: string): seq<string>
  {
    ["", FooterLine(now)]
  }

  /** The index page: the header, one line per entry, and the footer stamped
    * with the time of the run (`now`). */
  function IndexText(entries: seq<string>, now: string): string
  {
    Lines(IndexHeader + entries + IndexFooter(now))
  }

  /** `Path(name).stem` of a `*.md` name. */
  function Stem(name: string): string
  {
    if |name| > 3 && name[|name| - 3..] == ".md" then name[..|name| - 3] else name
  }

  /** The index line of one page, when it has a quoted title and a dated
    * `date:` line; the date shows only its first word. */
  function EntryOf(f: DocFile): Option<string>
  {
    var title := Search(f.content, TitleKey, true);
    var date := Search(f.content, DateKey, false);
    if title.Some? && date.Some? then
      var day := FirstWord(date.value);
      if day.Some? then Some("- [" + title.value + "](" + Stem(f.name) + "/) - " + day.value) else None
    else None
  }

  function EntriesOf(files: seq<DocFile>): (r: seq<string>)
    ensures |r| <= |files|
  {
    if files == [] then []
    else
      var e := EntryOf(files[|files| - 1]);
      EntriesOf(files[..|files| - 1]) + (if e.Some? then [e.value] else [])
  }

  predicate Newer(a: DocFile, b: DocFile)
  {
    a.mtime > b.mtime
  }

  /** The pages, newest first; equally new pages keep their directory order. */
  function ByAge(files: seq<DocFile>): seq<DocFile>
  {
    Sort(Pages(files), Newer)
  }

  /** `md_files[:20]` */
  function Recent(files: seq<DocFile>): seq<DocFile>
  {
    var sorted := ByAge(files);
    if |sorted| <= 20 then sorted else sorted[..20]
  }

  lemma {:induction false} NewerStrictWeak()
    ensures StrictWeakOrder(Newer)
  {
  }

  /** The pages, every one of them, newest first; equally new pages keep
    * their directory order. */
  lemma {:induction false} ByAgeSpec(files: seq<DocFile>)
    ensures var sorted := ByAge(files);
            multiset(sorted) == multiset(Pages(files))
            && (forall i, j :: 0 <= i < j < |sorted| ==> sorted[i].mtime >= sorted[j].mtime)
    ensures Stable(Pages(files), ByAge(files), Newer)
  {
    var pages := Pages(files);
    var sorted := ByAge(files);
    SortPermutes(pages, Newer);
    NewerStrictWeak();
    SortSorts(pages, Newer);
    SortStable(pages, Newer);
    forall i, j | 0 <= i < j < |sorted|
      ensures sorted[i].mtime >= sorted[j].mtime
    {
      assert !Newer(sorted[j], sorted[i]);
    }
  }

  /** At most twenty pages, never the index, newest first, and none of the
    * pages left out is newer than one listed. */
  lemma {:induction false} RecentSpec(files: seq<DocFile>)
    ensures var r := Recent(files);
            |r| <= 20
            && (forall f :: f in r ==> f in files && f.name != IndexName)
            && (forall i, j :: 0 <= i < j < |r| ==> r[i].mtime >= r[j].mtime)
            && multiset(ByAge(files)) == multiset(Pages(files))
            && (forall i, j :: 0 <= i < |r| <= j < |ByAge(files)| ==> ByAge(files)[j].mtime <= r[i].mtime)
  {
    var sorted := ByAge(files);
    ByAgeSpec(files);
    var r := Recent(files);
    assert r == sorted[..|r|];
    forall f | f in r
      ensures f in files && f.name != IndexName
    {
      assert f in multiset(sorted);
      assert f in Pages(files);
    }
  }

  lemma {:induction false} EntriesOfStep(files: seq<DocFile>, i: nat)
    requires i < |files|
    ensures EntryOf(files[i]).Some? ==> EntriesOf(files[..i + 1]) == EntriesOf(files[..i]) + [EntryOf(files[i]).value]
    ensures EntryOf(files[i]).None? ==> EntriesOf(files[..i + 1]) == EntriesOf(files[..i])
  {
    assert files[..i + 1][..i] == files[..i];
    assert EntriesOf(files[..i]) + [] == EntriesOf(files[..i]);
  }

  /** Lines of a header, the entries, a blank line and a last line. */
  lemma {:induction false} LinesAroundEntries(header: seq<string>, entries: seq<string>, last: string)
    ensures Lines(header + entries + ["", last]) == Lines(header) + Lines(entries) + "\n" + last + "\n"
  {
    LinesAppend(header + entries, ["", last]);
    LinesAppend(header, entries);
    assert ["", last][..1] == [""] && [""][..0] == [];
    assert Lines(["", last]) == "\n" + last + "\n";
  }

  /** The entry lines of the pages, in the order given. */
  method IndexBody(recent: seq<DocFile>) returns (body: string)
    ensures body == Lines(EntriesOf(recent))
  {
    body := "";
    var i := 0;
    while i < |recent|
      invariant 0 <= i <= |recent|
      invariant body == Lines(EntriesOf(recent[..i]))
    {
      EntriesOfStep(recent, i);
      var entry := EntryOf(recent[i]);
      if entry.Some? {
        LinesSnoc(EntriesOf(recent[..i]), entry.value);
        body := body + entry.value + "\n";
      }
      i := i + 1;
    }
    assert recent[..|recent|] == recent;
  }

  /** `generate_index`: the header, an entry per recent page that has one,
    * and the footer. */
  method GenerateIndex(files: seq<DocFile>, now: string) returns (content: string)
    ensures content == IndexText(EntriesOf(Recent(files)), now)
  {
    var body := IndexBody(Recent(files));
    LinesAroundEntries(IndexHeader, EntriesOf(Recent(files)), FooterLine(now));
    content := Lines(IndexHeader) + body + "\n" + FooterLine(now) + "\n";
  }

  predicate PlainLine(line: string)
  {
    '\n' !in line && !StartsWith(line, HashKey)
  }

  lemma {:induction false} IndexTopPlain()
    ensures forall i :: 0 <= i < |IndexTop| ==> PlainLine(IndexTop[i])
  {
    forall i | 0 <= i < |IndexTop|
      ensures PlainLine(IndexTop[i])
    {
      var line := IndexTop[i];
      if |line| > 0 {
        assert line[0] != 'c';
      }
    }
  }

  lemma {:induction false} IndexIntroPlain()
    ensures forall i :: 0 <= i < |IndexIntro| ==> PlainLine(IndexIntro[i])
  {
    assert '\n' !in "This directory contains " && '\n' !in "automatically generated ";
    assert '\n' !in "documentation for each " && '\n' !in "commit to the main branch.";
    assert IndexIntro[0][0] == 'T' && IndexIntro[2][0] == '#';
  }

  lemma {:induction false} IndexHeaderPlain()
    ensures forall i :: 0 <= i < |IndexHeader| ==> PlainLine(IndexHeader[i])
  {
    IndexTopPlain();
    IndexIntroPlain();
    forall i | 0 <= i < |IndexHeader|
      ensures PlainLine(IndexHeader[i])
    {
      if i >= |IndexTop| {
        assert IndexHeader[i] == IndexIntro[i - |IndexTop|];
      }
    }
  }

  /** No line of the index is a `commit_hash:` line, so it has no hash. */
  lemma {:induction false} IndexHasNoHash(entries: seq<string>, now: string)
    requires forall i :: 0 <= i < |entries| ==> '\n' !in entries[i] && |entries[i]| > 0 && entries[i][0] == '-'
    requires '\n' !in now
    ensures HashOf(IndexText(entries, now)) == None
  {
    var ls := IndexHeader + entries + IndexFooter(now);
    IndexHeaderPlain();
    forall i | 0 <= i < |ls|
      ensures '\n' !in ls[i] && !StartsWith(ls[i], HashKey)
    {
      if i < |IndexHeader| {
        assert ls[i] == IndexHeader[i];
      } else if i < |IndexHeader| + |entries| {
        assert ls[i] == entries[i - |IndexHeader|];
        assert ls[i][0] != HashKey[0];
      } else if i == |IndexHeader| + |entries| {
        assert ls[i] == "";
      } else {
        var prefix := "*Documentation automatically generated on ";
        assert ls[i] == prefix + now + "*";
        assert '\n' !in prefix;
        assert ls[i][0] == prefix[0] == '*';
      }
    }
    SearchSkipsLines(ls, "", HashKey, false);
    assert Lines(ls) + "" == Lines(ls);
  }

  /** A file strictly newer than every other is the one `max` picks. */
  lemma {:induction false} NewestIsStrictlyNewest(files: seq<DocFile>, k: nat)
    requires k < |files|
    requires forall i :: 0 <= i < |files| && i != k ==> files[i].mtime < files[k].mtime
    ensures Newest(files) == k
  {
  }

  lemma {:induction false} PagesAppend(x: seq<DocFile>, y: seq<DocFile>)
    ensures Pages(x + y) == Pages(x) + Pages(y)
  {
    if x == [] {
      assert x + y == y;
    } else {
      PagesAppend(x[1..], y);
      assert (x + y)[1..] == x[1..] + y;
    }
  }

  lemma {:induction false} PagesOfPages(files: seq<DocFile>)
    requires forall i :: 0 <= i < |files| ==> files[i].name != IndexName
    ensures Pages(files) == files
  {
    if files != [] {
      PagesOfPages(files[1..]);
      assert files == [files[0]] + files[1..];
    }
  }

  /** The directory a run leaves: commit pages listed around the index, in
    * whatever order the directory lists them. */
  function WithIndex(before: seq<DocFile>, index: DocFile, after: seq<DocFile>): seq<DocFile>
  {
    before + [index] + after
  }

  /** As written, the lookup reads the index, which `run()` writes after every
    * page and which has no hash: the next run documents every commit again. */
  lemma {:induction false} AsWrittenReadsTheIndex(before: seq<DocFile>, after: seq<DocFile>, entries: seq<string>, now: string, mtime: int)
    requires forall i :: 0 <= i < |entries| ==> '\n' !in entries[i] && |entries[i]| > 0 && entries[i][0] == '-'
    requires '\n' !in now
    requires forall i :: 0 <= i < |before + after| ==> (before + after)[i].mtime < mtime
    ensures LatestDocumentedAsWritten(Some(WithIndex(before, DocFile(IndexName, mtime, IndexText(entries, now)), after))) == None
  {
    var index := DocFile(IndexName, mtime, IndexText(entries, now));
    var docs := WithIndex(before, index, after);
    forall i | 0 <= i < |docs| && i != |before|
      ensures docs[i].mtime < docs[|before|].mtime
    {
      if i < |before| {
        assert docs[i] == (before + after)[i];
      } else {
        assert docs[i] == (before + after)[i - 1];
      }
    }
    NewestIsStrictlyNewest(docs, |before|);
    IndexHasNoHash(entries, now);
  }

  /** Reading commit pages only, the lookup finds the hash of the newest
    * page, wherever the index is listed and whatever it holds. */
  lemma {:induction false} CorrectedReadsThePage(before: seq<DocFile>, index: DocFile, after: seq<DocFile>)
    requires |before + after| > 0
    requires forall i :: 0 <= i < |before + after| ==> (before + after)[i].name != IndexName
    requires index.name == IndexName
    ensures var pages := before + after;
            LatestDocumented(Some(WithIndex(before, index, after))) == HashOf(pages[Newest(pages)].content)
  {
    var pages := before + after;
    assert Pages([index]) == [] by {
      assert !IsPage(index) && [index][1..] == [];
    }
    PagesAppend(before + [index], after);
    PagesAppend(before, [index]);
    PagesAppend(before, after);
    PagesOfPages(pages);
    assert Pages(WithIndex(before, index, after)) == pages by {
      assert Pages(before + [index]) == Pages(before);
    }
  }

  /** So the next run starts after the commit the newest page documents. */
  lemma {:induction false} CorrectedFindsThePage(before: seq<DocFile>, index: DocFile, after: seq<DocFile>, k: nat,
                                                 c: Commit, message: string, files: string)
    requires forall i :: 0 <= i < |before + after| ==> (before + after)[i].name != IndexName
    requires index.name == IndexName
    requires k < |before + after|
    requires forall i :: 0 <= i < |before + after| && i != k ==> (before + after)[i].mtime < (before + after)[k].mtime
    requires (before + after)[k].content == PageText(c, message, files) && Readable(c)
    ensures LatestDocumented(Some(WithIndex(before, index, after))) == Some(c.hash)
  {
    CorrectedReadsThePage(before, index, after);
    NewestIsStrictlyNewest(before + after, k);
    PageHashRoundTrip(c, message, files);
  }

  /** The quoted title of the front matter reads back, whatever follows it. */
  lemma {:induction false} FrontMatterTitle(c: Commit, body: seq<string>)
    requires Readable(c) && c.title != ""
    ensures Search(Lines(FrontMatter(c) + body), TitleKey, true) == Some(c.title)
  {
    var fm := FrontMatter(c);
    var titleLine := TitleKey + (" \"" + c.title + "\"");
    assert fm[2] == titleLine;
    assert fm[0][0] == '-' && fm[1][0] == 'l';
    var pre := fm[..2];
    forall i | 0 <= i < 2
      ensures '\n' !in pre[i] && !StartsWith(pre[i], TitleKey)
    {
      assert pre[i][0] != TitleKey[0];
    }
    var post := fm[3..] + body;
    assert fm + body == pre + [titleLine] + post;
    QuotedCaptureOf(c.title, Lines(post));
    assert " \"" + c.title + "\"" + "\n" + Lines(post) == " \"" + c.title + "\"\n" + Lines(post);
    SearchFindsLine(pre, TitleKey, " \"" + c.title + "\"", post, true);
  }

  /** The date of the front matter reads back, whatever follows it. */
  lemma {:induction false} FrontMatterDate(c: Commit, body: seq<string>)
    requires Readable(c) && c.date != "" && !IsSpace(c.date[0], Python)
    ensures Search(Lines(FrontMatter(c) + body), DateKey, false) == Some(c.date)
  {
    var fm := FrontMatter(c);
    var dateLine := DateKey + (" " + c.date);
    assert fm[3] == dateLine;
    assert fm[0][0] == '-' && fm[1][0] == 'l' && fm[2][0] == 't';
    var pre := fm[..3];
    forall i | 0 <= i < 3
      ensures '\n' !in pre[i] && !StartsWith(pre[i], DateKey)
    {
      assert pre[i][0] != DateKey[0];
    }
    var post := fm[4..] + body;
    assert fm + body == pre + [dateLine] + post;
    PlainCaptureOf(c.date, Lines(post));
    SearchFindsLine(pre, DateKey, " " + c.date, post, false);
  }

  /** An index line built from the title and date a page's lines give. */
  lemma {:induction false} FrontMatterEntry(f: DocFile, c: Commit, day: string, time: string)
    requires Search(f.content, TitleKey, true) == Some(c.title)
    requires Search(f.content, DateKey, false) == Some(c.date)
    requires c.date == day + " " + time
    requires day != "" && forall i :: 0 <= i < |day| ==> !IsSpace(day[i], Python)
    ensures EntryOf(f) == Some("- [" + c.title + "](" + Stem(f.name) + "/) - " + day)
  {
    FirstWordOf(day, time);
  }

  /** So a page's index line shows its title and the first word of its
    * date, whatever the template writes below the front matter. */
  lemma {:induction false} PageEntry(f: DocFile, c: Commit, body: seq<string>, day: string, time: string)
    requires f.content == Lines(FrontMatter(c) + body) && Readable(c)
    requires c.title != "" && c.date == day + " " + time
    requires day != "" && forall i :: 0 <= i < |day| ==> !IsSpace(day[i], Python)
    ensures EntryOf(f) == Some("- [" + c.title + "](" + Stem(f.name) + "/) - " + day)
  {
    assert c.date[0] == day[0];
    FrontMatterTitle(c, body);
    FrontMatterDate(c, body);
    FrontMatterEntry(f, c, day, time);
  }
}
