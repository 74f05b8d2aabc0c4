/**
  * The pagination composable (`src/composables/usePagination.ts`): which meta
  * links are shown as page buttons, which clicks emit which events, and the
  * per-page selector that follows its prop.
  */
module Pagination {
  import opened Wrappers
  import opened Strings
  import opened Lists

  /** `url?: string | null`: absent, null, or a URL. */
  datatype LinkUrl = Absent | Null | Url(href: string)

  datatype MetaLink = MetaLink(url: LinkUrl, labelText: string, active: bool)

  datatype PageMeta = PageMeta(currentPage: int, lastPage: int, links: seq<MetaLink>)

  datatype PageLinks = PageLinks(first: Option<string>, last: Option<string>, prev: Option<string>, next: Option<string>)

  /** The events the component emits. */
  datatype Event =
    | ChangePage(url: string)
    | ChangePageNumber(page: int)
    | UpdatePerPage(value: int)
    | PerPageChange(perPage: int)

  /** A "Previous"/"Next" link, recognised by its lowercased label. */
  predicate IsStepLink(link: MetaLink)
  {
    Contains(ToLower(link.labelText), "previous") || Contains(ToLower(link.labelText), "next")
  }

  predicate IsNumberedLink(link: MetaLink)
  {
    !IsStepLink(link)
  }

  /** `filteredLinks`: the meta links without the step links, in order. */
  function FilteredLinks(links: seq<MetaLink>): (r: seq<MetaLink>)
    ensures forall l :: l in r <==> l in links && !IsStepLink(l)
    ensures SubsequenceOf(r, links)
  {
    Filter(links, IsNumberedLink)
  }

  /** `goTo(url)`: emits `change-page` only for a truthy url. */
  function GoTo(url: LinkUrl): (r: Option<Event>)
    ensures r.Some? <==> url.Url? && url.href != ""
    ensures r.Some? ==> r.value == ChangePage(url.href)
  {
    if url.Url? && url.href != "" then Some(ChangePage(url.href)) else None
  }

  // ------------------------------------------------------------- parseInt

  predicate IsHexDigit(c: char)
  {
    IsDigit(c) || 'a' <= c <= 'f' || 'A' <= c <= 'F'
  }

  function HexDigitValue(c: char): nat
    requires IsHexDigit(c)
  {
    if IsDigit(c) then c as int - '0' as int
    else if 'a' <= c <= 'f' then c as int - 'a' as int + 10
    else c as int - 'A' as int + 10
  }

  /** A digit of the radix: decimal, or hexadecimal after a `0x` prefix. */
  predicate IsRadixDigit(c: char, hex: bool)
  {
    if hex then IsHexDigit(c) else IsDigit(c)
  }

  /** Length of the longest prefix of `s` made of digits of the radix. */
  function DigitRun(s: string, hex: bool): (n: nat)
    ensures n <= |s|
    ensures forall i :: 0 <= i < n ==> IsRadixDigit(s[i], hex)
    ensures n < |s| ==> !IsRadixDigit(s[n], hex)
  {
    if |s| > 0 && IsRadixDigit(s[0], hex) then 1 + DigitRun(s[1..], hex) else 0
  }

  function RadixValue(s: string, hex: bool): nat
    requires forall i :: 0 <= i < |s| ==> IsRadixDigit(s[i], hex)
  {
    if |s| == 0 then 0
    else
      var last := s[|s| - 1];
      assert IsRadixDigit(last, hex);
      (if hex then 16 else 10) * RadixValue(s[..|s| - 1], hex)
        + (if hex then HexDigitValue(last) else last as int - '0' as int)
  }

  /** The value of the digits `v` starts with; None when it starts with none. */
  function Magnitude(v: string, hex: bool): Option<nat>
  {
    var n := DigitRun(v, hex);
    if n == 0 then None else Some(RadixValue(v[..n], hex))
  }

  /** `parseInt(s)` without a radix: leading whitespace, an optional sign, an
    * optional `0x` prefix selecting hexadecimal, then the longest run of digits;
    * None stands for `NaN` (no digit at all). */
  function ParseInt(s: string): Option<int>
  {
    var t := TrimStart(s, JavaScript);
    var negative := |t| > 0 && t[0] == '-';
    var u := if |t| > 0 && (t[0] == '-' || t[0] == '+') then t[1..] else t;
    var hex := |u| >= 2 && u[0] == '0' && (u[1] == 'x' || u[1] == 'X');
    var magnitude := Magnitude(if hex then u[2..] else u, hex);
    if magnitude.None? then None
    else var m: int := magnitude.value; Some(if negative then -m else m)
  }

  /** `goToPage(label)`: emits `change-page-number` only when the label parses. */
  function GoToPage(text: string): (r: Option<Event>)
    ensures r.Some? <==> ParseInt(text).Some?
    ensures r.Some? ==> r.value == ChangePageNumber(ParseInt(text).value)
  {
    var page := ParseInt(text);
    if page.Some? then Some(ChangePageNumber(page.value)) else None
  }

  /** A page number as the server renders it in a label is read back exactly. */
  lemma {:induction false} ParseRenderedPage(n: nat)
    ensures ParseInt(NatToString(n)) == Some(n)
    ensures GoToPage(NatToString(n)) == Some(ChangePageNumber(n))
  {
    DecimalParses(NatToString(n));
    NatToStringValue(n);
  }

  /** A non-empty run of decimal digits parses to its value. */
  lemma {:induction false} DecimalParses(s: string)
    requires |s| > 0 && forall i :: 0 <= i < |s| ==> IsDigit(s[i])
    ensures ParseInt(s) == Some(DigitsValue(s))
  {
    assert IsDigit(s[0]) && (|s| >= 2 ==> IsDigit(s[1]));
    assert TrimStart(s, JavaScript) == s;
    DecimalMagnitude(s);
  }

  lemma {:induction false} DecimalMagnitude(s: string)
    requires |s| > 0 && forall i :: 0 <= i < |s| ==> IsDigit(s[i])
    ensures Magnitude(s, false) == Some(DigitsValue(s))
  {
    AllDigitsRun(s);
    assert s[..|s|] == s;
    DecimalValue(s);
  }

  lemma {:induction false} AllDigitsRun(s: string)
    requires forall i :: 0 <= i < |s| ==> IsDigit(s[i])
    ensures DigitRun(s, false) == |s|
  {
    if |s| > 0 {
      AllDigitsRun(s[1..]);
    }
  }

  lemma {:induction false} DecimalValue(s: string)
    requires forall i :: 0 <= i < |s| ==> IsDigit(s[i])
    ensures RadixValue(s, false) == DigitsValue(s)
  {
    if |s| > 0 {
      DecimalValue(s[..|s| - 1]);
    }
  }

  /** A label opening with a character that is neither space, sign nor digit
    * does not parse. */
  lemma {:induction false} NoDigitNoPage(s: string)
    requires |s| > 0 && !IsSpace(s[0], JavaScript) && !IsDigit(s[0]) && s[0] != '-' && s[0] != '+'
    ensures GoToPage(s) == None
  {
    assert TrimStart(s, JavaScript) == s;
    assert DigitRun(s, false) == 0;
  }

  /** Ellipsis labels emit nothing when clicked. */
  lemma EllipsisEmitsNothing()
    ensures GoToPage("...") == None
    ensures GoToPage("\U{2026}") == None
  {
    NoDigitNoPage("...");
    NoDigitNoPage("\U{2026}");
  }

  /** `isEllipsis(link)` */
  predicate IsEllipsis(link: MetaLink)
  {
    (link.url == Null && link.labelText == "...") || Contains(link.labelText, "\U{2026}")
  }

  /** The per-page selector: `localPerPage` follows the prop and is what both
    * per-page events report. */
  class PerPageSelector {
    var localPerPage: int

    constructor(perPage: int)
      ensures localPerPage == perPage
    {
      localPerPage := perPage;
    }

    /** The `watch` on `props.perPage`. */
    method PropChanged(perPage: int)
      modifies this
      ensures localPerPage == perPage
    {
      localPerPage := perPage;
    }

    /** The user picks a value through `v-model`. */
    method Select(perPage: int)
      modifies this
      ensures localPerPage == perPage
    {
      localPerPage := perPage;
    }

    /** `onPerPageChange`: `update:perPage` then `per-page-change`, same value. */
    method OnPerPageChange() returns (events: seq<Event>)
      ensures events == [UpdatePerPage(localPerPage), PerPageChange(localPerPage)]
    {
      events := [UpdatePerPage(localPerPage), PerPageChange(localPerPage)];
    }
  }
}
