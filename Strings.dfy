/**
  * Text primitives shared by the stores, the view logic and the two git-history
  * scripts: lexicographic order, whitespace of both runtimes, trimming, splitting,
  * joining, substring search and decimal rendering.
  */
module Strings {

  // ---------------------------------------------------------------- order

  /** `a` sorts strictly before `b` in code-point lexicographic order
    * (the order `localeCompare`, Python `<` and `Array.prototype.sort` use here). */
  predicate Less(a: string, b: string)
  {
    |b| > 0 && (|a| == 0 || a[0] < b[0] || (a[0] == b[0] && Less(a[1..], b[1..])))
  }

  lemma {:induction false} LessIrreflexive(a: string)
    ensures !Less(a, a)
  {
    if |a| > 0 {
      LessIrreflexive(a[1..]);
    }
  }

  lemma {:induction false} LessTransitive(a: string, b: string, c: string)
    requires Less(a, b) && Less(b, c)
    ensures Less(a, c)
  {
    if |a| > 0 && a[0] == b[0] && b[0] == c[0] {
      LessTransitive(a[1..], b[1..], c[1..]);
    }
  }

  /** Two different strings are always ordered one way or the other. */
  lemma {:induction false} LessTotal(a: string, b: string)
    requires a != b
    ensures Less(a, b) || Less(b, a)
  {
    if |a| > 0 && |b| > 0 && a[0] == b[0] {
      assert a == [a[0]] + a[1..] && b == [b[0]] + b[1..];
      LessTotal(a[1..], b[1..]);
    }
  }

  // ----------------------------------------------------------- whitespace

  datatype Runtime = Python | JavaScript

  /** Whitespace as Python's `str.isspace` (used by `strip`, `split()` and regex `\s`)
    * and as ECMAScript's WhiteSpace and LineTerminator (used by `trim`). */
  predicate IsSpace(c: char, rt: Runtime)
  {
    '\t' <= c <= '\r' || c == ' ' || c == '\U{A0}' || c == '\U{1680}'
    || '\U{2000}' <= c <= '\U{200A}' || c == '\U{2028}' || c == '\U{2029}'
    || c == '\U{202F}' || c == '\U{205F}' || c == '\U{3000}'
    || (rt == Python && ('\U{1C}' <= c <= '\U{1F}' || c == '\U{85}'))
    || (rt == JavaScript && c == '\U{FEFF}')
  }

  function TrimStart(s: string, rt: Runtime): (r: string)
    ensures |r| <= |s| && r == s[|s| - |r|..]
    ensures |r| > 0 ==> !IsSpace(r[0], rt)
  {
    if |s| > 0 && IsSpace(s[0], rt) then TrimStart(s[1..], rt) else s
  }

  function TrimEnd(s: string, rt: Runtime): (r: string)
    ensures |r| <= |s| && r == s[..|r|]
    ensures |r| > 0 ==> !IsSpace(r[|r| - 1], rt)
  {
    if |s| > 0 && IsSpace(s[|s| - 1], rt) then TrimEnd(s[..|s| - 1], rt) else s
  }

  /** Python `str.strip()` / JavaScript `String.prototype.trim`. */
  function Trim(s: string, rt: Runtime): string
  {
    TrimEnd(TrimStart(s, rt), rt)
  }

  function StripStart(s: string, c: char): (r: string)
    ensures |r| <= |s| && r == s[|s| - |r|..]
    ensures |r| > 0 ==> r[0] != c
  {
    if |s| > 0 && s[0] == c then StripStart(s[1..], c) else s
  }

  function StripEnd(s: string, c: char): (r: string)
    ensures |r| <= |s| && r == s[..|r|]
    ensures |r| > 0 ==> r[|r| - 1] != c
  {
    if |s| > 0 && s[|s| - 1] == c then StripEnd(s[..|s| - 1], c) else s
  }

  /** What `TrimStart` removes is whitespace. */
  lemma {:induction false} TrimStartRemovesSpace(s: string, rt: Runtime)
    ensures forall i :: 0 <= i < |s| - |TrimStart(s, rt)| ==> IsSpace(s[i], rt)
  {
    if |s| > 0 && IsSpace(s[0], rt) {
      TrimStartRemovesSpace(s[1..], rt);
      assert forall i :: 1 <= i < |s| ==> s[i] == s[1..][i - 1];
    }
  }

  /** What `TrimEnd` removes is whitespace. */
  lemma {:induction false} TrimEndRemovesSpace(s: string, rt: Runtime)
    ensures forall i :: |TrimEnd(s, rt)| <= i < |s| ==> IsSpace(s[i], rt)
  {
    if |s| > 0 && IsSpace(s[|s| - 1], rt) {
      TrimEndRemovesSpace(s[..|s| - 1], rt);
    }
  }

  /** Only blank text trims to nothing. */
  lemma {:induction false} TrimBlank(s: string, rt: Runtime)
    ensures Trim(s, rt) == [] <==> forall i :: 0 <= i < |s| ==> IsSpace(s[i], rt)
  {
    var t := TrimStart(s, rt);
    TrimStartRemovesSpace(s, rt);
    TrimEndRemovesSpace(t, rt);
    assert forall i :: 0 <= i < |t| ==> t[i] == s[|s| - |t| + i];
    assert Trim(s, rt) == [] ==> t == [] by {
      if t != [] {
        assert !IsSpace(t[0], rt);
      }
    }
  }

  /** Text that neither starts nor ends with a space is left as it is. */
  lemma {:induction false} TrimUntouched(s: string, rt: Runtime)
    requires |s| > 0 ==> !IsSpace(s[0], rt) && !IsSpace(s[|s| - 1], rt)
    ensures Trim(s, rt) == s
  {
  }

  /** Python `str.strip(c)` for a one-character argument. */
  function Strip(s: string, c: char): string
  {
    StripEnd(StripStart(s, c), c)
  }

  /** Text that neither starts nor ends with the character keeps it. */
  lemma {:induction false} StripUntouched(s: string, q: char)
    requires |s| > 0 ==> s[0] != q && s[|s| - 1] != q
    ensures Strip(s, q) == s
  {
  }

  /** `StripEnd` keeps the head of its input up to the last other character. */
  lemma {:induction false} StripEndRun(s: string, c: char)
    ensures var r := StripEnd(s, c);
            forall i :: 0 <= i < |r| ==> r[i] == s[i]
  {
    var r := StripEnd(s, c);
    forall i | 0 <= i < |r|
      ensures r[i] == s[i]
    {
      assert r[i] == s[..|r|][i];
    }
  }

  // ------------------------------------------------------------ searching

  predicate StartsWith(s: string, prefix: string)
  {
    |prefix| <= |s| && s[..|prefix|] == prefix
  }

  /** `s.includes(sub)` / Python `sub in s`. */
  predicate Contains(s: string, sub: string)
    decreases |s|
  {
    StartsWith(s, sub) || (|s| > 0 && Contains(s[1..], sub))
  }

  /** `sub` occurs in `s` exactly when some suffix of `s` starts with it. */
  lemma {:induction false} ContainsIff(s: string, sub: string)
    ensures Contains(s, sub) <==> exists k :: 0 <= k <= |s| && StartsWith(s[k..], sub)
    decreases |s|
  {
    assert s[0..] == s;
    if |s| > 0 {
      ContainsIff(s[1..], sub);
      if Contains(s, sub) && !StartsWith(s, sub) {
        var k :| 0 <= k <= |s| - 1 && StartsWith(s[1..][k..], sub);
        assert s[1..][k..] == s[k + 1..];
      }
      if (exists k :: 0 <= k <= |s| && StartsWith(s[k..], sub)) && !StartsWith(s, sub) {
        var k :| 0 <= k <= |s| && StartsWith(s[k..], sub);
        assert k != 0;
        assert s[1..][k - 1..] == s[k..];
      }
    }
  }

  /** A text contains whatever was put in its middle. */
  lemma {:induction false} ContainsMiddle(a: string, m: string, b: string)
    ensures Contains(a + m + b, m)
  {
    var s := a + m + b;
    assert s[|a|..] == m + b;
    assert (m + b)[..|m|] == m;
    ContainsIff(s, m);
  }

  /** Position of the first `c` in `s`, or `|s|` when there is none. */
  function IndexOfChar(s: string, c: char): (k: nat)
    ensures k <= |s|
    ensures k < |s| ==> s[k] == c
    ensures forall j :: 0 <= j < k ==> s[j] != c
  {
    if |s| == 0 then 0 else if s[0] == c then 0 else 1 + IndexOfChar(s[1..], c)
  }

  function ToLowerChar(c: char): char
  {
    if 'A' <= c <= 'Z' then (c as int + 32) as char else c
  }

  /** `toLowerCase`, restricted to the ASCII letters. */
  function ToLower(s: string): string
  {
    seq(|s|, i requires 0 <= i < |s| => ToLowerChar(s[i]))
  }

  lemma {:induction false} ToLowerKeepsLower(s: string)
    requires forall i :: 0 <= i < |s| ==> !('A' <= s[i] <= 'Z')
    ensures ToLower(s) == s
  {
  }

  // ---------------------------------------------------- splitting, joining

  /** `s.split(sep)` in both runtimes: every separator cuts, so there are
    * (number of separators + 1) parts. */
  function Split(s: string, sep: char): (parts: seq<string>)
    ensures |parts| >= 1
    ensures sep in s ==> |parts| >= 2
    ensures forall i :: 0 <= i < |parts| ==> sep !in parts[i]
  {
    if |s| == 0 then [""]
    else if s[0] == sep then [""] + Split(s[1..], sep)
    else
      assert s == [s[0]] + s[1..];
      var rest := Split(s[1..], sep); [[s[0]] + rest[0]] + rest[1..]
  }

  /** Python `s.split(sep, maxsplit)`: only the first `maxsplit` separators cut. */
  function SplitMax(s: string, sep: char, maxsplit: nat): (parts: seq<string>)
    ensures 1 <= |parts| <= maxsplit + 1
  {
    if |s| == 0 then [""]
    else if s[0] == sep && maxsplit > 0 then [""] + SplitMax(s[1..], sep, maxsplit - 1)
    else var rest := SplitMax(s[1..], sep, maxsplit); [[s[0]] + rest[0]] + rest[1..]
  }

  /** `parts.join(sep)` / Python `sep.join(parts)`. */
  function Join(parts: seq<string>, sep: string): string
  {
    if |parts| == 0 then ""
    else if |parts| == 1 then parts[0]
    else parts[0] + sep + Join(parts[1..], sep)
  }

  lemma {:induction false} JoinTwo(a: string, b: string, sep: string)
    ensures Join([a, b], sep) == a + sep + b
  {
    assert [a, b][1..] == [b];
  }

  /** Splitting and joining back with the same separator gives the text back. */
  lemma {:induction false} SplitJoin(s: string, sep: char)
    ensures Join(Split(s, sep), [sep]) == s
  {
    if |s| > 0 {
      var rest := Split(s[1..], sep);
      SplitJoin(s[1..], sep);
      if s[0] == sep {
        assert Split(s, sep) == [""] + rest;
        assert Join(Split(s, sep), [sep]) == "" + [sep] + Join(rest, [sep]);
        assert s == [s[0]] + s[1..];
      } else {
        var parts := [[s[0]] + rest[0]] + rest[1..];
        assert Split(s, sep) == parts;
        if |rest| == 1 {
          assert Join(parts, [sep]) == [s[0]] + rest[0];
        } else {
          assert parts[1..] == rest[1..];
          assert Join(parts, [sep]) == [s[0]] + rest[0] + [sep] + Join(rest[1..], [sep]);
          assert Join(rest, [sep]) == rest[0] + [sep] + Join(rest[1..], [sep]);
        }
        assert s == [s[0]] + s[1..];
      }
    }
  }

  /** Text free of the separator is one part. */
  lemma {:induction false} SplitWhole(s: string, sep: char)
    requires sep !in s
    ensures Split(s, sep) == [s]
  {
    if |s| > 0 {
      SplitWhole(s[1..], sep);
      assert s == [s[0]] + s[1..];
    }
  }

  /** A field free of the separator, then the separator, comes back as the first part. */
  lemma {:induction false} SplitField(field: string, sep: char, rest: string)
    requires sep !in field
    ensures Split(field + [sep] + rest, sep) == [field] + Split(rest, sep)
  {
    if |field| == 0 {
      assert field + [sep] + rest == [sep] + rest;
      assert ([sep] + rest)[1..] == rest;
    } else {
      var s := field + [sep] + rest;
      assert s[0] == field[0] && s[1..] == field[1..] + [sep] + rest;
      SplitField(field[1..], sep, rest);
      assert [field[0]] + field[1..] == field;
    }
  }

  /** Joining parts free of the separator and splitting again gives the parts. */
  lemma {:induction false} SplitOfJoin(parts: seq<string>, sep: char)
    requires |parts| >= 1 && forall i :: 0 <= i < |parts| ==> sep !in parts[i]
    ensures Split(Join(parts, [sep]), sep) == parts
  {
    if |parts| == 1 {
      SplitWhole(parts[0], sep);
    } else {
      SplitOfJoin(parts[1..], sep);
      SplitField(parts[0], sep, Join(parts[1..], [sep]));
      assert [parts[0]] + parts[1..] == parts;
    }
  }

  /** With no separator left to cut, the text is one part. */
  lemma {:induction false} SplitMaxZero(s: string, sep: char)
    ensures SplitMax(s, sep, 0) == [s]
  {
    if |s| > 0 {
      SplitMaxZero(s[1..], sep);
      assert s == [s[0]] + s[1..];
    }
  }

  /** Text free of the separator is never cut. */
  lemma {:induction false} SplitMaxWhole(s: string, sep: char, maxsplit: nat)
    requires sep !in s
    ensures SplitMax(s, sep, maxsplit) == [s]
  {
    if |s| > 0 {
      SplitMaxWhole(s[1..], sep, maxsplit);
      assert s == [s[0]] + s[1..];
    }
  }

  /** A field free of the separator comes back whole as the first part. */
  lemma {:induction false} SplitMaxField(field: string, sep: char, rest: string, maxsplit: nat)
    requires sep !in field
    ensures SplitMax(field + [sep] + rest, sep, maxsplit + 1) == [field] + SplitMax(rest, sep, maxsplit)
  {
    if |field| == 0 {
      assert field + [sep] + rest == [sep] + rest;
      assert ([sep] + rest)[1..] == rest;
    } else {
      var s := field + [sep] + rest;
      assert s[0] == field[0] && s[1..] == field[1..] + [sep] + rest;
      SplitMaxField(field[1..], sep, rest, maxsplit);
      assert [field[0]] + field[1..] == field;
    }
  }

  /** Python `s[:n]` / JavaScript `s.substring(0, n)`. */
  function Take(s: string, n: nat): (r: string)
    ensures |r| <= n && |r| <= |s| && r == s[..|r|]
    ensures |s| >= n ==> |r| == n
  {
    if |s| <= n then s else s[..n]
  }

  // -------------------------------------------------------------- numbers

  function DigitChar(d: nat): char
    requires d < 10
  {
    ('0' as int + d) as char
  }

  predicate IsDigit(c: char)
  {
    '0' <= c <= '9'
  }

  /** Decimal rendering of a natural number, as template literals and f-strings print it. */
  function NatToString(n: nat): (r: string)
    ensures |r| >= 1
    ensures forall i :: 0 <= i < |r| ==> IsDigit(r[i])
  {
    if n < 10 then [DigitChar(n)] else NatToString(n / 10) + [DigitChar(n % 10)]
  }

  function IntToString(i: int): string
  {
    if i < 0 then "-" + NatToString(-i) else NatToString(i)
  }

  /** Value of a string of decimal digits. */
  function DigitsValue(s: string): nat
    requires forall i :: 0 <= i < |s| ==> IsDigit(s[i])
  {
    if |s| == 0 then 0
    else
      assert IsDigit(s[|s| - 1]);
      10 * DigitsValue(s[..|s| - 1]) + (s[|s| - 1] as int - '0' as int)
  }

  /** Reading back a rendered number gives the number. */
  lemma {:induction false} NatToStringValue(n: nat)
    ensures DigitsValue(NatToString(n)) == n
  {
    if n >= 10 {
      var r := NatToString(n);
      NatToStringValue(n / 10);
      assert r[..|r| - 1] == NatToString(n / 10);
    }
  }
}
