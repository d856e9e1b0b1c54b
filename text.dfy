/**
 * The part of Python's `str` behaviour the agent relies on: whitespace
 * stripping, ASCII case mapping, searching, splitting, joining, replacing,
 * and rendering and reading decimal numbers.
 */
module Text {
  import opened Wrappers
  import opened Sequences

  /** The characters `str.isspace()` accepts, hence the ones `strip()` and `split()` drop. */
  predicate IsSpace(c: char)
  {
    c == ' ' || c == '\t' || c == '\n' || c == '\r' || c == '\U{000B}' || c == '\U{000C}'
    || ('\U{001C}' <= c <= '\U{001F}') || c == '\U{0085}' || c == '\U{00A0}' || c == '\U{1680}'
    || ('\U{2000}' <= c <= '\U{200A}') || c == '\U{2028}' || c == '\U{2029}' || c == '\U{202F}'
    || c == '\U{205F}' || c == '\U{3000}'
  }

  /** The line boundaries `str.splitlines()` recognises (`\r\n` counts as one). */
  predicate IsLineBreak(c: char)
  {
    c == '\n' || c == '\r' || c == '\U{000B}' || c == '\U{000C}' || ('\U{001C}' <= c <= '\U{001E}')
    || c == '\U{0085}' || c == '\U{2028}' || c == '\U{2029}'
  }

  predicate AllSpace(s: string)
  {
    forall i :: 0 <= i < |s| ==> IsSpace(s[i])
  }

  /** `s.lstrip()`: drops the leading whitespace and nothing else. */
  function LStrip(s: string): (r: string)
    ensures |r| <= |s|
    ensures forall i :: 0 <= i < |s| - |r| ==> IsSpace(s[i])
    ensures r == [] || !IsSpace(r[0])
  {
    if |s| > 0 && IsSpace(s[0]) then LStrip(s[1..]) else s
  }

  /** What `lstrip()` keeps is the end of the string. */
  lemma {:induction false} LStripSuffix(s: string)
    ensures LStrip(s) == s[|s| - |LStrip(s)|..]
  {
    if |s| > 0 && IsSpace(s[0]) {
      LStripSuffix(s[1..]);
      assert s[1..][|s| - 1 - |LStrip(s)|..] == s[|s| - |LStrip(s)|..];
    }
  }

  /** `s.rstrip()`: drops the trailing whitespace and nothing else. */
  function RStrip(s: string): (r: string)
    ensures |r| <= |s| && r == s[..|r|]
    ensures forall i :: |r| <= i < |s| ==> IsSpace(s[i])
    ensures r == [] || !IsSpace(r[|r| - 1])
  {
    if |s| > 0 && IsSpace(s[|s| - 1]) then RStrip(s[..|s| - 1]) else s
  }

  /** `s.strip()`. */
  function Strip(s: string): (r: string)
    ensures r == [] || (!IsSpace(r[0]) && !IsSpace(r[|r| - 1]))
    ensures r == [] <==> AllSpace(s)
    ensures |r| <= |s|
  {
    var l := LStrip(s);
    var r := RStrip(l);
    assert l != [] ==> r != [] by {
      if l != [] {
        assert !IsSpace(l[0]);
      }
    }
    assert l != [] ==> !AllSpace(s) by {
      if l != [] {
        LStripSuffix(s);
        assert l[0] == s[|s| - |l|];
      }
    }
    r
  }

  /** A value that is blank in Python's sense: `not s.strip()`. */
  predicate IsBlank(s: string)
  {
    Strip(s) == []
  }

  lemma {:induction false} StripIdempotent(s: string)
    ensures Strip(Strip(s)) == Strip(s)
  {
    var t := Strip(s);
    if t != [] {
      assert LStrip(t) == t;
      assert RStrip(t) == t;
      assert Strip(t) == RStrip(LStrip(t));
    }
  }

  function LowerChar(c: char): char
  {
    if 'A' <= c <= 'Z' then (c as int + 32) as char else c
  }

  function UpperChar(c: char): char
  {
    if 'a' <= c <= 'z' then (c as int - 32) as char else c
  }

  /** `s.lower()` restricted to ASCII letters. */
  function Lower(s: string): (r: string)
    ensures |r| == |s| && forall i :: 0 <= i < |s| ==> r[i] == LowerChar(s[i])
  {
    seq(|s|, i requires 0 <= i < |s| => LowerChar(s[i]))
  }

  /** `s.upper()` restricted to ASCII letters. */
  function Upper(s: string): (r: string)
    ensures |r| == |s| && forall i :: 0 <= i < |s| ==> r[i] == UpperChar(s[i])
  {
    seq(|s|, i requires 0 <= i < |s| => UpperChar(s[i]))
  }

  lemma LowerIdempotent(s: string)
    ensures Lower(Lower(s)) == Lower(s)
  {
  }

  predicate StartsWith(s: string, prefix: string)
  {
    |prefix| <= |s| && s[..|prefix|] == prefix
  }

  predicate EndsWith(s: string, suffix: string)
  {
    |suffix| <= |s| && s[|s| - |suffix|..] == suffix
  }

  /** `sub` occurs in `s` starting at position `i`. */
  predicate OccursAt(s: string, sub: string, i: int)
  {
    0 <= i && i + |sub| <= |s| && s[i..i + |sub|] == sub
  }

  /** `sub in s`. */
  predicate Contains(s: string, sub: string)
  {
    exists i :: 0 <= i <= |s| - |sub| && OccursAt(s, sub, i)
  }

  /** `s.rsplit(c, 1)[0]`: everything before the last `c`, or the whole of `s` without one. */
  function BeforeLast(s: string, c: char): (r: string)
    ensures |r| <= |s|
  {
    if c !in s then s
    else if s[|s| - 1] == c then s[..|s| - 1]
    else BeforeLast(s[..|s| - 1], c)
  }

  /** Without `c`, nothing is cut. */
  lemma BeforeLastAbsent(s: string, c: char)
    requires c !in s
    ensures BeforeLast(s, c) == s
  {
  }

  /** What comes before the last `c` of `head + [c] + tail` is `head`, whatever `c`s `head` holds. */
  lemma {:induction false} BeforeLastOf(head: string, c: char, tail: string)
    requires c !in tail
    ensures BeforeLast(head + [c] + tail, c) == head
    decreases |tail|
  {
    var s := head + [c] + tail;
    assert s[|head|] == c;
    if tail == [] {
      assert s[..|s| - 1] == head;
    } else {
      var shorter := tail[..|tail| - 1];
      assert s[..|s| - 1] == head + [c] + shorter;
      assert s[|s| - 1] == tail[|tail| - 1];
      assert c !in shorter by {
        forall k | 0 <= k < |shorter| ensures shorter[k] != c {
          assert shorter[k] == tail[k];
        }
      }
      BeforeLastOf(head, c, shorter);
    }
  }

  /** A one-character string occurs only where its character does. */
  lemma AbsentChar(s: string, c: char)
    requires c !in s
    ensures !Contains(s, [c])
  {
    forall i | 0 <= i <= |s| - 1
      ensures !OccursAt(s, [c], i)
    {
      assert s[i..i + 1][0] == s[i];
    }
  }

  /** A lower-case tail shows up in the lower-cased whole. */
  lemma LowerTailContained(a: string, b: string)
    requires Lower(b) == b
    ensures Contains(Lower(a + b), b)
  {
    var l := Lower(a + b);
    assert forall k :: 0 <= k < |b| ==> l[|a| + k] == LowerChar(b[k]) == Lower(b)[k];
    assert l[|a|..|a| + |b|] == b;
    assert OccursAt(l, b, |a|);
  }

  /** A string none of whose characters lower-cases to the first one of `sub` does not contain it once lower-cased. */
  lemma LowerLacksFirst(s: string, sub: string)
    requires |sub| > 0 && forall c :: c in s ==> LowerChar(c) != sub[0]
    ensures !Contains(Lower(s), sub)
  {
    forall i | 0 <= i <= |s| - |sub|
      ensures !OccursAt(Lower(s), sub, i)
    {
      assert s[i] in s;
      assert Lower(s)[i..i + |sub|][0] == Lower(s)[i];
    }
  }

  lemma ContainsInPrefix(s: string, t: string, sub: string)
    requires Contains(s, sub)
    ensures Contains(s + t, sub)
  {
    var i :| 0 <= i <= |s| - |sub| && OccursAt(s, sub, i);
    assert (s + t)[i..i + |sub|] == sub;
    assert OccursAt(s + t, sub, i);
  }

  /** Position of the first `c` in `s`, or `|s|` when there is none. */
  function IndexOf(s: string, c: char): (i: nat)
    ensures i <= |s|
    ensures i < |s| ==> s[i] == c
    ensures forall j :: 0 <= j < i ==> s[j] != c
  {
    if |s| == 0 || s[0] == c then 0 else 1 + IndexOf(s[1..], c)
  }

  /** The first `c` in `x + [c] + y` is the one after `x` when `x` holds none. */
  lemma {:induction false} IndexOfAfter(x: string, c: char, y: string)
    requires c !in x
    ensures IndexOf(x + [c] + y, c) == |x|
    decreases |x|
  {
    var s := x + [c] + y;
    if x != [] {
      assert s[0] == x[0] && s[1..] == x[1..] + [c] + y;
      IndexOfAfter(x[1..], c, y);
    }
  }

  /** `s.split(sep)` for a one-character separator: never empty, no piece holds `sep`. */
  function Split(s: string, sep: char): (parts: seq<string>)
    ensures |parts| >= 1
    ensures forall k :: 0 <= k < |parts| ==> sep !in parts[k]
    decreases |s|
  {
    var i := IndexOf(s, sep);
    if i == |s| then [s] else [s[..i]] + Split(s[i + 1..], sep)
  }

  /** `sep.join(parts)`. */
  function Join(sep: string, parts: seq<string>): string
  {
    if |parts| == 0 then ""
    else if |parts| == 1 then parts[0]
    else parts[0] + sep + Join(sep, parts[1..])
  }

  /** Joining a first part onto a non-empty rest puts one separator between them. */
  lemma JoinCons(sep: string, first: string, rest: seq<string>)
    requires |rest| >= 1
    ensures Join(sep, [first] + rest) == first + sep + Join(sep, rest)
  {
    var parts := [first] + rest;
    assert parts[0] == first && parts[1..] == rest;
  }

  /** Splitting and joining back on the same separator gives the text back. */
  lemma {:induction false} JoinSplit(s: string, sep: char)
    ensures Join([sep], Split(s, sep)) == s
    decreases |s|
  {
    var i := IndexOf(s, sep);
    if i < |s| {
      var rest := s[i + 1..];
      var tail := Split(rest, sep);
      assert Split(s, sep) == [s[..i]] + tail;
      JoinSplit(rest, sep);
      JoinCons([sep], s[..i], tail);
      assert s == s[..i] + [sep] + rest by {
        assert s[i] == sep;
      }
    }
  }

  /** Splitting what was joined on a separator none of the parts holds gives the parts back. */
  lemma {:induction false} SplitJoin(parts: seq<string>, sep: char)
    requires |parts| >= 1
    requires forall k :: 0 <= k < |parts| ==> sep !in parts[k]
    ensures Split(Join([sep], parts), sep) == parts
    decreases |parts|
  {
    if |parts| > 1 {
      var rest := parts[1..];
      JoinCons([sep], parts[0], rest);
      IndexOfAfter(parts[0], sep, Join([sep], rest));
      var s := parts[0] + [sep] + Join([sep], rest);
      assert s[..|parts[0]|] == parts[0];
      assert s[|parts[0]| + 1..] == Join([sep], rest);
      SplitJoin(rest, sep);
      assert parts == [parts[0]] + rest;
    }
  }

  /** `t.strip()` when that is not empty. */
  function StrippedPart(t: string): Option<string>
  {
    if Strip(t) == [] then None else Some(Strip(t))
  }

  /** `[t.strip() for t in parts if t.strip()]`. */
  function NonBlankStripped(parts: seq<string>): (r: seq<string>)
    ensures forall t :: t in r ==> t != [] && t == Strip(t)
  {
    CollectMembers(parts, StrippedPart);
    forall t | t in Collect(parts, StrippedPart)
      ensures t != [] && t == Strip(t)
    {
      var i :| 0 <= i < |parts| && StrippedPart(parts[i]) == Some(t);
      StripIdempotent(parts[i]);
    }
    Collect(parts, StrippedPart)
  }

  /** Parts that are already stripped and non-blank pass through unchanged. */
  lemma NonBlankStrippedKeeps(parts: seq<string>)
    requires forall t :: t in parts ==> Trimmed(t)
    ensures NonBlankStripped(parts) == parts
  {
    CollectKeeps(parts, StrippedPart);
  }

  /** Non-blank and its own `strip()`. */
  predicate Trimmed(t: string)
  {
    t != [] && Strip(t) == t
  }

  lemma NonBlankStrippedSnoc(init: seq<string>, last: string)
    requires Trimmed(last)
    ensures NonBlankStripped(init + [last]) == NonBlankStripped(init) + [last]
  {
    CollectSnoc(init, last, StrippedPart);
  }

  /** Length of the longest prefix of `s` whose characters all satisfy `p`. */
  function RunLength(s: string, p: char -> bool): (n: nat)
    ensures n <= |s|
    ensures forall j :: 0 <= j < n ==> p(s[j])
    ensures n < |s| ==> !p(s[n])
  {
    if |s| > 0 && p(s[0]) then 1 + RunLength(s[1..], p) else 0
  }

  /** A run of `f`-characters followed by one that is not: the run is exactly its length. */
  lemma {:induction false} RunLengthOf(p: string, rest: string, f: char -> bool)
    requires forall i :: 0 <= i < |p| ==> f(p[i])
    requires rest == [] || !f(rest[0])
    ensures RunLength(p + rest, f) == |p|
    decreases |p|
  {
    if p == [] {
      assert p + rest == rest;
    } else {
      assert (p + rest)[0] == p[0] && (p + rest)[1..] == p[1..] + rest;
      RunLengthOf(p[1..], rest, f);
    }
  }

  /** The maximal runs of characters satisfying `p`, in order. */
  function Runs(s: string, p: char -> bool): (runs: seq<string>)
    ensures forall k :: 0 <= k < |runs| ==> |runs[k]| > 0
    ensures forall k, j :: 0 <= k < |runs| && 0 <= j < |runs[k]| ==> p(runs[k][j])
    decreases |s|
  {
    if |s| == 0 then []
    else if !p(s[0]) then Runs(s[1..], p)
    else
      var n := RunLength(s, p);
      [s[..n]] + Runs(s[n..], p)
  }

  /** `s.split()`: the whitespace-separated words. */
  function SplitWhitespace(s: string): (words: seq<string>)
    ensures forall k :: 0 <= k < |words| ==> |words[k]| > 0 && !IsBlank(words[k])
  {
    var words := Runs(s, c => !IsSpace(c));
    assert forall k :: 0 <= k < |words| ==> !AllSpace(words[k]) by {
      forall k | 0 <= k < |words| ensures !AllSpace(words[k]) {
        assert !IsSpace(words[k][0]);
      }
    }
    words
  }

  /** Position of the first line break in `s`, or `|s|`. */
  function LineEnd(s: string): (i: nat)
    ensures i <= |s|
    ensures i < |s| ==> IsLineBreak(s[i])
    ensures forall j :: 0 <= j < i ==> !IsLineBreak(s[j])
  {
    if |s| == 0 || IsLineBreak(s[0]) then 0 else 1 + LineEnd(s[1..])
  }

  /** `s.splitlines()`: no line holds a break, and a final break opens no empty line. */
  function SplitLines(s: string): (lines: seq<string>)
    ensures forall k, j :: 0 <= k < |lines| && 0 <= j < |lines[k]| ==> !IsLineBreak(lines[k][j])
    ensures s == [] <==> lines == []
    decreases |s|
  {
    if |s| == 0 then []
    else
      var i := LineEnd(s);
      if i == |s| then [s]
      else
        var skip := if s[i] == '\r' && i + 1 < |s| && s[i + 1] == '\n' then 2 else 1;
        [s[..i]] + SplitLines(s[i + skip..])
  }

  /** `s.replace(pat, rep)`: left to right, non-overlapping. */
  function Replace(s: string, pat: string, rep: string): (r: string)
    requires |pat| > 0
    decreases |s|
  {
    if |s| < |pat| then s
    else if s[..|pat|] == pat then rep + Replace(s[|pat|..], pat, rep)
    else [s[0]] + Replace(s[1..], pat, rep)
  }

  /** Replacing a one-character pattern leaves every other character in place and removes the pattern. */
  lemma {:induction false} ReplaceCharRemoves(s: string, c: char, rep: string)
    requires c !in rep
    ensures c !in Replace(s, [c], rep)
    decreases |s|
  {
    if |s| >= 1 {
      ReplaceCharRemoves(s[1..], c, rep);
    }
  }

  /** Replacing a one-character pattern rewrites its first occurrence and carries on after it. */
  lemma {:induction false} ReplaceCharFirst(s: string, c: char, rep: string)
    ensures var i := IndexOf(s, c);
      Replace(s, [c], rep) == s[..i] + (if i < |s| then rep + Replace(s[i + 1..], [c], rep) else [])
    decreases |s|
  {
    var i := IndexOf(s, c);
    if |s| == 0 {
    } else if s[0] == c {
      assert s[..1] == [c];
      assert Replace(s, [c], rep) == rep + Replace(s[1..], [c], rep);
    } else {
      assert s[..1] != [c];
      assert Replace(s, [c], rep) == [s[0]] + Replace(s[1..], [c], rep);
      ReplaceCharFirst(s[1..], c, rep);
      var t := s[1..];
      assert IndexOf(t, c) == i - 1;
      assert t[..i - 1] == s[1..i];
      if i < |s| {
        assert t[i..] == s[i + 1..];
      }
      assert [s[0]] + s[1..i] == s[..i];
    }
  }

  /** Replacing a pattern the text does not hold changes nothing. */
  lemma {:induction false} ReplaceAbsent(s: string, pat: string, rep: string)
    requires |pat| > 0 && !Contains(s, pat)
    ensures Replace(s, pat, rep) == s
    decreases |s|
  {
    if |s| >= |pat| {
      assert s[0..|pat|] == s[..|pat|];
      assert !OccursAt(s, pat, 0);
      assert !Contains(s[1..], pat) by {
        if Contains(s[1..], pat) {
          var i :| 0 <= i <= |s[1..]| - |pat| && OccursAt(s[1..], pat, i);
          assert s[i + 1..i + 1 + |pat|] == pat;
          assert OccursAt(s, pat, i + 1);
        }
      }
      ReplaceAbsent(s[1..], pat, rep);
    }
  }

  /** A text with no character that could begin the pattern comes through unchanged, up to the first occurrence. */
  lemma {:induction false} ReplaceAfterPlain(prefix: string, pat: string, rep: string, rest: string)
    requires |pat| > 0 && pat[0] !in prefix
    ensures Replace(prefix + pat + rest, pat, rep) == prefix + rep + Replace(rest, pat, rep)
    decreases |prefix|
  {
    var s := prefix + pat + rest;
    if prefix == [] {
      assert s == pat + rest && s[..|pat|] == pat && s[|pat|..] == rest;
    } else {
      assert s[0] == prefix[0] != pat[0];
      assert s[..|pat|] != pat;
      assert s[1..] == prefix[1..] + pat + rest;
      ReplaceAfterPlain(prefix[1..], pat, rep, rest);
      assert [prefix[0]] + (prefix[1..] + rep + Replace(rest, pat, rep)) == prefix + rep + Replace(rest, pat, rep);
    }
  }

  // ---------------------------------------------------------------------------
  // Reading quoted text: a result is the value read so far and the text after it

  /** Puts `p` in front of the value read, if reading succeeded. */
  function Prepend(p: string, r: Option<(string, string)>): Option<(string, string)>
  {
    match r
    case Some((v, rest)) => Some((p + v, rest))
    case None => None
  }

  lemma PrependPrepend(x: string, y: string, r: Option<(string, string)>)
    ensures Prepend(x, Prepend(y, r)) == Prepend(x + y, r)
  {
    match r {
      case None =>
      case Some((v, rest)) =>
        assert x + (y + v) == x + y + v;
    }
  }

  // ---------------------------------------------------------------------------
  // Decimal numbers

  predicate IsDigit(c: char)
  {
    '0' <= c <= '9'
  }

  predicate AllDigits(s: string)
  {
    forall i :: 0 <= i < |s| ==> IsDigit(s[i])
  }

  /** `s.isdigit()` over ASCII digits: non-empty and digits only. */
  predicate IsDigitString(s: string)
  {
    |s| > 0 && AllDigits(s)
  }

  function DigitChar(d: nat): (c: char)
    requires d < 10
    ensures IsDigit(c)
  {
    ('0' as int + d) as char
  }

  function DigitValue(c: char): (d: nat)
    requires IsDigit(c)
    ensures d < 10 && DigitChar(d) == c
  {
    c as int - '0' as int
  }

  /** The value of a string of decimal digits (the empty string reads as 0). */
  function DigitsValue(s: string): nat
    requires AllDigits(s)
  {
    if |s| == 0 then 0 else DigitsValue(s[..|s| - 1]) * 10 + DigitValue(s[|s| - 1])
  }

  /** `str(n)` for a natural number. */
  function NatToString(n: nat): (s: string)
    ensures IsDigitString(s)
    ensures s[0] == '0' ==> n == 0 && s == "0"
  {
    if n < 10 then [DigitChar(n)] else NatToString(n / 10) + [DigitChar(n % 10)]
  }

  lemma {:induction false} NatToStringValue(n: nat)
    ensures DigitsValue(NatToString(n)) == n
  {
    if n >= 10 {
      NatToStringValue(n / 10);
      var s := NatToString(n);
      assert s[..|s| - 1] == NatToString(n / 10);
    }
  }

  /** A character that is no digit occurs in `prefix + str(n)` only where it occurs in `prefix`. */
  lemma AbsentAfterNumber(prefix: string, n: nat, c: char)
    requires c !in prefix && !IsDigit(c)
    ensures c !in prefix + NatToString(n)
  {
    var s := prefix + NatToString(n);
    forall i | 0 <= i < |s|
      ensures s[i] != c
    {
      if i >= |prefix| {
        assert s[i] == NatToString(n)[i - |prefix|];
      }
    }
  }

  /** `str(i)` for an integer. */
  function IntToString(i: int): (s: string)
    ensures |s| > 0
  {
    if i < 0 then "-" + NatToString(-i) else NatToString(i)
  }

  /** Splits an optional leading sign off a number: whether it was `-`, and the rest. */
  function SignAndBody(t: string): (bool, string)
  {
    if |t| > 0 && (t[0] == '-' || t[0] == '+') then (t[0] == '-', t[1..]) else (false, t)
  }

  /** `int(s)`: surrounding whitespace, an optional sign, then decimal digits; `None` where Python raises. */
  function ParseInt(s: string): (r: Option<int>)
    ensures r.Some? ==> !IsBlank(s)
  {
    var (negative, body) := SignAndBody(Strip(s));
    if IsDigitString(body) then
      var v: int := DigitsValue(body);
      Some(if negative then -v else v)
    else None
  }

  /** A string that neither starts nor ends with whitespace is its own `strip()`. */
  lemma StripUntrimmed(s: string)
    requires |s| > 0 && !IsSpace(s[0]) && !IsSpace(s[|s| - 1])
    ensures Strip(s) == s
  {
    assert LStrip(s) == s;
    assert RStrip(s) == s;
  }

  lemma DigitIsNotSpace(c: char)
    requires IsDigit(c)
    ensures !IsSpace(c)
  {
  }

  /** What `int()` reads from a trimmed string once its sign and digits are known. */
  lemma ParseIntOfParts(s: string, negative: bool, body: string)
    requires Strip(s) == s && SignAndBody(s) == (negative, body) && IsDigitString(body)
    ensures ParseInt(s) == Some(if negative then -(DigitsValue(body) as int) else DigitsValue(body) as int)
  {
  }

  /** `int(str(n)) == n` for a natural number. */
  lemma ParseIntOfNatString(n: nat)
    ensures ParseInt(NatToString(n)) == Some(n)
  {
    var s := NatToString(n);
    NatToStringValue(n);
    DigitIsNotSpace(s[0]);
    DigitIsNotSpace(s[|s| - 1]);
    StripUntrimmed(s);
    assert SignAndBody(s) == (false, s);
  }

  /** A minus sign before digits is trimmed already and reads as a negative sign. */
  lemma NegatedDigitsTrimmed(body: string)
    requires IsDigitString(body)
    ensures Strip("-" + body) == "-" + body
    ensures SignAndBody("-" + body) == (true, body)
  {
    var s := "-" + body;
    assert s[1..] == body;
    assert s[|s| - 1] == body[|body| - 1];
    DigitIsNotSpace(body[|body| - 1]);
    StripUntrimmed(s);
  }

  /** `int("-" + str(n)) == -n` for a positive natural number. */
  lemma ParseIntOfNegatedString(n: nat)
    requires n > 0
    ensures ParseInt("-" + NatToString(n)) == Some(-(n as int))
  {
    NatToStringValue(n);
    ParseIntOfNegatedDigits(NatToString(n));
  }

  /** `int("-" + digits)` is the negated value of the digits. */
  lemma ParseIntOfNegatedDigits(body: string)
    requires IsDigitString(body)
    ensures ParseInt("-" + body) == Some(-(DigitsValue(body) as int))
  {
    NegatedDigitsTrimmed(body);
    ParseIntOfParts("-" + body, true, body);
  }

  /** `int(str(i)) == i`. */
  lemma ParseIntOfString(i: int)
    ensures ParseInt(IntToString(i)) == Some(i)
  {
    if i < 0 {
      var n: nat := -i;
      ParseIntOfNegatedString(n);
      assert IntToString(i) == "-" + NatToString(n);
    } else {
      ParseIntOfNatString(i);
    }
  }

  /** The value of the digits after a decimal point: `0.d1d2...`. */
  function FractionValue(fraction: string): (v: real)
    requires AllDigits(fraction)
    ensures 0.0 <= v <= 1.0
  {
    if |fraction| == 0 then 0.0 else (DigitValue(fraction[0]) as real + FractionValue(fraction[1..])) / 10.0
  }

  /** The value of `digits[.fraction]` where either part may be empty but not both. */
  function DecimalValue(whole: string, fraction: string): real
    requires AllDigits(whole) && AllDigits(fraction)
  {
    DigitsValue(whole) as real + FractionValue(fraction)
  }

  /** The value of unsigned decimal notation: digits with at most one point, at least one digit. */
  function ParseUnsignedReal(body: string): Option<real>
  {
    var point := IndexOf(body, '.');
    var whole := body[..point];
    var fraction := if point < |body| then body[point + 1..] else "";
    if |whole| + |fraction| > 0 && AllDigits(whole) && AllDigits(fraction) then
      Some(DecimalValue(whole, fraction))
    else None
  }

  /** `float(s)` for decimal notation: surrounding whitespace, an optional sign, digits with at most one point. */
  function ParseReal(s: string): (r: Option<real>)
    ensures r.Some? ==> !IsBlank(s)
  {
    var (negative, body) := SignAndBody(Strip(s));
    match ParseUnsignedReal(body)
    case Some(v) => Some(if negative then -v else v)
    case None => None
  }

  /** Every string `int()` accepts, `float()` accepts with the same value. */
  lemma ParseRealExtendsParseInt(s: string)
    requires ParseInt(s).Some?
    ensures ParseReal(s) == Some(ParseInt(s).value as real)
  {
    var (negative, body) := SignAndBody(Strip(s));
    assert IsDigitString(body);
    var point := IndexOf(body, '.');
    assert point == |body|;
    assert body[..point] == body;
    assert DecimalValue(body, "") == DigitsValue(body) as real;
  }
}
