/** The pieces of Python's `str` behaviour the scripts rely on: whitespace as
    `str.isspace` (and the `\s` class of a `str` pattern) defines it, `strip`,
    `split`, `join`, `lower`, `int()`, `str(int)` and the code-point order that
    `sorted` uses on strings. */
module Strings {
  import opened Wrappers

  /** The characters `str.isspace()` accepts, which are also what `\s` matches
      in a `str` pattern and what `str.strip()` removes. */
  predicate IsSpace(c: char)
  {
    ('\t' <= c <= '\r') || ('\U{1C}' <= c <= ' ') || c == '\U{85}' || c == '\U{A0}'
    || c == '\U{1680}' || ('\U{2000}' <= c <= '\U{200A}') || c == '\U{2028}' || c == '\U{2029}'
    || c == '\U{202F}' || c == '\U{205F}' || c == '\U{3000}'
  }

  /** `s.lstrip()`: the suffix of `s` left after its leading whitespace. */
  function LStrip(s: string): (r: string)
    ensures |r| <= |s| && r == s[|s| - |r|..]
    ensures |r| > 0 ==> !IsSpace(r[0])
  {
    if |s| > 0 && IsSpace(s[0]) then LStrip(s[1..]) else s
  }

  /** `s.rstrip()`: the prefix of `s` left before its trailing whitespace. */
  function RStrip(s: string): (r: string)
    ensures |r| <= |s| && r == s[..|r|]
    ensures |r| > 0 ==> !IsSpace(r[|r| - 1])
  {
    if |s| > 0 && IsSpace(s[|s| - 1]) then RStrip(s[..|s| - 1]) else s
  }

  /** `s.strip()`. */
  function Strip(s: string): string
  {
    RStrip(LStrip(s))
  }

  /** `s.strip(c)` for a single character `c`. */
  function StripChar(s: string, c: char): (r: string)
    ensures |r| <= |s|
    ensures |r| > 0 ==> r[0] != c && r[|r| - 1] != c
    ensures TrimmedOf(s, c, r)
  {
    if |s| > 0 && s[0] == c then
      var r := StripChar(s[1..], c);
      TrimmedFront(s, c, r);
      r
    else if |s| > 0 && s[|s| - 1] == c then
      var r := StripChar(s[..|s| - 1], c);
      TrimmedBack(s, c, r);
      r
    else
      TrimmedNothing(s, c);
      s
  }

  /** `r` is the slice `s[i..j]` of `s`, and every character of `s` outside
      it is `c`. */
  predicate TrimmedOf(s: string, c: char, r: string)
  {
    exists i, j :: (0 <= i <= j <= |s| && r == s[i..j]
                    && (forall k :: 0 <= k < i ==> s[k] == c) && (forall k :: j <= k < |s| ==> s[k] == c))
  }

  lemma TrimmedFront(s: string, c: char, r: string)
    requires |s| > 0 && s[0] == c && TrimmedOf(s[1..], c, r)
    ensures TrimmedOf(s, c, r)
  {
    var i, j :| (0 <= i <= j <= |s[1..]| && r == s[1..][i..j]
                 && (forall k :: 0 <= k < i ==> s[1..][k] == c) && (forall k :: j <= k < |s[1..]| ==> s[1..][k] == c));
    ShiftDrop(s, i, j);
    assert r == s[i + 1..j + 1];
  }

  lemma TrimmedBack(s: string, c: char, r: string)
    requires |s| > 0 && s[|s| - 1] == c && TrimmedOf(s[..|s| - 1], c, r)
    ensures TrimmedOf(s, c, r)
  {
    var t := s[..|s| - 1];
    var i, j :| (0 <= i <= j <= |t| && r == t[i..j]
                 && (forall k :: 0 <= k < i ==> t[k] == c) && (forall k :: j <= k < |t| ==> t[k] == c));
    ShiftTake(s, i, j);
    assert r == s[i..j];
  }

  lemma TrimmedNothing(s: string, c: char)
    ensures TrimmedOf(s, c, s)
  {
    assert s == s[0..|s|];
  }

  lemma {:induction false} StripUnspaced(s: string)
    requires |s| > 0 ==> !IsSpace(s[0]) && !IsSpace(s[|s| - 1])
    ensures Strip(s) == s
  {
  }

  /** `rstrip` keeps a first character that is not whitespace. */
  lemma {:induction false} RStripKeepsFirst(s: string)
    requires |s| > 0 && !IsSpace(s[0])
    ensures |RStrip(s)| > 0 && RStrip(s)[0] == s[0]
    decreases |s|
  {
    if IsSpace(s[|s| - 1]) {
      RStripKeepsFirst(s[..|s| - 1]);
    }
  }

  /** `strip` keeps a first character that is not whitespace. */
  lemma StripKeepsFirst(s: string)
    requires |s| > 0 && !IsSpace(s[0])
    ensures |Strip(s)| > 0 && Strip(s)[0] == s[0]
  {
    assert LStrip(s) == s;
    RStripKeepsFirst(s);
  }

  predicate StartsWith(s: string, p: string)
  {
    |p| <= |s| && s[..|p|] == p
  }

  predicate IsDigit(c: char)
  {
    '0' <= c <= '9'
  }

  /** Every character of `s` is a decimal digit (`s` may be empty). */
  predicate Digits(s: string)
  {
    |s| == 0 || (Digits(s[..|s| - 1]) && IsDigit(s[|s| - 1]))
  }

  /** `re.match(r'^[0-9]+$', s)`. */
  predicate AllDigits(s: string)
  {
    |s| > 0 && Digits(s)
  }

  /** The first character of a string of digits is a digit. */
  lemma {:induction false} DigitsFirst(s: string)
    ensures |s| > 0 && Digits(s) ==> IsDigit(s[0])
    decreases |s|
  {
    if |s| > 1 && Digits(s) {
      DigitsFirst(s[..|s| - 1]);
    }
  }

  /** Membership of the character class `[A-Za-z0-9_]`. */
  predicate IsIdentChar(c: char)
  {
    ('A' <= c <= 'Z') || ('a' <= c <= 'z') || IsDigit(c) || c == '_'
  }

  /** A word character for the `\b` assertion (ASCII letters, digits and `_`). */
  predicate IsWordChar(c: char)
  {
    IsIdentChar(c)
  }

  /** Every character of `s` is in `[A-Za-z0-9_]` (`s` may be empty). */
  predicate IdentChars(s: string)
  {
    |s| == 0 || (IsIdentChar(s[0]) && IdentChars(s[1..]))
  }

  /** The length of the longest prefix of `s` matched by `[A-Za-z0-9_]*`. */
  function IdentLen(s: string): (n: nat)
    ensures n <= |s|
    ensures IdentChars(s[..n])
    ensures n < |s| ==> !IsIdentChar(s[n])
  {
    if |s| > 0 && IsIdentChar(s[0]) then
      var n := 1 + IdentLen(s[1..]);
      assert s[..n][1..] == s[1..][..n - 1];
      n
    else 0
  }

  /** `re.match(r'^kw\b', s)` for a keyword `kw` made of word characters. */
  predicate KeywordAt(s: string, kw: string)
  {
    StartsWith(s, kw) && (|s| == |kw| || !IsWordChar(s[|kw|]))
  }

  /** Index of the first `c` in `s`, or `|s|` when there is none. */
  function IndexOf(s: string, c: char): (r: nat)
    ensures r <= |s|
    ensures forall i :: 0 <= i < r ==> s[i] != c
    ensures r < |s| ==> s[r] == c
    ensures r == |s| <==> c !in s
  {
    if |s| == 0 then 0 else if s[0] == c then 0 else 1 + IndexOf(s[1..], c)
  }

  /** `s.split(c)`: the pieces between occurrences of `c`, always at least one. */
  function Split(s: string, c: char): (r: seq<string>)
    ensures |r| >= 1
    ensures forall k :: 0 <= k < |r| ==> c !in r[k]
    decreases |s|
  {
    var i := IndexOf(s, c);
    if i == |s| then [s] else [s[..i]] + Split(s[i + 1..], c)
  }

  /** `c.join(parts)`. */
  function Join(parts: seq<string>, c: char): string
  {
    if |parts| == 0 then ""
    else if |parts| == 1 then parts[0]
    else parts[0] + [c] + Join(parts[1..], c)
  }

  /** Splitting re-joined pieces gives the pieces back when none of them
      holds the separator. */
  lemma {:induction false} SplitJoin(parts: seq<string>, c: char)
    requires |parts| >= 1
    requires forall k :: 0 <= k < |parts| ==> c !in parts[k]
    ensures Split(Join(parts, c), c) == parts
  {
    if |parts| == 1 {
      assert IndexOf(parts[0], c) == |parts[0]|;
    } else {
      var s := Join(parts, c);
      var tail := Join(parts[1..], c);
      assert s == parts[0] + [c] + tail;
      IndexOfAfter(parts[0], c, tail);
      assert s[..|parts[0]|] == parts[0];
      assert s[|parts[0]| + 1..] == tail;
      SplitJoin(parts[1..], c);
    }
  }

  /** Cutting at the first `c`: a part without `c`, then a rest that is
      empty or starts with `c`. */
  lemma CutAt(s: string, c: char)
    ensures s == s[..IndexOf(s, c)] + s[IndexOf(s, c)..]
    ensures c !in s[..IndexOf(s, c)]
    ensures s[IndexOf(s, c)..] == "" || s[IndexOf(s, c)..][0] == c
  {
  }

  /** Stripping adds no character. */
  lemma StripKeepsOut(s: string, c: char)
    requires c !in s
    ensures c !in Strip(s)
  {
    var l := LStrip(s);
    assert forall k :: 0 <= k < |l| ==> l[k] == s[|s| - |l| + k];
    var r := RStrip(l);
    assert forall k :: 0 <= k < |r| ==> r[k] == l[k];
  }

  lemma {:induction false} IndexOfAfter(a: string, c: char, b: string)
    requires c !in a
    ensures IndexOf(a + [c] + b, c) == |a|
  {
    var s := a + [c] + b;
    assert s[|a|] == c;
    assert forall i :: 0 <= i < |a| ==> s[i] == a[i];
  }

  /** Joining the pieces of a split gives the text back. */
  lemma {:induction false} JoinSplit(s: string, c: char)
    ensures Join(Split(s, c), c) == s
    decreases |s|
  {
    var i := IndexOf(s, c);
    if i < |s| {
      var rest := s[i + 1..];
      var pieces := Split(rest, c);
      JoinSplit(rest, c);
      var all := [s[..i]] + pieces;
      assert Split(s, c) == all;
      assert |all| >= 2 && all[0] == s[..i] && all[1..] == pieces;
      assert Join(all, c) == s[..i] + [c] + rest;
      assert s == s[..i] + [c] + rest;
    }
  }

  /** The line boundaries of `str.splitlines()`: `\n`, `\v`, `\f`, `\r`,
      `\x1c`-`\x1e`, `\x85`, `\u2028` and `\u2029` (`\r\n` counts as one). */
  predicate IsLineBreak(c: char)
  {
    ('\n' <= c <= '\r') || ('\U{1C}' <= c <= '\U{1E}') || c == '\U{85}' || c == '\U{2028}' || c == '\U{2029}'
  }

  /** `s` holds no line boundary. */
  predicate NoLineBreak(s: string)
  {
    forall k :: 0 <= k < |s| ==> !IsLineBreak(s[k])
  }

  /** Index of the first line boundary in `s`, or `|s|` when there is none. */
  function BreakIndex(s: string): (r: nat)
    ensures r <= |s|
    ensures forall k :: 0 <= k < r ==> !IsLineBreak(s[k])
    ensures r < |s| ==> IsLineBreak(s[r])
  {
    if |s| == 0 then 0 else if IsLineBreak(s[0]) then 0 else 1 + BreakIndex(s[1..])
  }

  /** `s.splitlines()`: the lines without their boundaries; a boundary at the
      very end does not start another line. */
  function SplitLines(s: string): (r: seq<string>)
    ensures forall k :: 0 <= k < |r| ==> NoLineBreak(r[k])
    decreases |s|
  {
    if |s| == 0 then []
    else
      var i := BreakIndex(s);
      if i == |s| then [s]
      else
        var next := if s[i] == '\r' && i + 1 < |s| && s[i + 1] == '\n' then i + 2 else i + 1;
        [s[..i]] + SplitLines(s[next..])
  }

  /** `"\n".join(lines) + "\n"`: the text of a file written line by line. */
  function JoinLines(lines: seq<string>): string
  {
    Join(lines, '\n') + "\n"
  }

  lemma {:induction false} BreakIndexAfter(a: string, b: char, rest: string)
    requires NoLineBreak(a) && IsLineBreak(b)
    ensures BreakIndex(a + [b] + rest) == |a|
    decreases |a|
  {
    var s := a + [b] + rest;
    if |a| > 0 {
      assert s[1..] == a[1..] + [b] + rest;
      BreakIndexAfter(a[1..], b, rest);
    } else {
      assert s[0] == b;
    }
  }

  /** Lines without boundaries, joined with `\n` and ended by one more `\n`,
      split back into the same lines. */
  lemma {:induction false} SplitLinesOfJoin(lines: seq<string>)
    requires |lines| > 0
    requires forall k :: 0 <= k < |lines| ==> NoLineBreak(lines[k])
    ensures SplitLines(JoinLines(lines)) == lines
    decreases |lines|
  {
    JoinedText(lines);
    if |lines| == 1 {
      SplitLinesCons(lines[0], "");
    } else {
      var rest := JoinLines(lines[1..]);
      SplitLinesCons(lines[0], rest);
      SplitLinesOfJoin(lines[1..]);
      calc {
        SplitLines(JoinLines(lines));
        SplitLines(lines[0] + ['\n'] + rest);
        [lines[0]] + SplitLines(rest);
        [lines[0]] + lines[1..];
        lines;
      }
    }
  }

  lemma JoinedText(lines: seq<string>)
    requires |lines| > 0
    ensures JoinLines(lines) == lines[0] + ['\n'] + (if |lines| == 1 then "" else JoinLines(lines[1..]))
  {
  }

  /** A boundary-free first line and its `\n` split off as one line. */
  lemma SplitLinesCons(a: string, rest: string)
    requires NoLineBreak(a)
    ensures SplitLines(a + ['\n'] + rest) == [a] + SplitLines(rest)
  {
    var s := a + ['\n'] + rest;
    BreakIndexAfter(a, '\n', rest);
    assert s[..|a|] == a && s[|a| + 1..] == rest;
  }

  /** A string made of boundary-free pieces and a separator that is not a
      boundary has no boundary. */
  lemma {:induction false} NoLineBreakJoin(parts: seq<string>, c: char)
    requires !IsLineBreak(c)
    requires forall k :: 0 <= k < |parts| ==> NoLineBreak(parts[k])
    ensures NoLineBreak(Join(parts, c))
    decreases |parts|
  {
    if |parts| > 1 {
      NoLineBreakJoin(parts[1..], c);
      NoLineBreakConcat(parts[0], [c]);
      NoLineBreakConcat(parts[0] + [c], Join(parts[1..], c));
    }
  }

  lemma NoLineBreakConcat(a: string, b: string)
    requires NoLineBreak(a) && NoLineBreak(b)
    ensures NoLineBreak(a + b)
  {
    forall k | 0 <= k < |a + b|
      ensures !IsLineBreak((a + b)[k])
    {
      if k >= |a| {
        assert (a + b)[k] == b[k - |a|];
      }
    }
  }

  /** No line of `lines` holds a line boundary. */
  predicate LinesUnbroken(lines: seq<string>)
  {
    forall k :: 0 <= k < |lines| ==> NoLineBreak(lines[k])
  }

  lemma LinesUnbrokenConcat(a: seq<string>, b: seq<string>)
    requires LinesUnbroken(a) && LinesUnbroken(b)
    ensures LinesUnbroken(a + b)
  {
    forall k | 0 <= k < |a + b|
      ensures NoLineBreak((a + b)[k])
    {
      if k >= |a| {
        assert (a + b)[k] == b[k - |a|];
      }
    }
  }

  lemma NoLineBreakSlice(s: string, a: nat, b: nat)
    requires NoLineBreak(s) && a <= b <= |s|
    ensures NoLineBreak(s[a..b])
  {
    forall k | 0 <= k < b - a
      ensures !IsLineBreak(s[a..b][k])
    {
      assert s[a..b][k] == s[a + k];
    }
  }

  /** Stripping whitespace adds no line boundary. */
  lemma NoLineBreakStrip(s: string)
    requires NoLineBreak(s)
    ensures NoLineBreak(LStrip(s)) && NoLineBreak(Strip(s))
  {
    var l := LStrip(s);
    NoLineBreakSlice(s, |s| - |l|, |s|);
    assert l == s[|s| - |l|..|s|];
    var r := RStrip(l);
    NoLineBreakSlice(l, 0, |r|);
    assert r == l[0..|r|];
  }

  /** An identifier holds no line boundary. */
  lemma {:induction false} IdentNoLineBreak(s: string)
    requires IdentChars(s)
    ensures NoLineBreak(s)
    decreases |s|
  {
    if |s| > 0 {
      IdentNoLineBreak(s[1..]);
      forall k | 1 <= k < |s|
        ensures !IsLineBreak(s[k])
      {
        assert s[k] == s[1..][k - 1];
      }
    }
  }

  function DigitValue(c: char): nat
    requires IsDigit(c)
  {
    (c as int) - ('0' as int)
  }

  function DigitChar(d: nat): (c: char)
    requires d < 10
    ensures IsDigit(c) && DigitValue(c) == d
  {
    (('0' as int) + d) as char
  }

  /** The value of a string of decimal digits, most significant first. */
  function DigitsValue(s: string): nat
    requires Digits(s)
  {
    if |s| == 0 then 0 else 10 * DigitsValue(s[..|s| - 1]) + DigitValue(s[|s| - 1])
  }

  /** `str(n)` for a natural number: its shortest decimal spelling. */
  function NatToString(n: nat): (r: string)
    ensures AllDigits(r) && IsDigit(r[0])
    ensures |r| > 1 ==> r[0] != '0'
  {
    if n < 10 then [DigitChar(n)]
    else
      var r := NatToString(n / 10) + [DigitChar(n % 10)];
      assert r[..|r| - 1] == NatToString(n / 10);
      r
  }

  lemma {:induction false} NatToStringValue(n: nat)
    ensures DigitsValue(NatToString(n)) == n
  {
    if n >= 10 {
      var s := NatToString(n);
      NatToStringValue(n / 10);
      assert s[..|s| - 1] == NatToString(n / 10);
    }
  }

  /** `str(n)` for an integer. */
  function IntToString(n: int): (r: string)
    ensures |r| > 0 && !IsSpace(r[0]) && !IsSpace(r[|r| - 1])
  {
    if n < 0 then "-" + NatToString(-n) else NatToString(n)
  }

  /** `int(s)`: surrounding whitespace, an optional sign and at least one
      decimal digit. */
  function ParseInt(s: string): Option<int>
  {
    var t := Strip(s);
    var negative := |t| > 0 && t[0] == '-';
    var digits := if |t| > 0 && (t[0] == '-' || t[0] == '+') then t[1..] else t;
    if AllDigits(digits) then
      var v: int := DigitsValue(digits);
      Some(if negative then -v else v)
    else None
  }

  /** `int(str(n)) == n`. */
  lemma ParseIntOfIntToString(n: int)
    ensures ParseInt(IntToString(n)) == Some(n)
  {
    if n < 0 {
      ParseIntOfNegative(n);
    } else {
      ParseIntOfNat(n);
    }
  }

  lemma ParseIntOfNat(n: int)
    requires n >= 0
    ensures ParseInt(IntToString(n)) == Some(n)
  {
    var s := IntToString(n);
    StripUnspaced(s);
    assert s[0] != '-' && s[0] != '+';
    NatToStringValue(n);
  }

  lemma ParseIntOfNegative(n: int)
    requires n < 0
    ensures ParseInt(IntToString(n)) == Some(n)
  {
    var m: nat := -n;
    var digits := NatToString(m);
    var s := IntToString(n);
    assert s == "-" + digits;
    assert s[1..] == digits;
    StripUnspaced(s);
    ParseIntMinus(s, digits);
    NatToStringValue(m);
  }

  lemma ParseIntMinus(s: string, digits: string)
    requires Strip(s) == "-" + digits && AllDigits(digits)
    ensures ParseInt(s) == Some(-(DigitsValue(digits) as int))
  {
    var t := Strip(s);
    assert t[0] == '-' && t[1..] == digits;
  }

  /** `int()` rejects a word that starts with neither a sign nor a digit. */
  lemma ParseIntNonNumeric(s: string)
    requires |s| > 0 && !IsSpace(s[0]) && !IsSpace(s[|s| - 1])
    requires !IsDigit(s[0]) && s[0] != '-' && s[0] != '+'
    ensures ParseInt(s) == None
  {
    StripUnspaced(s);
    DigitsFirst(s);
  }

  function LowerChar(c: char): char
  {
    if 'A' <= c <= 'Z' then (c as int - 'A' as int + 'a' as int) as char else c
  }

  /** `s.lower()` on ASCII letters. */
  function Lower(s: string): (r: string)
    ensures |r| == |s|
    ensures forall i :: 0 <= i < |s| ==> r[i] == LowerChar(s[i])
  {
    if |s| == 0 then "" else [LowerChar(s[0])] + Lower(s[1..])
  }

  /** `s.replace(a, b)` for single characters `a` and `b`. */
  function ReplaceChar(s: string, a: char, b: char): (r: string)
    ensures |r| == |s|
    ensures forall i :: 0 <= i < |s| ==> r[i] == (if s[i] == a then b else s[i])
  {
    if |s| == 0 then "" else [if s[0] == a then b else s[0]] + ReplaceChar(s[1..], a, b)
  }

  /** Code-point lexicographic order, Python's `<` on `str`. */
  predicate Less(a: string, b: string)
  {
    if |a| == 0 then |b| > 0
    else if |b| == 0 then false
    else if a[0] != b[0] then a[0] < b[0]
    else Less(a[1..], b[1..])
  }

  lemma {:induction false} LessIrreflexive(a: string)
    ensures !Less(a, a)
  {
    if |a| > 0 {
      LessIrreflexive(a[1..]);
    }
  }

  lemma {:induction false} LessTransitive(a: string, b: string, c: string)
    requires Less(a, b) && Less(b, c)
    ensures Less(a, c)
  {
    if |a| > 0 && |b| > 0 && |c| > 0 && a[0] == b[0] && b[0] == c[0] {
      LessTransitive(a[1..], b[1..], c[1..]);
    }
  }

  lemma {:induction false} LessTotal(a: string, b: string)
    requires a != b
    ensures Less(a, b) || Less(b, a)
  {
    if |a| > 0 && |b| > 0 && a[0] == b[0] {
      assert a == [a[0]] + a[1..] && b == [b[0]] + b[1..];
      LessTotal(a[1..], b[1..]);
    }
  }

  /** `m` is the least element of `s` under `Less`. */
  predicate IsLeast(m: string, s: set<string>)
  {
    m in s && forall y :: y in s && y != m ==> Less(m, y)
  }

  /** Every non-empty set of strings has a least element. */
  lemma {:induction false} LeastExists(s: set<string>)
    requires s != {}
    ensures exists m :: IsLeast(m, s)
    decreases |s|
  {
    var x :| x in s;
    var rest := s - {x};
    if rest == {} {
      forall y | y in s
        ensures y == x
      {
        assert y !in rest;
      }
      assert IsLeast(x, s);
    } else {
      LeastExists(rest);
      var m :| IsLeast(m, rest);
      if Less(x, m) {
        forall y | y in s && y != x
          ensures Less(x, y)
        {
          if y != m {
            assert y in rest;
            LessTransitive(x, m, y);
          }
        }
        assert IsLeast(x, s);
      } else {
        LessTotal(x, m);
        forall y | y in s && y != m
          ensures Less(m, y)
        {
          if y != x {
            assert y in rest;
          }
        }
        assert IsLeast(m, s);
      }
    }
  }

  // Proof steps for the verifier, modelling nothing of the source: facts
  // about slices stated on their own so that proofs above stay small.

  lemma ShiftDrop<T>(s: seq<T>, i: nat, j: nat)
    requires |s| > 0 && i <= j <= |s| - 1
    ensures s[1..][i..j] == s[i + 1..j + 1]
    ensures forall k :: 0 <= k < |s| - 1 ==> s[1..][k] == s[k + 1]
  {
  }

  lemma ShiftTake<T>(s: seq<T>, i: nat, j: nat)
    requires |s| > 0 && i <= j <= |s| - 1
    ensures s[..|s| - 1][i..j] == s[i..j]
    ensures forall k :: 0 <= k < |s| - 1 ==> s[..|s| - 1][k] == s[k]
  {
  }
}
