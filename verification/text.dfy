/** The JavaScript string operations the core relies on, as pure functions
    over `seq<char>`, with the facts about them that the prompt and session
    proofs use. */
module Text {

  /** `t` occurs in `s` starting at index `i`. */
  predicate At(s: string, i: int, t: string) {
    0 <= i && i + |t| <= |s| && s[i..i + |t|] == t
  }

  /** `s.includes(t)`. */
  predicate Contains(s: string, t: string) {
    exists i | 0 <= i <= |s| - |t| :: At(s, i, t)
  }

  /** An occurrence at a known index is a witness for `Contains`. */
  lemma AtContains(s: string, i: int, t: string)
    requires At(s, i, t)
    ensures Contains(s, t)
  {
  }

  /** A string occurs at the start of any extension of it. */
  lemma AtPrefix(a: string, b: string)
    ensures At(a + b, 0, a)
  {
    assert (a + b)[..|a|] == a;
  }

  /** A string occurs at the end of any extension of it on the left. */
  lemma AtSuffix(a: string, b: string)
    ensures At(a + b, |a|, b)
  {
    assert (a + b)[|a|..|a| + |b|] == b;
  }

  /** An occurrence in `b` is an occurrence in `a + b`, shifted by `|a|`. */
  lemma AtShift(a: string, b: string, i: int, t: string)
    requires At(b, i, t)
    ensures At(a + b, |a| + i, t)
  {
    assert (a + b)[|a| + i..|a| + i + |t|] == b[i..i + |t|];
  }

  /** An occurrence inside an occurrence is an occurrence of the outer string. */
  lemma AtWithin(s: string, i: int, m: string, j: int, t: string)
    requires At(s, i, m)
    requires At(m, j, t)
    ensures At(s, i + j, t)
  {
    forall k | 0 <= k < |t|
      ensures s[i + j + k] == t[k]
    {
      assert t[k] == m[j + k];
      assert m[j + k] == s[i..i + |m|][j + k];
    }
  }

  /** Two occurrences that touch form an occurrence of their concatenation. */
  lemma AtAdjacent(s: string, i: int, a: string, b: string)
    requires At(s, i, a)
    requires At(s, i + |a|, b)
    ensures At(s, i, a + b)
  {
    assert s[i..i + |a| + |b|] == s[i..i + |a|] + s[i + |a|..i + |a| + |b|];
  }

  // ---------------------------------------------------------------------
  // Concatenation of a list of fragments, with the offset of each fragment.
  // ---------------------------------------------------------------------

  /** The fragments written one after another. */
  function Concat(fs: seq<string>): string {
    if |fs| == 0 then "" else fs[0] + Concat(fs[1..])
  }

  /** Where fragment `k` starts in `Concat(fs)`: the total length of the
      fragments before it. */
  function Offset(fs: seq<string>, k: nat): nat
    requires k <= |fs|
  {
    if k == 0 then 0 else |fs[0]| + Offset(fs[1..], k - 1)
  }

  /** Fragment `k` occurs in `Concat(fs)` at `Offset(fs, k)`. */
  lemma {:induction false} ConcatAt(fs: seq<string>, k: nat)
    requires k < |fs|
    ensures At(Concat(fs), Offset(fs, k), fs[k])
  {
    if k == 0 {
      AtPrefix(fs[0], Concat(fs[1..]));
    } else {
      ConcatAt(fs[1..], k - 1);
      AtShift(fs[0], Concat(fs[1..]), Offset(fs[1..], k - 1), fs[k]);
    }
  }

  /** Each fragment starts where the one before it ends. */
  lemma {:induction false} OffsetNext(fs: seq<string>, k: nat)
    requires k < |fs|
    ensures Offset(fs, k + 1) == Offset(fs, k) + |fs[k]|
  {
    if k > 0 {
      OffsetNext(fs[1..], k - 1);
    }
  }

  /** Fragments appear in list order, without overlapping. */
  lemma {:induction false} OffsetOrder(fs: seq<string>, k: nat, m: nat)
    requires k < m <= |fs|
    ensures Offset(fs, k) + |fs[k]| <= Offset(fs, m)
  {
    if k > 0 {
      OffsetOrder(fs[1..], k - 1, m - 1);
    } else if m > 1 {
      OffsetOrder(fs[1..], 0, m - 1);
    }
  }

  // ---------------------------------------------------------------------
  // Positions in a list of fragments whose elements are themselves
  // concatenations of fragments.
  // ---------------------------------------------------------------------

  /** Fragment `k` of element `n` sits in the whole text at the sum of the
      two offsets. */
  lemma NestedAt(ss: seq<string>, n: nat, parts: seq<string>, k: nat)
    requires n < |ss| && k < |parts| && ss[n] == Concat(parts)
    ensures At(Concat(ss), Offset(ss, n) + Offset(parts, k), parts[k])
  {
    ConcatAt(ss, n);
    ConcatAt(parts, k);
    AtWithin(Concat(ss), Offset(ss, n), ss[n], Offset(parts, k), parts[k]);
  }

  /** Fragments `k` to `k + j` of element `n`, written one after another. */
  function Run(parts: seq<string>, k: nat, j: nat): string
    requires k + j < |parts|
  {
    if j == 0 then parts[k] else Run(parts, k, j - 1) + parts[k + j]
  }

  /** A run of consecutive fragments of element `n` sits in the whole text,
      unbroken, at the position of its first fragment. */
  lemma {:induction false} NestedRunAt(ss: seq<string>, n: nat, parts: seq<string>, k: nat, j: nat)
    requires n < |ss| && k + j < |parts| && ss[n] == Concat(parts)
    ensures At(Concat(ss), Offset(ss, n) + Offset(parts, k), Run(parts, k, j))
  {
    if j == 0 {
      NestedAt(ss, n, parts, k);
    } else {
      NestedRunAt(ss, n, parts, k, j - 1);
      NestedAt(ss, n, parts, k + j);
      RunLength(parts, k, j - 1);
      AtAdjacent(Concat(ss), Offset(ss, n) + Offset(parts, k), Run(parts, k, j - 1), parts[k + j]);
    }
  }

  lemma {:induction false} RunLength(parts: seq<string>, k: nat, j: nat)
    requires k + j < |parts|
    ensures Offset(parts, k) + |Run(parts, k, j)| == Offset(parts, k + j + 1)
  {
    OffsetNext(parts, k + j);
    if j > 0 {
      RunLength(parts, k, j - 1);
    }
  }

  /** The whole of a list of fragments ends where its last fragment ends. */
  lemma {:induction false} OffsetEnd(fs: seq<string>)
    ensures Offset(fs, |fs|) == |Concat(fs)|
  {
    if |fs| > 0 {
      OffsetEnd(fs[1..]);
    }
  }

  /** Fragment `k1` of element `n1` ends at or before fragment `k2` of
      element `n2` starts, when it comes earlier in reading order. */
  lemma NestedOrder(ss: seq<string>, n1: nat, parts1: seq<string>, k1: nat,
                    n2: nat, parts2: seq<string>, k2: nat)
    requires n1 < |ss| && k1 < |parts1| && ss[n1] == Concat(parts1)
    requires n2 < |ss| && k2 < |parts2| && ss[n2] == Concat(parts2)
    requires n1 < n2 || (n1 == n2 && parts1 == parts2 && k1 < k2)
    ensures Offset(ss, n1) + Offset(parts1, k1) + |parts1[k1]| <= Offset(ss, n2) + Offset(parts2, k2)
  {
    if n1 == n2 {
      OffsetOrder(parts1, k1, k2);
    } else {
      OffsetNext(parts1, k1);
      if k1 + 1 < |parts1| {
        OffsetOrder(parts1, k1 + 1, |parts1|);
      }
      OffsetEnd(parts1);
      OffsetOrder(ss, n1, n2);
    }
  }

  // ---------------------------------------------------------------------
  // Array.prototype.join
  // ---------------------------------------------------------------------

  /** `lines.join(sep)`: the lines with `sep` between neighbours; the empty
      list joins to the empty string. */
  function Join(lines: seq<string>, sep: string): string {
    if |lines| == 0 then ""
    else if |lines| == 1 then lines[0]
    else lines[0] + sep + Join(lines[1..], sep)
  }

  /** Where line `i` starts in `Join(lines, sep)`: the lines before it, each
      followed by one separator. */
  function JoinOffset(lines: seq<string>, sep: string, i: nat): nat
    requires i <= |lines|
  {
    if i == 0 then 0 else |lines[0]| + |sep| + JoinOffset(lines[1..], sep, i - 1)
  }

  /** Every line occurs in the joined text at its offset. */
  lemma {:induction false} JoinAt(lines: seq<string>, sep: string, i: nat)
    requires i < |lines|
    ensures At(Join(lines, sep), JoinOffset(lines, sep, i), lines[i])
  {
    if |lines| == 1 {
      assert Join(lines, sep)[..|lines[0]|] == lines[0];
    } else if i == 0 {
      AtPrefix(lines[0], sep + Join(lines[1..], sep));
      assert lines[0] + sep + Join(lines[1..], sep) == lines[0] + (sep + Join(lines[1..], sep));
    } else {
      JoinAt(lines[1..], sep, i - 1);
      AtShift(lines[0] + sep, Join(lines[1..], sep), JoinOffset(lines[1..], sep, i - 1), lines[i]);
    }
  }

  /** Where the joined text occurs inside a larger one, so do its lines,
      each but the last followed by the separator and then the next line. */
  lemma JoinEmbedded(s: string, base: nat, lines: seq<string>, sep: string, i: nat)
    requires At(s, base, Join(lines, sep)) && i < |lines|
    ensures At(s, base + JoinOffset(lines, sep, i), lines[i])
    ensures i + 1 < |lines| ==>
      && At(s, base + JoinOffset(lines, sep, i) + |lines[i]|, sep)
      && JoinOffset(lines, sep, i + 1) == JoinOffset(lines, sep, i) + |lines[i]| + |sep|
  {
    JoinAt(lines, sep, i);
    AtWithin(s, base, Join(lines, sep), JoinOffset(lines, sep, i), lines[i]);
    if i + 1 < |lines| {
      JoinSepAt(lines, sep, i);
      JoinOffsetNext(lines, sep, i);
      AtWithin(s, base, Join(lines, sep), JoinOffset(lines, sep, i) + |lines[i]|, sep);
    }
  }

  /** The joined text ends where its last line ends. */
  lemma {:induction false} JoinLength(lines: seq<string>, sep: string)
    requires |lines| > 0
    ensures |Join(lines, sep)| == JoinOffset(lines, sep, |lines| - 1) + |lines[|lines| - 1]|
  {
    if |lines| > 1 {
      var rest := lines[1..];
      JoinLength(rest, sep);
      assert rest[|rest| - 1] == lines[|lines| - 1];
      assert |Join(lines, sep)| == |lines[0]| + |sep| + |Join(rest, sep)|;
      assert JoinOffset(lines, sep, |lines| - 1) == |lines[0]| + |sep| + JoinOffset(rest, sep, |rest| - 1);
    }
  }

  /** Consecutive lines are exactly one separator apart. */
  lemma {:induction false} JoinOffsetNext(lines: seq<string>, sep: string, i: nat)
    requires i + 1 < |lines|
    ensures JoinOffset(lines, sep, i + 1) == JoinOffset(lines, sep, i) + |lines[i]| + |sep|
  {
    if i > 0 {
      JoinOffsetNext(lines[1..], sep, i - 1);
    }
  }

  /** The separator occurs right after every line but the last. */
  lemma {:induction false} JoinSepAt(lines: seq<string>, sep: string, i: nat)
    requires i + 1 < |lines|
    ensures At(Join(lines, sep), JoinOffset(lines, sep, i) + |lines[i]|, sep)
  {
    var rest := Join(lines[1..], sep);
    if i == 0 {
      AtPrefix(sep, rest);
      AtShift(lines[0], sep + rest, 0, sep);
      assert lines[0] + sep + rest == lines[0] + (sep + rest);
    } else {
      JoinSepAt(lines[1..], sep, i - 1);
      AtShift(lines[0] + sep, rest, JoinOffset(lines[1..], sep, i - 1) + |lines[i]|, sep);
    }
  }

  // ---------------------------------------------------------------------
  // String.prototype.replace(/\n/g, ' ')
  // ---------------------------------------------------------------------

  /** Every line feed replaced by one space. */
  function FlattenNewlines(s: string): (r: string)
    ensures |r| == |s|
    ensures forall i :: 0 <= i < |s| ==> r[i] == (if s[i] == '\n' then ' ' else s[i])
  {
    if |s| == 0 then ""
    else [if s[0] == '\n' then ' ' else s[0]] + FlattenNewlines(s[1..])
  }

  /** The result holds no line feed, and a text without line feeds is left as
      it is. */
  lemma FlattenNewlinesFacts(s: string)
    ensures '\n' !in FlattenNewlines(s)
    ensures '\n' !in s <==> FlattenNewlines(s) == s
  {
    var r := FlattenNewlines(s);
    if '\n' in s {
      var i :| 0 <= i < |s| && s[i] == '\n';
      assert r[i] != s[i];
    }
  }

  // ---------------------------------------------------------------------
  // String.prototype.trim
  // ---------------------------------------------------------------------

  /** ECMAScript WhiteSpace and LineTerminator code points: what `trim`
      removes. */
  predicate IsJsSpace(c: char) {
    || ('\t' <= c <= '\r')              // tab, line feed, vertical tab, form feed, carriage return
    || c == ' ' || c == '\U{A0}' || c == '\U{1680}'
    || ('\U{2000}' <= c <= '\U{200A}')
    || c == '\U{2028}' || c == '\U{2029}' || c == '\U{202F}' || c == '\U{205F}'
    || c == '\U{3000}' || c == '\U{FEFF}'
  }

  predicate AllSpace(s: string) {
    forall i :: 0 <= i < |s| ==> IsJsSpace(s[i])
  }

  /** How many white-space characters `s` starts with. */
  function LeadingSpaces(s: string): (n: nat)
    ensures n <= |s|
    ensures forall i :: 0 <= i < n ==> IsJsSpace(s[i])
    ensures n == |s| || !IsJsSpace(s[n])
  {
    if |s| > 0 && IsJsSpace(s[0]) then
      var m := LeadingSpaces(s[1..]);
      assert forall i :: 1 <= i < m + 1 ==> s[i] == s[1..][i - 1];
      m + 1
    else 0
  }

  /** How many white-space characters `s` ends with. */
  function TrailingSpaces(s: string): (n: nat)
    ensures n <= |s|
    ensures forall i :: |s| - n <= i < |s| ==> IsJsSpace(s[i])
    ensures n == |s| || !IsJsSpace(s[|s| - n - 1])
  {
    if |s| > 0 && IsJsSpace(s[|s| - 1]) then
      var m := TrailingSpaces(s[..|s| - 1]);
      assert forall i :: |s| - 1 - m <= i < |s| - 1 ==> s[i] == s[..|s| - 1][i];
      m + 1
    else 0
  }

  /** `s.trim()`: the stretch of `s` left after removing white space at both
      ends. Everything removed is white space, and what is left neither
      starts nor ends with white space. */
  function Trim(s: string): (r: string)
    ensures var a := LeadingSpaces(s);
      && a + |r| <= |s| && r == s[a..a + |r|]
      && (forall i :: 0 <= i < a ==> IsJsSpace(s[i]))
      && (forall i :: a + |r| <= i < |s| ==> IsJsSpace(s[i]))
    ensures |r| == 0 || (!IsJsSpace(r[0]) && !IsJsSpace(r[|r| - 1]))
  {
    var a := LeadingSpaces(s);
    var t := s[a..];
    var n := TrailingSpaces(t);
    assert forall i :: a + |t| - n <= i < |s| ==> s[i] == t[i - a];
    s[a..|s| - n]
  }

  /** `s.trim()` is empty exactly when `s` is nothing but white space. */
  lemma TrimEmptyIff(s: string)
    ensures Trim(s) == "" <==> AllSpace(s)
  {
    var r := Trim(s);
    var a := LeadingSpaces(s);
    if r != "" {
      assert s[a] == r[0];
    }
  }

  /** Trimming twice is trimming once. */
  lemma TrimIdempotent(s: string)
    ensures Trim(Trim(s)) == Trim(s)
  {
    var r := Trim(s);
    var r2 := Trim(r);
    if |r| > 0 {
      assert LeadingSpaces(r) == 0;
      assert |r2| == |r|;
    }
  }

  // ---------------------------------------------------------------------
  // Number to decimal text, as a template literal renders a natural number
  // ---------------------------------------------------------------------

  function DigitChar(d: nat): (c: char)
    requires d < 10
    ensures '0' <= c <= '9' && DigitValue(c) == d
  {
    ('0' as int + d) as char
  }

  function DigitValue(c: char): nat {
    if '0' <= c <= '9' then (c as int - '0' as int) as nat else 0
  }

  /** The decimal rendering of `n`, without leading zeros. */
  function Decimal(n: nat): (r: string)
    ensures |r| >= 1
    ensures forall i :: 0 <= i < |r| ==> '0' <= r[i] <= '9'
    ensures r[0] == '0' ==> n == 0
  {
    if n < 10 then [DigitChar(n)] else Decimal(n / 10) + [DigitChar(n % 10)]
  }

  /** Reads a string of decimal digits back into a number. */
  function ParseDecimal(s: string): nat {
    if |s| == 0 then 0 else 10 * ParseDecimal(s[..|s| - 1]) + DigitValue(s[|s| - 1])
  }

  /** Reading back the decimal rendering gives the number again, so distinct
      panel numbers are rendered differently. */
  lemma {:induction false} DecimalRoundTrip(n: nat)
    ensures ParseDecimal(Decimal(n)) == n
  {
    var r := Decimal(n);
    if n >= 10 {
      DecimalRoundTrip(n / 10);
      assert r[..|r| - 1] == Decimal(n / 10);
      assert r[|r| - 1] == DigitChar(n % 10);
    }
  }
}
