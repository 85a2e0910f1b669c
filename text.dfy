/**
 * The string operations of Python that the core relies on: `strip`,
 * `lower`/`upper`, `split`, `join`, `in`, `startswith`, `replace`, `int()`
 * and `str()` of an integer. Letters are case-mapped in the ASCII range only.
 */
module Text {
  import opened Wrappers

  /** `str.isspace()` / regex `\s`: ASCII and Unicode white space. */
  predicate IsSpace(c: char)
  {
    var n := c as int;
    (9 <= n <= 13) || (28 <= n <= 32) || n == 0x85 || n == 0xA0 || n == 0x1680
    || (0x2000 <= n <= 0x200A) || n == 0x2028 || n == 0x2029 || n == 0x202F
    || n == 0x205F || n == 0x3000
  }

  predicate IsDigit(c: char) { '0' <= c <= '9' }

  predicate IsAsciiLetter(c: char) { ('a' <= c <= 'z') || ('A' <= c <= 'Z') }

  /** Regex `\w` restricted to ASCII: letters, digits and underscore. */
  predicate IsWordChar(c: char) { IsAsciiLetter(c) || IsDigit(c) || c == '_' }

  predicate AllDigits(s: string) { forall i :: 0 <= i < |s| ==> IsDigit(s[i]) }

  // ---------------------------------------------------------------------
  // strip
  // ---------------------------------------------------------------------

  /** Drops the longest prefix of characters satisfying `drop`. */
  function LStripWhile(s: string, drop: char -> bool): (r: string)
    ensures |r| <= |s| && r == s[|s| - |r|..]
    ensures r == [] || !drop(r[0])
    ensures forall i :: 0 <= i < |s| - |r| ==> drop(s[i])
    decreases |s|
  {
    if |s| > 0 && drop(s[0]) then LStripWhile(s[1..], drop) else s
  }

  /** Drops the longest suffix of characters satisfying `drop`. */
  function RStripWhile(s: string, drop: char -> bool): (r: string)
    ensures |r| <= |s| && r == s[..|r|]
    ensures r == [] || !drop(r[|r| - 1])
    ensures forall i :: |r| <= i < |s| ==> drop(s[i])
    decreases |s|
  {
    if |s| > 0 && drop(s[|s| - 1]) then RStripWhile(s[..|s| - 1], drop) else s
  }

  function StripWhile(s: string, drop: char -> bool): (r: string)
    ensures |r| <= |s|
    ensures r == [] || (!drop(r[0]) && !drop(r[|r| - 1]))
  {
    RStripWhile(LStripWhile(s, drop), drop)
  }

  /** `s.lstrip()` */
  function LStrip(s: string): (r: string)
    ensures |r| <= |s|
    ensures r == [] || !IsSpace(r[0])
    decreases |s|
  {
    if |s| > 0 && IsSpace(s[0]) then LStrip(s[1..]) else s
  }

  /** `s.rstrip()` */
  function RStrip(s: string): (r: string)
    ensures |r| <= |s|
    ensures r == [] || (r[0] == s[0] && !IsSpace(r[|r| - 1]))
    decreases |s|
  {
    if |s| > 0 && IsSpace(s[|s| - 1]) then RStrip(s[..|s| - 1]) else s
  }

  /** `s.strip()` */
  function Strip(s: string): (r: string)
    ensures |r| <= |s|
    ensures r == [] || (!IsSpace(r[0]) && !IsSpace(r[|r| - 1]))
  {
    RStrip(LStrip(s))
  }

  /** `s.strip(chars)` */
  function StripChars(s: string, chars: set<char>): (r: string)
    ensures |r| <= |s|
    ensures r == [] || (r[0] !in chars && r[|r| - 1] !in chars)
  {
    StripWhile(s, c => c in chars)
  }

  predicate IsBlank(s: string) { Strip(s) == [] }

  /** A text with no white space at either end is its own `strip()`. */
  lemma StripNoop(s: string)
    requires s == [] || (!IsSpace(s[0]) && !IsSpace(s[|s| - 1]))
    ensures Strip(s) == s
  {
  }

  /** `lstrip()` keeps a suffix of the text. */
  lemma {:induction false} LStripSuffix(s: string)
    ensures |LStrip(s)| <= |s| && LStrip(s) == s[|s| - |LStrip(s)|..]
    decreases |s|
  {
    if |s| > 0 && IsSpace(s[0]) {
      LStripSuffix(s[1..]);
    }
  }

  /** `rstrip()` keeps a prefix of the text. */
  lemma {:induction false} RStripPrefix(s: string)
    ensures RStrip(s) == s[..|RStrip(s)|]
    decreases |s|
  {
    if |s| > 0 && IsSpace(s[|s| - 1]) {
      RStripPrefix(s[..|s| - 1]);
    }
  }

  /** Every character of a stripped text is a character of the text. */
  lemma StripKeepsChars(s: string)
    ensures forall i :: 0 <= i < |Strip(s)| ==> Strip(s)[i] in s
  {
    var l := LStrip(s);
    LStripSuffix(s);
    RStripPrefix(l);
    forall i | 0 <= i < |Strip(s)|
      ensures Strip(s)[i] in s
    {
      assert Strip(s)[i] == l[i];
      assert l[i] == s[|s| - |l| + i];
    }
  }

  /** Stripping twice is stripping once. */
  lemma StripIdempotent(s: string)
    ensures Strip(Strip(s)) == Strip(s)
  {
    StripNoop(Strip(s));
  }

  // ---------------------------------------------------------------------
  // case mapping
  // ---------------------------------------------------------------------

  function LowerChar(c: char): char
  {
    if 'A' <= c <= 'Z' then (c as int + 32) as char else c
  }

  function UpperChar(c: char): char
  {
    if 'a' <= c <= 'z' then (c as int - 32) as char else c
  }

  /** `s.lower()` (ASCII letters). */
  function Lower(s: string): (r: string)
    ensures |r| == |s|
    ensures forall i :: 0 <= i < |s| ==> r[i] == LowerChar(s[i])
  {
    seq(|s|, i requires 0 <= i < |s| => LowerChar(s[i]))
  }

  /** Lower-case ASCII letters and underscores only, as in an identifier. */
  predicate LowerWord(s: string) { forall i :: 0 <= i < |s| ==> ('a' <= s[i] <= 'z') || s[i] == '_' }

  /** A lower-case word is its own `strip().lower()`. */
  lemma LowerWordNormal(s: string)
    requires |s| > 0 && LowerWord(s)
    ensures Lower(Strip(s)) == s
  {
    StripNoop(s);
  }

  /** `s.upper()` (ASCII letters). */
  function Upper(s: string): (r: string)
    ensures |r| == |s|
    ensures forall i :: 0 <= i < |s| ==> r[i] == UpperChar(s[i])
  {
    seq(|s|, i requires 0 <= i < |s| => UpperChar(s[i]))
  }

  // ---------------------------------------------------------------------
  // searching
  // ---------------------------------------------------------------------

  predicate OccursAt(s: string, pat: string, i: nat)
  {
    i + |pat| <= |s| && s[i..i + |pat|] == pat
  }

  /** The first index at or after `from` where `pat` occurs (`s.find(pat, from)`). */
  function FindFrom(s: string, pat: string, from: nat): (r: Option<nat>)
    requires from <= |s|
    ensures r.Some? ==> from <= r.value && OccursAt(s, pat, r.value)
    ensures r.Some? ==> forall j :: from <= j < r.value ==> !OccursAt(s, pat, j)
    ensures r.None? ==> forall j :: from <= j <= |s| ==> !OccursAt(s, pat, j)
    decreases |s| - from
  {
    if OccursAt(s, pat, from) then Some(from)
    else if from == |s| then None
    else FindFrom(s, pat, from + 1)
  }

  /** `pat in s` */
  predicate Contains(s: string, pat: string)
  {
    FindFrom(s, pat, 0).Some?
  }

  lemma ContainsAt(s: string, pat: string, i: nat)
    requires OccursAt(s, pat, i)
    ensures Contains(s, pat)
  {
  }

  /** A text that contains a pattern contains each of its characters. */
  lemma ContainsChar(s: string, pat: string, i: nat)
    requires i < |pat| && Contains(s, pat)
    ensures pat[i] in s
  {
    var k := FindFrom(s, pat, 0).value;
    assert s[k..k + |pat|] == pat;
    assert s[k + i] == pat[i];
  }

  /** A text missing one of a pattern's characters does not contain the pattern. */
  lemma LacksChar(s: string, pat: string, i: nat)
    requires i < |pat| && pat[i] !in s
    ensures !Contains(s, pat)
  {
    if Contains(s, pat) {
      ContainsChar(s, pat, i);
    }
  }

  /** `s.startswith(p)` */
  predicate StartsWith(s: string, p: string) { p <= s }

  /** `s.endswith(p)` */
  predicate EndsWith(s: string, p: string) { |p| <= |s| && s[|s| - |p|..] == p }

  /** Where the middle part of `a + b + c` lies. */
  lemma ConcatAt(a: string, b: string, c: string)
    ensures (a + b + c)[|a|..|a| + |b|] == b
    ensures forall k :: 0 <= k < |b| ==> (a + b + c)[|a| + k] == b[k]
    ensures |c| > 0 ==> (a + b + c)[|a| + |b|] == c[0]
  {
  }

  /** The index of the first character satisfying `p`, or `|s|`. */
  function IndexWhere(s: string, p: char -> bool): (k: nat)
    ensures k <= |s|
    ensures k < |s| ==> p(s[k])
    ensures forall i :: 0 <= i < k ==> !p(s[i])
  {
    if |s| == 0 then 0
    else if p(s[0]) then 0
    else 1 + IndexWhere(s[1..], p)
  }

  lemma IndexWhereAt(s: string, p: char -> bool, k: nat)
    requires k < |s| && p(s[k])
    requires forall i :: 0 <= i < k ==> !p(s[i])
    ensures IndexWhere(s, p) == k
  {
  }

  /** The index of the last occurrence of `c`, if any (`s.rfind(c)`). */
  function LastIndexOf(s: string, c: char): (r: Option<nat>)
    ensures r.Some? ==> r.value < |s| && s[r.value] == c
    ensures r.Some? ==> forall j :: r.value < j < |s| ==> s[j] != c
    ensures r.None? ==> forall j :: 0 <= j < |s| ==> s[j] != c
  {
    if |s| == 0 then None
    else if s[|s| - 1] == c then Some(|s| - 1)
    else LastIndexOf(s[..|s| - 1], c)
  }

  // ---------------------------------------------------------------------
  // split / join / replace
  // ---------------------------------------------------------------------

  /** The first position holding one of `seps`, or `|s|` where there is none. */
  function IndexIn(s: string, seps: set<char>): (k: nat)
    ensures k <= |s|
    ensures k < |s| ==> s[k] in seps
    ensures forall i :: 0 <= i < k ==> s[i] !in seps
  {
    if |s| == 0 then 0 else if s[0] in seps then 0 else 1 + IndexIn(s[1..], seps)
  }

  /** Splits at every character of `seps`: `s.split(c)`, or `re.split` over a character class. */
  function SplitOn(s: string, seps: set<char>): (parts: seq<string>)
    ensures |parts| >= 1
    decreases |s|
  {
    var k := IndexIn(s, seps);
    if k == |s| then [s] else [s[..k]] + SplitOn(s[k + 1..], seps)
  }

  /** `s.split(c)` for a one-character separator. */
  function Split(s: string, c: char): (parts: seq<string>)
    ensures |parts| >= 1
  {
    SplitOn(s, {c})
  }

  /** A split at the first separator: the text before it, then the split of the rest. */
  lemma SplitCons(a: string, c: char, rest: string)
    requires c !in a
    ensures Split(a + [c] + rest, c) == [a] + Split(rest, c)
  {
    var s := a + [c] + rest;
    var k := IndexIn(s, {c});
    assert s[|a|] == c;
    assert k == |a|;
    assert s[..k] == a && s[k + 1..] == rest;
  }

  /** A split at the first separator of a set: the text before it, then the split of the rest. */
  lemma SplitOnCons(a: string, c: char, rest: string, seps: set<char>)
    requires c in seps && forall i :: 0 <= i < |a| ==> a[i] !in seps
    ensures SplitOn(a + [c] + rest, seps) == [a] + SplitOn(rest, seps)
  {
    var s := a + [c] + rest;
    var k := IndexIn(s, seps);
    assert s[|a|] == c;
    assert forall i :: 0 <= i < |a| ==> s[i] == a[i];
    assert k == |a|;
    assert s[..k] == a && s[k + 1..] == rest;
  }

  /** Text without the separator is one part. */
  lemma SplitNone(s: string, c: char)
    requires c !in s
    ensures Split(s, c) == [s]
  {
    assert IndexIn(s, {c}) == |s|;
  }

  /** `sep.join(parts)` */
  function Join(parts: seq<string>, sep: string): string
  {
    if |parts| == 0 then ""
    else if |parts| == 1 then parts[0]
    else parts[0] + sep + Join(parts[1..], sep)
  }

  lemma JoinCons(a: string, rest: seq<string>, sep: string)
    requires |rest| >= 1
    ensures Join([a] + rest, sep) == a + sep + Join(rest, sep)
  {
    assert ([a] + rest)[1..] == rest;
  }

  /** Joining the pieces of a split with the separator gives the text back. */
  lemma {:induction false} JoinSplit(s: string, c: char)
    ensures Join(Split(s, c), [c]) == s
    decreases |s|
  {
    var k := IndexIn(s, {c});
    if k < |s| {
      JoinSplit(s[k + 1..], c);
      JoinCons(s[..k], Split(s[k + 1..], c), [c]);
      assert s == s[..k] + [c] + s[k + 1..];
    }
  }

  /** No piece of a split holds a separator. */
  lemma {:induction false} SplitOnFree(s: string, seps: set<char>)
    ensures forall k, i :: 0 <= k < |SplitOn(s, seps)| && 0 <= i < |SplitOn(s, seps)[k]| ==> SplitOn(s, seps)[k][i] !in seps
    decreases |s|
  {
    var n := IndexIn(s, seps);
    if n < |s| {
      SplitOnFree(s[n + 1..], seps);
      var rest := SplitOn(s[n + 1..], seps);
      assert SplitOn(s, seps) == [s[..n]] + rest;
      forall k, i | 0 <= k < |[s[..n]] + rest| && 0 <= i < |([s[..n]] + rest)[k]|
        ensures ([s[..n]] + rest)[k][i] !in seps
      {
        if k > 0 {
          assert ([s[..n]] + rest)[k] == rest[k - 1];
        }
      }
    }
  }

  /** Every character of a piece of a split is a character of the text. */
  lemma {:induction false} SplitOnKeeps(s: string, seps: set<char>)
    ensures forall k, i :: 0 <= k < |SplitOn(s, seps)| && 0 <= i < |SplitOn(s, seps)[k]| ==> SplitOn(s, seps)[k][i] in s
    decreases |s|
  {
    var n := IndexIn(s, seps);
    if n < |s| {
      SplitOnKeeps(s[n + 1..], seps);
      var rest := SplitOn(s[n + 1..], seps);
      assert SplitOn(s, seps) == [s[..n]] + rest;
      forall k, i | 0 <= k < |[s[..n]] + rest| && 0 <= i < |([s[..n]] + rest)[k]|
        ensures ([s[..n]] + rest)[k][i] in s
      {
        if k > 0 {
          assert ([s[..n]] + rest)[k] == rest[k - 1];
          assert rest[k - 1][i] in s[n + 1..];
        } else {
          assert s[..n][i] == s[i];
        }
      }
    }
  }

  /** Non-empty and already stripped. */
  predicate Clean(s: string) { s != [] && Strip(s) == s }

  predicate AllClean(parts: seq<string>) { forall k :: 0 <= k < |parts| ==> Clean(parts[k]) }

  /** `[p.strip() for p in parts if p.strip()]` */
  function NonBlank(parts: seq<string>): (r: seq<string>)
    ensures |r| <= |parts|
  {
    if |parts| == 0 then []
    else (if IsBlank(parts[0]) then [] else [Strip(parts[0])]) + NonBlank(parts[1..])
  }

  lemma CleanCons(t: string, rest: seq<string>)
    requires Strip(t) == t && AllClean(rest)
    ensures AllClean((if t == [] then [] else [t]) + rest)
  {
  }

  /** What `NonBlank` keeps is stripped and non-empty. */
  lemma {:induction false} NonBlankClean(parts: seq<string>)
    ensures AllClean(NonBlank(parts))
  {
    if |parts| > 0 {
      NonBlankClean(parts[1..]);
      StripIdempotent(parts[0]);
      CleanCons(Strip(parts[0]), NonBlank(parts[1..]));
    }
  }

  /** The filter works piecewise: the kept parts of `a + b` are those of `a`, then those of `b`. */
  lemma {:induction false} NonBlankAppend(a: seq<string>, b: seq<string>)
    ensures NonBlank(a + b) == NonBlank(a) + NonBlank(b)
    decreases |a|
  {
    if |a| == 0 {
      assert a + b == b;
    } else {
      assert (a + b)[0] == a[0];
      assert (a + b)[1..] == a[1..] + b;
      NonBlankAppend(a[1..], b);
    }
  }

  /** A text is kept exactly when it is the stripped form of some non-blank part. */
  lemma {:induction false} NonBlankMember(parts: seq<string>)
    ensures forall t :: t in NonBlank(parts) <==> exists i :: 0 <= i < |parts| && !IsBlank(parts[i]) && Strip(parts[i]) == t
    decreases |parts|
  {
    if |parts| > 0 {
      NonBlankMember(parts[1..]);
      forall t ensures t in NonBlank(parts) <==> exists i :: 0 <= i < |parts| && !IsBlank(parts[i]) && Strip(parts[i]) == t
      {
        if t in NonBlank(parts[1..]) {
          var i :| 0 <= i < |parts[1..]| && !IsBlank(parts[1..][i]) && Strip(parts[1..][i]) == t;
          assert parts[i + 1] == parts[1..][i];
        }
        if exists i :: 0 <= i < |parts| && !IsBlank(parts[i]) && Strip(parts[i]) == t {
          var i :| 0 <= i < |parts| && !IsBlank(parts[i]) && Strip(parts[i]) == t;
          if i > 0 {
            assert parts[1..][i - 1] == parts[i];
          }
        }
      }
    }
  }

  /** Parts that are already clean pass through unchanged. */
  lemma {:induction false} NonBlankOfClean(parts: seq<string>)
    requires AllClean(parts)
    ensures NonBlank(parts) == parts
  {
    if |parts| > 0 {
      assert Clean(parts[0]);
      NonBlankOfClean(parts[1..]);
      assert parts == [parts[0]] + parts[1..];
    }
  }

  /** `s.replace(old, new)` for a one-character `old`. */
  function ReplaceChar(s: string, target: char, replacement: string): (r: string)
    ensures target !in replacement ==> target !in r
    ensures target !in s ==> r == s
  {
    if |s| == 0 then ""
    else (if s[0] == target then replacement else [s[0]]) + ReplaceChar(s[1..], target, replacement)
  }

  /** Replacing distributes over concatenation. */
  lemma {:induction false} ReplaceCharAppend(a: string, b: string, target: char, replacement: string)
    ensures ReplaceChar(a + b, target, replacement) == ReplaceChar(a, target, replacement) + ReplaceChar(b, target, replacement)
    decreases |a|
  {
    if |a| > 0 {
      assert (a + b)[1..] == a[1..] + b;
      ReplaceCharAppend(a[1..], b, target, replacement);
    } else {
      assert a + b == b;
    }
  }

  // ---------------------------------------------------------------------
  // integers
  // ---------------------------------------------------------------------

  function DigitChar(d: nat): char
    requires d < 10
  {
    ('0' as int + d) as char
  }

  function DigitValue(c: char): nat
    requires IsDigit(c)
  {
    c as int - '0' as int
  }

  /** `str(n)` for a natural number. */
  function NatToString(n: nat): (r: string)
    ensures |r| >= 1 && AllDigits(r)
  {
    if n < 10 then [DigitChar(n)] else NatToString(n / 10) + [DigitChar(n % 10)]
  }

  /** `str(i)` */
  function IntToString(i: int): string
  {
    if i < 0 then "-" + NatToString(-i) else NatToString(i)
  }

  /** The value of a string of decimal digits. */
  function DigitsValue(s: string): nat
    requires AllDigits(s)
  {
    if |s| == 0 then 0 else DigitsValue(s[..|s| - 1]) * 10 + DigitValue(s[|s| - 1])
  }

  /** Reading back what `NatToString` wrote gives the number. */
  lemma {:induction false} DigitsValueOfNatToString(n: nat)
    ensures DigitsValue(NatToString(n)) == n
  {
    if n >= 10 {
      var s := NatToString(n / 10) + [DigitChar(n % 10)];
      DigitsValueOfNatToString(n / 10);
      assert s[..|s| - 1] == NatToString(n / 10);
    }
  }

  /**
   * `int(s)` for a string: surrounding white space is ignored, an optional
   * sign is followed by one or more ASCII digits; anything else is a
   * ValueError, here None.
   */
  function ParseInt(s: string): (r: Option<int>)
  {
    var t := Strip(s);
    if |t| > 0 && (t[0] == '-' || t[0] == '+') then
      match ParseDigits(t[1..])
      case Some(v) => var n: int := v; Some(if t[0] == '-' then -n else n)
      case None => None
    else ParseDigits(t)
  }

  /** One or more ASCII digits, read as a number. */
  function ParseDigits(b: string): (r: Option<nat>)
    ensures r.Some? <==> |b| > 0 && AllDigits(b)
  {
    if |b| > 0 && AllDigits(b) then Some(DigitsValue(b)) else None
  }

  /** `int(str(i)) == i` */
  lemma ParseIntOfIntToString(i: int)
    ensures ParseInt(IntToString(i)) == Some(i)
  {
    var d := NatToString(if i < 0 then -i else i);
    DigitsValueOfNatToString(if i < 0 then -i else i);
    if i < 0 {
      ParseIntNegative(d);
      assert IntToString(i) == "-" + d;
    } else {
      ParseIntDigits(d);
      assert IntToString(i) == d;
    }
  }

  /** Text that starts and ends with a digit has no white space to strip. */
  lemma StripDigitText(d: string)
    requires |d| > 0 && IsDigit(d[0]) && IsDigit(d[|d| - 1])
    ensures Strip(d) == d
  {
    StripNoop(d);
  }

  /** Nor has such text behind a minus sign. */
  lemma StripNegativeText(d: string)
    requires |d| > 0 && IsDigit(d[0]) && IsDigit(d[|d| - 1])
    ensures Strip("-" + d) == "-" + d
  {
    var s := "-" + d;
    assert s[|s| - 1] == d[|d| - 1];
    StripNoop(s);
  }

  lemma ParseIntDigits(d: string)
    requires |d| > 0 && AllDigits(d)
    ensures ParseInt(d) == Some(DigitsValue(d))
  {
    StripDigitText(d);
    ParseIntStripped(d);
  }

  lemma ParseIntNegative(d: string)
    requires |d| > 0 && AllDigits(d)
    ensures ParseInt("-" + d) == Some(-(DigitsValue(d) as int))
  {
    StripNegativeText(d);
    ParseIntStrippedNegative(d);
  }

  lemma ParseIntStripped(d: string)
    requires |d| > 0 && AllDigits(d) && Strip(d) == d
    ensures ParseInt(d) == Some(DigitsValue(d))
  {
  }

  lemma ParseIntStrippedNegative(d: string)
    requires |d| > 0 && AllDigits(d) && Strip("-" + d) == "-" + d
    ensures ParseInt("-" + d) == Some(-(DigitsValue(d) as int))
  {
    var s := "-" + d;
    assert s[1..] == d;
  }
}
