/**
 * The JavaScript string operations the application relies on, stated over
 * `seq<char>`: `trim`, `toLowerCase`, `includes`, `split`, `join`, `endsWith`,
 * `indexOf`, `replace`, `padStart`, `String(n)` and `parseInt(s, 10)`.
 */
module Text {
  import opened Wrappers

  /** An optional string is truthy in JavaScript when it is present and not empty. */
  predicate Truthy(s: Option<string>) {
    s.Some? && s.value != ""
  }

  // ---------------------------------------------------------------------------
  // White space
  // ---------------------------------------------------------------------------

  /**
   * The ECMAScript WhiteSpace and LineTerminator code points: what `trim`
   * removes, what `\s` matches in a regular expression and what `parseInt`
   * skips before the number.
   */
  predicate IsWhiteSpace(c: char) {
    var n := c as int;
    n == 0x09 || n == 0x0A || n == 0x0B || n == 0x0C || n == 0x0D || n == 0x20
    || n == 0xA0 || n == 0x1680 || (0x2000 <= n <= 0x200A) || n == 0x2028
    || n == 0x2029 || n == 0x202F || n == 0x205F || n == 0x3000 || n == 0xFEFF
  }

  predicate AllWhiteSpace(s: string) {
    forall i :: 0 <= i < |s| ==> IsWhiteSpace(s[i])
  }

  /** Neither the first nor the last character is white space. */
  predicate IsTrimmed(s: string) {
    s == [] || (!IsWhiteSpace(s[0]) && !IsWhiteSpace(s[|s| - 1]))
  }

  /** The number of white-space characters `s` starts with. */
  function LeadingWhiteSpace(s: string): (n: nat)
    ensures n <= |s|
    decreases |s|
  {
    if s == [] || !IsWhiteSpace(s[0]) then 0 else 1 + LeadingWhiteSpace(s[1..])
  }

  /** The length of `s` once its trailing white space is dropped. */
  function ContentEnd(s: string): (n: nat)
    ensures n <= |s|
    decreases |s|
  {
    if s == [] || !IsWhiteSpace(s[|s| - 1]) then |s| else ContentEnd(s[..|s| - 1])
  }

  /** The prefix `LeadingWhiteSpace` counts is white space, and the character after it is not. */
  lemma {:induction false} LeadingWhiteSpaceFacts(s: string)
    ensures AllWhiteSpace(s[..LeadingWhiteSpace(s)])
    ensures LeadingWhiteSpace(s) < |s| ==> !IsWhiteSpace(s[LeadingWhiteSpace(s)])
    decreases |s|
  {
    if s != [] && IsWhiteSpace(s[0]) {
      LeadingWhiteSpaceFacts(s[1..]);
      var n := LeadingWhiteSpace(s);
      forall i | 0 <= i < n ensures IsWhiteSpace(s[..n][i]) {
        if i > 0 { assert s[..n][i] == s[1..][..n - 1][i - 1]; }
      }
    }
  }

  /** The suffix `ContentEnd` drops is white space, and the character before it is not. */
  lemma {:induction false} ContentEndFacts(s: string)
    ensures AllWhiteSpace(s[ContentEnd(s)..])
    ensures ContentEnd(s) > 0 ==> !IsWhiteSpace(s[ContentEnd(s) - 1])
    decreases |s|
  {
    if s != [] && IsWhiteSpace(s[|s| - 1]) {
      var init := s[..|s| - 1];
      ContentEndFacts(init);
      var n := ContentEnd(s);
      forall i | 0 <= i < |s| - n ensures IsWhiteSpace(s[n..][i]) {
        if n + i < |s| - 1 { assert s[n..][i] == init[n..][i]; }
      }
    }
  }

  /** `trimStart`: drops the leading white space and nothing else. */
  function TrimStart(s: string): (r: string)
    ensures |r| <= |s| && r == s[|s| - |r|..]
  {
    s[LeadingWhiteSpace(s)..]
  }

  /** `trim`: the string without its leading and trailing white space. */
  function Trim(s: string): (r: string)
    ensures IsTrimmed(r)
    ensures |r| <= |s|
    ensures r == [] <==> AllWhiteSpace(s)
  {
    var a := LeadingWhiteSpace(s);
    var t := s[a..];
    LeadingWhiteSpaceFacts(s);
    ContentEndFacts(t);
    var r := t[..ContentEnd(t)];
    assert r != [] ==> !IsWhiteSpace(r[0]) by {
      if r != [] { assert r[0] == s[a]; }
    }
    assert r == [] ==> AllWhiteSpace(s) by {
      if r == [] {
        assert s[..a] == s;
      }
    }
    r
  }

  /** Trimming adds no character: a character absent from `s` is absent from `trim(s)`. */
  lemma TrimKeepsAbsent(s: string, c: char)
    requires c !in s
    ensures c !in Trim(s)
  {
    var a := LeadingWhiteSpace(s);
    var t := s[a..];
    var r := Trim(s);
    assert r == t[..ContentEnd(t)];
    forall i | 0 <= i < |r| ensures r[i] != c {
      assert r[i] == t[i] == s[a + i];
    }
  }

  lemma {:induction false} LeadingWhiteSpaceSkips(w: string, t: string)
    requires AllWhiteSpace(w)
    requires t == [] || !IsWhiteSpace(t[0])
    ensures LeadingWhiteSpace(w + t) == |w|
    decreases |w|
  {
    if w != [] {
      assert (w + t)[1..] == w[1..] + t;
      LeadingWhiteSpaceSkips(w[1..], t);
    } else {
      assert w + t == t;
    }
  }

  lemma {:induction false} ContentEndSkips(t: string, w: string)
    requires AllWhiteSpace(w)
    requires t == [] || !IsWhiteSpace(t[|t| - 1])
    ensures ContentEnd(t + w) == |t|
    decreases |w|
  {
    if w != [] {
      assert (t + w)[..|t + w| - 1] == t + w[..|w| - 1];
      ContentEndSkips(t, w[..|w| - 1]);
    } else {
      assert t + w == t;
    }
  }

  /** Trimming a trimmed string padded with white space gives it back. */
  lemma TrimPadded(w1: string, v: string, w2: string)
    requires AllWhiteSpace(w1) && AllWhiteSpace(w2) && IsTrimmed(v)
    ensures Trim(w1 + v + w2) == v
  {
    var s := w1 + v + w2;
    if v == [] {
      assert AllWhiteSpace(s) by {
        forall i | 0 <= i < |s| ensures IsWhiteSpace(s[i]) {
          if i < |w1| { assert s[i] == w1[i]; }
          else { assert s[i] == w2[i - |w1|]; }
        }
      }
    } else {
      assert s == w1 + (v + w2);
      assert (v + w2)[0] == v[0];
      LeadingWhiteSpaceSkips(w1, v + w2);
      assert s[|w1|..] == v + w2;
      ContentEndSkips(v, w2);
      assert (v + w2)[..|v|] == v;
    }
  }

  // ---------------------------------------------------------------------------
  // Length
  // ---------------------------------------------------------------------------

  /** A character outside the Basic Multilingual Plane, stored as a surrogate pair in UTF-16. */
  predicate IsAstral(c: char) {
    c as int >= 0x10000
  }

  /**
   * `s.length`: the number of UTF-16 code units, two for each character
   * outside the Basic Multilingual Plane and one for every other character.
   */
  function Utf16Length(s: string): (n: nat)
    ensures |s| <= n <= 2 * |s|
    ensures n == |s| <==> forall i :: 0 <= i < |s| ==> !IsAstral(s[i])
  {
    if s == [] then 0
    else
      var rest := Utf16Length(s[1..]);
      assert forall i :: 1 <= i < |s| ==> s[i] == s[1..][i - 1];
      (if IsAstral(s[0]) then 2 else 1) + rest
  }

  /** Three emoji, each a surrogate pair: six code units. */
  lemma ThreeEmojiLength()
    ensures Utf16Length("😀😀😀") == 6
  {
    assert "😀😀😀"[1..] == "😀😀";
    assert "😀😀"[1..] == "😀";
  }

  // ---------------------------------------------------------------------------
  // Case
  // ---------------------------------------------------------------------------

  /**
   * Lower-cases the letters of Basic Latin and Latin-1 (A to Z, À to Þ
   * except ×) and Œ and Ÿ, as `toLowerCase` maps them; every other
   * character is kept.
   */
  function LowerChar(c: char): char {
    var n := c as int;
    if 0x41 <= n <= 0x5A || (0xC0 <= n <= 0xDE && n != 0xD7) then (n + 0x20) as char
    else if n == 0x152 then 0x153 as char
    else if n == 0x178 then 0xFF as char
    else c
  }

  /** `toLowerCase`, character by character. */
  function ToLower(s: string): (r: string)
    ensures |r| == |s|
    ensures forall i :: 0 <= i < |s| ==> r[i] == LowerChar(s[i])
  {
    seq(|s|, i requires 0 <= i < |s| => LowerChar(s[i]))
  }

  /**
   * Upper-cases the letters of Basic Latin and Latin-1 (a to z, à to þ
   * except ÷, ÿ and µ) and œ, as `toUpperCase` maps them; every other
   * character is kept.
   */
  function UpperChar(c: char): char {
    var n := c as int;
    if 0x61 <= n <= 0x7A || (0xE0 <= n <= 0xFE && n != 0xF7) then (n - 0x20) as char
    else if n == 0xFF then 0x178 as char
    else if n == 0xB5 then 0x39C as char
    else if n == 0x153 then 0x152 as char
    else c
  }

  /** The two case maps undo each other on the letters both of them change. */
  lemma CaseRoundTrip(c: char)
    requires UpperChar(c) != c && c as int != 0xB5
    ensures LowerChar(UpperChar(c)) == c
  {
  }

  /** Accented capitals and small letters meet in a search, and a role name gets its accented capital. */
  lemma AccentedCase()
    ensures ToLower("École") == "école"
    ensures Capitalize("étudiant") == "Étudiant"
  {
  }

  /** `s.charAt(0).toUpperCase() + s.slice(1)`. */
  function Capitalize(s: string): (r: string)
    ensures |r| == |s|
    ensures s != [] ==> r[0] == UpperChar(s[0]) && r[1..] == s[1..]
  {
    if s == [] then [] else [UpperChar(s[0])] + s[1..]
  }

  // ---------------------------------------------------------------------------
  // Searching
  // ---------------------------------------------------------------------------

  /** `sub` occurs in `s` starting at index `i`. */
  predicate OccursAt(s: string, sub: string, i: int) {
    0 <= i && i + |sub| <= |s| && s[i..i + |sub|] == sub
  }

  /** `s.includes(sub)`. */
  predicate Includes(s: string, sub: string) {
    exists i :: 0 <= i <= |s| && OccursAt(s, sub, i)
  }

  /** `s.indexOf(sub)`: the least index where `sub` occurs, None for -1. */
  function IndexOf(s: string, sub: string): (r: Option<nat>)
    ensures r.Some? ==> OccursAt(s, sub, r.value)
    ensures r.Some? ==> forall j :: 0 <= j < r.value ==> !OccursAt(s, sub, j)
    ensures r.None? <==> !Includes(s, sub)
    decreases |s|
  {
    if |s| < |sub| then None
    else if s[..|sub|] == sub then Some(0)
    else
      var rest := s[1..];
      assert forall j :: 1 <= j <= |s| ==> (OccursAt(s, sub, j) <==> OccursAt(rest, sub, j - 1)) by {
        forall j | 1 <= j <= |s| ensures OccursAt(s, sub, j) <==> OccursAt(rest, sub, j - 1) {
          if j + |sub| <= |s| { assert rest[j - 1..j - 1 + |sub|] == s[j..j + |sub|]; }
        }
      }
      assert !OccursAt(s, sub, 0);
      match IndexOf(rest, sub)
      case None => None
      case Some(k) => Some(k + 1)
  }

  /** `s.endsWith(suffix)`. */
  predicate EndsWith(s: string, suffix: string) {
    |suffix| <= |s| && s[|s| - |suffix|..] == suffix
  }

  // ---------------------------------------------------------------------------
  // Replacing
  // ---------------------------------------------------------------------------

  /** `s.replace(pattern, replacement)` with a string pattern: the first occurrence only. */
  function ReplaceFirst(s: string, pattern: string, replacement: string): (r: string)
    ensures !Includes(s, pattern) ==> r == s
    ensures Includes(s, pattern) ==>
      exists i :: OccursAt(s, pattern, i) && r == s[..i] + replacement + s[i + |pattern|..]
  {
    match IndexOf(s, pattern)
    case None => s
    case Some(i) => s[..i] + replacement + s[i + |pattern|..]
  }

  /** Removing the first occurrence of a prefix leaves what follows it. */
  lemma RemovePrefix(p: string, s: string)
    ensures ReplaceFirst(p + s, p, "") == s
  {
    assert (p + s)[..|p|] == p;
    assert OccursAt(p + s, p, 0);
    assert IndexOf(p + s, p) == Some(0);
    assert (p + s)[|p|..] == s;
  }

  /** `s.replace(/c/g, d)` for one character `c`: every occurrence. */
  function ReplaceAllChar(s: string, c: char, d: char): (r: string)
    ensures |r| == |s|
    ensures forall i :: 0 <= i < |s| ==> r[i] == if s[i] == c then d else s[i]
  {
    seq(|s|, i requires 0 <= i < |s| => if s[i] == c then d else s[i])
  }

  /** Replacing a character in a concatenation replaces it in both parts. */
  lemma ReplaceAllCharConcat(a: string, b: string, c: char, d: char)
    ensures ReplaceAllChar(a + b, c, d) == ReplaceAllChar(a, c, d) + ReplaceAllChar(b, c, d)
  {
    var l, r := ReplaceAllChar(a + b, c, d), ReplaceAllChar(a, c, d) + ReplaceAllChar(b, c, d);
    forall i | 0 <= i < |l| ensures l[i] == r[i] {
      if i >= |a| { assert (a + b)[i] == b[i - |a|]; }
    }
  }

  /** Replacing a character that does not occur changes nothing. */
  lemma ReplaceAllCharAbsent(s: string, c: char, d: char)
    requires c !in s
    ensures ReplaceAllChar(s, c, d) == s
  {
  }

  // ---------------------------------------------------------------------------
  // Splitting and joining
  // ---------------------------------------------------------------------------

  /** The index of the first `c` in `s`. */
  function FirstIndex(s: string, c: char): (k: nat)
    requires c in s
    ensures k < |s| && s[k] == c && c !in s[..k]
  {
    if s[0] == c then 0 else
      var k := FirstIndex(s[1..], c);
      assert s[..k + 1] == [s[0]] + s[1..][..k];
      k + 1
  }

  /** `parts.join(delimiter)`. */
  function Join(parts: seq<string>, delimiter: string): string {
    if |parts| == 0 then ""
    else if |parts| == 1 then parts[0]
    else parts[0] + delimiter + Join(parts[1..], delimiter)
  }

  /** The first separator of `a + [sep] + b` is the one after `a` when `a` has none. */
  lemma {:induction false} FirstIndexAfter(a: string, sep: char, b: string)
    requires sep !in a
    ensures FirstIndex(a + [sep] + b, sep) == |a|
  {
    if a != [] {
      assert (a + [sep] + b)[1..] == a[1..] + [sep] + b;
      FirstIndexAfter(a[1..], sep, b);
    }
  }

  /** `s.split(sep)` for a one-character separator: the pieces between the separators. */
  function Split(s: string, sep: char): (r: seq<string>)
    ensures |r| >= 1
    ensures forall i :: 0 <= i < |r| ==> sep !in r[i]
    ensures Join(r, [sep]) == s
    decreases |s|
  {
    if sep !in s then [s]
    else
      var k := FirstIndex(s, sep);
      var rest := Split(s[k + 1..], sep);
      assert s == s[..k] + [sep] + s[k + 1..];
      [s[..k]] + rest
  }

  /** Splitting at a first separator that follows `a` gives `a`, then the pieces of what follows. */
  lemma SplitAfter(a: string, sep: char, b: string)
    requires sep !in a
    ensures Split(a + [sep] + b, sep) == [a] + Split(b, sep)
  {
    var s := a + [sep] + b;
    assert s[|a|] == sep;
    FirstIndexAfter(a, sep, b);
    assert s[..|a|] == a && s[|a| + 1..] == b;
  }

  // ---------------------------------------------------------------------------
  // Numbers
  // ---------------------------------------------------------------------------

  predicate IsDigit(c: char) {
    '0' <= c <= '9'
  }

  function DigitChar(d: nat): (c: char)
    requires d <= 9
    ensures IsDigit(c) && c as int - '0' as int == d
  {
    ('0' as int + d) as char
  }

  /** `String(n)` for a natural number: its decimal digits, most significant first. */
  function NatToString(n: nat): (r: string)
    ensures |r| >= 1
    ensures forall i :: 0 <= i < |r| ==> IsDigit(r[i])
    ensures n < 10 <==> |r| == 1
    decreases n
  {
    if n < 10 then [DigitChar(n)] else NatToString(n / 10) + [DigitChar(n % 10)]
  }

  /** `String(n)` for an integer. */
  function IntToString(n: int): (r: string)
    ensures |r| >= 1
    ensures n >= 0 ==> r == NatToString(n)
    ensures n < 0 ==> r == "-" + NatToString(-n)
  {
    if n < 0 then "-" + NatToString(-n) else NatToString(n)
  }

  /** `s.padStart(width, fill)` for a one-character fill. */
  function PadStart(s: string, width: nat, fill: char): (r: string)
    ensures |r| == if |s| >= width then |s| else width
    ensures r[|r| - |s|..] == s
    ensures forall i :: 0 <= i < |r| - |s| ==> r[i] == fill
  {
    if |s| >= width then s else seq(width - |s|, _ => fill) + s
  }

  /** The number of leading decimal digits of `s`. */
  function DigitPrefix(s: string): (n: nat)
    ensures n <= |s|
    ensures forall i :: 0 <= i < n ==> IsDigit(s[i])
    ensures n < |s| ==> !IsDigit(s[n])
    ensures (forall i :: 0 <= i < |s| ==> IsDigit(s[i])) ==> n == |s|
  {
    if s == [] || !IsDigit(s[0]) then 0 else 1 + DigitPrefix(s[1..])
  }

  function DigitValue(c: char): nat
    requires IsDigit(c)
  {
    c as int - '0' as int
  }

  /** The value of a string of decimal digits. */
  function DigitsValue(ds: string): nat
    requires forall i :: 0 <= i < |ds| ==> IsDigit(ds[i])
  {
    if ds == [] then 0
    else DigitsValue(ds[..|ds| - 1]) * 10 + DigitValue(ds[|ds| - 1])
  }

  /** The unsigned part of `parseInt`: the value of the leading digits, None for NaN. */
  function ParseDigits(s: string): (r: Option<nat>)
    ensures r.None? <==> DigitPrefix(s) == 0
  {
    var n := DigitPrefix(s);
    if n == 0 then None else Some(DigitsValue(s[..n]))
  }

  /**
   * `parseInt(s, 10)`: skip the leading white space, read an optional sign and
   * the longest run of decimal digits after it; None stands for NaN.
   */
  function ParseInt(s: string): (r: Option<int>)
  {
    var t := TrimStart(s);
    if t != [] && t[0] == '-' then
      match ParseDigits(t[1..])
      case None => None
      case Some(v) => Some(-(v as int))
    else if t != [] && t[0] == '+' then
      match ParseDigits(t[1..])
      case None => None
      case Some(v) => Some(v)
    else
      match ParseDigits(t)
      case None => None
      case Some(v) => Some(v)
  }

  lemma {:induction false} DigitsValueOfNat(n: nat)
    ensures DigitsValue(NatToString(n)) == n
    decreases n
  {
    var r := NatToString(n);
    if n >= 10 {
      DigitsValueOfNat(n / 10);
      assert r[..|r| - 1] == NatToString(n / 10);
    }
  }

  /** The digits `String(m)` writes read back as `m`. */
  lemma ParseDigitsOfNat(m: nat)
    ensures ParseDigits(NatToString(m)) == Some(m)
  {
    var ds := NatToString(m);
    assert ds[..|ds|] == ds;
    DigitsValueOfNat(m);
  }

  /** `parseInt(String(n), 10)` gives `n` back. */
  lemma ParseIntOfIntToString(n: int)
    ensures ParseInt(IntToString(n)) == Some(n)
  {
    var s := IntToString(n);
    assert TrimStart(s) == s by {
      assert !IsWhiteSpace(s[0]);
      assert LeadingWhiteSpace(s) == 0;
      assert s[0..] == s;
    }
    if n < 0 {
      assert s[1..] == NatToString(-n);
      ParseDigitsOfNat(-n);
    } else {
      ParseDigitsOfNat(n);
      assert s[0] != '-' && s[0] != '+';
    }
  }

  // ---------------------------------------------------------------------------
  // Ordering
  // ---------------------------------------------------------------------------

  /** Code-unit lexicographic order, which stands for `localeCompare(a, b) < 0`. */
  predicate StrLess(a: string, b: string) {
    if a == [] then b != []
    else b != [] && (a[0] < b[0] || (a[0] == b[0] && StrLess(a[1..], b[1..])))
  }

  lemma {:induction false} StrLessIrreflexive(a: string)
    ensures !StrLess(a, a)
  {
    if a != [] { StrLessIrreflexive(a[1..]); }
  }

  lemma {:induction false} StrLessTransitive(a: string, b: string, c: string)
    requires StrLess(a, b) && StrLess(b, c)
    ensures StrLess(a, c)
  {
    if a != [] && b != [] && c != [] && a[0] == b[0] && b[0] == c[0] {
      StrLessTransitive(a[1..], b[1..], c[1..]);
    }
  }

  lemma {:induction false} StrLessTotal(a: string, b: string)
    ensures StrLess(a, b) || a == b || StrLess(b, a)
  {
    if a != [] && b != [] && a[0] == b[0] {
      StrLessTotal(a[1..], b[1..]);
      if a[1..] == b[1..] { assert a == [a[0]] + a[1..] && b == [b[0]] + b[1..]; }
    }
  }
}
