/** Strings as sequences of characters, and the handful of JavaScript string
    operations the dashboard relies on: trimming, lower-casing, substring
    search, decimal rendering of integers, join/split and ordering. */
module Text {

  import opened Opt

  type String = seq<char>

  /** The characters JavaScript's `\s` class and `String.prototype.trim` treat as white space. */
  predicate IsSpace(c: char) {
    || c == ' ' || c == '\t' || c == '\n' || c == '\r'
    || c == '\U{000B}' || c == '\U{000C}' || c == '\U{00A0}' || c == '\U{1680}'
    || ('\U{2000}' <= c <= '\U{200A}')
    || c == '\U{2028}' || c == '\U{2029}' || c == '\U{202F}' || c == '\U{205F}'
    || c == '\U{3000}' || c == '\U{FEFF}'
  }

  /** A string with no visible character: what `!s.trim()` tests. */
  predicate IsBlank(s: String) {
    forall i | 0 <= i < |s| :: IsSpace(s[i])
  }

  function TrimStart(s: String): (r: String)
    ensures |r| <= |s| && r == s[|s| - |r|..]
    ensures r == [] || !IsSpace(r[0])
    ensures forall i | 0 <= i < |s| - |r| :: IsSpace(s[i])
  {
    if s == [] || !IsSpace(s[0]) then s else TrimStart(s[1..])
  }

  function TrimEnd(s: String): (r: String)
    ensures |r| <= |s| && r == s[..|r|]
    ensures r == [] || !IsSpace(r[|r| - 1])
    ensures forall i | |r| <= i < |s| :: IsSpace(s[i])
  {
    if s == [] || !IsSpace(s[|s| - 1]) then s else TrimEnd(s[..|s| - 1])
  }

  /** No white space at either end. */
  predicate Trimmed(t: String) {
    t == [] || (!IsSpace(t[0]) && !IsSpace(t[|t| - 1]))
  }

  /** `String.prototype.trim`: the result is the slice of `s` between the
      leading and the trailing white space; it is empty exactly for blank input. */
  function Trim(s: String): (r: String)
    ensures Contains(s, r)
    ensures r == [] <==> IsBlank(s)
    ensures Trimmed(r)
  {
    TrimOccurs(s);
    TrimBlank(s);
    TrimEnd(TrimStart(s))
  }

  /** The trimmed text sits in `s` where the leading white space ends. */
  lemma TrimOccurs(s: String)
    ensures OccursAt(s, TrimEnd(TrimStart(s)), |s| - |TrimStart(s)|)
  {
    PrefixOfSuffixOccurs(s, TrimStart(s), TrimEnd(TrimStart(s)));
  }

  /** A prefix of a suffix of `s` occurs in `s` where the suffix starts. */
  lemma PrefixOfSuffixOccurs(s: String, t: String, r: String)
    requires |t| <= |s| && t == s[|s| - |t|..]
    requires |r| <= |t| && r == t[..|r|]
    ensures OccursAt(s, r, |s| - |t|)
  {
    var off := |s| - |t|;
    assert s[off..off + |r|] == s[off..][..|r|];
  }

  /** Trimming empties exactly the blank texts. */
  lemma TrimBlank(s: String)
    ensures TrimEnd(TrimStart(s)) == [] <==> IsBlank(s)
  {
    var t := TrimStart(s);
    if TrimEnd(t) == [] {
      assert t == [];
    } else {
      var off := |s| - |t|;
      assert s[off..] == t;
      assert s[off] == t[0];
    }
  }

  lemma TrimOfTrimmed(s: String)
    requires Trimmed(s)
    ensures Trim(s) == s
  {}

  /** `toLowerCase` on one character: ASCII and Latin-1 capitals. */
  function LowerChar(c: char): (r: char)
    ensures !('A' <= r <= 'Z')
  {
    if 'A' <= c <= 'Z' then (c as int + 32) as char
    else if '\U{00C0}' <= c <= '\U{00DE}' && c != '\U{00D7}' then (c as int + 32) as char
    else c
  }

  function Lower(s: String): (r: String)
    ensures |r| == |s|
    ensures forall i | 0 <= i < |s| :: r[i] == LowerChar(s[i])
  {
    if s == [] then [] else [LowerChar(s[0])] + Lower(s[1..])
  }

  lemma LowerCharIdempotent(c: char)
    ensures LowerChar(LowerChar(c)) == LowerChar(c)
  {}

  /** Lower-casing twice is lower-casing once, so a search term that is already
      lower case is left alone. */
  lemma LowerIdempotent(s: String)
    ensures Lower(Lower(s)) == Lower(s)
  {
    forall i | 0 <= i < |s| ensures Lower(Lower(s))[i] == Lower(s)[i] {
      LowerCharIdempotent(s[i]);
    }
  }

  /** `sub` occurs in `s` starting at index `i`. */
  predicate OccursAt(s: String, sub: String, i: int) {
    0 <= i && i + |sub| <= |s| && s[i..i + |sub|] == sub
  }

  /** `String.prototype.includes`. */
  predicate Contains(s: String, sub: String) {
    exists i | 0 <= i <= |s| :: OccursAt(s, sub, i)
  }

  lemma EmptyIsContained(s: String)
    ensures Contains(s, [])
  {
    assert OccursAt(s, [], 0);
  }

  lemma ContainsSelf(s: String)
    ensures Contains(s, s)
  {
    assert OccursAt(s, s, 0);
  }

  /** An occurrence inside a suffix is an occurrence in the whole string. */
  lemma ContainsInSuffix(s: String, i: nat, sub: String)
    requires i <= |s| && Contains(s[i..], sub)
    ensures Contains(s, sub)
  {
    var p :| 0 <= p <= |s[i..]| && OccursAt(s[i..], sub, p);
    assert s[i + p..i + p + |sub|] == s[i..][p..p + |sub|];
    assert OccursAt(s, sub, i + p);
  }

  /** An occurrence inside a prefix is an occurrence in the whole string. */
  lemma OccursInPrefix(s: String, j: nat, sub: String, p: int)
    requires j <= |s| && OccursAt(s[..j], sub, p)
    ensures OccursAt(s, sub, p)
  {
    assert s[p..p + |sub|] == s[..j][p..p + |sub|];
  }

  /** An occurrence past the end of `a` in `a + b` is an occurrence in `b`. */
  lemma OccursInSuffix(a: String, b: String, sub: String, p: int)
    requires OccursAt(a + b, sub, p) && p >= |a|
    ensures OccursAt(b, sub, p - |a|)
  {
    assert (a + b)[p..p + |sub|] == b[p - |a|..p - |a| + |sub|];
  }

  /** `String.prototype.substring(a, b)`: both ends clamped to the string,
      and swapped when the first is the larger. */
  function Substring(s: String, a: int, b: int): (r: String)
    ensures |r| <= |s|
    ensures 0 <= a <= b <= |s| ==> r == s[a..b]
    ensures 0 <= b <= a <= |s| ==> r == s[b..a]
  {
    var lo := if a < 0 then 0 else if a > |s| then |s| else a;
    var hi := if b < 0 then 0 else if b > |s| then |s| else b;
    if lo <= hi then s[lo..hi] else s[hi..lo]
  }

  // ---------------------------------------------------------------------------
  // Decimal rendering of integers, as template literals do with numbers

  function DigitChar(d: nat): (c: char)
    requires d < 10
    ensures '0' <= c <= '9'
  {
    (48 + d) as char
  }

  predicate IsDigit(c: char) { '0' <= c <= '9' }

  predicate AllDigits(s: String) {
    forall i | 0 <= i < |s| :: IsDigit(s[i])
  }

  function NatToString(n: nat): (r: String)
    ensures |r| >= 1 && AllDigits(r)
    ensures r[0] == '0' ==> n == 0
  {
    if n < 10 then [DigitChar(n)] else NatToString(n / 10) + [DigitChar(n % 10)]
  }

  function IntToString(i: int): (r: String)
    ensures |r| >= 1
    ensures i >= 0 <==> r[0] != '-'
  {
    if i < 0 then "-" + NatToString(-i) else NatToString(i)
  }

  /** Decimal value of a string of digits (the digit prefix `parseInt` reads). */
  function DigitsValue(s: String): nat
    requires AllDigits(s)
  {
    if s == [] then 0 else DigitsValue(s[..|s| - 1]) * 10 + (s[|s| - 1] as int - 48)
  }

  /** Rendering a natural number and reading it back gives the number. */
  lemma {:induction false} DigitsValueOfNatToString(n: nat)
    ensures DigitsValue(NatToString(n)) == n
  {
    if n >= 10 {
      var r := NatToString(n);
      assert r[..|r| - 1] == NatToString(n / 10);
      DigitsValueOfNatToString(n / 10);
    }
  }

  /** Two numbers render alike only if they are equal. */
  lemma NatToStringInjective(m: nat, n: nat)
    requires NatToString(m) == NatToString(n)
    ensures m == n
  {
    DigitsValueOfNatToString(m);
    DigitsValueOfNatToString(n);
  }

  /** The longest prefix of decimal digits. */
  function LeadingDigits(s: String): (r: String)
    ensures AllDigits(r) && |r| <= |s| && r == s[..|r|]
    ensures |r| < |s| ==> !IsDigit(s[|r|])
    ensures AllDigits(s) ==> r == s
  {
    if s == [] || !IsDigit(s[0]) then [] else [s[0]] + LeadingDigits(s[1..])
  }

  /** Digits followed by a non-digit: the digits are the leading digits. */
  lemma {:induction false} LeadingDigitsOfConcat(d: String, rest: String)
    requires AllDigits(d) && rest != [] && !IsDigit(rest[0])
    ensures LeadingDigits(d + rest) == d
  {
    if d != [] {
      assert (d + rest)[1..] == d[1..] + rest;
      LeadingDigitsOfConcat(d[1..], rest);
    }
  }

  /** `parseInt(s)` on decimal text without sign or leading white space:
      `None` stands for `NaN`. */
  function ParseLeadingNat(s: String): (r: Option<nat>)
    ensures r.None? <==> (s == [] || !IsDigit(s[0]))
    ensures AllDigits(s) && s != [] ==> r == Some(DigitsValue(s))
  {
    var d := LeadingDigits(s);
    if d == [] then None else Some(DigitsValue(d))
  }

  /** `parseInt(s)` on decimal text (no "0x" prefix): leading white space
      skipped, an optional sign, then the leading digits; None where
      JavaScript gives `NaN`. */
  function ParseInt(s: String): (r: Option<int>)
    ensures IsBlank(s) ==> r.None?
  {
    var t := TrimStart(s);
    if t != [] && (t[0] == '-' || t[0] == '+') then
      match ParseLeadingNat(t[1..])
      case None => None
      case Some(n) =>
        var v: int := if t[0] == '-' then 0 - (n as int) else n;
        Some(v)
    else
      match ParseLeadingNat(t)
      case None => None
      case Some(n) => Some(n)
  }

  lemma ParseLeadingNatOfNatToString(n: nat)
    ensures ParseLeadingNat(NatToString(n)) == Some(n)
  {
    DigitsValueOfNatToString(n);
  }

  lemma TrimStartOfVisible(s: String)
    requires s != [] && !IsSpace(s[0])
    ensures TrimStart(s) == s
  {}

  /** How many times `c` occurs in `s`. */
  function CountChar(s: String, c: char): nat {
    if s == [] then 0 else (if s[0] == c then 1 else 0) + CountChar(s[1..], c)
  }

  lemma {:induction false} CountCharAppend(a: String, b: String, c: char)
    ensures CountChar(a + b, c) == CountChar(a, c) + CountChar(b, c)
  {
    if a != [] {
      assert (a + b)[1..] == a[1..] + b;
      CountCharAppend(a[1..], b, c);
    } else {
      assert a + b == b;
    }
  }

  lemma {:induction false} CountCharAbsent(s: String, c: char)
    requires c !in s
    ensures CountChar(s, c) == 0
  {
    if s != [] {
      CountCharAbsent(s[1..], c);
    }
  }

  /** Plain digits read as their decimal value. */
  lemma ParseIntOfDigits(s: String)
    requires s != [] && AllDigits(s)
    ensures ParseInt(s) == Some(DigitsValue(s))
  {
    assert IsDigit(s[0]);
    TrimStartOfVisible(s);
  }

  /** A number written out in decimal reads back as itself. */
  lemma ParseIntOfIntToString(i: int)
    ensures ParseInt(IntToString(i)) == Some(i)
  {
    if i < 0 {
      var d := NatToString(-i);
      var s := "-" + d;
      assert IntToString(i) == s && s[0] == '-';
      TrimStartOfVisible(s);
      assert s[1..] == d;
      ParseLeadingNatOfNatToString(-i);
      assert ParseLeadingNat(TrimStart(s)[1..]) == Some(-i);
    } else {
      var d := NatToString(i);
      assert IntToString(i) == d && IsDigit(d[0]);
      TrimStartOfVisible(d);
      ParseLeadingNatOfNatToString(i);
      assert d[0] != '-' && d[0] != '+';
    }
  }

  // ---------------------------------------------------------------------------
  // Array.prototype.join and String.prototype.split

  function Join(xs: seq<String>, sep: String): (r: String)
    ensures xs == [] ==> r == []
    ensures |xs| == 1 ==> r == xs[0]
  {
    if xs == [] then [] else if |xs| == 1 then xs[0] else xs[0] + sep + Join(xs[1..], sep)
  }

  /** `s.split(sep)` for a one-character separator: the pieces between the
      separators, never an empty list. */
  function Split(s: String, sep: char): (r: seq<String>)
    ensures |r| >= 1
    ensures forall k | 0 <= k < |r| :: sep !in r[k]
  {
    if s == [] then [[]]
    else
      var rest := Split(s[1..], sep);
      if s[0] == sep then [[]] + rest else [[s[0]] + rest[0]] + rest[1..]
  }

  lemma {:induction false} SplitNoSeparator(s: String, sep: char)
    requires sep !in s
    ensures Split(s, sep) == [s]
  {
    if s != [] {
      SplitNoSeparator(s[1..], sep);
      assert [s[0]] + s[1..] == s;
    }
  }

  /** A text holding the separator splits into at least two pieces. */
  lemma {:induction false} SplitWithSeparator(s: String, sep: char)
    ensures sep in s ==> |Split(s, sep)| >= 2
  {
    if s != [] && s[0] != sep {
      SplitWithSeparator(s[1..], sep);
      assert sep in s ==> sep in s[1..];
    }
  }

  lemma {:induction false} SplitAfterPiece(a: String, sep: char, b: String)
    requires sep !in a
    ensures Split(a + [sep] + b, sep) == [a] + Split(b, sep)
  {
    if a == [] {
      assert a + [sep] + b == [sep] + b;
      assert ([sep] + b)[1..] == b;
    } else {
      assert (a + [sep] + b)[1..] == a[1..] + [sep] + b;
      SplitAfterPiece(a[1..], sep, b);
      assert [a[0]] + a[1..] == a;
    }
  }

  /** Splitting a join on the same separator gives the pieces back, provided
      there is at least one piece and no piece contains the separator. */
  lemma {:induction false} SplitJoin(xs: seq<String>, sep: char)
    requires |xs| >= 1
    requires forall k | 0 <= k < |xs| :: sep !in xs[k]
    ensures Split(Join(xs, [sep]), sep) == xs
  {
    if |xs| == 1 {
      SplitNoSeparator(xs[0], sep);
    } else {
      SplitJoin(xs[1..], sep);
      SplitAfterPiece(xs[0], sep, Join(xs[1..], [sep]));
      assert [xs[0]] + xs[1..] == xs;
    }
  }

  // ---------------------------------------------------------------------------
  // Lexicographic order on strings, character by character (JavaScript's `<`
  // compares UTF-16 code units; the two orders agree inside the Basic
  // Multilingual Plane)

  predicate StrLt(a: String, b: String)
    decreases |a|
  {
    if a == [] then b != []
    else if b == [] then false
    else if a[0] != b[0] then a[0] < b[0]
    else StrLt(a[1..], b[1..])
  }

  lemma {:induction false} StrLtIrreflexive(a: String)
    ensures !StrLt(a, a)
  {
    if a != [] {
      StrLtIrreflexive(a[1..]);
    }
  }

  lemma {:induction false} StrLtTransitive(a: String, b: String, c: String)
    requires StrLt(a, b) && StrLt(b, c)
    ensures StrLt(a, c)
    decreases |a|
  {
    if a != [] && b != [] && c != [] && a[0] == b[0] && b[0] == c[0] {
      StrLtTransitive(a[1..], b[1..], c[1..]);
    }
  }

  lemma {:induction false} StrLtTotal(a: String, b: String)
    requires a != b
    ensures StrLt(a, b) || StrLt(b, a)
    decreases |a|
  {
    if a != [] && b != [] && a[0] == b[0] {
      assert a == [a[0]] + a[1..] && b == [b[0]] + b[1..];
      StrLtTotal(a[1..], b[1..]);
    }
  }

  lemma {:induction false} StrLtAsymmetric(a: String, b: String)
    requires StrLt(a, b)
    ensures !StrLt(b, a)
    decreases |a|
  {
    if a != [] && b != [] && a[0] == b[0] {
      StrLtAsymmetric(a[1..], b[1..]);
    }
  }
}
