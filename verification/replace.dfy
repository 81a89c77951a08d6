/** Global literal replacement, `s.replace(new RegExp(escaped(key), 'g'), value)`,
    and the placeholder substitution the template editor and the template
    preview perform with it: every `{{NAME}}` placeholder in a table is replaced,
    one after the other, by its sample value. */
module Replace {

  import opened Opt
  import opened Text

  /** The first index at or after `i` where `k` occurs in `s`. */
  function FindFrom(s: String, k: String, i: nat): (r: Option<nat>)
    requires k != [] && i <= |s|
    requires forall j | 0 <= j < i :: !OccursAt(s, k, j)
    ensures r.Some? ==> i <= r.value && OccursAt(s, k, r.value)
    ensures r.Some? ==> forall j | 0 <= j < r.value :: !OccursAt(s, k, j)
    ensures r.None? ==> !Contains(s, k)
    decreases |s| - i
  {
    if i + |k| > |s| then None
    else if s[i..i + |k|] == k then Some(i)
    else FindFrom(s, k, i + 1)
  }

  /** The index of the first occurrence of `k` in `s`, `None` when there is none. */
  function FirstOccurrence(s: String, k: String): (r: Option<nat>)
    requires k != []
    ensures r.Some? ==> OccursAt(s, k, r.value)
    ensures r.Some? ==> forall j | 0 <= j < r.value :: !OccursAt(s, k, j)
    ensures r.None? <==> !Contains(s, k)
  {
    FindFrom(s, k, 0)
  }

  /** Replaces every occurrence of `k` in `s` by `v`, scanning left to right
      and never looking at text already produced by a replacement. `v` is
      inserted literally: the `$&` and `$1` patterns that `String.replace`
      expands in a replacement are not interpreted, and none of the sample
      values holds a `$`. */
  function ReplaceAll(s: String, k: String, v: String): String
    requires k != []
    decreases |s|
  {
    match FirstOccurrence(s, k)
    case None => s
    case Some(j) => s[..j] + v + ReplaceAll(s[j + |k|..], k, v)
  }

  lemma ReplaceAllUnfold(s: String, k: String, v: String, j: nat)
    requires k != [] && FirstOccurrence(s, k) == Some(j)
    ensures j + |k| <= |s|
    ensures ReplaceAll(s, k, v) == s[..j] + v + ReplaceAll(s[j + |k|..], k, v)
  {
    assert OccursAt(s, k, j);
  }

  /** Text without the key comes through unchanged. */
  lemma ReplaceAllAbsent(s: String, k: String, v: String)
    requires k != [] && !Contains(s, k)
    ensures ReplaceAll(s, k, v) == s
  {}

  /** Replacing a string by itself changes nothing. */
  lemma {:induction false} ReplaceByItself(s: String, k: String)
    requires k != []
    ensures ReplaceAll(s, k, k) == s
    decreases |s|
  {
    match FirstOccurrence(s, k)
    case None =>
    case Some(j) =>
      ReplaceByItself(s[j + |k|..], k);
      assert s == s[..j] + s[j..j + |k|] + s[j + |k|..];
  }

  /** Characters a placeholder is made of. */
  predicate KeyAlphabet(c: char) {
    'A' <= c <= 'Z' || c == '_' || c == '{' || c == '}'
  }

  /** `{{NAME}}` with NAME made of capital letters and underscores. */
  predicate IsPlaceholderKey(k: String) {
    && |k| >= 4
    && k[0] == '{' && k[1] == '{' && k[|k| - 2] == '}' && k[|k| - 1] == '}'
    && forall i | 2 <= i < |k| - 2 :: 'A' <= k[i] <= 'Z' || k[i] == '_'
  }

  predicate NoBraces(v: String) {
    forall i | 0 <= i < |v| :: v[i] != '{' && v[i] != '}'
  }

  lemma NoBracesConcat(a: String, b: String)
    requires NoBraces(a) && NoBraces(b)
    ensures NoBraces(a + b)
  {
    forall i | 0 <= i < |a + b| ensures (a + b)[i] != '{' && (a + b)[i] != '}' {
      if i >= |a| {
        assert (a + b)[i] == b[i - |a|];
      }
    }
  }

  /** A replacement value that cannot help form a placeholder: no braces, and
      at least one character (a space, a lower-case letter, a digit, ...) that
      no placeholder contains. */
  predicate SafeValue(v: String) {
    && NoBraces(v)
    && exists t | 0 <= t < |v| :: !KeyAlphabet(v[t])
  }

  lemma PlaceholderAlphabet(k: String, i: int)
    requires IsPlaceholderKey(k) && 0 <= i < |k|
    ensures KeyAlphabet(k[i])
  {}

  /** An occurrence of a placeholder in `a + v + b` lies wholly inside `a` or
      wholly inside `b`: it cannot start or end inside a safe `v`, nor cover it. */
  lemma {:induction false} NoOccurrenceAcrossValue(a: String, v: String, b: String, k: String, p: int)
    requires IsPlaceholderKey(k) && SafeValue(v)
    requires OccursAt(a + v + b, k, p)
    ensures p + |k| <= |a| || p >= |a| + |v|
  {
    var out := a + v + b;
    assert forall q | 0 <= q < |k| :: out[p + q] == k[q];
    var t :| 0 <= t < |v| && !KeyAlphabet(v[t]);
    if p < |a| && p + |k| - 1 >= |a| + |v| {
      PlaceholderAlphabet(k, |a| + t - p);
    }
  }

  /** Putting a safe value between two texts free of a placeholder creates no
      occurrence of it. */
  lemma NoKeyAroundValue(a: String, v: String, b: String, k: String)
    requires IsPlaceholderKey(k) && SafeValue(v)
    requires !Contains(a, k) && !Contains(b, k)
    ensures !Contains(a + v + b, k)
  {
    if Contains(a + v + b, k) {
      var p :| 0 <= p <= |a + v + b| && OccursAt(a + v + b, k, p);
      NoOccurrenceAcrossValue(a, v, b, k, p);
      if p + |k| <= |a| {
        assert (a + v + b)[p..p + |k|] == a[p..p + |k|];
        assert OccursAt(a, k, p);
      } else {
        OccursInSuffix(a + v, b, k, p);
      }
    }
  }

  /** Text before the first occurrence of `k` holds no `other`, when `other`
      is `k` itself or absent from the whole text. */
  lemma PrefixFree(s: String, j: nat, k: String, other: String)
    requires j <= |s| && other != []
    requires forall i | 0 <= i < j :: !OccursAt(s, k, i)
    requires other == k || !Contains(s, other)
    ensures !Contains(s[..j], other)
  {
    if Contains(s[..j], other) {
      var p :| 0 <= p <= |s[..j]| && OccursAt(s[..j], other, p);
      OccursInPrefix(s, j, other, p);
    }
  }

  /** One step of the replacement: given that the rest after the first
      occurrence comes out clean, so does the whole. */
  lemma ReplaceStepLeavesNoKey(s: String, k: String, v: String, other: String, j: nat)
    requires IsPlaceholderKey(k) && IsPlaceholderKey(other) && SafeValue(v)
    requires other == k || !Contains(s, other)
    requires FirstOccurrence(s, k) == Some(j)
    requires !Contains(ReplaceAll(s[j + |k|..], k, v), other)
    ensures !Contains(ReplaceAll(s, k, v), other)
  {
    ReplaceAllUnfold(s, k, v, j);
    PrefixFree(s, j, k, other);
    NoKeyAroundValue(s[..j], v, ReplaceAll(s[j + |k|..], k, v), other);
  }

  /** Global replacement of a placeholder by a safe value leaves no occurrence
      of it behind, and creates no occurrence of any other placeholder. */
  lemma {:induction false} ReplaceAllLeavesNoKey(s: String, k: String, v: String, other: String)
    requires IsPlaceholderKey(k) && IsPlaceholderKey(other) && SafeValue(v)
    requires other == k || !Contains(s, other)
    ensures !Contains(ReplaceAll(s, k, v), other)
    decreases |s|
  {
    match FirstOccurrence(s, k)
    case None =>
    case Some(j) =>
      var rest := s[j + |k|..];
      assert other == k || !Contains(rest, other) by {
        if other != k && Contains(rest, other) {
          ContainsInSuffix(s, j + |k|, other);
        }
      }
      ReplaceAllLeavesNoKey(rest, k, v, other);
      ReplaceStepLeavesNoKey(s, k, v, other, j);
  }

  /** One row of a placeholder table: the key and the value it is replaced by. */
  datatype Placeholder = Placeholder(key: String, value: String)

  predicate WellFormedTable(table: seq<Placeholder>) {
    forall i | 0 <= i < |table| :: IsPlaceholderKey(table[i].key) && SafeValue(table[i].value)
  }

  /** `table.forEach(p => { text = text.replace(/p.key/g, p.value) })`. */
  function ApplyTable(s: String, table: seq<Placeholder>): String
    requires forall i | 0 <= i < |table| :: table[i].key != []
    decreases |table|
  {
    if table == [] then s
    else ApplyTable(ReplaceAll(s, table[0].key, table[0].value), table[1..])
  }

  /** Text without any of the table's placeholders comes through unchanged. */
  lemma {:induction false} ApplyTableUnchanged(s: String, table: seq<Placeholder>)
    requires forall i | 0 <= i < |table| :: table[i].key != [] && !Contains(s, table[i].key)
    ensures ApplyTable(s, table) == s
    decreases |table|
  {
    if table != [] {
      ReplaceAllAbsent(s, table[0].key, table[0].value);
      ApplyTableUnchanged(s, table[1..]);
    }
  }

  /** A placeholder absent from the text stays absent through the whole table. */
  lemma {:induction false} ApplyTableKeepsAbsent(s: String, table: seq<Placeholder>, other: String)
    requires WellFormedTable(table) && IsPlaceholderKey(other) && !Contains(s, other)
    ensures !Contains(ApplyTable(s, table), other)
    decreases |table|
  {
    if table != [] {
      ReplaceAllLeavesNoKey(s, table[0].key, table[0].value, other);
      ApplyTableKeepsAbsent(ReplaceAll(s, table[0].key, table[0].value), table[1..], other);
    }
  }

  /** After the substitution no placeholder of the table is left in the text,
      whatever the text contained. */
  lemma {:induction false} ApplyTableLeavesNoKey(s: String, table: seq<Placeholder>, i: int)
    requires WellFormedTable(table) && 0 <= i < |table|
    ensures !Contains(ApplyTable(s, table), table[i].key)
    decreases |table|
  {
    var s1 := ReplaceAll(s, table[0].key, table[0].value);
    if i == 0 {
      ReplaceAllLeavesNoKey(s, table[0].key, table[0].value, table[0].key);
      ApplyTableKeepsAbsent(s1, table[1..], table[0].key);
    } else {
      ApplyTableLeavesNoKey(s1, table[1..], i - 1);
    }
  }
}
