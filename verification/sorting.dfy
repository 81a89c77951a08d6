/** `Array.prototype.sort` with a key comparator, as the template list and the
    application table use it. The sort is stable (ECMAScript 2019 onwards), so
    it is modelled as insertion sort that places each element before the first
    one that does not strictly precede it. */
module Sorting {

  import opened Text
  import opened Seqs

  /** A sort key: a number (counts, rates, timestamps) or a string. */
  datatype Key = Num(n: int) | Str(s: String)

  datatype Direction = Asc | Desc

  /** Strict order on keys: numbers by value, strings in code-unit order as
      JavaScript's `<` compares them. Keys of one sort are all of one kind;
      numbers are put first only to make the order total. */
  predicate KeyLt(a: Key, b: Key) {
    match (a, b)
    case (Num(x), Num(y)) => x < y
    case (Str(x), Str(y)) => StrLt(x, y)
    case (Num(_), Str(_)) => true
    case (Str(_), Num(_)) => false
  }

  /** `a` is placed strictly before `b`: the comparator returns a negative number. */
  predicate Before(dir: Direction, a: Key, b: Key) {
    if dir == Asc then KeyLt(a, b) else KeyLt(b, a)
  }

  lemma KeyLtIrreflexive(a: Key)
    ensures !KeyLt(a, a)
  {
    if a.Str? {
      StrLtIrreflexive(a.s);
    }
  }

  lemma KeyLtTransitive(a: Key, b: Key, c: Key)
    requires KeyLt(a, b) && KeyLt(b, c)
    ensures KeyLt(a, c)
  {
    if a.Str? && b.Str? && c.Str? {
      StrLtTransitive(a.s, b.s, c.s);
    }
  }

  lemma KeyLtTotal(a: Key, b: Key)
    requires a != b
    ensures KeyLt(a, b) || KeyLt(b, a)
  {
    if a.Str? && b.Str? {
      StrLtTotal(a.s, b.s);
    }
  }

  lemma KeyLtAsymmetric(a: Key, b: Key)
    requires KeyLt(a, b)
    ensures !KeyLt(b, a)
  {
    if a.Str? && b.Str? {
      StrLtAsymmetric(a.s, b.s);
    }
  }

  /** "May come before": `b` is not strictly before `a`. This relation is
      transitive, which is what makes a sorted list sorted pairwise. */
  lemma NotBeforeTransitive(dir: Direction, a: Key, b: Key, c: Key)
    requires !Before(dir, b, a) && !Before(dir, c, b)
    ensures !Before(dir, c, a)
  {
    if Before(dir, c, a) {
      if a == b {
      } else {
        KeyLtTotal(a, b);
        if dir == Asc {
          KeyLtTransitive(c, a, b);
        } else {
          KeyLtTransitive(b, a, c);
        }
      }
    }
  }

  /** Every element may come before every later one. */
  predicate Sorted<T>(xs: seq<T>, key: T -> Key, dir: Direction) {
    forall i, j | 0 <= i < j < |xs| :: !Before(dir, key(xs[j]), key(xs[i]))
  }

  /** `x` may go in front of a sorted list whose head does not strictly precede it. */
  lemma SortedInFront<T>(x: T, ys: seq<T>, key: T -> Key, dir: Direction)
    requires Sorted(ys, key, dir)
    requires ys == [] || !Before(dir, key(ys[0]), key(x))
    ensures Sorted([x] + ys, key, dir)
  {
    forall j | 1 <= j < |ys| ensures !Before(dir, key(ys[j]), key(x)) {
      NotBeforeTransitive(dir, key(x), key(ys[0]), key(ys[j]));
    }
  }

  /** A head that strictly precedes `x` may stay in front of a sorted list
      made of its old followers and `x`. */
  lemma SortedBehindHead<T>(y: T, x: T, tail: seq<T>, rest: seq<T>, key: T -> Key, dir: Direction)
    requires Sorted([y] + tail, key, dir) && Sorted(rest, key, dir)
    requires Before(dir, key(y), key(x))
    requires multiset(rest) == multiset(tail) + multiset{x}
    ensures Sorted([y] + rest, key, dir)
  {
    var r := [y] + rest;
    assert !Before(dir, key(x), key(y)) by {
      if dir == Asc {
        KeyLtAsymmetric(key(y), key(x));
      } else {
        KeyLtAsymmetric(key(x), key(y));
      }
    }
    forall j | 1 <= j < |r| ensures !Before(dir, key(r[j]), key(y)) {
      assert r[j] == rest[j - 1];
      assert r[j] in multiset(rest);
      if r[j] != x {
        assert r[j] in multiset(tail);
        var k :| 0 <= k < |tail| && tail[k] == r[j];
        var ys := [y] + tail;
        assert ys[0] == y && ys[k + 1] == r[j];
        assert !Before(dir, key(ys[k + 1]), key(ys[0]));
      }
    }
  }

  /** Inserts `x` before the first element of `ys` that does not strictly precede it. */
  function Insert<T>(x: T, ys: seq<T>, key: T -> Key, dir: Direction): (r: seq<T>)
    requires Sorted(ys, key, dir)
    ensures multiset(r) == multiset(ys) + multiset{x}
    ensures Sorted(r, key, dir)
  {
    if ys == [] || !Before(dir, key(ys[0]), key(x)) then
      SortedInFront(x, ys, key, dir);
      assert multiset([x] + ys) == multiset(ys) + multiset{x};
      [x] + ys
    else
      var rest := Insert(x, ys[1..], key, dir);
      assert ys == [ys[0]] + ys[1..];
      SortedBehindHead(ys[0], x, ys[1..], rest, key, dir);
      [ys[0]] + rest
  }

  /** The stable sort: `[...xs].sort(comparator)`. */
  function SortBy<T>(xs: seq<T>, key: T -> Key, dir: Direction): (r: seq<T>)
    ensures multiset(r) == multiset(xs)
    ensures Sorted(r, key, dir)
  {
    if xs == [] then []
    else
      assert xs == [xs[0]] + xs[1..];
      Insert(xs[0], SortBy(xs[1..], key, dir), key, dir)
  }

  lemma SortedLength<T>(xs: seq<T>, key: T -> Key, dir: Direction)
    ensures |SortBy(xs, key, dir)| == |xs|
  {
    var r := SortBy(xs, key, dir);
    assert |multiset(r)| == |multiset(xs)|;
  }

  /** Inserting `x` keeps the relative order of the elements sharing any one key. */
  lemma {:induction false} InsertStable<T>(x: T, ys: seq<T>, key: T -> Key, dir: Direction, k: Key, p: T -> bool)
    requires Sorted(ys, key, dir)
    requires forall y :: p(y) == (key(y) == k)
    ensures Filter(Insert(x, ys, key, dir), p) == Filter([x] + ys, p)
  {
    assert ([x] + ys)[1..] == ys;
    if ys != [] && Before(dir, key(ys[0]), key(x)) {
      assert ys == [ys[0]] + ys[1..];
      var rest := Insert(x, ys[1..], key, dir);
      assert ([ys[0]] + rest)[1..] == rest;
      InsertStable(x, ys[1..], key, dir, k, p);
      assert ([x] + ys[1..])[1..] == ys[1..];
      assert key(ys[0]) != key(x) by {
        KeyLtIrreflexive(key(x));
      }
    }
  }

  /** Stability: for every key, the elements with that key appear in the sorted
      list in exactly the order they had in the input. */
  lemma {:induction false} SortStable<T>(xs: seq<T>, key: T -> Key, dir: Direction, k: Key, p: T -> bool)
    requires forall y :: p(y) == (key(y) == k)
    ensures Filter(SortBy(xs, key, dir), p) == Filter(xs, p)
  {
    if xs != [] {
      var sorted := SortBy(xs[1..], key, dir);
      InsertStable(xs[0], sorted, key, dir, k, p);
      SortStable(xs[1..], key, dir, k, p);
      assert ([xs[0]] + sorted)[1..] == sorted;
    }
  }

  /** A list that is already sorted is left as it is. */
  lemma {:induction false} SortOfSorted<T>(xs: seq<T>, key: T -> Key, dir: Direction)
    requires Sorted(xs, key, dir)
    ensures SortBy(xs, key, dir) == xs
  {
    if xs != [] {
      assert Sorted(xs[1..], key, dir) by {
        forall i, j | 0 <= i < j < |xs[1..]| ensures !Before(dir, key(xs[1..][j]), key(xs[1..][i])) {
          assert xs[1..][i] == xs[i + 1] && xs[1..][j] == xs[j + 1];
        }
      }
      SortOfSorted(xs[1..], key, dir);
      if |xs| > 1 {
        assert !Before(dir, key(xs[1..][0]), key(xs[0])) by {
          assert xs[1..][0] == xs[1];
        }
      }
      assert [xs[0]] + xs[1..] == xs;
    }
  }
}
