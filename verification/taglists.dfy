/** The set-like list editors found throughout the dashboard: keyword, company
    and platform lists, locations, categories, experience levels, skills,
    multi-selects, template job types and table selections are all edited with
    the same three moves on an array: add-if-absent, remove-all and toggle. */
module TagLists {

  import opened Seqs

  predicate NoDuplicates<T(==)>(xs: seq<T>) {
    forall i, j | 0 <= i < j < |xs| :: xs[i] != xs[j]
  }

  /** `xs.includes(x) ? xs : [...xs, x]`. */
  function AddIfAbsent<T(==,!new)>(xs: seq<T>, x: T): (r: seq<T>)
    ensures forall y :: y in r <==> y in xs || y == x
    ensures x in xs ==> r == xs
    ensures x !in xs ==> |r| == |xs| + 1 && r[..|xs|] == xs && r[|xs|] == x
  {
    if x in xs then xs else xs + [x]
  }

  /** `xs.filter(y => y !== x)`: every copy of `x` goes, everything else stays in order. */
  function RemoveAll<T(==,!new)>(xs: seq<T>, x: T): (r: seq<T>)
    ensures x !in r
    ensures forall y | y != x :: y in r <==> y in xs
    ensures IsSubseq(r, xs)
    ensures x !in xs ==> r == xs
    ensures |r| <= |xs|
  {
    if xs == [] then []
    else
      var rest := RemoveAll(xs[1..], x);
      assert xs == [xs[0]] + xs[1..];
      if xs[0] == x then
        IsSubseqCons(rest, xs[0], xs[1..]);
        rest
      else
        assert ([xs[0]] + rest)[1..] == rest;
        [xs[0]] + rest
  }

  /** `xs.includes(x) ? xs.filter(y => y !== x) : [...xs, x]`. */
  function Toggle<T(==,!new)>(xs: seq<T>, x: T): (r: seq<T>)
    ensures x in r <==> x !in xs
    ensures forall y | y != x :: y in r <==> y in xs
  {
    if x in xs then RemoveAll(xs, x) else xs + [x]
  }

  lemma RemoveAllCons<T(!new)>(y: T, xs: seq<T>, x: T)
    ensures RemoveAll([y] + xs, x) == (if y == x then [] else [y]) + RemoveAll(xs, x)
  {
    assert ([y] + xs)[1..] == xs;
  }

  lemma {:induction false} RemoveAllAppend<T(!new)>(a: seq<T>, b: seq<T>, x: T)
    ensures RemoveAll(a + b, x) == RemoveAll(a, x) + RemoveAll(b, x)
  {
    if a == [] {
      assert a + b == b;
    } else {
      var y, rest := a[0], a[1..];
      RemoveAllAppend(rest, b, x);
      assert a == [y] + rest;
      AppendAssoc([y], rest, b);
      RemoveAllCons(y, rest + b, x);
      RemoveAllCons(y, rest, x);
      AppendAssoc(if y == x then [] else [y], RemoveAll(rest, x), RemoveAll(b, x));
    }
  }

  /** Toggling an absent element twice gives the list back unchanged. */
  lemma ToggleTwiceRestores<T(!new)>(xs: seq<T>, x: T)
    requires x !in xs
    ensures Toggle(Toggle(xs, x), x) == xs
  {
    RemoveAllAppend(xs, [x], x);
    assert RemoveAll([x], x) == [];
  }

  /** Toggling a present element twice moves its single copy to the end. */
  lemma ToggleTwiceMovesToEnd<T(!new)>(xs: seq<T>, x: T)
    requires x in xs
    ensures Toggle(Toggle(xs, x), x) == RemoveAll(xs, x) + [x]
  {}

  /** A toggle never disturbs the other elements: with `x` taken out, before
      and after agree, order included. */
  lemma ToggleKeepsOthers<T(!new)>(xs: seq<T>, x: T)
    ensures RemoveAll(Toggle(xs, x), x) == RemoveAll(xs, x)
  {
    if x in xs {
      RemoveAllIdempotent(xs, x);
    } else {
      RemoveAllAppend(xs, [x], x);
      assert RemoveAll([x], x) == [];
    }
  }

  lemma RemoveAllIdempotent<T(!new)>(xs: seq<T>, x: T)
    ensures RemoveAll(RemoveAll(xs, x), x) == RemoveAll(xs, x)
  {}

  lemma {:induction false} NoDuplicatesAppend<T(!new)>(xs: seq<T>, x: T)
    requires NoDuplicates(xs) && x !in xs
    ensures NoDuplicates(xs + [x])
  {
    forall i, j | 0 <= i < j < |xs + [x]| ensures (xs + [x])[i] != (xs + [x])[j] {
      if j == |xs| {
        assert (xs + [x])[i] == xs[i];
      }
    }
  }

  /** The two halves of a duplicate-free list are duplicate-free and share
      no element. */
  lemma NoDuplicatesConcat<T>(a: seq<T>, b: seq<T>)
    requires NoDuplicates(a + b)
    ensures NoDuplicates(a) && NoDuplicates(b)
    ensures forall x | x in a :: x !in b
  {
    var ab := a + b;
    forall i, j | 0 <= i < j < |b| ensures b[i] != b[j] {
      assert b[i] == ab[|a| + i] && b[j] == ab[|a| + j];
    }
    forall x | x in a ensures x !in b {
      var i :| 0 <= i < |a| && a[i] == x;
      forall j | 0 <= j < |b| ensures b[j] != x {
        assert ab[i] == a[i] && ab[|a| + j] == b[j];
      }
    }
    forall i, j | 0 <= i < j < |a| ensures a[i] != a[j] {
      assert a[i] == ab[i] && a[j] == ab[j];
    }
  }

  lemma {:induction false} NoDuplicatesSubseq<T(!new)>(a: seq<T>, b: seq<T>)
    requires IsSubseq(a, b) && NoDuplicates(b)
    ensures NoDuplicates(a)
    decreases |b|
  {
    if a != [] && b != [] {
      assert NoDuplicates(b[1..]) by {
        forall i, j | 0 <= i < j < |b[1..]| ensures b[1..][i] != b[1..][j] {
          assert b[1..][i] == b[i + 1] && b[1..][j] == b[j + 1];
        }
      }
      if a[0] == b[0] {
        NoDuplicatesSubseq(a[1..], b[1..]);
        SubseqMembers(a[1..], b[1..]);
        assert b[0] !in b[1..] by {
          forall k | 0 <= k < |b[1..]| ensures b[1..][k] != b[0] {
            assert b[1..][k] == b[k + 1];
          }
        }
        forall i, j | 0 <= i < j < |a| ensures a[i] != a[j] {
          if i == 0 {
            assert a[j] == a[1..][j - 1];
            assert a[j] in a[1..];
          } else {
            assert a[i] == a[1..][i - 1] && a[j] == a[1..][j - 1];
          }
        }
      } else {
        NoDuplicatesSubseq(a, b[1..]);
      }
    }
  }

  lemma {:induction false} SubseqMembers<T(!new)>(a: seq<T>, b: seq<T>)
    requires IsSubseq(a, b)
    ensures forall y | y in a :: y in b
    decreases |b|
  {
    if a != [] && b != [] {
      if a[0] == b[0] {
        SubseqMembers(a[1..], b[1..]);
        forall y | y in a ensures y in b {
          if y != a[0] {
            assert y in a[1..];
          }
        }
      } else {
        SubseqMembers(a, b[1..]);
      }
    }
  }

  /** None of the three edits introduces a duplicate. */
  lemma EditsKeepNoDuplicates<T(!new)>(xs: seq<T>, x: T)
    requires NoDuplicates(xs)
    ensures NoDuplicates(AddIfAbsent(xs, x))
    ensures NoDuplicates(RemoveAll(xs, x))
    ensures NoDuplicates(Toggle(xs, x))
  {
    NoDuplicatesSubseq(RemoveAll(xs, x), xs);
    if x !in xs {
      NoDuplicatesAppend(xs, x);
    }
  }
}
