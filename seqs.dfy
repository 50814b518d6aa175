/** Searching and splitting sequences at a delimiter. */
module Seqs {

  /** The position of the first `x` in `s`, or -1 when there is none (IndexOfFinds states this). */
  function IndexOf<T(==)>(s: seq<T>, x: T): (i: int)
    ensures -1 <= i < |s|
  {
    if |s| == 0 then -1
    else if s[0] == x then 0
    else
      var j := IndexOf(s[1..], x);
      if j < 0 then -1 else j + 1
  }

  /** IndexOf finds the first occurrence of `x`, and -1 exactly when there is none. */
  lemma {:induction false} IndexOfFinds<T>(s: seq<T>, x: T)
    ensures -1 <= IndexOf(s, x) < |s|
    ensures IndexOf(s, x) == -1 <==> x !in s
    ensures 0 <= IndexOf(s, x) ==> s[IndexOf(s, x)] == x && x !in s[..IndexOf(s, x)]
  {
    if |s| > 0 && s[0] != x {
      IndexOfFinds(s[1..], x);
      var j := IndexOf(s[1..], x);
      if j >= 0 {
        assert s[..j + 1] == [s[0]] + s[1..][..j];
      } else {
        assert s == [s[0]] + s[1..];
      }
    }
  }

  /** An occurrence of `x` with none before it is the one IndexOf finds. */
  lemma IndexOfFirst<T>(s: seq<T>, x: T, i: nat)
    requires i < |s| && s[i] == x && x !in s[..i]
    ensures IndexOf(s, x) == i
  {
    IndexOfFinds(s, x);
    assert forall m :: i < m <= |s| ==> s[..m][i] == x;
    assert forall m :: 0 <= m < i ==> s[..i][m] == s[m];
  }

  lemma AppendAssoc<T>(x: seq<T>, y: seq<T>, z: seq<T>)
    ensures (x + y) + z == x + (y + z)
  {
  }

  lemma TakeDrop<T>(s: seq<T>, n: nat)
    requires n <= |s|
    ensures s[..n] + s[n..] == s
  {
  }

  lemma DropDrop<T>(s: seq<T>, i: nat, j: nat)
    requires i + j <= |s|
    ensures s[i..][j..] == s[i + j..]
    ensures s[i..][..j] == s[i..i + j]
  {
  }

  lemma DropAppend<T>(a: seq<T>, b: seq<T>, n: nat)
    requires n <= |a|
    ensures (a + b)[n..] == a[n..] + b
    ensures (a + b)[..n] == a[..n]
  {
  }

  /** Joins `parts` with one `sep` between neighbours, as Go's `strings.Join`. */
  function Join<T>(parts: seq<seq<T>>, sep: T): seq<T>
  {
    if |parts| == 0 then []
    else if |parts| == 1 then parts[0]
    else parts[0] + [sep] + Join(parts[1..], sep)
  }

  /** Cuts `s` at every `sep`; the inverse of Join on parts free of `sep`. */
  function Split<T(==)>(s: seq<T>, sep: T): (parts: seq<seq<T>>)
    ensures |parts| >= 1
    decreases |s|
  {
    var i := IndexOf(s, sep);
    if i < 0 then [s] else [s[..i]] + Split(s[i + 1..], sep)
  }

  /** The number of occurrences of `x` in `s`. */
  function Count<T(==)>(s: seq<T>, x: T): nat
  {
    if |s| == 0 then 0 else (if s[0] == x then 1 else 0) + Count(s[1..], x)
  }

  lemma {:induction false} CountAppend<T>(a: seq<T>, b: seq<T>, x: T)
    ensures Count(a + b, x) == Count(a, x) + Count(b, x)
  {
    if |a| == 0 {
      assert a + b == b;
    } else {
      assert (a + b)[1..] == a[1..] + b;
      CountAppend(a[1..], b, x);
    }
  }

  lemma {:induction false} CountAbsent<T>(s: seq<T>, x: T)
    requires x !in s
    ensures Count(s, x) == 0
  {
    if |s| > 0 {
      CountAbsent(s[1..], x);
    }
  }

  /** No element of `parts` contains `sep`. */
  predicate FreeOf<T(==)>(parts: seq<seq<T>>, sep: T)
  {
    forall k :: 0 <= k < |parts| ==> sep !in parts[k]
  }

  /** Splitting a joined sequence at the separator gives the parts back. */
  lemma {:induction false} SplitJoin<T>(parts: seq<seq<T>>, sep: T)
    requires |parts| >= 1
    requires FreeOf(parts, sep)
    ensures Split(Join(parts, sep), sep) == parts
  {
    if |parts| == 1 {
      IndexOfFinds(parts[0], sep);
    } else {
      var s := Join(parts, sep);
      var rest := Join(parts[1..], sep);
      assert s == parts[0] + [sep] + rest;
      assert sep !in parts[0];
      IndexOfAfterFree(parts[0], sep, rest);
      assert s[..|parts[0]|] == parts[0];
      assert s[|parts[0]| + 1..] == rest;
      SplitJoin(parts[1..], sep);
      assert [parts[0]] + parts[1..] == parts;
    }
  }

  /** The first `sep` in `a + [sep] + b` sits right after `a` when `a` has none. */
  lemma {:induction false} IndexOfAfterFree<T>(a: seq<T>, sep: T, b: seq<T>)
    requires sep !in a
    ensures IndexOf(a + [sep] + b, sep) == |a|
  {
    var s := a + [sep] + b;
    assert s[..|a|] == a;
    IndexOfFirst(s, sep, |a|);
  }

  /** The number of separators in a join is one less than the number of parts. */
  lemma {:induction false} CountJoin<T>(parts: seq<seq<T>>, sep: T)
    requires |parts| >= 1
    requires FreeOf(parts, sep)
    ensures Count(Join(parts, sep), sep) == |parts| - 1
  {
    if |parts| == 1 {
      CountAbsent(parts[0], sep);
    } else {
      CountAbsent(parts[0], sep);
      CountAppend(parts[0], [sep], sep);
      CountAppend(parts[0] + [sep], Join(parts[1..], sep), sep);
      CountJoin(parts[1..], sep);
    }
  }

  /** The concatenation of `g(x)` over the elements `x` of `s`, in order. */
  function FlatMap<E, T>(s: seq<E>, g: E -> seq<T>): seq<T>
  {
    if |s| == 0 then [] else FlatMap(s[..|s| - 1], g) + g(s[|s| - 1])
  }

  lemma FlatMapPrefixStep<E, T>(s: seq<E>, h: nat, g: E -> seq<T>)
    requires h < |s|
    ensures FlatMap(s[..h + 1], g) == FlatMap(s[..h], g) + g(s[h])
  {
    assert s[..h + 1][..h] == s[..h];
  }

  lemma {:induction false} FlatMapAppend<E, T>(a: seq<E>, b: seq<E>, g: E -> seq<T>)
    ensures FlatMap(a + b, g) == FlatMap(a, g) + FlatMap(b, g)
    decreases |b|
  {
    if |b| == 0 {
      assert a + b == a;
    } else {
      var init := b[..|b| - 1];
      assert (a + b)[..|a + b| - 1] == a + init;
      assert (a + b)[|a + b| - 1] == b[|b| - 1];
      FlatMapAppend(a, init, g);
      AppendAssoc(FlatMap(a, g), FlatMap(init, g), g(b[|b| - 1]));
    }
  }

  /** Elements that contribute nothing leave nothing. */
  lemma {:induction false} FlatMapEmpty<E, T>(s: seq<E>, g: E -> seq<T>)
    requires forall k :: 0 <= k < |s| ==> g(s[k]) == []
    ensures FlatMap(s, g) == []
    decreases |s|
  {
    if |s| > 0 {
      FlatMapEmpty(s[..|s| - 1], g);
    }
  }

  /** Elements that contribute one item each contribute one item per element. */
  lemma {:induction false} FlatMapSingletons<E, T>(s: seq<E>, g: E -> seq<T>)
    requires forall k :: 0 <= k < |s| ==> |g(s[k])| == 1
    ensures |FlatMap(s, g)| == |s|
    decreases |s|
  {
    if |s| > 0 {
      FlatMapSingletons(s[..|s| - 1], g);
    }
  }
}
