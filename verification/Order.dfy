/** Sorting with a strict order: what sort.Slice promises, and when the result is the only one possible. */
module Order {
  // ---------------------------------------------------------------- strings

  /** Lexicographic order, as Go compares strings. */
  predicate TextLess(a: string, b: string) {
    b != "" && (a == "" || a[0] < b[0] || (a[0] == b[0] && TextLess(a[1..], b[1..])))
  }

  lemma {:induction false} TextLessTotal(a: string, b: string)
    ensures a == b || TextLess(a, b) || TextLess(b, a)
    ensures !(TextLess(a, b) && TextLess(b, a))
    ensures !TextLess(a, a)
  {
    if a != "" {
      TextLessTotal(a[1..], if b == "" then "" else b[1..]);
      if b != "" {
        assert a == [a[0]] + a[1..] && b == [b[0]] + b[1..];
      }
    }
  }

  lemma {:induction false} TextLessTransitive(a: string, b: string, c: string)
    requires TextLess(a, b) && TextLess(b, c)
    ensures TextLess(a, c)
  {
    if a != "" && a[0] == b[0] == c[0] {
      TextLessTransitive(a[1..], b[1..], c[1..]);
    }
  }

  /** A proper prefix comes first, and else the string with the smaller character at the first difference. */
  lemma {:induction false} TextLessMeans(a: string, b: string)
    ensures TextLess(a, b) <==> a < b || exists k :: TextDiffersAt(a, b, k) && a[k] < b[k]
  {
    if a != "" && b != "" {
      if a[0] == b[0] {
        TextLessMeans(a[1..], b[1..]);
        assert a == [a[0]] + a[1..] && b == [b[0]] + b[1..];
        forall k | TextDiffersAt(a[1..], b[1..], k) ensures TextDiffersAt(a, b, k + 1) {
          assert forall i :: 1 <= i <= k ==> a[i] == a[1..][i - 1] && b[i] == b[1..][i - 1];
        }
        forall k | TextDiffersAt(a, b, k) ensures k > 0 && TextDiffersAt(a[1..], b[1..], k - 1) {
        }
        if j :| TextDiffersAt(a[1..], b[1..], j) && a[1..][j] < b[1..][j] {
          assert TextDiffersAt(a, b, j + 1);
        }
      } else {
        assert TextDiffersAt(a, b, 0);
      }
    }
  }

  ghost predicate TextDiffersAt(a: string, b: string, k: int) {
    0 <= k < |a| && k < |b| && a[k] != b[k] && forall i :: 0 <= i < k ==> a[i] == b[i]
  }

  // ---------------------------------------------------------------- sequences

  /** A strict total order on the elements of a sequence without repetitions. */
  ghost predicate Orders<T>(less: (T, T) -> bool, xs: seq<T>) {
    && (forall x <- xs :: !less(x, x))
    && (forall x <- xs, y <- xs :: x != y ==> less(x, y) || less(y, x))
    && (forall x <- xs, y <- xs, z <- xs :: less(x, y) && less(y, z) ==> less(x, z))
  }

  ghost predicate Distinct<T>(xs: seq<T>) {
    forall i, j :: 0 <= i < j < |xs| ==> xs[i] != xs[j]
  }

  /** What a sort leaves behind: no element is less than one before it. */
  ghost predicate Sorted<T>(less: (T, T) -> bool, xs: seq<T>) {
    forall i, j :: 0 <= i < j < |xs| ==> !less(xs[j], xs[i])
  }

  ghost predicate IsSortOf<T>(less: (T, T) -> bool, xs: seq<T>, sorted: seq<T>) {
    multiset(sorted) == multiset(xs) && Sorted(less, sorted)
  }

  lemma {:induction false} SameElements<T>(xs: seq<T>, ys: seq<T>)
    requires multiset(xs) == multiset(ys)
    ensures |xs| == |ys| && forall x :: x in xs <==> x in ys
  {
    assert |multiset(xs)| == |xs| && |multiset(ys)| == |ys|;
    forall x ensures x in xs <==> x in ys {
      assert x in xs <==> x in multiset(xs);
      assert x in ys <==> x in multiset(ys);
    }
  }

  lemma {:induction false} FewerOrdered<T>(less: (T, T) -> bool, xs: seq<T>, ys: seq<T>)
    requires Orders(less, xs) && forall y <- ys :: y in xs
    ensures Orders(less, ys)
  {
  }

  lemma {:induction false} HasElement<T(!new)>(xs: seq<T>)
    ensures xs == [] || exists x :: x in xs
  {
    if xs != [] {
      assert xs[0] in xs;
    }
  }

  lemma {:induction false} FirstsAgree<T(!new)>(less: (T, T) -> bool, xs: seq<T>, ys: seq<T>)
    requires Orders(less, xs) && Sorted(less, xs) && Sorted(less, ys)
    requires xs != [] && forall x :: x in xs <==> x in ys
    ensures ys != [] && xs[0] == ys[0]
  {
    assert xs[0] in ys && ys[0] in xs;
    var i :| 0 <= i < |ys| && ys[i] == xs[0];
    var j :| 0 <= j < |xs| && xs[j] == ys[0];
    assert i == 0 || !less(ys[i], ys[0]);
    assert j == 0 || !less(xs[j], xs[0]);
  }

  /**
   * Under a strict total order there is only one way to list a set in order, whatever the algorithm and
   * whatever order the elements came in.
   */
  lemma {:induction false} SortUnique<T(!new)>(less: (T, T) -> bool, xs: seq<T>, ys: seq<T>)
    requires Orders(less, xs) && Sorted(less, xs) && Sorted(less, ys)
    requires Distinct(xs) && Distinct(ys) && forall x :: x in xs <==> x in ys
    ensures xs == ys
  {
    if xs == [] {
      HasElement(ys);
    } else {
      FirstsAgree(less, xs, ys);
      assert xs == [xs[0]] + xs[1..] && ys == [ys[0]] + ys[1..];
      forall x ensures x in xs[1..] <==> x in ys[1..] {
        assert x in xs <==> x == xs[0] || x in xs[1..];
        assert x in ys <==> x == ys[0] || x in ys[1..];
      }
      FewerOrdered(less, xs, xs[1..]);
      SortUnique(less, xs[1..], ys[1..]);
    }
  }

  function SortTexts(xs: seq<string>): seq<string> {
    Sort(TextLess, xs)
  }

  /** The strings of any list, repetitions included, are ordered by the order of strings, so sorting sorts them. */
  lemma {:induction false} TextsSort(xs: seq<string>)
    ensures IsSortOf(TextLess, xs, SortTexts(xs))
  {
    forall a <- xs, b <- xs ensures !TextLess(a, a) && (a != b ==> TextLess(a, b) || TextLess(b, a)) {
      TextLessTotal(a, b);
      TextLessTotal(a, a);
    }
    forall a <- xs, b <- xs, c <- xs | TextLess(a, b) && TextLess(b, c) ensures TextLess(a, c) {
      TextLessTransitive(a, b, c);
    }
    SortSorts(TextLess, xs);
  }

  lemma {:induction false} AtMostOnce<T>(xs: seq<T>, x: T)
    requires Distinct(xs)
    ensures multiset(xs)[x] <= 1
  {
    if xs != [] {
      assert xs == [xs[0]] + xs[1..];
      AtMostOnce(xs[1..], x);
      if x == xs[0] {
        assert x !in xs[1..];
      }
    }
  }

  lemma {:induction false} DistinctPermutes<T>(xs: seq<T>, ys: seq<T>)
    requires Distinct(xs) && multiset(ys) == multiset(xs)
    ensures Distinct(ys)
  {
    forall i, j | 0 <= i < j < |ys| ensures ys[i] != ys[j] {
      if ys[i] == ys[j] {
        assert ys == ys[..i] + [ys[i]] + ys[i + 1..j] + [ys[j]] + ys[j + 1..];
        assert multiset(ys)[ys[i]] >= 2;
        AtMostOnce(xs, ys[i]);
      }
    }
  }

  function Insert<T>(less: (T, T) -> bool, x: T, xs: seq<T>): (r: seq<T>)
    ensures multiset(r) == multiset{x} + multiset(xs)
  {
    if xs == [] then [x]
    else if less(xs[0], x) then
      assert xs == [xs[0]] + xs[1..];
      [xs[0]] + Insert(less, x, xs[1..])
    else [x] + xs
  }

  function Sort<T>(less: (T, T) -> bool, xs: seq<T>): (r: seq<T>)
    ensures multiset(r) == multiset(xs)
  {
    if xs == [] then []
    else
      assert xs == [xs[0]] + xs[1..];
      Insert(less, xs[0], Sort(less, xs[1..]))
  }

  lemma {:induction false} InsertSorted<T>(less: (T, T) -> bool, x: T, xs: seq<T>)
    requires Orders(less, [x] + xs) && Sorted(less, xs)
    ensures Sorted(less, Insert(less, x, xs))
  {
    if xs != [] {
      assert forall y :: y in [x] + xs <==> y == x || y in xs;
      var rest := xs[1..];
      if less(xs[0], x) {
        assert forall y :: y in [x] + rest ==> y in [x] + xs;
        InsertSorted(less, x, rest);
        var tail := Insert(less, x, rest);
        forall j | 0 <= j < |tail| ensures !less(tail[j], xs[0]) {
          assert tail[j] in multiset(tail);
          assert tail[j] == x || tail[j] in rest;
          if tail[j] in rest {
            var k :| 0 <= k < |rest| && rest[k] == tail[j];
            assert !less(xs[k + 1], xs[0]);
          }
        }
      } else {
        forall j | 0 <= j < |xs| ensures !less(xs[j], x) {
          assert xs[0] in [x] + xs && xs[j] in [x] + xs && x in [x] + xs;
          if j > 0 {
            assert !less(xs[j], xs[0]);
          }
        }
      }
    }
  }

  lemma {:induction false} SortSorts<T>(less: (T, T) -> bool, xs: seq<T>)
    requires Orders(less, xs)
    ensures IsSortOf(less, xs, Sort(less, xs))
  {
    if xs != [] {
      FewerOrdered(less, xs, xs[1..]);
      SortSorts(less, xs[1..]);
      var rest := Sort(less, xs[1..]);
      forall y | y in [xs[0]] + rest ensures y in xs {
        if y != xs[0] {
          assert y in rest && y in multiset(rest) && y in multiset(xs[1..]);
        }
      }
      FewerOrdered(less, xs, [xs[0]] + rest);
      InsertSorted(less, xs[0], rest);
    }
  }
}
