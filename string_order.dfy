/** The ordering Python uses on `str` values (lexicographic comparison of
    code points), and `sorted` over a list of strings. */
module StringOrder {

  /** `a < b` for Python strings: the first differing code point decides,
      and a proper prefix is smaller. */
  predicate Less(a: string, b: string)
    decreases |a|
    ensures |a| < |b| && a == b[..|a|] ==> Less(a, b)
  {
    if |b| == 0 then false
    else if |a| == 0 then true
    else if a[0] != b[0] then a[0] < b[0]
    else Less(a[1..], b[1..])
  }

  /** `a <= b` for Python strings. */
  predicate Le(a: string, b: string) {
    a == b || Less(a, b)
  }

  lemma {:induction false} LessIrreflexive(a: string)
    ensures !Less(a, a)
    decreases |a|
  {
    if |a| > 0 {
      LessIrreflexive(a[1..]);
    }
  }

  lemma {:induction false} LessTransitive(a: string, b: string, c: string)
    requires Less(a, b) && Less(b, c)
    ensures Less(a, c)
    decreases |a|
  {
    if |a| > 0 && a[0] == b[0] && b[0] == c[0] {
      LessTransitive(a[1..], b[1..], c[1..]);
    }
  }

  lemma {:induction false} LessTotal(a: string, b: string)
    requires a != b
    ensures Less(a, b) || Less(b, a)
    decreases |a|
  {
    if |a| > 0 && |b| > 0 && a[0] == b[0] {
      assert a == [a[0]] + a[1..] && b == [b[0]] + b[1..];
      LessTotal(a[1..], b[1..]);
    }
  }

  lemma LessAsymmetric(a: string, b: string)
    requires Less(a, b)
    ensures !Less(b, a)
  {
    if Less(b, a) {
      LessTransitive(a, b, a);
      LessIrreflexive(a);
    }
  }

  lemma LeTransitive(a: string, b: string, c: string)
    requires Le(a, b) && Le(b, c)
    ensures Le(a, c)
  {
    if a != b && b != c {
      LessTransitive(a, b, c);
    }
  }

  /** Every element is `<=` every later one. */
  ghost predicate Sorted(xs: seq<string>) {
    forall i, j :: 0 <= i < j < |xs| ==> Le(xs[i], xs[j])
  }

  /** Every element is `<` every later one: ascending without repeats. */
  ghost predicate StrictlySorted(xs: seq<string>) {
    forall i, j :: 0 <= i < j < |xs| ==> Less(xs[i], xs[j])
  }

  /** No value occurs twice. */
  ghost predicate Distinct(xs: seq<string>) {
    forall x :: multiset(xs)[x] <= 1
  }

  lemma SortedCons(y: string, ys: seq<string>)
    requires Sorted(ys)
    requires forall z :: z in ys ==> Le(y, z)
    ensures Sorted([y] + ys)
  {
    var s := [y] + ys;
    forall i, j | 0 <= i < j < |s| ensures Le(s[i], s[j]) {
      if i == 0 {
        assert s[j] == ys[j - 1];
      } else {
        assert s[i] == ys[i - 1] && s[j] == ys[j - 1];
      }
    }
  }

  lemma StrictlySortedCons(y: string, ys: seq<string>)
    requires StrictlySorted(ys)
    requires forall z :: z in ys ==> Less(y, z)
    ensures StrictlySorted([y] + ys)
  {
    var s := [y] + ys;
    forall i, j | 0 <= i < j < |s| ensures Less(s[i], s[j]) {
      if i == 0 {
        assert s[j] == ys[j - 1];
      } else {
        assert s[i] == ys[i - 1] && s[j] == ys[j - 1];
      }
    }
  }

  lemma StrictlySortedTail(xs: seq<string>)
    requires StrictlySorted(xs) && xs != []
    ensures StrictlySorted(xs[1..])
    ensures forall z :: z in xs[1..] ==> Less(xs[0], z)
  {
    forall i, j | 0 <= i < j < |xs| - 1 ensures Less(xs[1..][i], xs[1..][j]) {
      assert xs[1..][i] == xs[i + 1] && xs[1..][j] == xs[j + 1];
    }
  }

  /** Everything in a sorted list is at least a value that is `<=` its head. */
  lemma BelowHead(x: string, xs: seq<string>)
    requires Sorted(xs) && xs != [] && Le(x, xs[0])
    ensures forall z :: z in xs ==> Le(x, z)
  {
    forall z | z in xs ensures Le(x, z) {
      var j :| 0 <= j < |xs| && xs[j] == z;
      if j > 0 {
        LeTransitive(x, xs[0], z);
      }
    }
  }

  /** Inserts `x` into a sorted list after every element `< x` (one pass of
      an insertion sort). */
  function Insert(xs: seq<string>, x: string): (r: seq<string>)
    requires Sorted(xs)
    ensures Sorted(r)
    ensures multiset(r) == multiset(xs) + multiset{x}
  {
    if xs == [] then [x]
    else if Le(x, xs[0]) then
      BelowHead(x, xs);
      SortedCons(x, xs);
      [x] + xs
    else
      assert xs == [xs[0]] + xs[1..];
      var rest := Insert(xs[1..], x);
      InsertedAboveHead(xs, x, rest);
      SortedCons(xs[0], rest);
      [xs[0]] + rest
  }

  lemma InsertedAboveHead(xs: seq<string>, x: string, rest: seq<string>)
    requires Sorted(xs) && xs != [] && !Le(x, xs[0])
    requires multiset(rest) == multiset(xs[1..]) + multiset{x}
    ensures forall z :: z in rest ==> Le(xs[0], z)
  {
    LessTotal(x, xs[0]);
    forall z | z in rest ensures Le(xs[0], z) {
      assert z in multiset(rest);
      if z != x {
        assert z in multiset(xs[1..]);
        var j :| 0 <= j < |xs[1..]| && xs[1..][j] == z;
        assert xs[j + 1] == z;
      }
    }
  }

  /** Python's `sorted` on a list of strings. Strings that compare equal are
      identical, so stability does not show in the result. */
  function Sort(xs: seq<string>): (r: seq<string>)
    ensures Sorted(r)
    ensures multiset(r) == multiset(xs)
  {
    if xs == [] then []
    else
      assert xs == [xs[0]] + xs[1..];
      Insert(Sort(xs[1..]), xs[0])
  }

  lemma RepeatedValueCountsTwice(xs: seq<string>, i: int, j: int)
    requires 0 <= i < j < |xs| && xs[i] == xs[j]
    ensures multiset(xs)[xs[i]] >= 2
  {
    assert xs == xs[..j] + xs[j..];
    assert xs[i] == xs[..j][i];
    assert xs[j] == xs[j..][0];
  }

  /** A sorted list without repeats is ascending without repeats. */
  lemma SortedDistinctIsStrict(xs: seq<string>)
    requires Sorted(xs) && Distinct(xs)
    ensures StrictlySorted(xs)
  {
    forall i, j | 0 <= i < j < |xs| ensures Less(xs[i], xs[j]) {
      if xs[i] == xs[j] {
        RepeatedValueCountsTwice(xs, i, j);
      }
    }
  }

  lemma SameMembersBothEmpty(a: seq<string>, b: seq<string>)
    requires forall x :: x in a <==> x in b
    ensures a == [] <==> b == []
  {
    if a != [] {
      assert a[0] in b;
    }
    if b != [] {
      assert b[0] in a;
    }
  }

  /** Two ascending lists without repeats that hold the same values are the
      same list: the order is fully determined by the set of values. */
  lemma {:induction false} StrictlySortedUnique(a: seq<string>, b: seq<string>)
    requires StrictlySorted(a) && StrictlySorted(b)
    requires forall x :: x in a <==> x in b
    ensures a == b
    decreases |a|
  {
    SameMembersBothEmpty(a, b);
    if a != [] {
      assert a[0] in a;
      assert b != [];
      assert b[0] in b;
      if a[0] != b[0] {
        var k :| 0 <= k < |b| && b[k] == a[0];
        var m :| 0 <= m < |a| && a[m] == b[0];
        assert k > 0 && m > 0;
        LessAsymmetric(a[0], b[0]);
      }
      StrictlySortedTail(a);
      StrictlySortedTail(b);
      forall x ensures x in a[1..] <==> x in b[1..] {
        if x in a[1..] {
          LessIrreflexive(x);
          assert x in b;
          assert x != b[0];
          var k :| 0 <= k < |b| && b[k] == x;
          assert b[1..][k - 1] == x;
        }
        if x in b[1..] {
          LessIrreflexive(x);
          assert x in a;
          assert x != a[0];
          var k :| 0 <= k < |a| && a[k] == x;
          assert a[1..][k - 1] == x;
        }
      }
      StrictlySortedUnique(a[1..], b[1..]);
      assert a == [a[0]] + a[1..] && b == [b[0]] + b[1..];
    }
  }
}
