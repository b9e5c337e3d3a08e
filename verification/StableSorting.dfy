/** Stable sorting by a three-way comparison, as the standard library's `sort_by` promises it. */
module StableSorting {
  import opened Orders

  // `x` goes in front of the first element that is not below it.
  function Insert<T>(cmp: (T, T) -> Ordering, x: T, s: seq<T>): seq<T> {
    if s == [] || cmp(x, s[0]) != Greater then [x] + s else [s[0]] + Insert(cmp, x, s[1..])
  }

  function Sort<T>(cmp: (T, T) -> Ordering, s: seq<T>): seq<T> {
    if s == [] then [] else Insert(cmp, s[0], Sort(cmp, s[1..]))
  }

  ghost predicate IsSorted<T>(cmp: (T, T) -> Ordering, s: seq<T>) {
    forall i, j :: 0 <= i < j < |s| ==> cmp(s[i], s[j]) != Greater
  }

  // The elements that compare equal to `x`, in their order.
  ghost function Level<T(!new)>(cmp: (T, T) -> Ordering, x: T, s: seq<T>): (level: seq<T>)
    ensures forall y :: y in level <==> y in s && cmp(x, y) == Equal
  {
    if s == [] then []
    else if cmp(x, s[0]) == Equal then [s[0]] + Level(cmp, x, s[1..])
    else Level(cmp, x, s[1..])
  }

  ghost predicate SameLevels<T(!new)>(cmp: (T, T) -> Ordering, a: seq<T>, b: seq<T>) {
    forall x :: Level(cmp, x, a) == Level(cmp, x, b)
  }

  lemma {:induction false} InsertPermutes<T>(cmp: (T, T) -> Ordering, x: T, s: seq<T>)
    ensures multiset(Insert(cmp, x, s)) == multiset([x] + s)
  {
    if s != [] && cmp(x, s[0]) == Greater {
      InsertPermutes(cmp, x, s[1..]);
      assert s == [s[0]] + s[1..];
    }
  }

  // A head that is not above any of a sorted tail.
  lemma ConsIsSorted<T(!new)>(cmp: (T, T) -> Ordering, x: T, s: seq<T>)
    requires IsSorted(cmp, s) && forall e <- s :: cmp(x, e) != Greater
    ensures IsSorted(cmp, [x] + s)
  {
    var r := [x] + s;
    forall i, j | 0 <= i < j < |r| ensures cmp(r[i], r[j]) != Greater {
      assert r[j] == s[j - 1] && s[j - 1] in s;
      if i > 0 { assert r[i] == s[i - 1]; }
    }
  }

  lemma {:induction false} InsertKeepsSorted<T(!new)>(cmp: (T, T) -> Ordering, x: T, s: seq<T>)
    requires IsPreorder(cmp) && IsSorted(cmp, s)
    ensures IsSorted(cmp, Insert(cmp, x, s))
  {
    if s != [] && cmp(x, s[0]) == Greater {
      var tail := Insert(cmp, x, s[1..]);
      InsertKeepsSorted(cmp, x, s[1..]);
      InsertPermutes(cmp, x, s[1..]);
      forall e <- tail ensures cmp(s[0], e) != Greater {
        assert e in multiset(tail) && e in multiset([x] + s[1..]);
        assert cmp(s[0], x) == Flip(cmp(x, s[0]));
      }
      ConsIsSorted(cmp, s[0], tail);
    } else if s != [] {
      forall e <- s ensures cmp(x, e) != Greater {
        assert cmp(s[0], s[0]) == Flip(cmp(s[0], s[0]));
        assert cmp(s[0], e) != Greater;
      }
      ConsIsSorted(cmp, x, s);
    }
  }

  // Nothing is level with two elements that are not level with each other.
  lemma LevelsAreApart<T(!new)>(cmp: (T, T) -> Ordering, x: T, z: T, y: T)
    requires IsPreorder(cmp) && cmp(x, z) == Greater
    ensures !(cmp(y, x) == Equal && cmp(y, z) == Equal)
  {
    assert cmp(x, y) == Flip(cmp(y, x));
  }

  lemma {:induction false} InsertKeepsLevels<T(!new)>(cmp: (T, T) -> Ordering, x: T, s: seq<T>, y: T)
    requires IsPreorder(cmp)
    ensures Level(cmp, y, Insert(cmp, x, s)) == Level(cmp, y, [x] + s)
  {
    assert ([x] + s)[1..] == s;
    if s != [] && cmp(x, s[0]) == Greater {
      InsertKeepsLevels(cmp, x, s[1..], y);
      assert ([s[0]] + Insert(cmp, x, s[1..]))[1..] == Insert(cmp, x, s[1..]);
      assert ([x] + s[1..])[1..] == s[1..];
      LevelsAreApart(cmp, x, s[0], y);
    }
  }

  // Sorted, a permutation, and stable: equal elements keep their order.
  lemma {:induction false} SortIsStable<T(!new)>(cmp: (T, T) -> Ordering, s: seq<T>)
    requires IsPreorder(cmp)
    ensures IsSorted(cmp, Sort(cmp, s))
    ensures multiset(Sort(cmp, s)) == multiset(s)
    ensures SameLevels(cmp, Sort(cmp, s), s)
  {
    if s != [] {
      SortIsStable(cmp, s[1..]);
      var tail := Sort(cmp, s[1..]);
      assert s == [s[0]] + s[1..];
      forall y ensures Level(cmp, y, Sort(cmp, s)) == Level(cmp, y, s) {
        InsertKeepsLevels(cmp, s[0], tail, y);
        assert ([s[0]] + tail)[1..] == tail;
        assert Level(cmp, y, tail) == Level(cmp, y, s[1..]);
      }
      InsertKeepsSorted(cmp, s[0], tail);
      InsertPermutes(cmp, s[0], tail);
    }
  }

  lemma HeadsAgree<T(!new)>(cmp: (T, T) -> Ordering, a: seq<T>, b: seq<T>)
    requires IsPreorder(cmp) && IsSorted(cmp, a) && IsSorted(cmp, b) && SameLevels(cmp, a, b)
    requires a != []
    ensures b != [] && a[0] == b[0]
  {
    assert cmp(a[0], a[0]) == Equal;
    assert a[0] in Level(cmp, a[0], a);
    assert a[0] in Level(cmp, a[0], b);
    assert cmp(b[0], b[0]) == Equal;
    assert b[0] in Level(cmp, b[0], b);
    assert b[0] in Level(cmp, b[0], a);
    assert cmp(a[0], b[0]) != Greater && cmp(b[0], a[0]) != Greater;
    assert Level(cmp, a[0], a)[0] == a[0] && Level(cmp, a[0], b)[0] == b[0];
  }

  // These three properties leave one result: two sorted sequences with the same levels are the same.
  lemma {:induction false} SortedIsUnique<T(!new)>(cmp: (T, T) -> Ordering, a: seq<T>, b: seq<T>)
    requires IsPreorder(cmp) && IsSorted(cmp, a) && IsSorted(cmp, b) && SameLevels(cmp, a, b)
    ensures a == b
  {
    if a == [] && b == [] {
    } else if a == [] {
      HeadsAgree(cmp, b, a);
    } else {
      HeadsAgree(cmp, a, b);
      forall x ensures Level(cmp, x, a[1..]) == Level(cmp, x, b[1..]) {
        assert Level(cmp, x, a) == Level(cmp, x, b);
        if cmp(x, a[0]) == Equal {
          assert Level(cmp, x, a[1..]) == Level(cmp, x, a)[1..];
          assert Level(cmp, x, b[1..]) == Level(cmp, x, b)[1..];
        }
      }
      SortedIsUnique(cmp, a[1..], b[1..]);
      assert a == [a[0]] + a[1..] && b == [b[0]] + b[1..];
    }
  }

  // Two lists sort to the same result exactly when they agree level by level.
  lemma SortsAgreeExactly<T(!new)>(cmp: (T, T) -> Ordering, a: seq<T>, b: seq<T>)
    requires IsPreorder(cmp)
    ensures Sort(cmp, a) == Sort(cmp, b) <==> SameLevels(cmp, a, b)
  {
    SortIsStable(cmp, a);
    SortIsStable(cmp, b);
    if Sort(cmp, a) == Sort(cmp, b) {
      forall x ensures Level(cmp, x, a) == Level(cmp, x, b) {
        assert Level(cmp, x, Sort(cmp, a)) == Level(cmp, x, a) && Level(cmp, x, Sort(cmp, b)) == Level(cmp, x, b);
      }
    }
    if SameLevels(cmp, a, b) {
      forall x ensures Level(cmp, x, Sort(cmp, a)) == Level(cmp, x, Sort(cmp, b)) {
        assert Level(cmp, x, Sort(cmp, a)) == Level(cmp, x, a) && Level(cmp, x, Sort(cmp, b)) == Level(cmp, x, b);
      }
      SortedIsUnique(cmp, Sort(cmp, a), Sort(cmp, b));
    }
  }

  // ---- lookups in a sorted list ----------------------------------------------------------------------

  predicate IsFirst<T>(s: seq<T>, p: T -> bool, at: nat) {
    at < |s| && p(s[at]) && forall k :: 0 <= k < at ==> !p(s[k])
  }

  lemma {:induction false} LevelHeadIsFirst<T(!new)>(cmp: (T, T) -> Ordering, s: seq<T>, x: T, at: nat)
    requires at < |s| && cmp(x, s[at]) == Equal && forall k :: 0 <= k < at ==> cmp(x, s[k]) != Equal
    ensures Level(cmp, x, s) != [] && Level(cmp, x, s)[0] == s[at]
  {
    if at > 0 {
      LevelHeadIsFirst(cmp, s[1..], x, at - 1);
    }
  }

  lemma SortedHasTheSame<T(!new)>(cmp: (T, T) -> Ordering, s: seq<T>, x: T)
    requires IsPreorder(cmp)
    ensures x in Sort(cmp, s) <==> x in s
  {
    SortIsStable(cmp, s);
    assert x in Sort(cmp, s) <==> x in multiset(Sort(cmp, s));
    assert x in s <==> x in multiset(s);
  }

  lemma FirstIsLeast<T(!new)>(cmp: (T, T) -> Ordering, sorted: seq<T>, p: T -> bool, at: nat, x: T)
    requires IsPreorder(cmp) && IsSorted(cmp, sorted) && IsFirst(sorted, p, at) && x in sorted && p(x)
    ensures cmp(sorted[at], x) != Greater
  {
    var k :| 0 <= k < |sorted| && sorted[k] == x;
    if k == at {
      assert cmp(x, x) == Flip(cmp(x, x));
    }
  }

  // What a first match finds is what it finds after sorting, exactly if no match sorts before it.
  lemma FirstAfterSorting<T(!new)>(cmp: (T, T) -> Ordering, s: seq<T>, p: T -> bool, i: nat, j: nat)
    requires IsPreorder(cmp) && IsFirst(s, p, i) && IsFirst(Sort(cmp, s), p, j)
    requires forall x, y :: cmp(x, y) == Equal ==> p(x) == p(y)
    ensures Sort(cmp, s)[j] == s[i] <==> forall x <- s :: p(x) ==> cmp(s[i], x) != Greater
  {
    var sorted, f := Sort(cmp, s), s[i];
    SortIsStable(cmp, s);
    forall x ensures x in sorted <==> x in s {
      SortedHasTheSame(cmp, s, x);
    }
    if sorted[j] == f {
      forall x <- s | p(x) ensures cmp(f, x) != Greater {
        FirstIsLeast(cmp, sorted, p, j, x);
      }
    }
    if forall x <- s :: p(x) ==> cmp(f, x) != Greater {
      var g := sorted[j];
      assert f in s && g in s;
      FirstIsLeast(cmp, sorted, p, j, f);
      assert cmp(g, f) == Flip(cmp(f, g)) && cmp(f, f) == Flip(cmp(f, f));
      LevelHeadIsFirst(cmp, s, f, i);
      LevelHeadIsFirst(cmp, sorted, f, j);
      assert Level(cmp, f, sorted) == Level(cmp, f, s);
    }
  }
}
