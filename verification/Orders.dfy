/** Three-way comparison and its extension to sequences, first difference first. */
module Orders {

  datatype Ordering = Less | Equal | Greater

  function Flip(o: Ordering): Ordering {
    match o
    case Less => Greater
    case Equal => Equal
    case Greater => Less
  }

  function CompareInts(a: int, b: int): Ordering {
    if a < b then Less else if a == b then Equal else Greater
  }

  function Lex<T>(cmp: (T, T) -> Ordering, a: seq<T>, b: seq<T>): Ordering {
    if a == [] && b == [] then Equal
    else if a == [] then Less
    else if b == [] then Greater
    else if cmp(a[0], b[0]) != Equal then cmp(a[0], b[0])
    else Lex(cmp, a[1..], b[1..])
  }

  // A preorder on all of T, as a comparison.
  ghost predicate IsPreorder<T(!new)>(cmp: (T, T) -> Ordering) {
    && (forall x, y :: cmp(y, x) == Flip(cmp(x, y)))
    && (forall x, y, z :: cmp(x, y) != Greater && cmp(y, z) != Greater ==> cmp(x, z) != Greater)
  }

  // Below, strictly, by the first position where a and b differ; a proper prefix is below.
  ghost predicate LexBelow<T(!new)>(below: (T, T) -> bool, a: seq<T>, b: seq<T>) {
    exists k: nat :: FirstDifference(below, a, b, k)
  }

  ghost predicate FirstDifference<T(!new)>(below: (T, T) -> bool, a: seq<T>, b: seq<T>, k: nat) {
    && k <= |a| && k < |b|
    && a[..k] == b[..k]
    && (k == |a| || below(a[k], b[k]))
  }

  lemma {:induction false} LexFlips<T(!new)>(cmp: (T, T) -> Ordering, a: seq<T>, b: seq<T>)
    requires IsPreorder(cmp)
    ensures Lex(cmp, b, a) == Flip(Lex(cmp, a, b))
  {
    if a != [] && b != [] {
      LexFlips(cmp, a[1..], b[1..]);
    }
  }

  lemma {:induction false} LexTransitive<T(!new)>(cmp: (T, T) -> Ordering, a: seq<T>, b: seq<T>, c: seq<T>)
    requires IsPreorder(cmp)
    requires Lex(cmp, a, b) != Greater && Lex(cmp, b, c) != Greater
    ensures Lex(cmp, a, c) != Greater
  {
    if a != [] && b != [] && c != [] {
      var x, y, z := a[0], b[0], c[0];
      assert cmp(y, x) == Flip(cmp(x, y)) && cmp(z, y) == Flip(cmp(y, z)) && cmp(z, x) == Flip(cmp(x, z));
      assert cmp(x, z) != Greater;
      if cmp(x, z) == Equal {
        // then y is level with both
        assert cmp(z, x) != Greater;
        assert cmp(z, y) != Greater && cmp(y, x) != Greater;
        LexTransitive(cmp, a[1..], b[1..], c[1..]);
      }
    }
  }

  // The comparison computes the first-difference relation, for elements it compares exactly.
  lemma {:induction false} LexIsFirstDifference<T(!new)>(cmp: (T, T) -> Ordering, below: (T, T) -> bool, a: seq<T>,
      b: seq<T>)
    requires forall x <- a, y <- b :: (cmp(x, y) == Less <==> below(x, y)) && (cmp(x, y) == Equal <==> x == y)
    requires forall x <- a, y <- b :: x == y ==> !below(x, y)
    ensures Lex(cmp, a, b) == Less <==> LexBelow(below, a, b)
    ensures Lex(cmp, a, b) == Equal <==> a == b
  {
    if a == [] {
      assert b != [] ==> FirstDifference(below, a, b, 0);
    } else if b != [] {
      LexIsFirstDifference(cmp, below, a[1..], b[1..]);
      assert a == [a[0]] + a[1..] && b == [b[0]] + b[1..];
      if cmp(a[0], b[0]) == Less {
        assert FirstDifference(below, a, b, 0);
      }
      if cmp(a[0], b[0]) == Equal {
        forall k: nat | FirstDifference(below, a[1..], b[1..], k) ensures FirstDifference(below, a, b, k + 1) {
          assert a[..k + 1] == [a[0]] + a[1..][..k];
          assert b[..k + 1] == [b[0]] + b[1..][..k];
        }
      }
      forall k: nat | FirstDifference(below, a, b, k)
        ensures cmp(a[0], b[0]) == Less
                  || (cmp(a[0], b[0]) == Equal && k > 0 && FirstDifference(below, a[1..], b[1..], k - 1))
      {
        if k > 0 {
          assert a[..k][0] == b[..k][0];
          assert a[1..][..k - 1] == a[..k][1..];
          assert b[1..][..k - 1] == b[..k][1..];
        }
      }
    }
  }
}
