/** Python's ordering of strings, code point by code point with a proper
    prefix first, and `sorted(set(xs))` on it. */
module StringOrder {

  /** `a < b` on Python strings. */
  predicate Less(a: string, b: string)
  {
    if b == [] then false
    else if a == [] then true
    else if a[0] != b[0] then a[0] < b[0]
    else Less(a[1..], b[1..])
  }

  lemma LessIrreflexive(a: string)
    ensures !Less(a, a)
  {
  }

  lemma {:induction false} LessTransitive(a: string, b: string, c: string)
    requires Less(a, b) && Less(b, c)
    ensures Less(a, c)
  {
    if a != [] && a[0] == b[0] && b[0] == c[0] {
      LessTransitive(a[1..], b[1..], c[1..]);
    }
  }

  lemma {:induction false} LessTotal(a: string, b: string)
    ensures a == b || Less(a, b) || Less(b, a)
  {
    if a != [] && b != [] && a[0] == b[0] {
      LessTotal(a[1..], b[1..]);
      if a[1..] == b[1..] {
        assert a == [a[0]] + a[1..] && b == [b[0]] + b[1..];
      }
    }
  }

  lemma {:induction false} LessAsymmetric(a: string, b: string)
    requires Less(a, b)
    ensures !Less(b, a)
  {
    if a != [] && a[0] == b[0] {
      LessAsymmetric(a[1..], b[1..]);
    }
  }

  /** `a <= b`. */
  predicate LessEq(a: string, b: string) { a == b || Less(a, b) }

  predicate StrictlySorted(xs: seq<string>)
  {
    forall i, j :: 0 <= i < j < |xs| ==> Less(xs[i], xs[j])
  }

  /** Adding `x` to a strictly increasing sequence, unless it is there. */
  function Insert(x: string, xs: seq<string>): (r: seq<string>)
    requires StrictlySorted(xs)
    ensures StrictlySorted(r)
    ensures forall y :: y in r <==> y == x || y in xs
  {
    if xs == [] then [x]
    else if x == xs[0] then xs
    else if Less(x, xs[0]) then
      assert forall j :: 0 <= j < |xs| ==> Less(x, xs[j]) by {
        forall j | 0 <= j < |xs| ensures Less(x, xs[j]) {
          if j > 0 {
            LessTransitive(x, xs[0], xs[j]);
          }
        }
      }
      [x] + xs
    else
      LessTotal(x, xs[0]);
      var tail := Insert(x, xs[1..]);
      assert forall y :: y in tail ==> Less(xs[0], y);
      [xs[0]] + tail
  }

  /** `sorted(set(xs))`: the distinct elements of `xs` in increasing order. */
  function SortedSet(xs: seq<string>): (r: seq<string>)
    ensures StrictlySorted(r)
    ensures forall y :: y in r <==> y in xs
  {
    if xs == [] then [] else Insert(xs[|xs| - 1], SortedSet(xs[..|xs| - 1]))
  }

  /** Two strictly increasing sequences with the same elements are equal,
      so `sorted(set(xs))` depends on the set alone. */
  lemma {:induction false} StrictlySortedUnique(xs: seq<string>, ys: seq<string>)
    requires StrictlySorted(xs) && StrictlySorted(ys)
    requires forall y :: y in xs <==> y in ys
    ensures xs == ys
  {
    assert xs != [] ==> xs[0] in ys;
    assert ys != [] ==> ys[0] in xs;
    if xs != [] && ys != [] {
      if xs[0] != ys[0] {
        assert xs[0] in ys && ys[0] in xs;
        var i :| 0 <= i < |xs| && xs[i] == ys[0];
        var j :| 0 <= j < |ys| && ys[j] == xs[0];
        assert Less(xs[0], xs[i]) && Less(ys[0], ys[j]);
        LessAsymmetric(xs[0], ys[0]);
        assert false;
      }
      forall y ensures y in xs[1..] <==> y in ys[1..] {
        if y in xs[1..] {
          var i :| 1 <= i < |xs| && xs[i] == y;
          assert Less(xs[0], xs[i]);
          LessIrreflexive(y);
          assert y in ys;
          var k :| 0 <= k < |ys| && ys[k] == y;
          assert ys[1..][k - 1] == y;
        }
        if y in ys[1..] {
          var i :| 1 <= i < |ys| && ys[i] == y;
          assert Less(ys[0], ys[i]);
          LessIrreflexive(y);
          assert y in xs;
          var k :| 0 <= k < |xs| && xs[k] == y;
          assert xs[1..][k - 1] == y;
        }
      }
      StrictlySortedUnique(xs[1..], ys[1..]);
    }
  }

  /** A strictly increasing sequence lists each element once. */
  lemma {:induction false} StrictlySortedDistinct(xs: seq<string>)
    requires StrictlySorted(xs)
    ensures forall i, j :: 0 <= i < |xs| && 0 <= j < |xs| && xs[i] == xs[j] ==> i == j
  {
    forall i, j | 0 <= i < |xs| && 0 <= j < |xs| && xs[i] == xs[j] ensures i == j {
      if i != j {
        LessIrreflexive(xs[i]);
      }
    }
  }
}
