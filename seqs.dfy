/** Small facts about sequences shared by the builders: associativity of
    concatenation, `Map`, and `Sequence`, which turns a sequence of optional
    results into an optional sequence (the first failure wins), the shape
    of every loop below that stops at the first item that raises. */
module Seqs {
  import opened Wrappers

  lemma Assoc3<T>(a: seq<T>, b: seq<T>, c: seq<T>)
    ensures a + (b + c) == (a + b) + c
  {
  }

  /** The middle of four joined sequences, found past the first. */
  lemma MiddleOf<T>(a: seq<T>, m: seq<T>, x: seq<T>, y: seq<T>)
    ensures forall k :: 0 <= k < |m| ==> (a + m + x + y)[|a| + k] == m[k]
  {
  }

  /** `[f(x) for x in xs]`. */
  function Map<A, B>(xs: seq<A>, f: A -> B): seq<B>
  {
    if xs == [] then [] else Map(xs[..|xs| - 1], f) + [f(xs[|xs| - 1])]
  }

  /** `Map` yields one result per item, in order. */
  lemma {:induction false} MapSpec<A, B>(xs: seq<A>, f: A -> B)
    ensures |Map(xs, f)| == |xs|
    ensures forall k :: 0 <= k < |xs| ==> Map(xs, f)[k] == f(xs[k])
  {
    if xs != [] {
      var front := xs[..|xs| - 1];
      MapSpec(front, f);
      assert forall k :: 0 <= k < |front| ==> front[k] == xs[k];
    }
  }

  /** One more item adds its result at the end. */
  lemma MapSnoc<A, B>(xs: seq<A>, i: nat, f: A -> B)
    requires i < |xs|
    ensures Map(xs[..i + 1], f) == Map(xs[..i], f) + [f(xs[i])]
  {
    assert xs[..i + 1][..i] == xs[..i];
  }

  /** All results, in order, when every one is present. */
  function Sequence<T>(os: seq<Option<T>>): (r: Option<seq<T>>)
    ensures r.Some? ==> |r.value| == |os|
  {
    if os == [] then Some([])
    else
      match (Sequence(os[..|os| - 1]), os[|os| - 1])
      case (Some(xs), Some(x)) => Some(xs + [x])
      case _ => None
  }

  /** `Sequence` succeeds exactly when every result is present, and then
      holds them in order. */
  lemma {:induction false} SequenceSpec<T>(os: seq<Option<T>>)
    ensures Sequence(os).Some? <==> forall i :: 0 <= i < |os| ==> os[i].Some?
    ensures Sequence(os).Some? ==> forall i :: 0 <= i < |os| ==> Sequence(os).value[i] == os[i].value
  {
    if os != [] {
      var front := os[..|os| - 1];
      SequenceSpec(front);
      assert forall i :: 0 <= i < |front| ==> front[i] == os[i];
    }
  }

  /** One more present result extends the sequence by it. */
  lemma SequenceSnoc<T>(os: seq<Option<T>>, i: nat, xs: seq<T>)
    requires i < |os| && Sequence(os[..i]) == Some(xs) && os[i].Some?
    ensures Sequence(os[..i + 1]) == Some(xs + [os[i].value])
  {
    assert os[..i + 1][..i] == os[..i];
  }

  /** Once a result is missing, the whole sequence fails. */
  lemma {:induction false} SequenceFailure<T>(os: seq<Option<T>>, i: nat)
    requires i < |os| && os[i] == None
    ensures Sequence(os) == None
    decreases |os|
  {
    if i < |os| - 1 {
      SequenceFailure(os[..|os| - 1], i);
    }
  }

  /** `f` applied to each element in turn, stopping at the first error:
      the shape of a loop that appends one result per element and lets
      the first exception propagate. */
  function Traverse<A, B, E>(xs: seq<A>, f: A -> Result<B, E>): (r: Result<seq<B>, E>)
    ensures r.Ok? ==> |r.value| == |xs|
  {
    if xs == [] then Ok([])
    else
      match Traverse(xs[..|xs| - 1], f)
      case Err(e) => Err(e)
      case Ok(front) =>
        match f(xs[|xs| - 1])
        case Err(e) => Err(e)
        case Ok(y) => Ok(front + [y])
  }

  /** One more element: its result is appended, or its error ends the
      traversal. */
  lemma TraverseSnoc<A, B, E>(xs: seq<A>, i: nat, f: A -> Result<B, E>, front: seq<B>)
    requires i < |xs| && Traverse(xs[..i], f) == Ok(front)
    ensures f(xs[i]).Ok? ==> Traverse(xs[..i + 1], f) == Ok(front + [f(xs[i]).value])
    ensures f(xs[i]).Err? ==> Traverse(xs[..i + 1], f) == Err(f(xs[i]).error)
  {
    assert xs[..i + 1][..i] == xs[..i];
  }

  /** Once a prefix fails, the whole traversal fails with the same error. */
  lemma {:induction false} TraversePersists<A, B, E>(xs: seq<A>, n: nat, f: A -> Result<B, E>)
    requires n <= |xs| && Traverse(xs[..n], f).Err?
    ensures Traverse(xs, f) == Traverse(xs[..n], f)
    decreases |xs| - n
  {
    if n < |xs| {
      assert xs[..n + 1][..n] == xs[..n];
      TraversePersists(xs, n + 1, f);
    } else {
      assert xs[..n] == xs;
    }
  }

  /** A successful traversal holds each element's result, in order. */
  lemma {:induction false} TraverseSpec<A, B, E>(xs: seq<A>, f: A -> Result<B, E>)
    requires Traverse(xs, f).Ok?
    ensures forall k :: 0 <= k < |xs| ==> f(xs[k]) == Ok(Traverse(xs, f).value[k])
  {
    if xs != [] {
      var front := xs[..|xs| - 1];
      TraverseSpec(front, f);
      assert forall k :: 0 <= k < |front| ==> front[k] == xs[k];
    }
  }

  /** A traversal fails exactly when some element fails, and then with
      the error of the first that does. */
  lemma {:induction false} TraverseFailIff<A, B, E>(xs: seq<A>, f: A -> Result<B, E>)
    ensures Traverse(xs, f).Err? <==> exists k :: 0 <= k < |xs| && f(xs[k]).Err?
    ensures Traverse(xs, f).Err? ==>
      exists k :: 0 <= k < |xs| && f(xs[k]) == Err(Traverse(xs, f).error)
        && forall j :: 0 <= j < k ==> f(xs[j]).Ok?
  {
    if xs != [] {
      var front := xs[..|xs| - 1];
      TraverseFailIff(front, f);
      assert forall k :: 0 <= k < |front| ==> front[k] == xs[k];
    }
  }

  /** The parts one after the other. */
  function Concat<T>(xss: seq<seq<T>>): seq<T>
  {
    if xss == [] then [] else Concat(xss[..|xss| - 1]) + xss[|xss| - 1]
  }

  /** One more part extends the concatenation by it. */
  lemma ConcatSnoc<T>(xss: seq<seq<T>>, i: nat)
    requires i < |xss|
    ensures Concat(xss[..i + 1]) == Concat(xss[..i]) + xss[i]
  {
    assert xss[..i + 1][..i] == xss[..i];
  }

  /** Whatever a part holds, the concatenation holds. */
  lemma {:induction false} ConcatHolds<T>(xss: seq<seq<T>>, i: nat, x: T)
    requires i < |xss| && x in xss[i]
    ensures x in Concat(xss)
  {
    if i < |xss| - 1 {
      ConcatHolds(xss[..|xss| - 1], i, x);
    }
  }

  /** Whatever the concatenation holds comes from some part. */
  lemma {:induction false} ConcatFrom<T>(xss: seq<seq<T>>, x: T) returns (i: nat)
    requires x in Concat(xss)
    ensures i < |xss| && x in xss[i]
  {
    var front := xss[..|xss| - 1];
    if x in Concat(front) {
      i := ConcatFrom(front, x);
      assert front[i] == xss[i];
    } else {
      i := |xss| - 1;
    }
  }
}
