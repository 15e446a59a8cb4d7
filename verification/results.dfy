/** Failure-compatible wrappers standing in for Rust's `Option` and
    `anyhow::Result`. Both may be used with `:-`. */
module Results {

  datatype Option<+T> = None | Some(value: T) {
    predicate IsFailure() {
      None?
    }

    function PropagateFailure<U>(): Option<U>
      requires None?
    {
      None
    }

    function Extract(): T
      requires Some?
    {
      value
    }
  }

  datatype Result<+T, +E> = Ok(value: T) | Err(error: E) {
    predicate IsFailure() {
      Err?
    }

    function PropagateFailure<U>(): Result<U, E>
      requires Err?
    {
      Err(error)
    }

    function Extract(): T
      requires Ok?
    {
      value
    }
  }

  /** Applies `f` to every element in order, collecting the successes; the
      first failure is the result (Rust's `?` inside a `for` loop). */
  function Traverse<A, B, E>(xs: seq<A>, f: A -> Result<B, E>): (r: Result<seq<B>, E>)
    ensures r.Ok? ==> |r.value| == |xs|
    decreases |xs|
  {
    if xs == [] then Ok([])
    else match f(xs[0])
      case Err(e) => Err(e)
      case Ok(y) =>
        match Traverse(xs[1..], f)
        case Err(e) => Err(e)
        case Ok(ys) => Ok([y] + ys)
  }

  /** The traversal succeeds exactly when every element succeeds. */
  lemma {:induction false} TraverseOk<A, B, E>(xs: seq<A>, f: A -> Result<B, E>)
    ensures Traverse(xs, f).Ok? <==> forall k :: 0 <= k < |xs| ==> f(xs[k]).Ok?
    decreases |xs|
  {
    if xs != [] {
      TraverseOk(xs[1..], f);
      assert forall k :: 1 <= k < |xs| ==> xs[1..][k - 1] == xs[k];
    }
  }

  /** Each collected value is the success of the element at the same position. */
  lemma {:induction false} TraverseValues<A, B, E>(xs: seq<A>, f: A -> Result<B, E>)
    requires Traverse(xs, f).Ok?
    ensures forall k :: 0 <= k < |xs| ==> f(xs[k]) == Ok(Traverse(xs, f).value[k])
    decreases |xs|
  {
    if xs != [] {
      var tail := xs[1..];
      TraverseValues(tail, f);
      var r := [f(xs[0]).value] + Traverse(tail, f).value;
      assert Traverse(xs, f) == Ok(r);
      forall k | 1 <= k < |xs| ensures f(xs[k]) == Ok(r[k]) {
        assert tail[k - 1] == xs[k];
      }
    }
  }

  /** A failed traversal reports the failure of the first failing element. */
  lemma {:induction false} TraverseError<A, B, E>(xs: seq<A>, f: A -> Result<B, E>)
    requires Traverse(xs, f).Err?
    ensures exists k :: 0 <= k < |xs| && f(xs[k]) == Err(Traverse(xs, f).error)
                        && forall j :: 0 <= j < k ==> f(xs[j]).Ok?
    decreases |xs|
  {
    if f(xs[0]).Ok? {
      var tail := xs[1..];
      TraverseError(tail, f);
      var k :| 0 <= k < |tail| && f(tail[k]) == Err(Traverse(tail, f).error)
               && forall j :: 0 <= j < k ==> f(tail[j]).Ok?;
      assert tail[k] == xs[k + 1];
      forall j | 0 < j < k + 1 ensures f(xs[j]).Ok? {
        assert xs[j] == tail[j - 1];
      }
    } else {
      assert f(xs[0]) == Err(Traverse(xs, f).error);
    }
  }
}
