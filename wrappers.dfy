/** Option and Result, the two failure-carrying shapes the rest of the model uses:
    Option for Python's `None`-or-value, Result for a value-or-raised-exception. */
module Wrappers {

  datatype Option<+T> = None | Some(value: T) {
    function GetOr(default: T): T {
      match this
      case Some(v) => v
      case None => default
    }
  }

  /** `Err(message)` stands for an exception whose `str(e)` is `message`. */
  datatype Result<+T> = Ok(value: T) | Err(message: string) {
    predicate IsFailure() {
      Err?
    }

    function PropagateFailure<U>(): Result<U>
      requires Err?
    {
      Err(message)
    }

    function Extract(): T
      requires Ok?
    {
      value
    }
  }

  /** `[f(x) for x in xs]` where `f` may raise: the results in order, or the first error. */
  function MapResult<A, B>(xs: seq<A>, f: A -> Result<B>): (r: Result<seq<B>>)
    ensures r.Ok? ==> |r.value| == |xs|
    ensures r.Err? ==> exists k :: 0 <= k < |xs| && f(xs[k]) == Err(r.message)
  {
    if xs == [] then Ok([])
    else
      var first :- f(xs[0]);
      var rest :- MapResult(xs[1..], f);
      Ok([first] + rest)
  }

  /** The k-th result is `f` of the k-th element. */
  lemma {:induction false} MapResultAt<A, B>(xs: seq<A>, f: A -> Result<B>, k: int)
    requires MapResult(xs, f).Ok? && 0 <= k < |xs|
    ensures f(xs[k]) == Ok(MapResult(xs, f).value[k])
  {
    if k > 0 {
      MapResultAt(xs[1..], f, k - 1);
      assert xs[1..][k - 1] == xs[k];
    }
  }
  /** `for x in xs: out.extend(f(x))` where `f` may raise: the parts in order, or the first error. */
  function FlatMapResult<A, B>(xs: seq<A>, f: A -> Result<seq<B>>): (r: Result<seq<B>>)
    ensures r.Err? ==> exists k :: 0 <= k < |xs| && f(xs[k]) == Err(r.message)
  {
    if xs == [] then Ok([])
    else
      var first :- f(xs[0]);
      var rest :- FlatMapResult(xs[1..], f);
      Ok(first + rest)
  }

  /** Everything `f` gives for the k-th element is in the whole result. */
  lemma {:induction false} FlatMapResultIncludes<A, B>(xs: seq<A>, f: A -> Result<seq<B>>, k: int)
    requires FlatMapResult(xs, f).Ok? && 0 <= k < |xs|
    ensures f(xs[k]).Ok?
    ensures forall b :: b in f(xs[k]).value ==> b in FlatMapResult(xs, f).value
  {
    var rest := FlatMapResult(xs[1..], f);
    assert f(xs[0]).Ok? && rest.Ok? && FlatMapResult(xs, f).value == f(xs[0]).value + rest.value;
    if k > 0 {
      FlatMapResultIncludes(xs[1..], f, k - 1);
      assert xs[1..][k - 1] == xs[k];
    }
  }
}
