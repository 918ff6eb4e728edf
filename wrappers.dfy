/** Optional values and JavaScript-style completions shared by the whole model. */
module Wrappers {

  /** An optional value; `None` stands for JavaScript's `undefined`. */
  datatype Option<+T> = None | Some(value: T)

  /** The outcome of evaluating a JavaScript expression: a value, or a thrown `TypeError`. */
  datatype Completion<+T> = Normal(value: T) | Throw

  /**
   * `xs.map(f)` where `f` may throw: the first throwing element aborts the whole map.
   * Otherwise the result has one element per input element, in order.
   */
  function MapCompletion<T, U>(f: T -> Completion<U>, xs: seq<T>): (r: Completion<seq<U>>)
    ensures r.Normal? <==> forall i :: 0 <= i < |xs| ==> f(xs[i]).Normal?
    ensures r.Normal? ==> |r.value| == |xs|
    ensures r.Normal? ==> forall i :: 0 <= i < |xs| ==> f(xs[i]) == Normal(r.value[i])
    decreases |xs|
  {
    if xs == [] then Normal([])
    else
      match f(xs[0])
      case Throw => Throw
      case Normal(y) =>
        match MapCompletion(f, xs[1..])
        case Throw => Throw
        case Normal(ys) => Normal([y] + ys)
  }

  /** Mapping with `f` gives `ys` exactly when every element is mapped to its partner in `ys`. */
  lemma MapCompletionExactly<T, U>(f: T -> Completion<U>, xs: seq<T>, ys: seq<U>)
    requires |xs| == |ys|
    requires forall i :: 0 <= i < |xs| ==> f(xs[i]) == Normal(ys[i])
    ensures MapCompletion(f, xs) == Normal(ys)
  {
    var r := MapCompletion(f, xs);
    assert r.Normal?;
    assert r.value == ys;
  }
}
