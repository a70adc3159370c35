/** The quantifier helpers of the command-line flags (`cmd/flags/helper.go`).
    The Go loops exit early and change no state, so they are functions here. */
module FlagsHelper {

  /** `All(xs, f)`: stops at the first element that fails f. */
  function All<T>(xs: seq<T>, f: T -> bool): (r: bool)
    ensures r <==> forall k :: 0 <= k < |xs| ==> f(xs[k])
  {
    if |xs| == 0 then true
    else if !f(xs[0]) then false
    else
      var r := All(xs[1..], f);
      assert forall k :: 1 <= k < |xs| ==> xs[k] == xs[1..][k - 1];
      r
  }

  /** `Any(xs, f)`: stops at the first element that satisfies f. */
  function Any<T>(xs: seq<T>, f: T -> bool): (r: bool)
    ensures r <==> exists k :: 0 <= k < |xs| && f(xs[k])
  {
    if |xs| == 0 then false
    else if f(xs[0]) then true
    else
      var r := Any(xs[1..], f);
      assert forall k :: 1 <= k < |xs| ==> xs[k] == xs[1..][k - 1];
      r
  }

  /** `Includes(xs, n)`: some element equals n. */
  function Includes<T(==)>(xs: seq<T>, n: T): (r: bool)
    ensures r <==> n in xs
  {
    Any(xs, x => x == n)
  }

  /** The two early-exit loops are duals: all elements satisfy f exactly when
      no element fails it. */
  lemma {:induction false} AllIsNotAnyNot<T>(xs: seq<T>, f: T -> bool)
    ensures All(xs, f) == !Any(xs, x => !f(x))
  {
    if |xs| > 0 && f(xs[0]) {
      AllIsNotAnyNot(xs[1..], f);
    }
  }
}
