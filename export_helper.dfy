/** The generic slice helpers of the exporter (`export/helper.go`). */
module ExportHelper {

  /** The elements of xs that satisfy f, in their original order. */
  function Kept<A>(xs: seq<A>, f: A -> bool): seq<A>
  {
    if |xs| == 0 then []
    else Kept(xs[..|xs| - 1], f) + (if f(xs[|xs| - 1]) then [xs[|xs| - 1]] else [])
  }

  /** Filtering distributes over concatenation: what is kept from a + b is
      what is kept from a followed by what is kept from b, so relative order is
      preserved. */
  lemma {:induction false} KeptAppend<A>(a: seq<A>, b: seq<A>, f: A -> bool)
    ensures Kept(a + b, f) == Kept(a, f) + Kept(b, f)
  {
    if |b| > 0 {
      var b' := b[..|b| - 1];
      assert (a + b)[..|a + b| - 1] == a + b';
      KeptAppend(a, b', f);
    } else {
      assert a + b == a;
    }
  }

  /** An element is kept iff it occurs in the input and satisfies f; nothing
      is added, so the output is never longer. */
  lemma {:induction false} KeptMembers<A>(xs: seq<A>, f: A -> bool)
    ensures |Kept(xs, f)| <= |xs|
    ensures forall x :: x in Kept(xs, f) <==> x in xs && f(x)
  {
    if |xs| > 0 {
      var init := xs[..|xs| - 1];
      KeptMembers(init, f);
      assert xs == init + [xs[|xs| - 1]];
    }
  }

  /** Every element satisfying f is kept as often as it occurs in the
      input; no other element is kept at all. */
  lemma {:induction false} KeptCount<A>(xs: seq<A>, f: A -> bool, x: A)
    ensures multiset(Kept(xs, f))[x] == if f(x) then multiset(xs)[x] else 0
  {
    if |xs| > 0 {
      var init, last := xs[..|xs| - 1], xs[|xs| - 1];
      KeptCount(init, f, x);
      assert xs == init + [last];
      assert multiset(xs)[x] == multiset(init)[x] + multiset([last])[x];
      var tail := if f(last) then [last] else [];
      assert Kept(xs, f) == Kept(init, f) + tail;
      assert multiset(Kept(xs, f))[x] == multiset(Kept(init, f))[x] + multiset(tail)[x];
    }
  }

  /** `Filter(xs, f)`: appends each satisfying element to an accumulator. */
  method Filter<A>(xs: seq<A>, f: A -> bool) returns (acc: seq<A>)
    ensures acc == Kept(xs, f)
    ensures |acc| <= |xs| && forall k :: 0 <= k < |acc| ==> f(acc[k])
  {
    acc := [];
    for i := 0 to |xs|
      invariant acc == Kept(xs[..i], f)
    {
      assert xs[..i + 1][..i] == xs[..i];
      if f(xs[i]) {
        acc := acc + [xs[i]];
      }
    }
    assert xs[..|xs|] == xs;
    KeptMembers(xs, f);
    assert forall k :: 0 <= k < |acc| ==> acc[k] in Kept(xs, f);
  }

  /** `Map(xs, f)`: writes f of each element into a slice preallocated to the
      input's length. */
  method Map<A, B(0)>(xs: seq<A>, f: A -> B) returns (ys: seq<B>)
    ensures |ys| == |xs|
    ensures forall k :: 0 <= k < |xs| ==> ys[k] == f(xs[k])
  {
    var newXs := new B[|xs|];
    for i := 0 to |xs|
      invariant forall k :: 0 <= k < i ==> newXs[k] == f(xs[k])
    {
      newXs[i] := f(xs[i]);
    }
    ys := newXs[..];
  }
}
