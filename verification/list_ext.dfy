/** The `List.replace` extension used by the sample features. */
module ListExt {

  /** `xs.replace(new, predicate)`: every element satisfying the predicate becomes `new`. */
  function Replace<E>(xs: seq<E>, replacement: E, p: E -> bool): (r: seq<E>)
    ensures |r| == |xs|
    ensures forall i :: 0 <= i < |xs| ==> r[i] == (if p(xs[i]) then replacement else xs[i])
  {
    if xs == [] then []
    else [if p(xs[0]) then replacement else xs[0]] + Replace(xs[1..], replacement, p)
  }

  /** When no element satisfies the predicate, the list comes back unchanged. */
  lemma {:induction false} ReplaceNoMatch<E>(xs: seq<E>, replacement: E, p: E -> bool)
    requires forall i :: 0 <= i < |xs| ==> !p(xs[i])
    ensures Replace(xs, replacement, p) == xs
  {
    if xs != [] {
      ReplaceNoMatch(xs[1..], replacement, p);
    }
  }

  /** Replacing twice with the same value and predicate is the same as replacing once. */
  lemma {:induction false} ReplaceIdempotent<E>(xs: seq<E>, replacement: E, p: E -> bool)
    ensures Replace(Replace(xs, replacement, p), replacement, p) == Replace(xs, replacement, p)
  {
    if xs != [] {
      ReplaceIdempotent(xs[1..], replacement, p);
      assert Replace(xs, replacement, p)[1..] == Replace(xs[1..], replacement, p);
    }
  }
}
