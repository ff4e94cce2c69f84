/**
 * The wait-until helpers. A channel is an append-only log of everything published on it; a
 * subscription is the log length at the moment it was opened. A waiter suspends until the first
 * item it receives that satisfies its predicate and then resumes with that item. A conflated
 * channel (state, lifecycle) also hands a new subscriber the latest value published before it
 * subscribed.
 */
module WaitUntil {
  import opened Wrappers

  /** What a subscription opened after `k` publications receives, in order. */
  function Received<T>(log: seq<T>, k: nat, conflated: bool): seq<T>
    requires k <= |log|
  {
    if conflated && k > 0 then log[k - 1..] else log[k..]
  }

  /** Position i holds the first item of xs that satisfies p. */
  predicate FirstAt<T>(xs: seq<T>, p: T -> bool, i: nat)
  {
    i < |xs| && p(xs[i]) && forall j :: 0 <= j < i ==> !p(xs[j])
  }

  /** The position of the first item satisfying `p`, if there is one. */
  function FirstMatch<T>(xs: seq<T>, p: T -> bool): (r: Option<nat>)
    ensures r.Some? ==> FirstAt(xs, p, r.value)
    ensures r.None? ==> forall j :: 0 <= j < |xs| ==> !p(xs[j])
  {
    if xs == [] then None
    else if p(xs[0]) then Some(0)
    else
      match FirstMatch(xs[1..], p)
      case None => None
      case Some(i) => Some(i + 1)
  }

  /**
   * waitUntilState / waitUntilReducer / waitUntilEvent / waitUntilAction / waitUntilLifecycle:
   * Some(x) when the waiter has resumed with x, None while it is still suspended.
   */
  function WaitUntil<T>(log: seq<T>, k: nat, conflated: bool, p: T -> bool): (r: Option<T>)
    requires k <= |log|
    ensures r.None? <==> forall x :: x in Received(log, k, conflated) ==> !p(x)
    ensures r.Some? ==> exists i: nat :: FirstAt(Received(log, k, conflated), p, i) && Received(log, k, conflated)[i] == r.value
  {
    var rec := Received(log, k, conflated);
    match FirstMatch(rec, p)
    case None => None
    case Some(i) => Some(rec[i])
  }

  /** The overloads that wait for one given value: they wait for an equal item. */
  function WaitUntilValue<T(==)>(log: seq<T>, k: nat, conflated: bool, x: T): Option<T>
    requires k <= |log|
  {
    WaitUntil(log, k, conflated, y => y == x)
  }

  // ---------------------------------------------------------------------------------------------
  // Properties

  /** Appending to a sequence does not move a match that was already found. */
  lemma {:induction false} FirstMatchPrefix<T>(xs: seq<T>, more: seq<T>, p: T -> bool)
    requires FirstMatch(xs, p).Some?
    ensures FirstMatch(xs + more, p) == FirstMatch(xs, p)
  {
    if !p(xs[0]) {
      assert (xs + more)[1..] == xs[1..] + more;
      FirstMatchPrefix(xs[1..], more, p);
    }
  }

  /** Once a waiter has resumed, later publications do not change what it resumed with. */
  lemma WaitUntilStable<T>(log: seq<T>, more: seq<T>, k: nat, conflated: bool, p: T -> bool)
    requires k <= |log| && WaitUntil(log, k, conflated, p).Some?
    ensures WaitUntil(log + more, k, conflated, p) == WaitUntil(log, k, conflated, p)
  {
    var rec := Received(log, k, conflated);
    assert Received(log + more, k, conflated) == rec + more;
    FirstMatchPrefix(rec, more, p);
  }

  /**
   * On a channel that is not conflated a waiter never sees what was published before it
   * subscribed: whatever came earlier, the result is the same.
   */
  lemma WaitUntilIgnoresEarlier<T>(earlier: seq<T>, other: seq<T>, later: seq<T>, p: T -> bool)
    ensures WaitUntil(earlier + later, |earlier|, false, p) == WaitUntil(other + later, |other|, false, p)
  {
    assert Received(earlier + later, |earlier|, false) == later;
    assert Received(other + later, |other|, false) == later;
  }

  /** On a conflated channel a waiter whose predicate holds for the current value resumes with it at once. */
  lemma ConflatedCurrentValueCounts<T>(log: seq<T>, k: nat, p: T -> bool)
    requires 0 < k <= |log| && p(log[k - 1])
    ensures WaitUntil(log, k, true, p) == Some(log[k - 1])
  {
    assert Received(log, k, true)[0] == log[k - 1];
  }

  /** Waiting for a value resumes with that value exactly when it is received. */
  lemma WaitUntilValueFound<T>(log: seq<T>, k: nat, conflated: bool, x: T)
    requires k <= |log|
    ensures WaitUntilValue(log, k, conflated, x).Some? <==> x in Received(log, k, conflated)
    ensures WaitUntilValue(log, k, conflated, x).Some? ==> WaitUntilValue(log, k, conflated, x).value == x
  {
  }
}
