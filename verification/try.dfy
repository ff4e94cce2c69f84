/**
 * The sample app's `Try` result type: an optional value and an optional error. The callbacks
 * that `handleError`, `handleValue` and `unwrap` invoke are recorded as a trace of invocations,
 * in the order in which they happen.
 */
module TryType {
  import opened Wrappers

  datatype Try<V> = Try(value: Option<V>, error: Option<Throwable>)
  {
    /** `isError`: the error half of `result` is present. */
    predicate IsError()
      ensures IsError() <==> Result().1.Some?
    {
      error.Some?
    }

    /** `isValue`: the value half of `result` is present. */
    predicate IsValue()
      ensures IsValue() <==> Result().0.Some?
    {
      value.Some?
    }

    /** `result`: the pair (value, error). */
    function Result(): (r: (Option<V>, Option<Throwable>))
      ensures r.0 == value && r.1 == error
    {
      (value, error)
    }
  }

  /** One invocation of a callback passed to the handlers. */
  datatype Invocation<V> = OnValue(v: V) | OnError(e: Throwable)

  /** What a handler returns, together with the callbacks it invoked. */
  datatype Handled<V> = Handled(receiver: Try<V>, calls: seq<Invocation<V>>)

  /** The secondary constructor taking a value. */
  function OfValue<V>(v: V): (t: Try<V>)
    ensures t.IsValue() && !t.IsError() && t.value == Some(v)
  {
    Try(Some(v), None)
  }

  /** The secondary constructor taking an error. */
  function OfError<V>(e: Throwable): (t: Try<V>)
    ensures t.IsError() && !t.IsValue() && t.error == Some(e)
  {
    Try(None, Some(e))
  }

  /** `handleError`: returns the receiver, and calls the handler with the error when there is one. */
  function HandleError<V>(t: Try<V>): (h: Handled<V>)
    ensures h.receiver == t
    ensures t.IsError() ==> h.calls == [OnError(t.error.value)]
    ensures !t.IsError() ==> h.calls == []
  {
    Handled(t, if t.error.Some? then [OnError(t.error.value)] else [])
  }

  /** `handleValue`: returns the receiver, and calls the handler with the value when there is one. */
  function HandleValue<V>(t: Try<V>): (h: Handled<V>)
    ensures h.receiver == t
    ensures t.IsValue() ==> h.calls == [OnValue(t.value.value)]
    ensures !t.IsValue() ==> h.calls == []
  {
    Handled(t, if t.value.Some? then [OnValue(t.value.value)] else [])
  }

  /** `unwrap(onValue, onError)`: the callbacks it invokes. */
  function Unwrap<V>(t: Try<V>): (calls: seq<Invocation<V>>)
    ensures |calls| == (if t.IsValue() then 1 else 0) + (if t.IsError() then 1 else 0)
    ensures t.IsValue() <==> |calls| > 0 && calls[0].OnValue?
    ensures t.IsError() <==> |calls| > 0 && calls[|calls| - 1].OnError?
    ensures forall i :: 0 <= i < |calls| && calls[i].OnValue? ==> calls[i].v == t.value.value
    ensures forall i :: 0 <= i < |calls| && calls[i].OnError? ==> calls[i].e == t.error.value
  {
    (if t.value.Some? then [OnValue(t.value.value)] else [])
      + (if t.error.Some? then [OnError(t.error.value)] else [])
  }

  /**
   * Chaining `handleValue(onValue).handleError(onError)` returns the receiver and invokes
   * exactly the callbacks that `unwrap(onValue, onError)` does, in the same order.
   */
  lemma HandleValueThenErrorIsUnwrap<V>(t: Try<V>)
    ensures HandleError(HandleValue(t).receiver).receiver == t
    ensures HandleValue(t).calls + HandleError(HandleValue(t).receiver).calls == Unwrap(t)
  {
  }
}
