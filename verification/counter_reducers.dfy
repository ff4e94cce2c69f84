/**
 * The counter sample's state and reducers. The counter is a Kotlin Int, so it is kept in the
 * 32-bit range and both reducers wrap around at its ends.
 */
module CounterReducers {
  import opened EngineProperties

  const INT_MIN: int := -0x8000_0000
  const INT_MAX: int := 0x7fff_ffff
  const INT_RANGE: int := 0x1_0000_0000

  /** The values of a Kotlin Int. */
  type Int32 = x: int | -0x8000_0000 <= x < 0x8000_0000

  /** The Int that Kotlin's wrapping arithmetic yields for the mathematical result x. */
  function Wrap32(x: int): (r: Int32)
    ensures INT_MIN <= x <= INT_MAX ==> r == x
    ensures (r - x) % INT_RANGE == 0
  {
    (x + 0x8000_0000) % INT_RANGE - 0x8000_0000
  }

  /** Wrapping an intermediate result does not change the final one. */
  lemma WrapAdd(x: int, d: int)
    ensures Wrap32(Wrap32(x) + d) == Wrap32(x + d)
  {
    var a := x + 0x8000_0000;
    assert a == (a / INT_RANGE) * INT_RANGE + a % INT_RANGE;
    assert Wrap32(x) + d + 0x8000_0000 == a % INT_RANGE + d;
    assert a + d == (a / INT_RANGE) * INT_RANGE + (a % INT_RANGE + d);
  }

  datatype CounterState = CounterState(counter: Int32)

  datatype CounterReducer = IncrementReducer | DecrementReducer

  /** The reducers' `reduce`: the counter plus or minus one, with Int overflow. */
  function Reduce(r: CounterReducer, s: CounterState): (t: CounterState)
    ensures r == IncrementReducer && s.counter < INT_MAX ==> t.counter == s.counter + 1
    ensures r == IncrementReducer && s.counter == INT_MAX ==> t.counter == INT_MIN
    ensures r == DecrementReducer && s.counter > INT_MIN ==> t.counter == s.counter - 1
    ensures r == DecrementReducer && s.counter == INT_MIN ==> t.counter == INT_MAX
  {
    match r
    case IncrementReducer => s.(counter := Wrap32(s.counter + 1))
    case DecrementReducer => s.(counter := Wrap32(s.counter - 1))
  }

  /** Decrement undoes increment and increment undoes decrement, also across the Int boundary. */
  lemma IncrementDecrementInverse(s: CounterState)
    ensures Reduce(DecrementReducer, Reduce(IncrementReducer, s)) == s
    ensures Reduce(IncrementReducer, Reduce(DecrementReducer, s)) == s
  {
    WrapAdd(s.counter + 1, -1);
    WrapAdd(s.counter - 1, 1);
  }

  /** How many times r occurs in rs. */
  function Occurrences(rs: seq<CounterReducer>, r: CounterReducer): nat
  {
    if rs == [] then 0 else (if rs[0] == r then 1 else 0) + Occurrences(rs[1..], r)
  }

  /**
   * Any mix of n increments and m decrements, in any order, takes the counter to counter + n - m
   * (as an Int).
   */
  lemma {:induction false} FoldCountsIncrementsAndDecrements(s: CounterState, rs: seq<CounterReducer>)
    ensures FoldReducers(Reduce, s, rs).counter
      == Wrap32(s.counter + Occurrences(rs, IncrementReducer) - Occurrences(rs, DecrementReducer))
    decreases |rs|
  {
    if rs != [] {
      var s1 := Reduce(rs[0], s);
      FoldCountsIncrementsAndDecrements(s1, rs[1..]);
      var n := Occurrences(rs[1..], IncrementReducer) - Occurrences(rs[1..], DecrementReducer);
      var step := if rs[0] == IncrementReducer then 1 else -1;
      assert s1.counter == Wrap32(s.counter + step);
      WrapAdd(s.counter + step, n);
    }
  }
}
