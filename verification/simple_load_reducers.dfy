/** The simple-load sample's state and its three reducers. */
module SimpleLoadReducers {
  import opened Wrappers
  import opened EngineProperties

  datatype SimpleLoadState = SimpleLoadState(
    isInitialState: bool,
    data: Option<string>,
    isLoading: bool,
    error: Option<Throwable>)

  datatype SimpleLoadReducer =
    | ShowLoadingState
    | ShowErrorState(error: Throwable)
    | ShowDataState(data: string)

  /** The reducers' `reduce`. */
  function Reduce(r: SimpleLoadReducer, oldState: SimpleLoadState): (s: SimpleLoadState)
    ensures r.ShowLoadingState? ==>
      s.isLoading && s.data.None? && s.error.None? && !s.isInitialState
    ensures r.ShowErrorState? ==>
      s.error == Some(r.error) && s.data.None? && !s.isLoading && s.isInitialState == oldState.isInitialState
    ensures r.ShowDataState? ==>
      s.data == Some(r.data) && s.error.None? && !s.isLoading && s.isInitialState == oldState.isInitialState
  {
    match r
    case ShowLoadingState => oldState.(isInitialState := false, data := None, isLoading := true, error := None)
    case ShowErrorState(error) => oldState.(data := None, isLoading := false, error := Some(error))
    case ShowDataState(data) => oldState.(data := Some(data), isLoading := false, error := None)
  }

  /**
   * The screen shows one thing at a time: never loading while an error is shown, and never data
   * together with an error.
   */
  predicate ShowsOneThing(s: SimpleLoadState)
  {
    !(s.isLoading && s.error.Some?) && !(s.data.Some? && s.error.Some?) && !(s.isLoading && s.data.Some?)
  }

  /** After any reducer the screen shows one thing, whatever it showed before. */
  lemma ReduceShowsOneThing(r: SimpleLoadReducer, s: SimpleLoadState)
    ensures ShowsOneThing(Reduce(r, s))
  {
  }

  /**
   * After any non-empty run of reducers the screen shows one thing, and it shows what the last
   * reducer asked for.
   */
  lemma {:induction false} FoldShowsLast(s: SimpleLoadState, rs: seq<SimpleLoadReducer>)
    requires rs != []
    ensures var t := FoldReducers(Reduce, s, rs);
      && ShowsOneThing(t)
      && (rs[|rs| - 1].ShowLoadingState? <==> t.isLoading)
      && (rs[|rs| - 1].ShowErrorState? <==> t.error.Some?)
      && (rs[|rs| - 1].ShowDataState? <==> t.data.Some?)
    decreases |rs|
  {
    if |rs| > 1 {
      FoldShowsLast(Reduce(rs[0], s), rs[1..]);
      assert rs[1..][|rs[1..]| - 1] == rs[|rs| - 1];
    }
  }

  /** Once loading has started the screen is no longer in its initial state, for good. */
  lemma {:induction false} InitialStateLeftForGood(s: SimpleLoadState, rs: seq<SimpleLoadReducer>)
    requires ShowLoadingState in rs
    ensures !FoldReducers(Reduce, s, rs).isInitialState
    decreases |rs|
  {
    if rs[0] == ShowLoadingState {
      StaysLeft(Reduce(rs[0], s), rs[1..]);
    } else {
      InitialStateLeftForGood(Reduce(rs[0], s), rs[1..]);
    }
  }

  /** No reducer brings the initial state back. */
  lemma {:induction false} StaysLeft(s: SimpleLoadState, rs: seq<SimpleLoadReducer>)
    requires !s.isInitialState
    ensures !FoldReducers(Reduce, s, rs).isInitialState
    decreases |rs|
  {
    if rs != [] {
      StaysLeft(Reduce(rs[0], s), rs[1..]);
    }
  }
}
