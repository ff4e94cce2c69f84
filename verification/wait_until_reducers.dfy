/** The wait-until sample's state (five button flags) and its five reducers. */
module WaitUntilReducers {

  datatype WaitUntilState = WaitUntilState(
    isFirstButtonEnabled: bool,
    isSecondButtonEnabled: bool,
    isThirdButtonEnabled: bool,
    isConfirmEnabled: bool,
    isCompleted: bool)

  datatype WaitUntilReducer =
    | SetInitialStateReducer
    | EnableSecondButtonReducer
    | EnableThirdButtonReducer
    | EnableConfirmButtonsReducer
    | SetCompletedStateReducer

  /** The flags in declaration order. */
  function Flags(s: WaitUntilState): seq<bool>
  {
    [s.isFirstButtonEnabled, s.isSecondButtonEnabled, s.isThirdButtonEnabled, s.isConfirmEnabled, s.isCompleted]
  }

  /** The position in Flags of the one flag a reducer turns on. */
  function FlagOf(r: WaitUntilReducer): (i: nat)
    ensures i < 5
  {
    match r
    case SetInitialStateReducer => 0
    case EnableSecondButtonReducer => 1
    case EnableThirdButtonReducer => 2
    case EnableConfirmButtonsReducer => 3
    case SetCompletedStateReducer => 4
  }

  /** The reducers' `reduce`: each copies the old state with all five flags set. */
  function Reduce(r: WaitUntilReducer, oldState: WaitUntilState): (s: WaitUntilState)
    ensures forall i :: 0 <= i < 5 ==> Flags(s)[i] == (i == FlagOf(r))
  {
    match r
    case SetInitialStateReducer => oldState.(isFirstButtonEnabled := true, isSecondButtonEnabled := false,
      isThirdButtonEnabled := false, isConfirmEnabled := false, isCompleted := false)
    case EnableSecondButtonReducer => oldState.(isFirstButtonEnabled := false, isSecondButtonEnabled := true,
      isThirdButtonEnabled := false, isConfirmEnabled := false, isCompleted := false)
    case EnableThirdButtonReducer => oldState.(isFirstButtonEnabled := false, isSecondButtonEnabled := false,
      isThirdButtonEnabled := true, isConfirmEnabled := false, isCompleted := false)
    case EnableConfirmButtonsReducer => oldState.(isFirstButtonEnabled := false, isSecondButtonEnabled := false,
      isThirdButtonEnabled := false, isConfirmEnabled := true, isCompleted := false)
    case SetCompletedStateReducer => oldState.(isFirstButtonEnabled := false, isSecondButtonEnabled := false,
      isThirdButtonEnabled := false, isConfirmEnabled := false, isCompleted := true)
  }

  /** How many flags are on. */
  function EnabledCount(s: WaitUntilState): nat
  {
    (if s.isFirstButtonEnabled then 1 else 0) + (if s.isSecondButtonEnabled then 1 else 0)
      + (if s.isThirdButtonEnabled then 1 else 0) + (if s.isConfirmEnabled then 1 else 0)
      + (if s.isCompleted then 1 else 0)
  }

  /**
   * Every reducer ignores the old state, so it is idempotent, distinct reducers give distinct
   * states, and exactly one flag is on afterwards.
   */
  lemma ReducersAreConstant(r: WaitUntilReducer, s: WaitUntilState, s': WaitUntilState)
    ensures Reduce(r, s) == Reduce(r, s')
    ensures Reduce(r, Reduce(r, s)) == Reduce(r, s)
    ensures EnabledCount(Reduce(r, s)) == 1
  {
    var f := Flags(Reduce(r, s));
    var f' := Flags(Reduce(r, s'));
    assert forall i :: 0 <= i < 5 ==> f[i] == f'[i];
  }

  /** The reducer that produced a state can be read off the state. */
  lemma ReducersDistinct(r: WaitUntilReducer, r': WaitUntilReducer, s: WaitUntilState)
    requires r != r'
    ensures Reduce(r, s) != Reduce(r', s)
  {
    assert Flags(Reduce(r, s))[FlagOf(r)] && !Flags(Reduce(r', s))[FlagOf(r)];
  }
}
