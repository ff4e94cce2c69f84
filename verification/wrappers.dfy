/** Option, failure outcomes and the library's error kinds. */
module Wrappers {

  /** A value that may be absent: Kotlin's nullable `T?`. */
  datatype Option<+T> = None | Some(value: T)

  /**
   * The reasons for which the engine raises a CoreactorException. Each constructor names the
   * condition under which the source throws.
   */
  datatype CoreactorError =
    | ViewAlreadySet          // attachView while a view is still set
    | SendBeforeAttach        // sendAction while the stage is INITIAL
    | SendAfterDetach         // sendAction while the stage is ON_DETACH
    | StateNotInitialized     // reading the state before one was stored
    | ViewNotSet              // pushing a state or an event while no view is set
    | UnexpectedLifecycleEvent // a host event with no matching stage
    | FragmentNotAttached     // a fragment with no activity

  /** The value of a call that may throw: Ok with its result, or Err with the exception. */
  datatype Result<+T> = Ok(value: T) | Err(error: CoreactorError)

  /**
   * A Kotlin Throwable carried as data by the sample features' states. Kotlin compares
   * throwables by reference; this datatype compares them by message.
   */
  datatype Throwable = Throwable(message: string)

  /** Completion of a call that may throw: Pass, or Fail with the exception it raised. */
  datatype Outcome = Pass | Fail(error: CoreactorError)
}
