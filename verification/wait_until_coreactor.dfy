/**
 * The wait-until sample's Coreactor. Each FirstButtonClicked launches a sequence that enables
 * the second button, waits for SecondButtonClicked, enables the third button, waits for
 * ThirdButtonClicked, enables the confirm buttons, waits for the first ConfirmAction and then
 * either completes or starts over. A running sequence is kept as the point at which it waits;
 * every action the engine publishes resumes the sequences waiting for it, in launch order, and
 * a FirstButtonClicked then launches a new one.
 */
module WaitUntilFeature {
  import opened Wrappers
  import opened Contract
  import opened EngineModel
  import opened EngineProperties
  import opened WaitUntilReducers
  import WaitUntil
  import Imperative = Engine

  datatype WaitUntilAction =
    | FirstButtonClicked
    | SecondButtonClicked
    | ThirdButtonClicked
    | ConfirmAction(confirmed: bool)

  /** The feature declares no events; the engine still needs an event type. */
  datatype WaitUntilEvent = NoEvent

  type WaitUntilEngine = Engine<WaitUntilState, WaitUntilAction, WaitUntilReducer, WaitUntilEvent>

  /** Where a launched sequence is suspended. */
  datatype Awaiting = AwaitingSecondButton | AwaitingThirdButton | AwaitingConfirm

  /** createInitialState: only the first button is enabled. */
  function InitialState(): (s: WaitUntilState)
    ensures s.isFirstButtonEnabled && EnabledCount(s) == 1
  {
    WaitUntilState(true, false, false, false, false)
  }

  function WaitUntilConfig(): Config<WaitUntilState, WaitUntilAction, WaitUntilReducer, WaitUntilEvent>
  {
    Config(InitialState(), Reduce, (ev: WaitUntilEvent) => DefaultBehaviour, SimpleInterceptor())
  }

  /** The action a sequence waits for at each point. */
  predicate Awaited(w: Awaiting, a: WaitUntilAction)
  {
    match w
    case AwaitingSecondButton => a == SecondButtonClicked
    case AwaitingThirdButton => a == ThirdButtonClicked
    case AwaitingConfirm => a.ConfirmAction?
  }

  /** A sequence's step on an action: the reducer it emits, and where it waits next (None once finished). */
  datatype Advanced = Advanced(next: Option<Awaiting>, emitted: seq<WaitUntilReducer>)

  function Advance(w: Awaiting, a: WaitUntilAction): (r: Advanced)
    ensures !Awaited(w, a) <==> r == Advanced(Some(w), [])
    ensures Awaited(w, a) ==> |r.emitted| == 1
  {
    match w
    case AwaitingSecondButton =>
      if a == SecondButtonClicked then Advanced(Some(AwaitingThirdButton), [EnableThirdButtonReducer])
      else Advanced(Some(w), [])
    case AwaitingThirdButton =>
      if a == ThirdButtonClicked then Advanced(Some(AwaitingConfirm), [EnableConfirmButtonsReducer])
      else Advanced(Some(w), [])
    case AwaitingConfirm =>
      match a
      case ConfirmAction(confirmed) =>
        Advanced(None, [if confirmed then SetCompletedStateReducer else SetInitialStateReducer])
      case _ => Advanced(Some(w), [])
  }

  /** The sequences still running, and the reducers they emitted, in order. */
  datatype Handled = Handled(sequences: seq<Awaiting>, emitted: seq<WaitUntilReducer>)

  /** Resumes the sequences, in launch order, with one published action. */
  function ResumeAll(sequences: seq<Awaiting>, a: WaitUntilAction): (r: Handled)
    ensures |r.sequences| <= |sequences| && |r.emitted| <= |sequences|
    ensures r.emitted == [] <==> forall i :: 0 <= i < |sequences| ==> !Awaited(sequences[i], a)
    ensures (forall i :: 0 <= i < |sequences| ==> !Awaited(sequences[i], a)) ==> r.sequences == sequences
    decreases |sequences|
  {
    if sequences == [] then Handled([], [])
    else
      var first := Advance(sequences[0], a);
      var rest := ResumeAll(sequences[1..], a);
      Handled((if first.next.Some? then [first.next.value] else []) + rest.sequences, first.emitted + rest.emitted)
  }

  /**
   * One published action: the running sequences resume with it, and then onAction launches a new
   * sequence for FirstButtonClicked, which enables the second button at once.
   */
  function HandleAction(sequences: seq<Awaiting>, a: WaitUntilAction): (r: Handled)
    ensures a == FirstButtonClicked ==> |r.sequences| == |sequences| + 1 && r.emitted == [EnableSecondButtonReducer]
    ensures a != FirstButtonClicked ==> |r.sequences| <= |sequences| && |r.emitted| <= |sequences|
    ensures r.emitted == [] <==> a != FirstButtonClicked && forall i :: 0 <= i < |sequences| ==> !Awaited(sequences[i], a)
  {
    var resumed := ResumeAll(sequences, a);
    if a == FirstButtonClicked then
      Handled(resumed.sequences + [AwaitingSecondButton], resumed.emitted + [EnableSecondButtonReducer])
    else resumed
  }

  /** An action that no sequence waits for, other than FirstButtonClicked, changes nothing. */
  lemma {:induction false} IgnoredActionChangesNothing(sequences: seq<Awaiting>, a: WaitUntilAction)
    requires a != FirstButtonClicked
    requires forall i :: 0 <= i < |sequences| ==> !Awaited(sequences[i], a)
    ensures HandleAction(sequences, a) == Handled(sequences, [])
    decreases |sequences|
  {
    if sequences != [] {
      IgnoredActionChangesNothing(sequences[1..], a);
      assert [sequences[0]] + sequences[1..] == sequences;
    }
  }

  /**
   * No sequence waits for FirstButtonClicked, so it only launches a new sequence: the running
   * ones stay where they are, the new one waits for the second button, and the second button
   * is enabled.
   */
  lemma FirstButtonLaunchesSequence(sequences: seq<Awaiting>)
    ensures HandleAction(sequences, FirstButtonClicked) == Handled(sequences + [AwaitingSecondButton], [EnableSecondButtonReducer])
  {
    assert forall i :: 0 <= i < |sequences| ==> !Awaited(sequences[i], FirstButtonClicked);
  }

  // ---------------------------------------------------------------------------------------------
  // One sequence, against the launched block read as consecutive waits on the action channel

  /** What one sequence waiting at `w` emits while it receives the actions xs. */
  function RunSequence(w: Option<Awaiting>, xs: seq<WaitUntilAction>): seq<WaitUntilReducer>
    decreases |xs|
  {
    if w.None? || xs == [] then []
    else
      var r := Advance(w.value, xs[0]);
      r.emitted + RunSequence(r.next, xs[1..])
  }

  /**
   * A sequence waiting at w skips every action before the first one it waits for, and resumes
   * with that one: this is waitUntilAction's "first item received that satisfies the predicate".
   */
  lemma {:induction false} SequenceResumesAtFirstMatch(w: Awaiting, xs: seq<WaitUntilAction>, p: WaitUntilAction -> bool)
    requires forall a :: p(a) == Awaited(w, a)
    ensures match WaitUntil.FirstMatch(xs, p)
      case None => RunSequence(Some(w), xs) == []
      case Some(i) =>
        RunSequence(Some(w), xs) == Advance(w, xs[i]).emitted + RunSequence(Advance(w, xs[i]).next, xs[i + 1..])
    decreases |xs|
  {
    if xs != [] && !Awaited(w, xs[0]) {
      SequenceResumesAtFirstMatch(w, xs[1..], p);
      match WaitUntil.FirstMatch(xs[1..], p)
      case None =>
      case Some(i) => assert xs[1..][i] == xs[i + 1] && xs[1..][i + 1..] == xs[i + 2..];
    }
  }

  predicate IsSecondButtonClicked(a: WaitUntilAction) { a == SecondButtonClicked }

  predicate IsThirdButtonClicked(a: WaitUntilAction) { a == ThirdButtonClicked }

  predicate IsConfirmAction(a: WaitUntilAction) { a.ConfirmAction? }

  /** The last wait of the launched block: the first ConfirmAction decides the reducer. */
  function AwaitConfirm(zs: seq<WaitUntilAction>): (r: seq<WaitUntilReducer>)
    ensures r == [] <==> forall k :: 0 <= k < |zs| ==> !zs[k].ConfirmAction?
    ensures r != [] ==> r == [SetCompletedStateReducer] || r == [SetInitialStateReducer]
  {
    match WaitUntil.FirstMatch(zs, IsConfirmAction)
    case None => []
    case Some(k) => [if zs[k].confirmed then SetCompletedStateReducer else SetInitialStateReducer]
  }

  /** The second wait of the launched block and what follows it. */
  function AwaitThirdButton(ys: seq<WaitUntilAction>): (r: seq<WaitUntilReducer>)
    ensures r == [] <==> forall j :: 0 <= j < |ys| ==> ys[j] != ThirdButtonClicked
    ensures |r| <= 2 && (r != [] ==> r[0] == EnableConfirmButtonsReducer)
    ensures |r| == 2 ==> r[1] == SetCompletedStateReducer || r[1] == SetInitialStateReducer
  {
    match WaitUntil.FirstMatch(ys, IsThirdButtonClicked)
    case None => []
    case Some(j) => [EnableConfirmButtonsReducer] + AwaitConfirm(ys[j + 1..])
  }

  /**
   * The launched block as written: after FirstButtonClicked it waits for the first
   * SecondButtonClicked, then the first ThirdButtonClicked after that, then the first
   * ConfirmAction after that, emitting a reducer after each wait.
   */
  function LaunchedBlock(xs: seq<WaitUntilAction>): (r: seq<WaitUntilReducer>)
    ensures r == [] <==> forall i :: 0 <= i < |xs| ==> xs[i] != SecondButtonClicked
    ensures |r| <= 3 && (r != [] ==> r[0] == EnableThirdButtonReducer)
    ensures |r| >= 2 ==> r[1] == EnableConfirmButtonsReducer
    ensures |r| == 3 ==> r[2] == SetCompletedStateReducer || r[2] == SetInitialStateReducer
  {
    match WaitUntil.FirstMatch(xs, IsSecondButtonClicked)
    case None => []
    case Some(i) => [EnableThirdButtonReducer] + AwaitThirdButton(xs[i + 1..])
  }

  lemma {:induction false} ConfirmStageIsAwaitConfirm(zs: seq<WaitUntilAction>)
    ensures RunSequence(Some(AwaitingConfirm), zs) == AwaitConfirm(zs)
  {
    SequenceResumesAtFirstMatch(AwaitingConfirm, zs, IsConfirmAction);
  }

  /** Where the third-button wait resumes: the reducer it emits, then the confirm wait on the rest. */
  lemma {:induction false} ThirdStageResumes(ys: seq<WaitUntilAction>)
    ensures match WaitUntil.FirstMatch(ys, IsThirdButtonClicked)
      case None => RunSequence(Some(AwaitingThirdButton), ys) == []
      case Some(j) =>
        RunSequence(Some(AwaitingThirdButton), ys)
        == [EnableConfirmButtonsReducer] + RunSequence(Some(AwaitingConfirm), ys[j + 1..])
  {
    SequenceResumesAtFirstMatch(AwaitingThirdButton, ys, IsThirdButtonClicked);
    match WaitUntil.FirstMatch(ys, IsThirdButtonClicked)
    case None =>
    case Some(j) =>
      assert Advance(AwaitingThirdButton, ys[j]) == Advanced(Some(AwaitingConfirm), [EnableConfirmButtonsReducer]);
  }

  lemma {:induction false} ThirdStageIsAwaitThirdButton(ys: seq<WaitUntilAction>)
    ensures RunSequence(Some(AwaitingThirdButton), ys) == AwaitThirdButton(ys)
  {
    ThirdStageResumes(ys);
    match WaitUntil.FirstMatch(ys, IsThirdButtonClicked)
    case None =>
      assert AwaitThirdButton(ys) == [];
    case Some(j) =>
      ConfirmStageIsAwaitConfirm(ys[j + 1..]);
      assert AwaitThirdButton(ys) == [EnableConfirmButtonsReducer] + AwaitConfirm(ys[j + 1..]);
  }

  /** Where the second-button wait resumes: the reducer it emits, then the third-button wait on the rest. */
  lemma {:induction false} SecondStageResumes(xs: seq<WaitUntilAction>)
    ensures match WaitUntil.FirstMatch(xs, IsSecondButtonClicked)
      case None => RunSequence(Some(AwaitingSecondButton), xs) == []
      case Some(i) =>
        RunSequence(Some(AwaitingSecondButton), xs)
        == [EnableThirdButtonReducer] + RunSequence(Some(AwaitingThirdButton), xs[i + 1..])
  {
    SequenceResumesAtFirstMatch(AwaitingSecondButton, xs, IsSecondButtonClicked);
    match WaitUntil.FirstMatch(xs, IsSecondButtonClicked)
    case None =>
    case Some(i) =>
      assert Advance(AwaitingSecondButton, xs[i]) == Advanced(Some(AwaitingThirdButton), [EnableThirdButtonReducer]);
  }

  /** The launched block's first wait: nothing, or EnableThirdButtonReducer and the rest of the block. */
  lemma {:induction false} LaunchedBlockResumes(xs: seq<WaitUntilAction>)
    ensures match WaitUntil.FirstMatch(xs, IsSecondButtonClicked)
      case None => LaunchedBlock(xs) == []
      case Some(i) => LaunchedBlock(xs) == [EnableThirdButtonReducer] + AwaitThirdButton(xs[i + 1..])
  {
    match WaitUntil.FirstMatch(xs, IsSecondButtonClicked)
    case None =>
    case Some(i) =>
  }

  /** The stage machine emits exactly what the launched block emits, for every action stream. */
  lemma {:induction false} SequenceIsLaunchedBlock(xs: seq<WaitUntilAction>)
    ensures RunSequence(Some(AwaitingSecondButton), xs) == LaunchedBlock(xs)
  {
    SecondStageResumes(xs);
    LaunchedBlockResumes(xs);
    match WaitUntil.FirstMatch(xs, IsSecondButtonClicked)
    case None =>
    case Some(i) =>
      ThirdStageIsAwaitThirdButton(xs[i + 1..]);
      SameHeadSameTail(RunSequence(Some(AwaitingSecondButton), xs), LaunchedBlock(xs), EnableThirdButtonReducer,
        RunSequence(Some(AwaitingThirdButton), xs[i + 1..]), AwaitThirdButton(xs[i + 1..]));
  }

  /** Two sequences that start with the same element and continue with equal tails are equal. */
  lemma SameHeadSameTail<T>(a: seq<T>, b: seq<T>, x: T, s: seq<T>, t: seq<T>)
    requires a == [x] + s && b == [x] + t && s == t
    ensures a == b
  {
  }

  /** The feature's sequences after a stream of published actions, and everything they emitted. */
  function Run(sequences: seq<Awaiting>, xs: seq<WaitUntilAction>): (r: Handled)
    ensures |r.sequences| <= |sequences| + |xs|
    ensures FirstButtonClicked !in xs ==> |r.sequences| <= |sequences|
    ensures sequences == [] && FirstButtonClicked !in xs ==> r == Handled([], [])
    decreases |xs|
  {
    if xs == [] then Handled(sequences, [])
    else
      var h := HandleAction(sequences, xs[0]);
      var rest := Run(h.sequences, xs[1..]);
      Handled(rest.sequences, h.emitted + rest.emitted)
  }

  /** With at most one sequence and no further FirstButtonClicked, the feature runs that sequence. */
  lemma {:induction false} RunOneSequence(w: Option<Awaiting>, xs: seq<WaitUntilAction>)
    requires FirstButtonClicked !in xs
    ensures Run(if w.Some? then [w.value] else [], xs).emitted == RunSequence(w, xs)
    decreases |xs|
  {
    if xs != [] {
      if w.Some? {
        var r := Advance(w.value, xs[0]);
        assert ResumeAll([w.value], xs[0]) == Handled(if r.next.Some? then [r.next.value] else [], r.emitted);
        RunOneSequence(r.next, xs[1..]);
      } else {
        RunOneSequence(None, xs[1..]);
      }
    }
  }

  /**
   * The screen's whole flow: once FirstButtonClicked is handled with no sequence running, and no
   * further FirstButtonClicked arrives, the feature emits EnableSecondButtonReducer and then
   * exactly what the launched block emits.
   */
  lemma FirstButtonThenBlock(xs: seq<WaitUntilAction>)
    requires FirstButtonClicked !in xs
    ensures Run([], [FirstButtonClicked] + xs).emitted == [EnableSecondButtonReducer] + LaunchedBlock(xs)
  {
    assert ([FirstButtonClicked] + xs)[1..] == xs;
    RunOneSequence(Some(AwaitingSecondButton), xs);
    SequenceIsLaunchedBlock(xs);
  }

  // ---------------------------------------------------------------------------------------------
  // The feature on the engine

  /**
   * sendAction on the feature: the engine's sendAction; a published action resumes the sequences
   * and may launch one, and the reducers they emit are dispatched one after the other.
   */
  function SendActionStep(e: WaitUntilEngine, sequences: seq<Awaiting>, a: WaitUntilAction)
    : (r: (Step<WaitUntilState, WaitUntilAction, WaitUntilReducer, WaitUntilEvent>, seq<Awaiting>))
    ensures e.lifecycle.IsInitialState() ==> r == (Step(e, Fail(SendBeforeAttach)), sequences)
    ensures e.lifecycle.IsDetachState() ==> r == (Step(e, Fail(SendAfterDetach)), sequences)
    ensures !e.lifecycle.IsInitialState() && !e.lifecycle.IsDetachState() ==>
      && r.1 == HandleAction(sequences, a).sequences
      && r.0.next.actionChannel == e.actionChannel + [a]
      && r.0.next.lifecycle == e.lifecycle && r.0.next.jobs == e.jobs
  {
    var st := EngineModel.SendAction(WaitUntilConfig(), e, a);
    if st.outcome.Fail? then (st, sequences)
    else
      match ForwardedAction(WaitUntilConfig(), e, a)
      case None => (st, sequences)
      case Some(x) =>
        var h := HandleAction(sequences, x);
        (DispatchReducers(WaitUntilConfig(), st.next, h.emitted), h.sequences)
  }

  /**
   * A click on an attached screen with a stored state: nothing raises, the reducers the click
   * makes the sequences emit are published in order, and the stored state is their fold over
   * the old one.
   */
  lemma SendActionFoldsReducers(e: WaitUntilEngine, sequences: seq<Awaiting>, a: WaitUntilAction)
    requires !e.lifecycle.IsInitialState() && !e.lifecycle.IsDetachState()
    requires e.current.Some? && (e.lifecycle.IsInStartedState() ==> e.viewAttached)
    ensures var r := SendActionStep(e, sequences, a);
      var emitted := HandleAction(sequences, a).emitted;
      && r.0.outcome == Pass
      && r.0.next.current == Some(FoldReducers(Reduce, e.current.value, emitted))
      && r.0.next.reducerChannel == e.reducerChannel + emitted
  {
    var e1 := e.(actionChannel := e.actionChannel + [a]);
    ReducersFoldInOrder(WaitUntilConfig(), e1, HandleAction(sequences, a).emitted);
  }

  /** The wait-until sample's Coreactor object. */
  class WaitUntilCoreactor {
    const engine: Imperative.Coreactor<WaitUntilState, WaitUntilAction, WaitUntilReducer, WaitUntilEvent>
    /** The launched sequences still running, in launch order. */
    var sequences: seq<Awaiting>

    constructor()
      ensures fresh(engine) && fresh(engine.scopedJobsDispatcher)
      ensures engine.config == WaitUntilConfig() && engine.Model() == NewEngine() && sequences == []
    {
      engine := new Imperative.Coreactor(WaitUntilConfig());
      sequences := [];
    }

    /** Emits the reducers one after the other; the first exception ends the run. */
    method EmitAll(rs: seq<WaitUntilReducer>) returns (outcome: Outcome)
      modifies engine
      ensures Step(engine.Model(), outcome) == DispatchReducers(engine.config, old(engine.Model()), rs)
    {
      var i := 0;
      while i < |rs|
        invariant 0 <= i <= |rs|
        invariant DispatchReducers(engine.config, engine.Model(), rs[i..]) == DispatchReducers(engine.config, old(engine.Model()), rs)
      {
        assert rs[i..][1..] == rs[i + 1..];
        outcome := engine.Emit(ReducerItem(rs[i]));
        if outcome.Fail? {
          return;
        }
        i := i + 1;
      }
      outcome := Pass;
    }

    /** sendAction, followed by the resumed sequences and onAction. */
    method SendAction(a: WaitUntilAction) returns (outcome: Outcome)
      requires engine.config == WaitUntilConfig()
      modifies this, engine
      ensures (Step(engine.Model(), outcome), sequences) == SendActionStep(old(engine.Model()), old(sequences), a)
    {
      var forwarded;
      outcome, forwarded := engine.SendAction(a);
      if outcome.Fail? || forwarded.None? {
        return;
      }
      var h := HandleAction(sequences, forwarded.value);
      sequences := h.sequences;
      outcome := EmitAll(h.emitted);
    }

    /** onCleared: the engine is cleared and cancelling its scope cancels every running sequence. */
    method OnCleared() returns (outcome: Outcome)
      modifies this, engine, engine.scopedJobsDispatcher
      ensures Step(engine.Model(), outcome) == EngineModel.OnCleared(engine.config, old(engine.Model()))
      ensures sequences == []
    {
      outcome := engine.OnCleared();
      sequences := [];
    }
  }
}
