/** The earlier page component (src/components/App.tsx) and its smaller
    reducer. */
module App {
  import opened Wrappers
  import opened Dates

  datatype Action =
    | Reset
    | Submitted(ticketId: string)
    | ErrorOccurred(error: string)
    | Succeeded(exitTime: LocalTime)

  datatype AppState = AppState(
    error: Option<string>,
    ticketId: string,
    exitTime: Option<LocalTime>,
    processing: bool)

  const InitialState := AppState(None, "", None, false)

  /** `reducer`: the state after one action. None of them starts
      processing. */
  function Reducer(state: AppState, action: Action): (r: AppState)
    ensures !state.processing ==> !r.processing
  {
    match action
    case Reset => InitialState
    case ErrorOccurred(error) => state.(processing := false, error := Some(error))
    case Submitted(ticketId) => state.(ticketId := ticketId)
    case Succeeded(exitTime) => state.(processing := false, exitTime := Some(exitTime))
  }

  function Dispatch(state: AppState, actions: seq<Action>): AppState
    decreases |actions|
  {
    if actions == [] then state else Dispatch(Reducer(state, actions[0]), actions[1..])
  }

  /** Reset gives back the initial state whatever came before. */
  lemma ResetRestoresInitialState(state: AppState)
    ensures var r := Reducer(state, Reset);
      r == InitialState && !r.processing && r.ticketId == "" && r.error.None? && r.exitTime.None?
  {
  }

  /** Each action changes only its own fields; a submission records the
      ticket and, unlike the newer page, does not start processing. */
  lemma ActionFields(state: AppState, ticketId: string, error: string, exitTime: LocalTime)
    ensures Reducer(state, Submitted(ticketId)) == state.(ticketId := ticketId)
    ensures Reducer(state, Submitted(ticketId)).processing == state.processing
    ensures Reducer(state, ErrorOccurred(error)) == state.(processing := false, error := Some(error))
    ensures Reducer(state, Succeeded(exitTime)) == state.(processing := false, exitTime := Some(exitTime))
  {
  }

  /** No action sets `processing`, so from the initial state it is false
      after any sequence of actions. */
  lemma {:induction false} NeverProcessing(actions: seq<Action>, state: AppState)
    requires !state.processing
    ensures !Dispatch(state, actions).processing
    decreases |actions|
  {
    if actions != [] {
      NeverProcessing(actions[1..], Reducer(state, actions[0]));
    }
  }
}
