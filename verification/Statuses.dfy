/** The job statuses and their transitions (internal/state/statuses.go). */
module Statuses {
  datatype Status = Queued | Processing | Succeeded | Failed | Retrying | Dead

  datatype Transition = Transition(from: Status, to: Status)

  const VALID_TRANSITIONS: seq<Transition> := [
    Transition(Queued, Processing),
    Transition(Processing, Succeeded),
    Transition(Processing, Failed),
    Transition(Failed, Retrying),
    Transition(Retrying, Processing),
    Transition(Failed, Dead)
  ]

  predicate IsValidTransition(from: Status, to: Status) {
    Transition(from, to) in VALID_TRANSITIONS
  }

  /** A job waits, runs, and succeeds or fails; a failed one is retried or dies. Nothing else follows. */
  lemma TransitionsExact(from: Status, to: Status)
    ensures IsValidTransition(from, to)
            <==> match from
                 case Queued => to == Processing
                 case Retrying => to == Processing
                 case Processing => to == Succeeded || to == Failed
                 case Failed => to == Retrying || to == Dead
                 case Succeeded => false
                 case Dead => false
  {
  }
}
