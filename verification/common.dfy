/** Shared vocabulary of the timesheet model: identifiers, optional values and
    the discriminated result every guarded operation returns. */
module Common {

  /** Identity of a person (the resource a timecard or a line belongs to, or
      the actor of a transition). GUIDs are opaque, so an integer suffices. */
  type PersonId = int

  /** Identity of a timecard in the repository. */
  type TimecardId = int

  /** The unique identifier of a time-entry line. */
  type LineId = int

  datatype Option<+T> = None | Some(value: T)

  /** The failures the controller reports. NotFound is its 404 answer;
      InvalidState, EmptyTimecard and MissingTransition are the typed bodies of
      its 409 answers; ValidationError stands for the exception a field parser
      raises on malformed text. */
  datatype Error = NotFound | InvalidState | EmptyTimecard | MissingTransition | ValidationError

  /** Either the new state (or the value read) or the error kind. */
  datatype Result<+T> = Ok(value: T) | Err(error: Error)
}
