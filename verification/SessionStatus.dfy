/** The session status machine (session.py). */
module SessionStatus {

  datatype Status = Creating | Starting | Ready | Busy | Idle | Waiting | Suspended | Error | Killed

  const ACTIVE: set<Status> := {Creating, Starting, Ready, Busy, Idle, Waiting}

  /** Statuses in which a case reply may be posted. */
  predicate Postable(status: Status) {
    status == Busy || status == Waiting
  }

  function AllowedTransitions(status: Status): (targets: set<Status>) {
    match status
    case Creating => {Starting, Suspended, Error, Killed}
    case Starting => {Ready, Busy, Suspended, Error, Killed}
    case Ready => {Busy, Suspended, Killed, Error}
    case Busy => {Idle, Waiting, Suspended, Killed, Error}
    case Idle => {Busy, Suspended, Killed, Error}
    case Waiting => {Busy, Idle, Suspended, Killed, Error}
    case Suspended => {Starting, Killed, Error}
    case Error => {}
    case Killed => {Starting}
  }
}
