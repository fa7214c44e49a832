/** The portable project records the orchestration kernel reads: work-package states,
    their legal transitions, and history events. */
module Project {
  import opened Options

  // `NotCreated` is Go's zero value "": no creation event has been seen.
  datatype WorkPackageState =
    | NotCreated | Planned | Ready | InProgress | Blocked | Review | Accepted | Failed | Canceled

  predicate ValidWorkPackageTransition(from: WorkPackageState, to: WorkPackageState) {
    match from
    case Planned => to.Ready? || to.Canceled?
    case Ready => to.InProgress? || to.Canceled?
    case InProgress => to.Blocked? || to.Review? || to.Failed? || to.Canceled?
    case Blocked => to.InProgress? || to.Failed? || to.Canceled?
    case Review => to.InProgress? || to.Failed?
    case Failed => to.Ready? || to.Canceled?
    case _ => false
  }

  datatype ReviewOutcome = ReviewApproved | ReviewRejected | ReviewChangesRequested

  // The event type together with its decoded payload; `None` is a payload that does not
  // decode. `OtherEvent` stands for every event type the readiness reducer ignores.
  datatype EventBody =
    | WorkPackageCreated
    | StateChanged(change: Option<(WorkPackageState, WorkPackageState)>)
    | ReviewRecorded(outcome: Option<ReviewOutcome>)
    | WorkAccepted
    | OtherEvent(kind: string)

  datatype Event = Event(
    recordID: string, workPackageID: string, occurredAt: int, body: EventBody, recordDigest: string)
}
