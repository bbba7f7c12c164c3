/** The internal events: what their payloads copy from the rows they announce. */
module Events {
  import opened Common
  import Health

  datatype IncidentKind = Opened | Acknowledged | Resolved

  datatype Payload =
    | RunRecorded(run: Id, monitor: Id, revision: int, location: string,
                  kind: Health.Kind, outcome: Health.Outcome, scheduledFor: Time)
    | ConfirmationRequested(candidate: Id, monitor: Id, revision: int, triggeringRun: Id,
                            requestedFor: Time, expected: Health.Evidence)
    | HealthTransitioned(monitor: Id, version: int, before: Health.State, after: Health.State)
    | IncidentTransitioned(monitor: Id, incident: Id, version: int, change: IncidentKind,
                           at: Time)
}
