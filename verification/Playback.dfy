/** The vocabulary both speech ledgers share: delivery states, leases and playback evidence. */
module Playback {
  import opened Options

  datatype State = Pending | Claimed | PlaybackIntent | Delivered | Unknown | Escalated | Cancelled

  /** Who holds a claim. The token is known to the claimer only; its stored digest is injective. */
  datatype Grant = Grant(
    clientId: string,
    instance: string,
    credentialGeneration: int,
    token: string,
    leaseUntil: int
  )

  datatype Outcome = RecordIntent | ReportDelivered | ReportUnstarted | ReportUnknown | ContentUnavailable
    | OtherOutcome

  datatype Observed = SawUnstarted | SawStarted | SawDelivered | SawUnknown

  datatype TimingSource = LocalProcess | ProjectionProcess | SyntheticCallback

  /** Validated callback evidence; `startKnown` is the presence of the process-start key. */
  datatype Evidence = Evidence(
    playbackState: Option<Observed>,
    source: Option<TimingSource>,
    startKnown: bool,
    startedAt: Option<int>,
    completedAt: Option<int>
  )

  /** Explicit proof of no start; absent evidence is not proof. */
  predicate NotStarted(e: Evidence) {
    && e.playbackState == Some(SawUnstarted)
    && e.startKnown
    && e.startedAt.None?
    && e.completedAt.None?
    && e.source.None?
  }

  predicate Completed(e: Evidence) {
    && e.playbackState == Some(SawDelivered)
    && (e.source == Some(LocalProcess) || e.source == Some(ProjectionProcess))
    && e.completedAt.Some?
  }
}
