/** The durable states of one action. */
module Statuses {
  datatype ActionStatus =
    | Planned | Executing | Succeeded | Failed | ResourceBusy | PreconditionFailed | PolicyDenied
    | RequireConfirmation | RequireStrongerAuth | VerificationFailed | UnknownResult | Partial
    | RecoveryRequired
}
