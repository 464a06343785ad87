/** The vocabulary of the ingest side: severities, work states, events and fingerprints. */
module Models {
  import opened Basics

  type FpHash = string
  type EventId = string
  type TicketRef = string

  datatype Severity = Debug | Info | Warning | Error | Critical {
    function Rank(): nat {
      match this
      case Debug => 0
      case Info => 1
      case Warning => 2
      case Error => 3
      case Critical => 4
    }
  }

  datatype WorkState =
    | New | Open | QueuedRca | Investigating | AwaitingHuman | Fixing | Verifying
    | VerifiedClosed | ClosedAuto | ClosedHuman | Dropped | Reopened | Archived
  {
    predicate Busy() {
      QueuedRca? || Investigating? || Fixing? || Verifying?
    }
  }

  datatype Autonomy = Observe | Triage | Digest | Fix

  /** The part of a service's stored configuration that ingest reads. */
  datatype ServiceConfig = ServiceConfig(
    autonomy: Autonomy, ratePerMin: nat, immediateCount: nat, maxTicketsPerHour: nat)

  /** A normalized event; `fp` stands for the hash the fingerprint engine derives from it. */
  datatype LogEvent = LogEvent(id: EventId, fp: FpHash, service: string, severity: Severity)

  datatype Fingerprint = Fingerprint(
    hash: FpHash, service: string, severity: Severity, occurrences: nat, state: WorkState,
    ticket: Option<TicketRef>, commentedAt: nat, reservedAt: Option<int>)

  datatype DeliveryState = Pending | Processing | Completed | Failed
}
