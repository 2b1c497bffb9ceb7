/** Failure classes of an exclusive-mode open, and the two decision tables
    keyed on them: whether shared mode can stand in, and how long the same
    request stays away from exclusive mode. Durations are in nanoseconds. */
module WasapiPolicy {
  datatype ExclusiveFailure =
    | InvalidConfig
    | DeviceNotFound
    | WrongDirection
    | UnsupportedFormat
    | DeviceInUse
    | AccessDenied
    | ExclusiveNotAllowed
    | BufferSizeNotAligned
    | InvalidDevicePeriod
    | EndpointCreateFailed
    | DeviceInvalidated
    | ServiceNotRunning
    | Other

  datatype Fallback = Shared | Reject

  const SECOND: nat := 1_000_000_000
  const MAX_COOLDOWN: nat := 60 * SECOND

  /** A stream is given up at this many expired waits in a row. */
  const MAX_CONSECUTIVE_TIMEOUTS: nat := 10

  function FallbackDecision(failure: ExclusiveFailure): Fallback {
    match failure
    case InvalidConfig | DeviceInUse | AccessDenied => Reject
    case _ => Shared
  }

  function RetryCooldown(failure: ExclusiveFailure): nat {
    match failure
    case ExclusiveNotAllowed | WrongDirection | UnsupportedFormat
       | BufferSizeNotAligned | InvalidDevicePeriod | AccessDenied => 60 * SECOND
    case DeviceInUse | EndpointCreateFailed | ServiceNotRunning | Other => 10 * SECOND
    case DeviceNotFound | DeviceInvalidated | InvalidConfig => 0
  }

  predicate StreamIsDead(consecutiveTimeouts: nat) {
    consecutiveTimeouts >= MAX_CONSECUTIVE_TIMEOUTS
  }

  /** Which failures the shared mode cannot survive either, and how long each one
      keeps the same request away: nothing for another device or a bad request, ten
      seconds for what may clear, a minute for what will not. */
  lemma FailureClasses(f: ExclusiveFailure)
    ensures FallbackDecision(f) == Reject <==> f in {InvalidConfig, DeviceInUse, AccessDenied}
    ensures RetryCooldown(f) in {0, 10 * SECOND, 60 * SECOND}
    ensures RetryCooldown(f) == 0 <==> f in {DeviceNotFound, DeviceInvalidated, InvalidConfig}
    ensures RetryCooldown(f) == 10 * SECOND <==> f in {DeviceInUse, EndpointCreateFailed, ServiceNotRunning, Other}
  {
  }
}
