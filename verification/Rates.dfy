/** The rungs of the sample-rate ladder, as every backend reports them. */
module Rates {
  /** How one direction reached the session rate. The latency figure a converter
      discloses is not modelled; its presence is the Resampled case. */
  datatype RateOutcome =
    | Native
    | ClockSet(from: nat)
    | OsConverted(device: nat)
    | Resampled(device: nat)

  /** The handler hears session-rate audio: a converter is in place exactly when
      the stream runs at another rate, and exactly then is it reported, at the
      rate the stream opened at. */
  predicate Bridged(session: nat, rate: nat, converter: bool, outcome: RateOutcome) {
    && (converter <==> rate != session)
    && (converter <==> outcome.Resampled?)
    && (converter ==> outcome == Resampled(rate))
  }
}
