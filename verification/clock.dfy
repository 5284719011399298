/** The monotone clock. An instant is a count of nanoseconds, the resolution of the source's `Instant`. */
module Clock {
  type Time = nat

  /** Nanoseconds in one second. */
  const SEC: nat := 1_000_000_000

  /** `saturating_duration_since`: an instant in the future is zero nanoseconds old. */
  function Elapsed(now: Time, at: Time): nat {
    if now >= at then now - at else 0
  }

  /** `Duration::as_secs`: whole seconds, rounded down. */
  function AsSecs(d: nat): nat {
    d / SEC
  }

  /** `window_expired` of src/peer.rs. */
  predicate WindowExpired(now: Time, startedAt: Time, seconds: nat) {
    Elapsed(now, startedAt) >= seconds * SEC
  }
}
