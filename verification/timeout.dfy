/**
 * The deadline primitive of kitsune_p2p_types (`KitsuneTimeout`).
 *
 * A timeout wraps one absolute instant. Instants and durations are counted in
 * nanoseconds; the current instant and the largest instant the platform's clock
 * type can hold are passed in, since the model has no clock of its own.
 */
module Timeout {
  import opened Wrappers

  const NanosPerMilli: nat := 1_000_000
  const U64Bound: nat := 0x1_0000_0000_0000_0000

  /** The error kinds of `KitsuneErrorKind` that this model needs. */
  datatype KitsuneError = TimedOut | Closed | Other(reason: string)

  type KitsuneResult<T> = Result<T, KitsuneError>

  /** An absolute deadline. Immutable: every query takes the instant it is asked at. */
  datatype KitsuneTimeout = KitsuneTimeout(deadline: nat)

  /**
   * `new(duration)`: the deadline is `now + duration`. The addition is checked
   * against the largest representable instant and unwrapped, so an overflow is a
   * panic, modelled as `None`.
   */
  function New(now: nat, duration: nat, maxInstant: nat): (r: Option<KitsuneTimeout>)
    ensures r.Some? <==> now + duration <= maxInstant
    ensures r.Some? ==> r.value.deadline - now == duration
  {
    if now + duration <= maxInstant then Some(KitsuneTimeout(now + duration)) else None
  }

  /** `from_millis(millis)`: a timeout `millis` milliseconds from now. */
  function FromMillis(now: nat, millis: nat, maxInstant: nat): (r: Option<KitsuneTimeout>)
    requires millis < U64Bound
    ensures r == New(now, millis * NanosPerMilli, maxInstant)
    ensures r.Some? ==> TimeRemaining(r.value, now) == millis * NanosPerMilli
  {
    New(now, millis * NanosPerMilli, maxInstant)
  }

  /** `time_remaining()`: how long until the deadline, saturating at zero. */
  function TimeRemaining(t: KitsuneTimeout, now: nat): (r: nat)
    ensures now < t.deadline ==> now + r == t.deadline
    ensures t.deadline <= now ==> r == 0
  {
    if now < t.deadline then t.deadline - now else 0
  }

  /**
   * `is_expired()`: the deadline is at or before `now`. With whole-number
   * instants this is the same as no time remaining.
   */
  predicate IsExpired(t: KitsuneTimeout, now: nat)
    ensures IsExpired(t, now) <==> TimeRemaining(t, now) == 0
  {
    t.deadline <= now
  }

  /** `ok()`: `Err(TimedOut)` once expired, `Ok(())` before. */
  function Check(t: KitsuneTimeout, now: nat): (r: KitsuneResult<()>)
    ensures r == Err(TimedOut) <==> IsExpired(t, now)
    ensures r == Ok(()) <==> !IsExpired(t, now)
  {
    if IsExpired(t, now) then Err(TimedOut) else Ok(())
  }

  /** Waiting `w` takes exactly `w` off the remaining time, down to zero. */
  lemma RemainingAfterWait(t: KitsuneTimeout, now: nat, w: nat)
    ensures TimeRemaining(t, now + w) == if w <= TimeRemaining(t, now) then TimeRemaining(t, now) - w else 0
  {
  }

  /** Once expired, a timeout stays expired. */
  lemma ExpiryIsPermanent(t: KitsuneTimeout, now: nat, later: nat)
    requires now <= later && IsExpired(t, now)
    ensures IsExpired(t, later) && Check(t, later) == Err(TimedOut)
  {
  }

  /** A fresh timeout has exactly its duration left, and is expired iff that duration is zero. */
  lemma NewThenQuery(now: nat, duration: nat, maxInstant: nat)
    requires now + duration <= maxInstant
    ensures TimeRemaining(New(now, duration, maxInstant).value, now) == duration
    ensures IsExpired(New(now, duration, maxInstant).value, now) <==> duration == 0
  {
  }

  /** A 40 ms timeout asked at once has at least a millisecond left and is not expired. */
  lemma BasicTimeout(now: nat, maxInstant: nat)
    requires now + 40 * NanosPerMilli <= maxInstant
    ensures TimeRemaining(FromMillis(now, 40, maxInstant).value, now) / NanosPerMilli > 0
    ensures !IsExpired(FromMillis(now, 40, maxInstant).value, now)
  {
  }

  /** A 1 ms timeout asked at least 2 ms later has no time left (not a single microsecond) and is expired. */
  lemma ExpiredTimeout(now: nat, later: nat, maxInstant: nat)
    requires now + NanosPerMilli <= maxInstant
    requires later >= now + 2 * NanosPerMilli
    ensures TimeRemaining(FromMillis(now, 1, maxInstant).value, later) / 1000 == 0
    ensures IsExpired(FromMillis(now, 1, maxInstant).value, later)
  {
  }

  // ---------------------------------------------------------------- mix

  /** How the raced operation ends: it never completes, or it completes at an instant with a result. */
  datatype Completion<R> = Never | At(time: nat, result: KitsuneResult<R>)

  /**
   * `mix` arms its timer when it is called (at `armedAt`), for `time_remaining()`
   * at that moment; the timer therefore fires at the deadline, or at once when the
   * deadline has already passed.
   */
  function TimerFiresAt(t: KitsuneTimeout, armedAt: nat): (r: nat)
    ensures r >= armedAt && r >= t.deadline
    ensures r == armedAt || r == t.deadline
  {
    armedAt + TimeRemaining(t, armedAt)
  }

  /**
   * `mix(f)`: the race of `f` against the timer. Whichever completes first decides
   * the one outcome: the operation's own result, an `Err` passed through as it is,
   * or `Err(TimedOut)`. When both are ready at the same instant the operation wins,
   * because the race polls the operation before the timer.
   */
  function Mix<R>(t: KitsuneTimeout, armedAt: nat, op: Completion<R>): (r: KitsuneResult<R>)
    ensures op.At? && op.time <= TimerFiresAt(t, armedAt) ==> r == op.result
    ensures op.Never? || op.time > TimerFiresAt(t, armedAt) ==> r == Err(TimedOut)
  {
    match op
    case Never => Err(TimedOut)
    case At(time, result) => if time <= TimerFiresAt(t, armedAt) then result else Err(TimedOut)
  }

  /** The timer fires at the deadline itself, however early `mix` was called before it. */
  lemma TimerFiresAtDeadline(t: KitsuneTimeout, armedAt: nat)
    requires armedAt <= t.deadline
    ensures TimerFiresAt(t, armedAt) == t.deadline
  {
  }

  /**
   * Armed before the deadline, `mix` yields the operation's result exactly when the
   * operation completes by the deadline, and `TimedOut` otherwise: an operation
   * that never completes cannot make `mix` hang.
   */
  lemma MixDecidedByDeadline<R>(t: KitsuneTimeout, armedAt: nat, op: Completion<R>)
    requires armedAt <= t.deadline
    ensures op.At? && op.time <= t.deadline ==> Mix(t, armedAt, op) == op.result
    ensures (op.Never? || op.time > t.deadline) ==> Mix(t, armedAt, op) == Err(TimedOut)
  {
    TimerFiresAtDeadline(t, armedAt);
  }

  /** On an already expired timeout, only an operation done the instant `mix` is armed escapes `TimedOut`. */
  lemma MixOnExpired<R>(t: KitsuneTimeout, armedAt: nat, op: Completion<R>)
    requires IsExpired(t, armedAt)
    ensures Mix(t, armedAt, op) == if op.At? && op.time <= armedAt then op.result else Err(TimedOut)
  {
  }

  /**
   * `TimedOut` never comes from the timer while the deadline is in the future:
   * an operation that loses the race completes strictly after both the deadline
   * and the arming instant.
   */
  lemma MixTimedOutOnlyPastDeadline<R>(t: KitsuneTimeout, armedAt: nat, op: Completion<R>)
    requires Mix(t, armedAt, op) == Err(TimedOut)
    requires op.At? ==> op.result != Err(TimedOut)
    ensures op.At? ==> op.time > t.deadline && op.time > armedAt
  {
  }
}
