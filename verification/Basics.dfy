/**
 Shared vocabulary: optional values, identifiers, instants and the numeric limits of the
 ride-group protocol.

 An instant is a number of nanoseconds since Go's zero time, so `IsZero` is `t == 0`.
 */
module Basics {

  datatype Option<+T> = None | Some(value: T)

  /** UUIDs, nonces and challenges; "" stands for "none yet". */
  type Id = string

  type Time = int

  const MILLISECOND: int := 1_000_000
  const SECOND: int := 1_000_000_000

  /** How long an activity, a challenge or a lease can last. */
  const LEASE_DURATION: int := 10 * SECOND
  /** How long a probe or a stop attempt can last. */
  const ATTEMPT_LIFETIME: int := 10 * SECOND
  /** How old a GPS fix may be. */
  const FIX_LIFETIME: int := 5 * SECOND
  const STATUS_RETRY: int := 3 * SECOND

  const MAX_SAFE_INTEGER: int := 9_007_199_254_740_991

  /** 1970-01-01 counted from Go's zero time. */
  const UNIX_EPOCH: int := 62_135_596_800 * SECOND

  predicate SafePositive(n: int) {
    0 < n <= MAX_SAFE_INTEGER
  }

  predicate SafeNonnegative(n: int) {
    0 <= n <= MAX_SAFE_INTEGER
  }

  function UnixMilli(t: Time): int {
    (t - UNIX_EPOCH) / MILLISECOND
  }

  function FromUnixMilli(ms: int): Time {
    UNIX_EPOCH + ms * MILLISECOND
  }

  // ---- facts about collections ----

  lemma Associates<T>(a: seq<T>, b: seq<T>, c: seq<T>)
    ensures a + b + c == a + (b + c)
  {
  }

  lemma {:induction false} SubsetIsNoLarger<K(!new)>(a: set<K>, b: set<K>)
    requires a <= b
    ensures |a| <= |b|
  {
    if a != {} {
      var x :| x in a;
      SubsetIsNoLarger(a - {x}, b - {x});
    }
  }
}
