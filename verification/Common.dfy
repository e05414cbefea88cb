/** Result codes, integer widths and deadline arithmetic shared by every part of the cache. */
module Common {
  datatype Option<+T> = None | Some(value: T)

  datatype OpResult = Ok | Defer | Retry | ErrorArgument | ErrorNoData

  datatype ErrorCode = IllArgument | SysRoutine

  const TWO_31: int := 0x8000_0000
  const TWO_32: int := 0x1_0000_0000

  /** Milliseconds for which a read or an update promises that a value stays. */
  const LEASE_MS: nat := 10000

  /** Milliseconds after which an unacknowledged response is sent again. */
  const ACK_MS: nat := 500

  /** Conversion to uint32_t. Dafny's % is never negative, as the conversion demands. */
  function ToUint32(x: int): (r: nat)
    ensures r < TWO_32
    ensures exists k :: x == r + k * TWO_32
  {
    assert x == x % TWO_32 + (x / TWO_32) * TWO_32;
    x % TWO_32
  }

  /** Two's-complement conversion to int32_t. */
  function ToInt32(x: int): (r: int)
    ensures -TWO_31 <= r < TWO_31 && (x - r) % TWO_32 == 0
    ensures r == x <==> -TWO_31 <= x < TWO_31
  {
    var u := ToUint32(x);
    if u < TWO_31 then u else u - TWO_32
  }

  /** Post-decrement of a uint32_t counter, wrapping at zero. */
  function Decrement32(x: nat): nat {
    if x == 0 then TWO_32 - 1 else x - 1
  }

  /** What is left of the deadline `t`, as a client computes it. */
  function ExpireMilliseconds(t: int, now: int): int {
    ToInt32(t - now)
  }

  /** A time span whose negation, cast to 32 bits, comes out positive. */
  predicate Wraps(late: int) {
    late % TWO_32 > TWO_31
  }

  lemma NegatedSpan(late: int)
    requires late >= 0
    ensures ToInt32(-late) > 0 <==> Wraps(late)
    ensures Wraps(late) ==> ToInt32(-late) == TWO_32 - late % TWO_32
  {
  }

  /** A deadline survives the trip through the 32-bit message field exactly
      while it is less than 2^31 ms away, before or after. */
  lemma DeadlineRoundTrip(deadline: int, now: int)
    ensures ExpireMilliseconds(ToUint32(deadline), now) == deadline - now
       <==> -TWO_31 <= deadline - now < TWO_31
  {
  }

  /** A deadline of the past looks like one of the future exactly when its
      lateness, modulo 2^32, is more than 2^31 ms. */
  lemma PastLooksAhead(deadline: int, now: int)
    requires deadline <= now
    ensures ExpireMilliseconds(ToUint32(deadline), now) > 0 <==> Wraps(now - deadline)
    ensures Wraps(now - deadline) ==> ExpireMilliseconds(ToUint32(deadline), now) == TWO_32 - (now - deadline) % TWO_32
  {
  }
}
