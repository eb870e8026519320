/** When the next renewal starts, in 64-bit nanoseconds. */
module RenewalTiming {

  const SECOND: int := 1_000_000_000
  const TWO_TO_THE_62: int := 0x4000_0000_0000_0000
  const TWO_TO_THE_63: int := 0x8000_0000_0000_0000
  const TWO_TO_THE_64: int := 0x1_0000_0000_0000_0000

  predicate IsInt64(x: int) {
    -TWO_TO_THE_63 <= x < TWO_TO_THE_63
  }

  // A product or sum as 64-bit arithmetic leaves it.
  function Wrap(x: int): (r: int)
    ensures IsInt64(r) && (IsInt64(x) ==> r == x)
  {
    (x + TWO_TO_THE_63) % TWO_TO_THE_64 - TWO_TO_THE_63
  }

  // Division that truncates toward zero.
  function Quotient(x: int, y: int): int
    requires y > 0
  {
    if x >= 0 then x / y else -(-x / y)
  }

  function Target(remaining: int): int {
    Quotient(Wrap(remaining * 2), 3)
  }

  function JitterRange(remaining: int): int {
    Quotient(Target(remaining), 10)
  }

  // What the random source may return: at least 0, below twice the range, and asked for only when that is positive.
  predicate IsDraw(remaining: int, draw: int) {
    JitterRange(remaining) > 0 ==> 0 <= draw < Wrap(2 * JitterRange(remaining))
  }

  function RenewalDelay(remaining: int, draw: int): int
    requires IsInt64(remaining) && IsDraw(remaining, draw)
  {
    if remaining <= 0 then SECOND
    else
      var jitter := JitterRange(remaining);
      var target := if jitter > 0 then Wrap(Target(remaining) + Wrap(draw - jitter)) else Target(remaining);
      if target < SECOND then SECOND else target
  }

  /** Doubling a positive time stays in range exactly below 2^62 nanoseconds; from there on it turns negative. */
  lemma DoublingFits(remaining: int)
    requires IsInt64(remaining) && remaining > 0
    ensures Wrap(remaining * 2) == remaining * 2 <==> remaining < TWO_TO_THE_62
    ensures remaining >= TWO_TO_THE_62 ==> Wrap(remaining * 2) < 0
  {
    if remaining >= TWO_TO_THE_62 {
      assert remaining * 2 + TWO_TO_THE_63 == (remaining * 2 - TWO_TO_THE_63) + TWO_TO_THE_64;
    }
  }

  /** Below 2^62 nanoseconds nothing wraps. The delay is then at least one second and ends before the certificate
      does; it is at most 11/15 of the time left, unless raised to the one second, and at least 3/5 of it less a
      nanosecond. */
  lemma DelayBounds(remaining: int, draw: int)
    requires 0 < remaining < TWO_TO_THE_62 && IsDraw(remaining, draw)
    ensures
      var delay := RenewalDelay(remaining, draw);
      && delay >= SECOND
      && (remaining > SECOND ==> delay < remaining)
      && (delay == SECOND || 15 * delay <= 11 * remaining)
      && 5 * delay >= 3 * remaining - 5
  {
    DoublingFits(remaining);
    var target, jitter := Target(remaining), JitterRange(remaining);
    assert 3 * target <= 2 * remaining < 3 * target + 3;
    assert 10 * jitter <= target < 10 * jitter + 10;
  }

  /** Exactly: two thirds of the time left, moved by the draw, which ranges over a tenth of that either way; one second
      if that is less. The halfway draw leaves the two thirds, and of two draws the later gives a delay that is later
      by as much. */
  lemma DelayIsExact(remaining: int, draw: int, target: int, jitter: int)
    requires 0 < remaining < TWO_TO_THE_62
    requires 3 * target <= 2 * remaining < 3 * target + 3 && 10 * jitter <= target < 10 * jitter + 10
    ensures IsDraw(remaining, draw) <==> (jitter > 0 ==> 0 <= draw < 2 * jitter)
    ensures IsDraw(remaining, draw) ==>
        var delay := if jitter > 0 then target + draw - jitter else target;
        RenewalDelay(remaining, draw) == if delay < 1_000_000_000 then 1_000_000_000 else delay
  {
    DoublingFits(remaining);
    assert Target(remaining) == target && JitterRange(remaining) == jitter;
  }

  lemma NothingLeft(remaining: int, draw: int)
    requires IsInt64(remaining) && remaining <= 0 && IsDraw(remaining, draw)
    ensures RenewalDelay(remaining, draw) == 1_000_000_000
  {
  }

  /** From 2^62 nanoseconds on, some 146 years, the product wraps and the agent renews every second. */
  lemma LongLivedRenewsAtOnce(remaining: int, draw: int)
    requires IsInt64(remaining) && remaining >= TWO_TO_THE_62 && IsDraw(remaining, draw)
    ensures RenewalDelay(remaining, draw) == SECOND
  {
    DoublingFits(remaining);
  }

  /** The delay is tied to the time left for exactly the times below 2^62. */
  lemma DelayTracksRemainingIff(remaining: int, draw: int)
    requires IsInt64(remaining) && IsDraw(remaining, draw)
    ensures 5 * RenewalDelay(remaining, draw) >= 3 * remaining - 5 <==> remaining < TWO_TO_THE_62
  {
    if remaining >= TWO_TO_THE_62 {
      LongLivedRenewsAtOnce(remaining, draw);
    } else if remaining > 0 {
      DelayBounds(remaining, draw);
    }
  }
}
