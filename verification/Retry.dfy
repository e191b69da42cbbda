/** Exponential backoff of `analysis/retry.py`; the jitter source is an input. */
module Retry {
  import opened Common

  datatype RetryPolicy = RetryPolicy(baseDelay: int, maxDelay: int, maxJitter: int) {

    /** What `__post_init__` accepts. */
    predicate Valid() {
      1 <= baseDelay <= maxDelay && 0 <= maxJitter
    }

    function Delay(attempt: int, jitter: int): Result<int, string>
    {
      if attempt < 1 then
        Err("attempt must be positive")
      else
        var exponential := baseDelay * Pow2(Min(attempt - 1, 30));
        var delay := Min(maxDelay, exponential);
        var bounded := Min(jitter, maxJitter);
        if bounded < 0 then Err("jitter source returned a negative delay") else Ok(delay + bounded)
    }
  }

  /** The policy `OutboxPublisher` is built with. */
  const PUBLISHER_POLICY := RetryPolicy(30, 900, 0)

  function Pow2(n: int): (p: int)
    ensures p >= 1
    ensures n >= 1 ==> p >= 2
  {
    if n <= 0 then 1 else 2 * Pow2(n - 1)
  }

  lemma {:induction false} Pow2Monotone(a: int, b: int)
    requires a <= b
    ensures Pow2(a) <= Pow2(b)
    decreases b - a
  {
    if a < b {
      Pow2Monotone(a, b - 1);
    }
  }

  lemma ScaleMonotone(k: int, a: int, b: int)
    requires 0 <= k && a <= b
    ensures k * a <= k * b
  {
  }

  /** The delay is an answer exactly for positive attempts and non-negative jitter, and then lies in its bounds. */
  lemma DelayBounds(p: RetryPolicy, attempt: int, jitter: int)
    requires p.Valid()
    ensures p.Delay(attempt, jitter).Ok? <==> attempt >= 1 && jitter >= 0
    ensures p.Delay(attempt, jitter).Ok? ==>
              p.baseDelay <= p.Delay(attempt, jitter).value <= p.maxDelay + p.maxJitter
  {
    if attempt >= 1 {
      ScaleMonotone(p.baseDelay, 1, Pow2(Min(attempt - 1, 30)));
    }
  }

  lemma DelayMonotone(p: RetryPolicy, early: int, late: int, jitter: int)
    requires p.Valid() && 1 <= early <= late && 0 <= jitter
    ensures p.Delay(early, jitter).value <= p.Delay(late, jitter).value
  {
    Pow2Monotone(Min(early - 1, 30), Min(late - 1, 30));
    ScaleMonotone(p.baseDelay, Pow2(Min(early - 1, 30)), Pow2(Min(late - 1, 30)));
  }

  /** Capping the exponent at 30 is invisible whenever the largest delay is at most base * 2^30. */
  lemma CapIsInvisible(p: RetryPolicy, attempt: int, jitter: int)
    requires p.Valid() && 1 <= attempt && 0 <= jitter
    requires p.maxDelay <= p.baseDelay * Pow2(30)
    ensures p.Delay(attempt, jitter).value
            == Min(p.maxDelay, p.baseDelay * Pow2(attempt - 1)) + Min(jitter, p.maxJitter)
  {
    if attempt - 1 > 30 {
      Pow2Monotone(30, attempt - 1);
      ScaleMonotone(p.baseDelay, Pow2(30), Pow2(attempt - 1));
    }
  }

  /** Above that bound the cap does show: the condition of `CapIsInvisible` cannot be dropped. */
  lemma CapShowsOtherwise(p: RetryPolicy, jitter: int)
    requires p.Valid() && 0 <= jitter
    requires p.maxDelay > p.baseDelay * Pow2(30)
    ensures p.Delay(32, jitter).value
            < Min(p.maxDelay, p.baseDelay * Pow2(31)) + Min(jitter, p.maxJitter)
  {
    assert Pow2(31) == 2 * Pow2(30);
    assert p.baseDelay * Pow2(31) == 2 * (p.baseDelay * Pow2(30));
  }

  /** A failing outbox row is next due 30 to 900 seconds later. */
  lemma PublisherBackoff(attempt: int)
    requires attempt >= 1
    ensures PUBLISHER_POLICY.Delay(attempt, 0).Ok?
    ensures 30 <= PUBLISHER_POLICY.Delay(attempt, 0).value <= 900
    ensures attempt >= 6 ==> PUBLISHER_POLICY.Delay(attempt, 0).value == 900
  {
    DelayBounds(PUBLISHER_POLICY, attempt, 0);
    if attempt >= 6 {
      Pow2Monotone(5, Min(attempt - 1, 30));
    }
  }

  lemma DoublesScale(k: int, a: int)
    ensures k * (2 * a) == 2 * (k * a)
  {
  }

  lemma DelayDoubles(p: RetryPolicy, attempt: int)
    requires p.Valid() && 1 <= attempt
    ensures p.Delay(attempt, 0).Ok?
    ensures p.Delay(attempt + 1, 0)
            == Ok(if attempt <= 30 then Min(p.maxDelay, 2 * p.Delay(attempt, 0).value) else p.Delay(attempt, 0).value)
  {
    if attempt <= 30 {
      assert Pow2(attempt) == 2 * Pow2(attempt - 1);
      DoublesScale(p.baseDelay, Pow2(attempt - 1));
    }
  }

  /**
   The delay without jitter is the base delay at the first attempt and doubles with every
   further one up to the 31st, never beyond the largest delay; jitter comes on top, cut to its
   own bound.
   */
  lemma DelayExactly(p: RetryPolicy, attempt: int, jitter: int)
    requires p.Valid() && 1 <= attempt && 0 <= jitter
    ensures p.Delay(1, 0) == Ok(p.baseDelay) && p.Delay(attempt, 0).Ok?
    ensures p.Delay(attempt + 1, 0)
            == Ok(if attempt <= 30 then Min(p.maxDelay, 2 * p.Delay(attempt, 0).value) else p.Delay(attempt, 0).value)
    ensures p.Delay(attempt, jitter) == Ok(p.Delay(attempt, 0).value + Min(jitter, p.maxJitter))
  {
    DelayDoubles(p, attempt);
  }

  /** 30, 60, 120, 240, 480 seconds, and 900 from then on. */
  function PublisherDelay(attempt: int): int {
    match attempt
    case 1 => 30
    case 2 => 60
    case 3 => 120
    case 4 => 240
    case 5 => 480
    case _ => 900
  }

  /** What the publisher waits after its attempts. */
  lemma PublisherDelays(attempt: int)
    requires attempt >= 1
    ensures PUBLISHER_POLICY.Delay(attempt, 0) == Ok(PublisherDelay(attempt))
  {
    if attempt >= 6 {
      PublisherBackoff(attempt);
    } else {
      assert Pow2(1) == 2 && Pow2(2) == 4 && Pow2(3) == 8 && Pow2(4) == 16;
    }
  }
}
