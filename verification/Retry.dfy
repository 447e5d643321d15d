// Exponential backoff (daemon/retry.go).
module Retry {
  import opened Meetings

  datatype Retry = Retry(attempt: int, nextAttempt: Time)

  function Pow2(n: nat): (p: nat)
    ensures p >= 1
  {
    if n == 0 then 1 else 2 * Pow2(n - 1)
  }

  function Min(a: int, b: int): int {
    if a < b then a else b
  }

  function Delay(attempt: int): nat
    requires attempt >= 1
  {
    var shifted := MINUTE * Pow2(Min(attempt - 1, 4));
    if shifted > 15 * MINUTE then 15 * MINUTE else shifted
  }

  function Clamped(jitter: int, delay: nat): (j: nat) {
    if jitter < 0 then 0 else if jitter > delay / 4 then delay / 4 else jitter
  }

  function NoJitter(limit: nat): int { 0 }

  function NextRetry(now: Time, attempt: int, jitter: nat -> int): Retry {
    var n := if attempt < 1 then 1 else attempt;
    var delay := Delay(n);
    Retry(n, now + delay + Clamped(jitter(delay / 4), delay))
  }

  // The hash of the key spreads close retries over the jitter window.
  function CloseRetry(now: Time, attempt: int, key: Key, hash: Key -> nat): Retry {
    NextRetry(now, attempt, (limit: nat) => hash(key) % (limit + 1))
  }

  lemma {:induction false} Pow2Monotone(m: nat, n: nat)
    requires m <= n
    ensures Pow2(m) <= Pow2(n)
    decreases n
  {
    if m < n {
      Pow2Monotone(m, n - 1);
    }
  }

  // The capped shift is the closed form min(2^(n-1), 15) minutes, for every n.
  lemma DelayClosedForm(n: int)
    requires n >= 1
    ensures Delay(n) == Min(Pow2(n - 1), 15) * MINUTE
  {
    assert Pow2(0) == 1;
    assert Pow2(1) == 2;
    assert Pow2(2) == 4;
    assert Pow2(3) == 8;
    assert Pow2(4) == 16;
    if n >= 5 {
      Pow2Monotone(4, n - 1);
    } else {
      assert n == 1 || n == 2 || n == 3 || n == 4;
    }
  }

  // Whatever the jitter says, the next attempt is between one minute and
  // eighteen minutes forty-five seconds away, and later failures never shorten
  // the base delay.
  lemma BackoffWindow(now: Time, attempt: int, jitter: nat -> int)
    ensures var r := NextRetry(now, attempt, jitter);
            && r.attempt >= 1
            && now + MINUTE <= r.nextAttempt <= now + 18 * MINUTE + 45 * SECOND
    ensures attempt >= 1 ==>
              && Delay(attempt) <= Delay(attempt + 1)
              && now + Delay(attempt) <= NextRetry(now, attempt, jitter).nextAttempt
                   <= now + Delay(attempt) + Delay(attempt) / 4
  {
    var n := if attempt < 1 then 1 else attempt;
    DelayClosedForm(n);
    DelayClosedForm(n + 1);
    assert Pow2(n) == 2 * Pow2(n - 1);
  }
}
