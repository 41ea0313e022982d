/** The bounded exponential retry schedule, in microseconds. */
module Backoff {
  import opened Outcomes

  datatype Policy = Policy(base: int, maximum: int) {
    predicate Valid() { 1 <= base <= maximum }
  }

  datatype BackoffError = InvalidAttempts

  /** Half of a duration as Python divides it: to the nearest microsecond, ties to even. */
  function HalfEven(m: int): int {
    if m % 2 == 0 then m / 2
    else if m / 2 % 2 == 0 then m / 2
    else m / 2 + 1
  }

  function Pow2(n: nat): (p: int)
    ensures p >= 1
  {
    if n == 0 then 1 else 2 * Pow2(n - 1)
  }

  function Min(a: int, b: int): int {
    if a <= b then a else b
  }

  /** Doubling with an early exit once another doubling would pass the maximum. */
  function Doubled(delay: int, maximum: int, rounds: nat): int
    decreases rounds
  {
    if rounds == 0 then Min(delay, maximum)
    else if delay >= HalfEven(maximum) then maximum
    else Doubled(2 * delay, maximum, rounds - 1)
  }

  function DelayAfter(policy: Policy, attempts: int): Result<int, BackoffError> {
    if attempts < 1 then Err(InvalidAttempts)
    else Ok(Doubled(policy.base, policy.maximum, attempts - 1))
  }

  method ComputeDelay(policy: Policy, attempts: int) returns (r: Result<int, BackoffError>)
    ensures r == DelayAfter(policy, attempts)
  {
    if attempts < 1 { return Err(InvalidAttempts); }
    var delay := policy.base;
    for i := 0 to attempts - 1
      invariant Doubled(policy.base, policy.maximum, attempts - 1) == Doubled(delay, policy.maximum, attempts - 1 - i)
    {
      if delay >= HalfEven(policy.maximum) { return Ok(policy.maximum); }
      delay := delay * 2;
    }
    return Ok(Min(delay, policy.maximum));
  }

  /** Doubling without an exit. */
  function Grown(delay: int, rounds: nat): int
    decreases rounds
  {
    if rounds == 0 then delay else Grown(2 * delay, rounds - 1)
  }

  lemma {:induction false} GrownIsPower(delay: int, rounds: nat)
    ensures Grown(delay, rounds) == delay * Pow2(rounds)
    decreases rounds
  {
    if rounds > 0 {
      GrownIsPower(2 * delay, rounds - 1);
      Regroup(delay, Pow2(rounds - 1));
    }
  }

  lemma Regroup(a: int, b: int)
    ensures 2 * a * b == a * (2 * b)
  {}

  lemma {:induction false} GrownAtLeast(delay: int, rounds: nat)
    requires delay >= 1
    ensures Grown(delay, rounds) >= delay
    ensures Grown(delay, rounds + 1) == 2 * Grown(delay, rounds)
    decreases rounds
  {
    if rounds > 0 { GrownAtLeast(2 * delay, rounds - 1); }
  }

  /** The one family of inputs where the half rounds down onto the delay itself. */
  predicate RoundsUp(base: int, maximum: int, rounds: nat) {
    rounds >= 1 && maximum % 4 == 1 && Grown(base, rounds) == maximum - 1
  }

  /** The loop is min(maximum, base * 2^rounds), but for one microsecond on the rounding family. */
  lemma {:induction false} DoubledExact(delay: int, maximum: int, rounds: nat)
    requires 1 <= delay <= maximum
    ensures Doubled(delay, maximum, rounds)
         == if RoundsUp(delay, maximum, rounds) then maximum else Min(maximum, Grown(delay, rounds))
    decreases rounds
  {
    if rounds == 0 {
    } else if delay >= HalfEven(maximum) {
      if rounds == 1 {
        assert Grown(delay, 1) == 2 * delay;
      } else {
        GrownAtLeast(4 * delay, rounds - 2);
      }
    } else {
      DoubledExact(2 * delay, maximum, rounds - 1);
      assert rounds == 1 ==> 2 * delay < maximum - 1 || maximum % 4 != 1;
    }
  }

  /** The exact schedule, as a power of two. */
  lemma DelayExact(policy: Policy, attempts: int)
    requires policy.Valid() && attempts >= 1
    ensures var wanted := policy.base * Pow2(attempts - 1);
      DelayAfter(policy, attempts)
      == Ok(if attempts >= 2 && policy.maximum % 4 == 1 && wanted == policy.maximum - 1 then policy.maximum
            else Min(policy.maximum, wanted))
  {
    GrownIsPower(policy.base, attempts - 1);
    DoubledExact(policy.base, policy.maximum, attempts - 1);
  }

  /** The delay never passes the maximum and never shrinks from one attempt to the next. */
  lemma DelayBounds(policy: Policy, attempts: int)
    requires policy.Valid() && attempts >= 1
    ensures policy.base <= DelayAfter(policy, attempts).value <= policy.maximum
    ensures DelayAfter(policy, attempts).value <= DelayAfter(policy, attempts + 1).value
  {
    GrownAtLeast(policy.base, attempts - 1);
    DoubledExact(policy.base, policy.maximum, attempts - 1);
    DoubledExact(policy.base, policy.maximum, attempts);
  }

  /** With a maximum of an even number of microseconds the schedule is the plain formula. */
  lemma EvenMaximumIsExact(policy: Policy, attempts: int)
    requires policy.Valid() && attempts >= 1 && policy.maximum % 2 == 0
    ensures DelayAfter(policy, attempts).value == Min(policy.maximum, policy.base * Pow2(attempts - 1))
  {
    DelayExact(policy, attempts);
  }

  /** The rounding family is inhabited: base 2, maximum 5, second attempt. */
  lemma RoundingWitness()
    ensures DelayAfter(Policy(2, 5), 2) == Ok(5) && Min(5, 2 * Pow2(1)) == 4
  {
    assert Doubled(2, 5, 1) == 5;
  }
}
