/** Delays between the runs of a repeating task: growth factor, ceiling and jitter. Durations are nanoseconds. */
module RepeatBackoff {
  import opened Numbers

  datatype Policy = Policy(interval: int, maxInterval: int, multiplier: real, jitter: int)

  function Positive(d: int): (r: nat)
    ensures r >= d
  {
    if d <= 0 then 0 else d
  }

  /** A draw of the jitter generator. */
  predicate IsDraw(p: Policy, draw: nat) {
    draw <= Positive(p.jitter)
  }

  function ApplyJitter(delay: int, jitter: int, draw: nat): nat {
    Positive(delay) + if jitter <= 0 then 0 else draw
  }

  /**
   The delay set after a run or a skip, from the delay before it. A growing delay exceeds its ceiling by at most the
   jitter; one that does not grow stays within the jitter of the interval.
   */
  function NextDelay(p: Policy, current: int, draw: nat): (r: nat)
    ensures IsDraw(p, draw) && p.multiplier > 1.0 && p.maxInterval > 0 ==> r <= p.maxInterval + Positive(p.jitter)
    ensures IsDraw(p, draw) && p.multiplier <= 1.0 && p.interval > 0 ==>
              p.interval <= r <= p.interval + Positive(p.jitter)
  {
    var base := if current <= 0 then p.interval else current;
    if p.multiplier > 1.0 then
      var scaled := Positive((base as real * p.multiplier).Floor);
      ApplyJitter(if p.maxInterval > 0 then Min(scaled, p.maxInterval) else scaled, p.jitter, draw)
    else
      ApplyJitter(p.interval, p.jitter, draw)
  }

  /** The delay after k runs or skips without jitter. */
  function DelayAfter(p: Policy, k: nat): nat {
    if k == 0 then ApplyJitter(p.interval, p.jitter, 0) else NextDelay(p, DelayAfter(p, k - 1), 0)
  }

  function Capped(p: Policy, d: int): int {
    if p.maxInterval > 0 then Min(p.maxInterval, d) else d
  }

  lemma FloorOfProduct(d: int, m: int)
    ensures (d as real * m as real).Floor == d * m
  {
    assert d as real * m as real == (d * m) as real;
  }

  /** One growth step without jitter. */
  lemma GrowOnce(p: Policy, m: nat, d: int)
    requires d > 0 && p.jitter <= 0 && m > 1 && p.multiplier == m as real && d * m > 0
    ensures NextDelay(p, d, 0) == Capped(p, d * m)
  {
    FloorOfProduct(d, m);
  }

  /** Geometric growth up to the ceiling, for a whole growth factor and a ceiling not below the interval. */
  lemma {:induction false} GeometricBackoff(p: Policy, m: nat, k: nat)
    requires p.interval > 0 && p.jitter <= 0 && m > 1 && p.multiplier == m as real
    requires p.maxInterval > 0 ==> p.maxInterval >= p.interval
    ensures DelayAfter(p, k) == Capped(p, p.interval * Power(m, k)) > 0 && Power(m, k) > 0
  {
    if k > 0 {
      GeometricBackoff(p, m, k - 1);
      hide NextDelay;
      var d := DelayAfter(p, k - 1);
      GrowCapped(p.interval, m, Power(m, k - 1), p.maxInterval);
      Product(d, m);
      Product(m, Power(m, k - 1));
      GrowOnce(p, m, d);
    }
  }

  lemma Product(a: int, b: int)
    requires a > 0 && b > 0
    ensures a * b > 0
  {
  }

  lemma GrowCapped(i: int, m: int, q: int, cap: int)
    requires i > 0 && m > 1 && q > 0
    ensures i * (m * q) == (i * q) * m > 0
    ensures cap > 0 ==> Min(Min(cap, i * q) * m, cap) == Min(cap, i * (m * q))
  {
    assert (i * q) * m == i * (m * q);
    assert i * q > 0;
    if cap > 0 {
      if cap <= i * q {
        assert cap * m >= cap;
        assert (i * q) * m >= i * q;
      }
    }
  }
}
