/** The low-frequency oscillator shared by the flanger and the tremolo: a
    progression in [0, 1] advanced by `delta = rate / sample_rate` every
    sample and pulled back by one when it exceeds one. */
module Phase {

  const Pi: real := 3.14159265358979323846

  /** The C library's `sinf`, passed in as a function. */
  type Sine = real -> real

  /** The two facts about `sinf` the plugins rely on: it is bounded by one in
      magnitude and vanishes at zero. */
  ghost predicate IsSine(f: Sine)
  {
    f(0.0) == 0.0 && forall x :: -1.0 <= f(x) <= 1.0
  }

  /** Products of non-negative factors, for the bounds on LFO-scaled amounts. */
  lemma MulNonneg(x: real, y: real)
    requires x >= 0.0 && y >= 0.0
    ensures x * y >= 0.0
  {
  }

  /** One step of the progression: `progression += delta; if (progression > 1.0f) progression += -1.0f`. */
  function AdvancePhase(p: real, delta: real): (r: real)
    ensures 0.0 <= p <= 1.0 && 0.0 <= delta <= 1.0 ==> 0.0 <= r <= 1.0
    ensures 0.0 <= p <= 1.0 && delta == 0.0 ==> r == p
    ensures r > 1.0 ==> delta > 1.0 || p > 1.0
  {
    var q := p + delta;
    if q > 1.0 then q - 1.0 else q
  }

  /** The progression after `k` samples at a constant `delta`. */
  function PhaseAfter(p: real, delta: real, k: nat): real
  {
    if k == 0 then p else AdvancePhase(PhaseAfter(p, delta, k - 1), delta)
  }

  /** A progression that starts in [0, 1] stays there while `0 <= delta <= 1`;
      exactly 1.0 is reachable because the wrap tests `> 1`. */
  lemma {:induction false} PhaseStaysInUnit(p: real, delta: real, k: nat)
    requires 0.0 <= p <= 1.0 && 0.0 <= delta <= 1.0
    ensures 0.0 <= PhaseAfter(p, delta, k) <= 1.0
  {
    if k > 0 {
      PhaseStaysInUnit(p, delta, k - 1);
    }
  }

  /** A zero rate freezes the progression. */
  lemma {:induction false} PhaseFrozen(p: real, k: nat)
    requires 0.0 <= p <= 1.0
    ensures PhaseAfter(p, 0.0, k) == p
  {
    if k > 0 {
      PhaseFrozen(p, k - 1);
    }
  }

  /** Advancing `a` steps and then `b` steps is advancing `a + b` steps: the
      progression carried from one block into the next loses nothing. */
  lemma {:induction false} PhaseAfterAdd(p: real, delta: real, a: nat, b: nat)
    ensures PhaseAfter(PhaseAfter(p, delta, a), delta, b) == PhaseAfter(p, delta, a + b)
  {
    if b > 0 {
      PhaseAfterAdd(p, delta, a, b - 1);
    }
  }
}
