/** The random source of the generator.  Every call of Math.random() in the
    generator is one draw; the i-th call, counted from 0, reads rnd(i).  The
    methods of the generator take the index of their first draw and return
    the index of the first draw they left unread. */
module Draws {

  type Stream = nat -> real

  /** Every draw lies in [0, 1), as Math.random promises. */
  ghost predicate Valid(rnd: Stream)
  {
    forall i: nat :: 0.0 <= rnd(i) < 1.0
  }

  /** Math.floor(u * m): a whole number in [0, m). */
  function FloorScaled(u: real, m: nat): (v: int)
    requires 0.0 <= u < 1.0 && 0 < m
    ensures 0 <= v < m
  {
    var p := u * m as real;
    assert 0.0 <= p < m as real by { ProductBelow(u, m as real); }
    p.Floor
  }

  lemma ProductBelow(u: real, c: real)
    requires 0.0 <= u < 1.0 && 0.0 < c
    ensures 0.0 <= u * c < c
  {
  }

  /** lo + u * span: a real in [lo, lo + span). */
  function Scaled(u: real, lo: real, span: real): (v: real)
    requires 0.0 <= u < 1.0 && 0.0 < span
    ensures lo <= v < lo + span
  {
    lo + u * span
  }

  /** (u - 0.5) * w: a jitter in [-w/2, w/2). */
  function Jitter(u: real, w: real): (j: real)
    requires 0.0 <= u < 1.0 && 0.0 < w
    ensures -w / 2.0 <= j < w / 2.0
  {
    (u - 0.5) * w
  }
}
