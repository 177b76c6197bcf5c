/**
 * Angle normalisation as done by the filter: a pair of while loops that add
 * or subtract whole turns until the angle lies in [-Pi, Pi].
 */
module Angles {

  /** The M_PI literal the filter falls back on; exact as a rational. */
  const Pi: real := 3.14159265358979323846
  const TwoPi: real := 2.0 * Pi

  /** Smallest integer not below x. */
  function Ceil(x: real): (c: int)
    ensures x <= c as real < x + 1.0
  {
    -((-x).Floor)
  }

  /** The angle reached from a by k whole turns. */
  function TurnedBy(a: real, k: int): real {
    a + TwoPi * k as real
  }

  /** b and a denote the same direction. */
  ghost predicate SameDirection(a: real, b: real) {
    exists k: int :: b == TurnedBy(a, k)
  }

  /** Number of whole turns the two loops add to a (negative: subtracted). */
  function Turns(a: real): int {
    if a > Pi then -Ceil((a - Pi) / TwoPi)
    else if a < -Pi then Ceil((-Pi - a) / TwoPi)
    else 0
  }

  /**
   * Closed form of the normalisation loops: the result lies in [-Pi, Pi],
   * names the same direction as a, and is a itself when a is already in range.
   */
  function WrapAngle(a: real): (r: real)
    ensures -Pi <= r <= Pi
    ensures SameDirection(a, r)
    ensures -Pi <= a <= Pi ==> r == a
    ensures a > Pi ==> r > -Pi
    ensures a < -Pi ==> r < Pi
  {
    assert TurnedBy(a, Turns(a)) == a + TwoPi * Turns(a) as real;
    TurnedBy(a, Turns(a))
  }

  lemma CeilUnique(x: real, j: int)
    requires x <= j as real < x + 1.0
    ensures Ceil(x) == j
  {
  }

  /** One more turn subtracted. */
  lemma TurnBack(a: real, k: int)
    ensures TurnedBy(a, k) - TwoPi == TurnedBy(a, k - 1)
  {
  }

  /** One more turn added. */
  lemma TurnOn(a: real, k: int)
    ensures TurnedBy(a, k) + TwoPi == TurnedBy(a, k + 1)
  {
  }

  /** Subtracting k >= 1 turns lands in (-Pi, Pi] exactly when Turns(a) is -k. */
  lemma TurnsDown(a: real, k: int)
    requires 1 <= k && -Pi < TurnedBy(a, -k) <= Pi
    ensures Turns(a) == -k
  {
    var x := (a - Pi) / TwoPi;
    assert a - Pi == x * TwoPi;
    CeilUnique(x, k);
  }

  /** Adding k >= 1 turns lands in [-Pi, Pi) exactly when Turns(a) is k. */
  lemma TurnsUp(a: real, k: int)
    requires 1 <= k && -Pi <= TurnedBy(a, k) < Pi
    ensures Turns(a) == k
  {
    var x := (-Pi - a) / TwoPi;
    assert -Pi - a == x * TwoPi;
    CeilUnique(x, k);
  }

  /**
   * Subtracts 2*pi while the angle is above pi, then adds 2*pi while it is below
   * -pi; every normalisation site of the filter calls this one method.
   */
  method NormalizeAngle(a: real) returns (r: real)
    ensures r == WrapAngle(a)
  {
    r := a;
    ghost var down: int := 0;
    while r > Pi
      invariant r == TurnedBy(a, -down) && 0 <= down
      invariant down > 0 ==> -Pi < r
      decreases r.Floor
    {
      TurnBack(a, -down);
      r := r - TwoPi;
      down := down + 1;
    }
    ghost var up: int := 0;
    while r < -Pi
      invariant r == TurnedBy(a, up - down) && 0 <= up
      invariant up > 0 ==> r < Pi && down == 0
      decreases (-r).Floor
    {
      TurnOn(a, up - down);
      r := r + TwoPi;
      up := up + 1;
    }
    if down > 0 {
      TurnsDown(a, down);
    } else if up > 0 {
      TurnsUp(a, up);
    }
  }
}
