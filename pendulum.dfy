/**
 * What the two pendulum classes share, written once: the small-angle closed
 * form θ(t) = θ₀ cos(ωt) computed by their update() and reset(), the
 * projection of the angular state onto the horizontal axis through a radius
 * (L for the simple pendulum, d for the compound one), and the potential
 * energy of a mass raised by r(1 - cos θ).
 */
module Pendulum {
  import opened Numerics

  /** The cached fields angulo, velocidadAngular and aceleracionAngular. */
  datatype AngularState = AngularState(angulo: real, velocidadAngular: real, aceleracionAngular: real)

  function AngularAt(math: MathLib, theta0: real, w: real, t: real): AngularState {
    AngularState(
      theta0 * math.cos(w * t),
      -theta0 * w * math.sin(w * t),
      -theta0 * w * w * math.cos(w * t))
  }

  /** x = r sin θ */
  function Position(math: MathLib, r: real, s: AngularState): real {
    r * math.sin(s.angulo)
  }

  /** v = r θ' cos θ */
  function Velocity(math: MathLib, r: real, s: AngularState): real {
    r * s.velocidadAngular * math.cos(s.angulo)
  }

  /** a = r θ'' cos θ - r θ'² sin θ (tangential and centripetal terms) */
  function Acceleration(math: MathLib, r: real, s: AngularState): real {
    var term1 := r * s.aceleracionAngular * math.cos(s.angulo);
    var term2 := -r * s.velocidadAngular * s.velocidadAngular * math.sin(s.angulo);
    term1 + term2
  }

  /** Ep = m g h with h = r (1 - cos θ) */
  function PotentialEnergy(math: MathLib, m: real, g: real, r: real, s: AngularState): real {
    var h := r * (1.0 - math.cos(s.angulo));
    m * g * h
  }

  /** The closed form obeys the small-angle equation of motion θ'' = -ω² θ at every t. */
  lemma SmallAngleEquation(math: MathLib, theta0: real, w: real, t: real)
    ensures AngularAt(math, theta0, w, t).aceleracionAngular == -(w * w) * AngularAt(math, theta0, w, t).angulo
  {
    var c := math.cos(w * t);
    assert -theta0 * w * w * c == -(w * w) * (theta0 * c);
  }

  /** At t = 0 the pendulum is released from rest at θ₀. */
  lemma ReleasedAtRest(math: MathLib, theta0: real, w: real)
    requires TrigAtZero(math)
    ensures AngularAt(math, theta0, w, 0.0) == AngularState(theta0, 0.0, -theta0 * w * w)
  {
    assert w * 0.0 == 0.0;
  }

  /** The swing repeats after 2π/ω. */
  lemma PeriodicSwing(math: MathLib, theta0: real, w: real, t: real)
    requires w != 0.0 && Periodic(math)
    ensures AngularAt(math, theta0, w, t + (2.0 * math.pi) / w) == AngularAt(math, theta0, w, t)
  {
    var T := (2.0 * math.pi) / w;
    assert w * (t + T) == w * t + 2.0 * math.pi by {
      assert w * T == 2.0 * math.pi;
    }
  }

  /** The pendulum never sits below its lowest point: Ep >= 0 for m, g, r >= 0. */
  lemma PotentialNonNegative(math: MathLib, m: real, g: real, r: real, s: AngularState)
    requires CosAtMostOne(math) && m >= 0.0 && g >= 0.0 && r >= 0.0
    ensures PotentialEnergy(math, m, g, r, s) >= 0.0
  {
    var h := r * (1.0 - math.cos(s.angulo));
    assert 1.0 - math.cos(s.angulo) >= 0.0;
    assert h >= 0.0;
    assert m * g >= 0.0;
    assert m * g * h == (m * g) * h;
  }

  /** Hanging straight down (θ = 0) the bob is at x = 0 with no potential energy. */
  lemma AtLowestPoint(math: MathLib, m: real, g: real, r: real, s: AngularState)
    requires TrigAtZero(math) && s.angulo == 0.0
    ensures Position(math, r, s) == 0.0 && PotentialEnergy(math, m, g, r, s) == 0.0
    ensures Velocity(math, r, s) == r * s.velocidadAngular
    ensures Acceleration(math, r, s) == r * s.aceleracionAngular
  {
  }
}
