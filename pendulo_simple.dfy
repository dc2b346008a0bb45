/**
 * Péndulo Simple (class PenduloSimple): a point mass on a thread of length L,
 * small-angle form θ(t) ≈ θ₀ cos(ωt) with ω = √(g/L).
 */
module PenduloSimpleModel {
  import opened Numerics
  import opened Tables
  import Pendulum

  /** longitud L, masa m, gravedad g, anguloInicial θ₀ */
  datatype Params = Params(longitud: real, masa: real, gravedad: real, anguloInicial: real)

  /** ω divides by the length; the sliders never offer a length below 0.5. */
  predicate WellFormed(p: Params) {
    p.longitud > 0.0
  }

  /** ω = √(g/L) */
  function AngularFrequency(math: MathLib, p: Params): real
    requires WellFormed(p)
  {
    math.sqrt(p.gravedad / p.longitud)
  }

  /** T = 2π/ω, so T·ω is exactly one turn. */
  function Period(math: MathLib, p: Params): (T: real)
    requires WellFormed(p) && AngularFrequency(math, p) != 0.0
    ensures T * AngularFrequency(math, p) == 2.0 * math.pi
  {
    (2.0 * math.pi) / AngularFrequency(math, p)
  }

  function StateAt(math: MathLib, p: Params, t: real): Pendulum.AngularState
    requires WellFormed(p)
  {
    Pendulum.AngularAt(math, p.anguloInicial, AngularFrequency(math, p), t)
  }

  function Position(math: MathLib, p: Params, s: Pendulum.AngularState): real {
    Pendulum.Position(math, p.longitud, s)
  }

  function Velocity(math: MathLib, p: Params, s: Pendulum.AngularState): real {
    Pendulum.Velocity(math, p.longitud, s)
  }

  function Acceleration(math: MathLib, p: Params, s: Pendulum.AngularState): real {
    Pendulum.Acceleration(math, p.longitud, s)
  }

  /** Ec = ½ m v² with the tangential speed v = L θ'. */
  function KineticEnergy(p: Params, s: Pendulum.AngularState): real {
    var v := p.longitud * s.velocidadAngular;
    0.5 * p.masa * v * v
  }

  function PotentialEnergy(math: MathLib, p: Params, s: Pendulum.AngularState): real {
    Pendulum.PotentialEnergy(math, p.masa, p.gravedad, p.longitud, s)
  }

  function Parameters(p: Params): seq<Entry> {
    [ Entry("Longitud (L)", p.longitud, "m"),
      Entry("Masa (m)", p.masa, "kg"),
      Entry("Gravedad (g)", p.gravedad, "m/s²"),
      Entry("Ángulo Inicial (θ₀)", p.anguloInicial, "rad") ]
  }

  function Equations(): seq<string> {
    [ "θ(t) ≈ θ₀ cos(ωt)",
      "ω = √(g/L)",
      "T = 2π√(L/g)",
      "x = L sin(θ)",
      "v = Lω cos(θ)",
      "Ec = ½mv²",
      "Ep = mgh = mgL(1-cos(θ))",
      "Et = Ec + Ep" ]
  }

  /** With a lawful sqrt the angle obeys θ'' = -(g/L)·θ. */
  lemma PendulumEquation(math: MathLib, p: Params, t: real)
    requires WellFormed(p) && SqrtSquares(math) && p.gravedad >= 0.0
    ensures StateAt(math, p, t).aceleracionAngular == -(p.gravedad / p.longitud) * StateAt(math, p, t).angulo
  {
    var w := AngularFrequency(math, p);
    assert w * w == p.gravedad / p.longitud;
    Pendulum.SmallAngleEquation(math, p.anguloInicial, w, t);
  }

  /** Released at rest from θ₀: θ' = 0, so there is no kinetic energy yet. */
  lemma ReleasedAtRest(math: MathLib, p: Params)
    requires WellFormed(p) && TrigAtZero(math)
    ensures StateAt(math, p, 0.0).angulo == p.anguloInicial
    ensures StateAt(math, p, 0.0).velocidadAngular == 0.0
    ensures KineticEnergy(p, StateAt(math, p, 0.0)) == 0.0
    ensures Position(math, p, StateAt(math, p, 0.0)) == p.longitud * math.sin(p.anguloInicial)
    ensures PotentialEnergy(math, p, StateAt(math, p, 0.0))
         == p.masa * p.gravedad * (p.longitud * (1.0 - math.cos(p.anguloInicial)))
  {
    Pendulum.ReleasedAtRest(math, p.anguloInicial, AngularFrequency(math, p));
  }

  /** The motion repeats after one period. */
  lemma PeriodicState(math: MathLib, p: Params, t: real)
    requires WellFormed(p) && AngularFrequency(math, p) != 0.0 && Periodic(math)
    ensures StateAt(math, p, t + Period(math, p)) == StateAt(math, p, t)
  {
    Pendulum.PeriodicSwing(math, p.anguloInicial, AngularFrequency(math, p), t);
  }

  /** Neither energy is negative for non-negative m and g. */
  lemma EnergiesNonNegative(math: MathLib, p: Params, s: Pendulum.AngularState)
    requires WellFormed(p) && CosAtMostOne(math) && p.masa >= 0.0 && p.gravedad >= 0.0
    ensures KineticEnergy(p, s) >= 0.0 && PotentialEnergy(math, p, s) >= 0.0
  {
    var v := p.longitud * s.velocidadAngular;
    assert v * v >= 0.0;
    assert 0.5 * p.masa * v * v == (0.5 * p.masa) * (v * v);
    Pendulum.PotentialNonNegative(math, p.masa, p.gravedad, p.longitud, s);
  }

  /** getParameters: four rows, in the order L, m, g, θ₀, with no repeated key. */
  lemma ParametersInOrder(p: Params)
    ensures Names(Parameters(p)) == ["Longitud (L)", "Masa (m)", "Gravedad (g)", "Ángulo Inicial (θ₀)"]
    ensures Values(Parameters(p)) == [p.longitud, p.masa, p.gravedad, p.anguloInicial]
    ensures Units(Parameters(p)) == ["m", "kg", "m/s²", "rad"]
    ensures DistinctNames(Parameters(p))
  {
  }

  /** getEquations: eight formulas, the governing equation first and the energy sum last. */
  lemma EquationsInOrder()
    ensures |Equations()| == 8
    ensures Equations()[0] == "θ(t) ≈ θ₀ cos(ωt)" && Equations()[7] == "Et = Ec + Ep"
  {
  }
}
