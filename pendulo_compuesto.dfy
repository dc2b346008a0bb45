/**
 * Péndulo Compuesto (class PenduloCompuesto): a rigid body swinging about a
 * pivot at distance d from its centre of mass, small-angle form
 * θ(t) ≈ θ₀ cos(ωt) with ω = √(mgd / I).
 */
module PenduloCompuestoModel {
  import opened Numerics
  import opened Tables
  import Pendulum

  /** momentoInercia I, distanciaCentroMasa d, masa m, gravedad g, anguloInicial θ₀ */
  datatype Params = Params(
    momentoInercia: real, distanciaCentroMasa: real, masa: real, gravedad: real, anguloInicial: real)

  /** ω divides by the moment of inertia; the sliders never offer I below 0.1. */
  predicate WellFormed(p: Params) {
    p.momentoInercia > 0.0
  }

  /** The restoring torque per unit angle over the inertia, mgd / I. */
  function TorqueRatio(p: Params): real
    requires WellFormed(p)
  {
    (p.masa * p.gravedad * p.distanciaCentroMasa) / p.momentoInercia
  }

  /** ω = √(mgd / I) */
  function AngularFrequency(math: MathLib, p: Params): real
    requires WellFormed(p)
  {
    math.sqrt(TorqueRatio(p))
  }

  /** T = 2π/ω, so T·ω is exactly one turn. */
  function Period(math: MathLib, p: Params): (T: real)
    requires WellFormed(p) && AngularFrequency(math, p) != 0.0
    ensures T * AngularFrequency(math, p) == 2.0 * math.pi
  {
    (2.0 * math.pi) / AngularFrequency(math, p)
  }

  function StateAt(math: MathLib, p: Params, t: real): Pendulum.AngularState
    requires WellFormed(p)
  {
    Pendulum.AngularAt(math, p.anguloInicial, AngularFrequency(math, p), t)
  }

  /** The projections follow the centre of mass, at distance d from the pivot. */
  function Position(math: MathLib, p: Params, s: Pendulum.AngularState): real {
    Pendulum.Position(math, p.distanciaCentroMasa, s)
  }

  function Velocity(math: MathLib, p: Params, s: Pendulum.AngularState): real {
    Pendulum.Velocity(math, p.distanciaCentroMasa, s)
  }

  function Acceleration(math: MathLib, p: Params, s: Pendulum.AngularState): real {
    Pendulum.Acceleration(math, p.distanciaCentroMasa, s)
  }

  /** Rotational kinetic energy Ec = ½ I θ'². */
  function KineticEnergy(p: Params, s: Pendulum.AngularState): real {
    0.5 * p.momentoInercia * s.velocidadAngular * s.velocidadAngular
  }

  function PotentialEnergy(math: MathLib, p: Params, s: Pendulum.AngularState): real {
    Pendulum.PotentialEnergy(math, p.masa, p.gravedad, p.distanciaCentroMasa, s)
  }

  function Parameters(p: Params): seq<Entry> {
    [ Entry("Momento de Inercia (I)", p.momentoInercia, "kg·m²"),
      Entry("Distancia al Centro de Masa (d)", p.distanciaCentroMasa, "m"),
      Entry("Masa (m)", p.masa, "kg"),
      Entry("Gravedad (g)", p.gravedad, "m/s²"),
      Entry("Ángulo Inicial (θ₀)", p.anguloInicial, "rad") ]
  }

  function Equations(): seq<string> {
    [ "θ(t) ≈ θ₀ cos(ωt)",
      "ω = √(mgd / I)",
      "T = 2π√(I / mgd)",
      "Ec = ½Iω²",
      "Ep = mgd(1-cos(θ))",
      "Et = Ec + Ep" ]
  }

  /** With a lawful sqrt the angle obeys the torque balance θ'' = -(mgd/I)·θ. */
  lemma TorqueEquation(math: MathLib, p: Params, t: real)
    requires WellFormed(p) && SqrtSquares(math) && p.masa * p.gravedad * p.distanciaCentroMasa >= 0.0
    ensures StateAt(math, p, t).aceleracionAngular
         == -((p.masa * p.gravedad * p.distanciaCentroMasa) / p.momentoInercia) * StateAt(math, p, t).angulo
  {
    var w := AngularFrequency(math, p);
    assert w * w == (p.masa * p.gravedad * p.distanciaCentroMasa) / p.momentoInercia;
    Pendulum.SmallAngleEquation(math, p.anguloInicial, w, t);
  }

  /** Released at rest from θ₀: θ' = 0, so there is no rotational energy yet. */
  lemma ReleasedAtRest(math: MathLib, p: Params)
    requires WellFormed(p) && TrigAtZero(math)
    ensures StateAt(math, p, 0.0).angulo == p.anguloInicial
    ensures StateAt(math, p, 0.0).velocidadAngular == 0.0
    ensures KineticEnergy(p, StateAt(math, p, 0.0)) == 0.0
    ensures Position(math, p, StateAt(math, p, 0.0)) == p.distanciaCentroMasa * math.sin(p.anguloInicial)
  {
    Pendulum.ReleasedAtRest(math, p.anguloInicial, AngularFrequency(math, p));
  }

  /** The motion repeats after one period. */
  lemma PeriodicState(math: MathLib, p: Params, t: real)
    requires WellFormed(p) && AngularFrequency(math, p) != 0.0 && Periodic(math)
    ensures StateAt(math, p, t + Period(math, p)) == StateAt(math, p, t)
  {
    Pendulum.PeriodicSwing(math, p.anguloInicial, AngularFrequency(math, p), t);
  }

  /** Neither energy is negative for non-negative m, g and d. */
  lemma EnergiesNonNegative(math: MathLib, p: Params, s: Pendulum.AngularState)
    requires WellFormed(p) && CosAtMostOne(math)
    requires p.masa >= 0.0 && p.gravedad >= 0.0 && p.distanciaCentroMasa >= 0.0
    ensures KineticEnergy(p, s) >= 0.0 && PotentialEnergy(math, p, s) >= 0.0
  {
    var w := s.velocidadAngular;
    assert w * w >= 0.0;
    assert 0.5 * p.momentoInercia * w * w == (0.5 * p.momentoInercia) * (w * w);
    Pendulum.PotentialNonNegative(math, p.masa, p.gravedad, p.distanciaCentroMasa, s);
  }

  /** getParameters: five rows, in the order I, d, m, g, θ₀, with no repeated key. */
  lemma ParametersInOrder(p: Params)
    ensures Names(Parameters(p))
         == ["Momento de Inercia (I)", "Distancia al Centro de Masa (d)", "Masa (m)",
             "Gravedad (g)", "Ángulo Inicial (θ₀)"]
    ensures Values(Parameters(p))
         == [p.momentoInercia, p.distanciaCentroMasa, p.masa, p.gravedad, p.anguloInicial]
    ensures Units(Parameters(p)) == ["kg·m²", "m", "kg", "m/s²", "rad"]
    ensures DistinctNames(Parameters(p))
  {
    var t := Parameters(p);
    assert DistinctNames(t) by {
      assert |t[0].name| == 22 && |t[1].name| == 31 && |t[2].name| == 8;
      assert |t[3].name| == 12 && |t[4].name| == 19;
    }
    assert Values(t) == [p.momentoInercia, p.distanciaCentroMasa, p.masa, p.gravedad, p.anguloInicial];
  }

  /** getEquations: six formulas, the governing equation first and Et = Ec + Ep last. */
  lemma EquationsInOrder()
    ensures |Equations()| == 6
    ensures Equations()[0] == "θ(t) ≈ θ₀ cos(ωt)" && Equations()[5] == "Et = Ec + Ep"
  {
  }
}
