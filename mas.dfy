/**
 * Movimiento Armónico Simple (class MAS): a mass on a spring.
 * x(t) = A cos(ωt + φ), with ω = √(k/m).
 */
module MasModel {
  import opened Numerics
  import opened Tables

  /** The physical inputs: masa m, constanteElastica k, amplitud A, faseInicial φ. */
  datatype Params = Params(masa: real, constanteElastica: real, amplitud: real, faseInicial: real)

  /** The cached kinematic fields posicion, velocidad and aceleracion. */
  datatype State = State(posicion: real, velocidad: real, aceleracion: real)

  /** ω divides by the mass; the sliders never offer a mass below 0.1. */
  predicate WellFormed(p: Params) {
    p.masa > 0.0
  }

  /** ω = √(k/m): a function of k and m alone, never of the clock. */
  function AngularFrequency(math: MathLib, p: Params): real
    requires WellFormed(p)
  {
    math.sqrt(p.constanteElastica / p.masa)
  }

  /** T = 2π/ω, so T·ω is exactly one turn. */
  function Period(math: MathLib, p: Params): (T: real)
    requires WellFormed(p) && AngularFrequency(math, p) != 0.0
    ensures T * AngularFrequency(math, p) == 2.0 * math.pi
  {
    (2.0 * math.pi) / AngularFrequency(math, p)
  }

  /** The state update() and reset() compute from the clock t. */
  function StateAt(math: MathLib, p: Params, t: real): State
    requires WellFormed(p)
  {
    var w := AngularFrequency(math, p);
    var wt := w * t + p.faseInicial;
    var posicion := p.amplitud * math.cos(wt);
    State(posicion, -p.amplitud * w * math.sin(wt), -w * w * posicion)
  }

  function KineticEnergy(p: Params, s: State): real {
    0.5 * p.masa * s.velocidad * s.velocidad
  }

  function PotentialEnergy(p: Params, s: State): real {
    0.5 * p.constanteElastica * s.posicion * s.posicion
  }

  function Parameters(p: Params): seq<Entry> {
    [ Entry("Masa (m)", p.masa, "kg"),
      Entry("Constante Elástica (k)", p.constanteElastica, "N/m"),
      Entry("Amplitud (A)", p.amplitud, "m"),
      Entry("Fase Inicial (φ)", p.faseInicial, "rad") ]
  }

  function Equations(): seq<string> {
    [ "x(t) = A cos(ωt + φ)",
      "ω = √(k/m)",
      "v(t) = -Aω sin(ωt + φ)",
      "a(t) = -ω²x",
      "T = 2π/ω",
      "Ec = ½mv²",
      "Ep = ½kx²",
      "Et = Ec + Ep" ]
  }

  /** With a lawful sqrt, the cached acceleration obeys Hooke's law a = -(k/m)·x. */
  lemma HookeLaw(math: MathLib, p: Params, t: real)
    requires WellFormed(p) && SqrtSquares(math) && p.constanteElastica >= 0.0
    ensures StateAt(math, p, t).aceleracion == -(p.constanteElastica / p.masa) * StateAt(math, p, t).posicion
  {
    var w := AngularFrequency(math, p);
    assert w * w == p.constanteElastica / p.masa;
  }

  /** The motion repeats after one period: the state at t + T is the state at t. */
  lemma PeriodicState(math: MathLib, p: Params, t: real)
    requires WellFormed(p) && AngularFrequency(math, p) != 0.0 && Periodic(math)
    ensures StateAt(math, p, t + Period(math, p)) == StateAt(math, p, t)
  {
    var w := AngularFrequency(math, p);
    var T := Period(math, p);
    assert w * (t + T) + p.faseInicial == (w * t + p.faseInicial) + 2.0 * math.pi by {
      assert w * (t + T) == w * t + T * w;
    }
  }

  /** With φ = 0 the mass starts at rest at x = A, where a = -(k/m)·A. */
  lemma StartsAtAmplitude(math: MathLib, p: Params)
    requires WellFormed(p) && TrigAtZero(math) && SqrtSquares(math)
    requires p.faseInicial == 0.0 && p.constanteElastica >= 0.0
    ensures StateAt(math, p, 0.0) == State(p.amplitud, 0.0, -(p.constanteElastica / p.masa) * p.amplitud)
  {
    var w := AngularFrequency(math, p);
    assert w * 0.0 + p.faseInicial == 0.0;
    assert w * w == p.constanteElastica / p.masa;
  }

  /** Neither energy is negative for non-negative m and k. */
  lemma EnergiesNonNegative(p: Params, s: State)
    requires p.masa >= 0.0 && p.constanteElastica >= 0.0
    ensures KineticEnergy(p, s) >= 0.0 && PotentialEnergy(p, s) >= 0.0
  {
    assert s.velocidad * s.velocidad >= 0.0;
    assert 0.5 * p.masa * s.velocidad * s.velocidad == (0.5 * p.masa) * (s.velocidad * s.velocidad);
    assert s.posicion * s.posicion >= 0.0;
    assert 0.5 * p.constanteElastica * s.posicion * s.posicion
        == (0.5 * p.constanteElastica) * (s.posicion * s.posicion);
  }

  /** getParameters: four rows, in the order m, k, A, φ, with no repeated key. */
  lemma ParametersInOrder(p: Params)
    ensures Names(Parameters(p)) == ["Masa (m)", "Constante Elástica (k)", "Amplitud (A)", "Fase Inicial (φ)"]
    ensures Values(Parameters(p)) == [p.masa, p.constanteElastica, p.amplitud, p.faseInicial]
    ensures Units(Parameters(p)) == ["kg", "N/m", "m", "rad"]
    ensures DistinctNames(Parameters(p))
  {
    var t := Parameters(p);
    assert DistinctNames(t) by {
      assert |t[0].name| == 8 && |t[1].name| == 22 && |t[2].name| == 12 && |t[3].name| == 16;
    }
  }

  /** getEquations: eight formulas, the governing equation first and the energy sum last. */
  lemma EquationsInOrder()
    ensures |Equations()| == 8
    ensures Equations()[0] == "x(t) = A cos(ωt + φ)" && Equations()[7] == "Et = Ec + Ep"
  {
  }
}
