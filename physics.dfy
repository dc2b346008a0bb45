/**
 * The oscillator contract (abstract class BaseOscillator) and its three
 * concrete variants. The class hierarchy becomes one class, `Oscillator`,
 * that holds a tagged `System` naming the variant and its parameters, plus
 * the shared bookkeeping fields time, isRunning, slowMotion and timeStep and
 * the cached kinematic state.
 *
 * The pure functions below give the accessors (getPosition, getPeriod, the
 * energies, the report tables) as functions of the state, and the effect of
 * each state-changing operation as a function `After…` from the old state to
 * the new one; the class methods are proved to implement those functions and
 * the lemmas state what the source promises about them.
 */
module Oscillators {
  import opened Numerics
  import opened Tables
  import MasModel
  import PenduloSimpleModel
  import PenduloCompuestoModel
  import Pendulum

  datatype System =
    | MAS(mas: MasModel.Params)
    | PenduloSimple(simple: PenduloSimpleModel.Params)
    | PenduloCompuesto(compuesto: PenduloCompuestoModel.Params)

  /** The cached kinematic fields: linear for MAS, angular for the pendulums. */
  datatype Motion =
    | Linear(linear: MasModel.State)
    | Angular(angular: Pendulum.AngularState)

  /** Everything an oscillator object holds. */
  datatype OscState = OscState(
    time: real, isRunning: bool, slowMotion: bool, timeStep: real, sys: System, motion: Motion)

  /** The initial values of the BaseOscillator fields. */
  const DefaultTimeStep: real := 0.016
  /** The playback rate in slow motion. */
  const SlowMotionFactor: real := 0.1

  predicate WellFormed(sys: System) {
    match sys
    case MAS(p) => MasModel.WellFormed(p)
    case PenduloSimple(p) => PenduloSimpleModel.WellFormed(p)
    case PenduloCompuesto(p) => PenduloCompuestoModel.WellFormed(p)
  }

  /** The cached state has the shape of the variant. */
  predicate Fits(sys: System, m: Motion) {
    sys.MAS? <==> m.Linear?
  }

  /** The cached state is the closed form at the current time: it is never stale. */
  predicate Consistent(math: MathLib, s: OscState) {
    WellFormed(s.sys) && s.motion == MotionAt(math, s.sys, s.time)
  }

  // ---------------------------------------------------------------- accessors

  function AngularFrequency(math: MathLib, sys: System): real
    requires WellFormed(sys)
  {
    match sys
    case MAS(p) => MasModel.AngularFrequency(math, p)
    case PenduloSimple(p) => PenduloSimpleModel.AngularFrequency(math, p)
    case PenduloCompuesto(p) => PenduloCompuestoModel.AngularFrequency(math, p)
  }

  function Period(math: MathLib, sys: System): (T: real)
    requires WellFormed(sys) && AngularFrequency(math, sys) != 0.0
    ensures T * AngularFrequency(math, sys) == 2.0 * math.pi
  {
    match sys
    case MAS(p) => MasModel.Period(math, p)
    case PenduloSimple(p) => PenduloSimpleModel.Period(math, p)
    case PenduloCompuesto(p) => PenduloCompuestoModel.Period(math, p)
  }

  /** The state that update() and reset() compute at time t. */
  function MotionAt(math: MathLib, sys: System, t: real): (m: Motion)
    requires WellFormed(sys)
    ensures Fits(sys, m)
  {
    match sys
    case MAS(p) => Linear(MasModel.StateAt(math, p, t))
    case PenduloSimple(p) => Angular(PenduloSimpleModel.StateAt(math, p, t))
    case PenduloCompuesto(p) => Angular(PenduloCompuestoModel.StateAt(math, p, t))
  }

  /** The fields a freshly constructed object has before its constructor calls reset(). */
  function ZeroMotion(sys: System): (m: Motion)
    ensures Fits(sys, m)
  {
    if sys.MAS? then Linear(MasModel.State(0.0, 0.0, 0.0))
    else Angular(Pendulum.AngularState(0.0, 0.0, 0.0))
  }

  function Position(math: MathLib, sys: System, m: Motion): real
    requires Fits(sys, m)
  {
    match sys
    case MAS(p) => m.linear.posicion
    case PenduloSimple(p) => PenduloSimpleModel.Position(math, p, m.angular)
    case PenduloCompuesto(p) => PenduloCompuestoModel.Position(math, p, m.angular)
  }

  function Velocity(math: MathLib, sys: System, m: Motion): real
    requires Fits(sys, m)
  {
    match sys
    case MAS(p) => m.linear.velocidad
    case PenduloSimple(p) => PenduloSimpleModel.Velocity(math, p, m.angular)
    case PenduloCompuesto(p) => PenduloCompuestoModel.Velocity(math, p, m.angular)
  }

  function Acceleration(math: MathLib, sys: System, m: Motion): real
    requires Fits(sys, m)
  {
    match sys
    case MAS(p) => m.linear.aceleracion
    case PenduloSimple(p) => PenduloSimpleModel.Acceleration(math, p, m.angular)
    case PenduloCompuesto(p) => PenduloCompuestoModel.Acceleration(math, p, m.angular)
  }

  function KineticEnergy(math: MathLib, sys: System, m: Motion): real
    requires Fits(sys, m)
  {
    match sys
    case MAS(p) => MasModel.KineticEnergy(p, m.linear)
    case PenduloSimple(p) => PenduloSimpleModel.KineticEnergy(p, m.angular)
    case PenduloCompuesto(p) => PenduloCompuestoModel.KineticEnergy(p, m.angular)
  }

  function PotentialEnergy(math: MathLib, sys: System, m: Motion): real
    requires Fits(sys, m)
  {
    match sys
    case MAS(p) => MasModel.PotentialEnergy(p, m.linear)
    case PenduloSimple(p) => PenduloSimpleModel.PotentialEnergy(math, p, m.angular)
    case PenduloCompuesto(p) => PenduloCompuestoModel.PotentialEnergy(math, p, m.angular)
  }

  /** getTotalEnergy: every variant returns the sum of its two energy accessors. */
  function TotalEnergy(math: MathLib, sys: System, m: Motion): real
    requires Fits(sys, m)
  {
    KineticEnergy(math, sys, m) + PotentialEnergy(math, sys, m)
  }

  // ------------------------------------------------------------ report tables

  function Parameters(sys: System): seq<Entry> {
    match sys
    case MAS(p) => MasModel.Parameters(p)
    case PenduloSimple(p) => PenduloSimpleModel.Parameters(p)
    case PenduloCompuesto(p) => PenduloCompuestoModel.Parameters(p)
  }

  function Equations(sys: System): seq<string> {
    match sys
    case MAS(_) => MasModel.Equations()
    case PenduloSimple(_) => PenduloSimpleModel.Equations()
    case PenduloCompuesto(_) => PenduloCompuestoModel.Equations()
  }

  /** getKnownData: "what is given" is the parameter table itself. */
  function KnownData(sys: System): (t: seq<Entry>)
    ensures t == Parameters(sys)
  {
    Parameters(sys)
  }

  /** getUnknowns: a fixed placeholder table, not a snapshot of the state. */
  function Unknowns(): seq<Entry> {
    [ Entry("Posición", 0.0, "m"),
      Entry("Velocidad", 0.0, "m/s"),
      Entry("Aceleración", 0.0, "m/s²"),
      Entry("Energía Cinética", 0.0, "J"),
      Entry("Energía Potencial", 0.0, "J"),
      Entry("Energía Total", 0.0, "J") ]
  }

  /** getCalculations: the eight accessor readings substituted into labelled formulas. */
  function Calculations(math: MathLib, sys: System, m: Motion): seq<string>
    requires WellFormed(sys) && Fits(sys, m) && AngularFrequency(math, sys) != 0.0
  {
    var w := AngularFrequency(math, sys);
    var T := Period(math, sys);
    var x := Position(math, sys, m);
    var v := Velocity(math, sys, m);
    var a := Acceleration(math, sys, m);
    var ec := KineticEnergy(math, sys, m);
    var ep := PotentialEnergy(math, sys, m);
    var et := TotalEnergy(math, sys, m);
    [ "ω = " + math.toFixed4(w) + " rad/s",
      "T = 2π/ω = " + math.toFixed4(T) + " s",
      "x(t) = " + math.toFixed4(x) + " m",
      "v(t) = " + math.toFixed4(v) + " m/s",
      "a(t) = " + math.toFixed4(a) + " m/s²",
      "Ec = " + math.toFixed4(ec) + " J",
      "Ep = " + math.toFixed4(ep) + " J",
      "Et = Ec + Ep = " + math.toFixed4(et) + " J" ]
  }

  /** The readings a calculation line reports, in report order. */
  function Readings(math: MathLib, sys: System, m: Motion): seq<real>
    requires WellFormed(sys) && Fits(sys, m) && AngularFrequency(math, sys) != 0.0
  {
    [ AngularFrequency(math, sys), Period(math, sys),
      Position(math, sys, m), Velocity(math, sys, m), Acceleration(math, sys, m),
      KineticEnergy(math, sys, m), PotentialEnergy(math, sys, m), TotalEnergy(math, sys, m) ]
  }

  const CalculationLabels: seq<string> :=
    ["ω = ", "T = 2π/ω = ", "x(t) = ", "v(t) = ", "a(t) = ", "Ec = ", "Ep = ", "Et = Ec + Ep = "]
  const CalculationUnits: seq<string> :=
    [" rad/s", " s", " m", " m/s", " m/s²", " J", " J", " J"]

  // --------------------------------------------------------------- parameters

  /** The physical parameters the nine setters change. */
  datatype Param =
    | Masa | ConstanteElastica | Amplitud | FaseInicial
    | Longitud | Gravedad | AnguloInicial
    | MomentoInercia | DistanciaCentroMasa

  /** The parameters of a variant, in the order of its getParameters table. */
  function ParamOrder(sys: System): seq<Param> {
    match sys
    case MAS(_) => [Masa, ConstanteElastica, Amplitud, FaseInicial]
    case PenduloSimple(_) => [Longitud, Masa, Gravedad, AnguloInicial]
    case PenduloCompuesto(_) => [MomentoInercia, DistanciaCentroMasa, Masa, Gravedad, AnguloInicial]
  }

  /** The variant has a setter for the parameter. */
  predicate Settable(sys: System, q: Param) {
    q in ParamOrder(sys)
  }

  /** The parameter ω divides by, which the model keeps positive. */
  predicate Divisor(sys: System, q: Param) {
    match sys
    case MAS(_) => q == Masa
    case PenduloSimple(_) => q == Longitud
    case PenduloCompuesto(_) => q == MomentoInercia
  }

  /** A value the setter for q may be given. */
  predicate Admissible(sys: System, q: Param, v: real) {
    Settable(sys, q) && (Divisor(sys, q) ==> v > 0.0)
  }

  function ParamValue(sys: System, q: Param): real
    requires Settable(sys, q)
  {
    match sys
    case MAS(p) =>
      (match q
       case Masa => p.masa
       case ConstanteElastica => p.constanteElastica
       case Amplitud => p.amplitud
       case FaseInicial => p.faseInicial)
    case PenduloSimple(p) =>
      (match q
       case Longitud => p.longitud
       case Masa => p.masa
       case Gravedad => p.gravedad
       case AnguloInicial => p.anguloInicial)
    case PenduloCompuesto(p) =>
      (match q
       case MomentoInercia => p.momentoInercia
       case DistanciaCentroMasa => p.distanciaCentroMasa
       case Masa => p.masa
       case Gravedad => p.gravedad
       case AnguloInicial => p.anguloInicial)
  }

  /** The field assignment of a setter, before its call to reset(). */
  function WithParam(sys: System, q: Param, v: real): (r: System)
    requires Settable(sys, q)
    ensures ParamOrder(r) == ParamOrder(sys)
    ensures ParamValue(r, q) == v
    ensures forall q' :: Settable(sys, q') && q' != q ==> ParamValue(r, q') == ParamValue(sys, q')
    ensures WellFormed(sys) && Admissible(sys, q, v) ==> WellFormed(r)
  {
    match sys
    case MAS(p) =>
      MAS(match q
          case Masa => p.(masa := v)
          case ConstanteElastica => p.(constanteElastica := v)
          case Amplitud => p.(amplitud := v)
          case FaseInicial => p.(faseInicial := v))
    case PenduloSimple(p) =>
      PenduloSimple(match q
                    case Longitud => p.(longitud := v)
                    case Masa => p.(masa := v)
                    case Gravedad => p.(gravedad := v)
                    case AnguloInicial => p.(anguloInicial := v))
    case PenduloCompuesto(p) =>
      PenduloCompuesto(match q
                       case MomentoInercia => p.(momentoInercia := v)
                       case DistanciaCentroMasa => p.(distanciaCentroMasa := v)
                       case Masa => p.(masa := v)
                       case Gravedad => p.(gravedad := v)
                       case AnguloInicial => p.(anguloInicial := v))
  }

  // -------------------------------------------------------------- transitions

  /** A new object: the base fields at their initial values, then reset(). */
  function Initial(math: MathLib, sys: System): OscState
    requires WellFormed(sys)
  {
    AfterReset(math, OscState(0.0, false, false, DefaultTimeStep, sys, ZeroMotion(sys)))
  }

  function AfterReset(math: MathLib, s: OscState): OscState
    requires WellFormed(s.sys)
  {
    s.(time := 0.0, motion := MotionAt(math, s.sys, 0.0))
  }

  /** update(deltaTime): nothing while paused, otherwise advance the clock and recompute. */
  function AfterUpdate(math: MathLib, s: OscState, dt: real): OscState
    requires WellFormed(s.sys)
  {
    if !s.isRunning then s
    else
      var t := s.time + (if s.slowMotion then dt * SlowMotionFactor else dt);
      s.(time := t, motion := MotionAt(math, s.sys, t))
  }

  function AfterStart(s: OscState): OscState {
    s.(isRunning := true)
  }

  function AfterPause(s: OscState): OscState {
    s.(isRunning := false)
  }

  function AfterSetSlowMotion(s: OscState, enabled: bool): OscState {
    s.(slowMotion := enabled)
  }

  function AfterSetTimeStep(s: OscState, step: real): OscState {
    s.(timeStep := step)
  }

  /** A parameter setter: assign the one field, then reset(). */
  function AfterSet(math: MathLib, s: OscState, q: Param, v: real): OscState
    requires WellFormed(s.sys) && Admissible(s.sys, q, v)
  {
    AfterReset(math, s.(sys := WithParam(s.sys, q, v)))
  }

  /** isPaused(): the running flag, negated. */
  predicate Paused(s: OscState) {
    !s.isRunning
  }

  // ------------------------------------------------------------------ lemmas

  /** A fresh oscillator: clock at 0, paused, slow motion off, timeStep 0.016, state at t = 0. */
  lemma InitialState(math: MathLib, sys: System)
    requires WellFormed(sys)
    ensures var s := Initial(math, sys);
      && s.time == 0.0 && !s.isRunning && !s.slowMotion && s.timeStep == 0.016
      && s.sys == sys && Consistent(math, s)
  {
  }

  /** Every operation keeps the cached state equal to the closed form at the current time. */
  lemma OperationsKeepConsistency(math: MathLib, s: OscState, dt: real, b: bool, step: real, q: Param, v: real)
    requires Consistent(math, s)
    ensures Consistent(math, AfterReset(math, s))
    ensures Consistent(math, AfterUpdate(math, s, dt))
    ensures Consistent(math, AfterStart(s)) && Consistent(math, AfterPause(s))
    ensures Consistent(math, AfterSetSlowMotion(s, b)) && Consistent(math, AfterSetTimeStep(s, step))
    ensures Admissible(s.sys, q, v) ==> Consistent(math, AfterSet(math, s, q, v))
  {
  }

  /** update() while paused changes nothing at all. */
  lemma UpdateWhilePaused(math: MathLib, s: OscState, dt: real)
    requires WellFormed(s.sys) && Paused(s)
    ensures AfterUpdate(math, s, dt) == s
  {
  }

  /** update() while running advances the clock by dt (0.1·dt in slow motion),
      recomputes the state from the new time, and touches nothing else. */
  lemma UpdateWhileRunning(math: MathLib, s: OscState, dt: real)
    requires WellFormed(s.sys) && !Paused(s)
    ensures var r := AfterUpdate(math, s, dt);
      && r.time == s.time + (if s.slowMotion then 0.1 * dt else dt)
      && r.motion == MotionAt(math, s.sys, r.time)
      && r.isRunning == s.isRunning && r.slowMotion == s.slowMotion
      && r.timeStep == s.timeStep && r.sys == s.sys
  {
  }

  /** Slow motion advances the clock by exactly one tenth of what normal speed does. */
  lemma SlowMotionIsOneTenth(math: MathLib, s: OscState, dt: real)
    requires WellFormed(s.sys) && s.isRunning
    ensures AfterUpdate(math, s.(slowMotion := true), dt).time - s.time
         == 0.1 * (AfterUpdate(math, s.(slowMotion := false), dt).time - s.time)
  {
  }

  /** The state is a closed form of the time, not integrated step by step: two updates
      land exactly where one update over the summed interval does. */
  lemma UpdatesCompose(math: MathLib, s: OscState, dt1: real, dt2: real)
    requires WellFormed(s.sys)
    ensures AfterUpdate(math, AfterUpdate(math, s, dt1), dt2) == AfterUpdate(math, s, dt1 + dt2)
  {
    if s.isRunning && s.slowMotion {
      assert s.time + dt1 * SlowMotionFactor + dt2 * SlowMotionFactor
          == s.time + (dt1 + dt2) * SlowMotionFactor;
    }
  }

  /** timeStep is informational: update() never reads it. */
  lemma TimeStepNotUsed(math: MathLib, s: OscState, dt: real, step: real)
    requires WellFormed(s.sys)
    ensures AfterUpdate(math, AfterSetTimeStep(s, step), dt) == AfterSetTimeStep(AfterUpdate(math, s, dt), step)
  {
  }

  /** reset() twice is reset() once. */
  lemma ResetIdempotent(math: MathLib, s: OscState)
    requires WellFormed(s.sys)
    ensures AfterReset(math, AfterReset(math, s)) == AfterReset(math, s)
  {
  }

  /** reset() forgets everything update() did. */
  lemma ResetForgetsUpdates(math: MathLib, s: OscState, dt: real)
    requires WellFormed(s.sys)
    ensures AfterReset(math, AfterUpdate(math, s, dt)) == AfterReset(math, s)
  {
  }

  /** start() and pause() set the flag whatever it was, so each is idempotent, and
      isPaused() is always the negation of the flag. */
  lemma StartPause(s: OscState)
    ensures AfterStart(AfterStart(s)) == AfterStart(s) && !Paused(AfterStart(s))
    ensures AfterPause(AfterPause(s)) == AfterPause(s) && Paused(AfterPause(s))
    ensures AfterStart(s).(isRunning := s.isRunning) == s
    ensures AfterPause(s).(isRunning := s.isRunning) == s
  {
  }

  /** setSlowMotion and setTimeStep change only their own field. */
  lemma ConfigurationSetters(s: OscState, enabled: bool, step: real)
    ensures AfterSetSlowMotion(s, enabled).slowMotion == enabled
    ensures AfterSetSlowMotion(s, enabled).(slowMotion := s.slowMotion) == s
    ensures AfterSetTimeStep(s, step).timeStep == step
    ensures AfterSetTimeStep(s, step).(timeStep := s.timeStep) == s
  {
  }

  /** A parameter setter changes its own parameter only, sends the clock back to 0 even
      mid-run, recomputes the state there, and leaves the run flags alone. */
  lemma SetterResets(math: MathLib, s: OscState, q: Param, v: real)
    requires WellFormed(s.sys) && Admissible(s.sys, q, v)
    ensures var r := AfterSet(math, s, q, v);
      && r.time == 0.0
      && r.motion == MotionAt(math, r.sys, 0.0)
      && r.isRunning == s.isRunning && r.slowMotion == s.slowMotion && r.timeStep == s.timeStep
      && ParamValue(r.sys, q) == v
      && (forall q' :: Settable(s.sys, q') && q' != q ==> ParamValue(r.sys, q') == ParamValue(s.sys, q'))
  {
  }

  /** Because a setter resets, what update() did before it is lost. */
  lemma SetterDiscardsProgress(math: MathLib, s: OscState, dt: real, q: Param, v: real)
    requires WellFormed(s.sys) && Admissible(s.sys, q, v)
    ensures AfterSet(math, AfterUpdate(math, s, dt), q, v) == AfterSet(math, s, q, v)
  {
  }

  /** The table rows follow ParamOrder: row i reports parameter ParamOrder(sys)[i]. */
  lemma ParametersFollowOrder(sys: System)
    ensures |Parameters(sys)| == |ParamOrder(sys)|
    ensures forall i :: 0 <= i < |ParamOrder(sys)| ==> Parameters(sys)[i].value == ParamValue(sys, ParamOrder(sys)[i])
    ensures DistinctNames(Parameters(sys))
  {
    match sys
    case MAS(p) => MasModel.ParametersInOrder(p);
    case PenduloSimple(p) => PenduloSimpleModel.ParametersInOrder(p);
    case PenduloCompuesto(p) => PenduloCompuestoModel.ParametersInOrder(p);
  }

  /** After a setter, getParameters differs from before in the setter's own row only. */
  lemma SetterChangesOneRow(sys: System, q: Param, v: real)
    requires Settable(sys, q)
    ensures var before, after := Parameters(sys), Parameters(WithParam(sys, q, v));
      && |after| == |before|
      && (forall i :: 0 <= i < |before| ==> after[i].name == before[i].name && after[i].unit == before[i].unit)
      && (forall i :: 0 <= i < |before| ==>
            after[i].value == if ParamOrder(sys)[i] == q then v else before[i].value)
  {
    var r := WithParam(sys, q, v);
    ParametersFollowOrder(sys);
    ParametersFollowOrder(r);
  }

  /** ω depends on the parameters only: no operation but a setter changes it. */
  lemma FrequencyIgnoresClock(math: MathLib, s: OscState, dt: real, b: bool, step: real)
    requires WellFormed(s.sys)
    ensures AngularFrequency(math, AfterUpdate(math, s, dt).sys) == AngularFrequency(math, s.sys)
    ensures AngularFrequency(math, AfterReset(math, s).sys) == AngularFrequency(math, s.sys)
    ensures AngularFrequency(math, AfterStart(AfterPause(AfterSetSlowMotion(AfterSetTimeStep(s, step), b))).sys)
         == AngularFrequency(math, s.sys)
  {
  }

  /** With a lawful sqrt and the positive parameters the sliders offer, ω > 0, so the period
      is defined. */
  lemma PositiveParametersGiveFrequency(math: MathLib, sys: System)
    requires SqrtPositive(math) && WellFormed(sys)
    requires sys.MAS? ==> sys.mas.constanteElastica > 0.0
    requires sys.PenduloSimple? ==> sys.simple.gravedad > 0.0
    requires sys.PenduloCompuesto? ==>
      sys.compuesto.masa > 0.0 && sys.compuesto.gravedad > 0.0 && sys.compuesto.distanciaCentroMasa > 0.0
    ensures AngularFrequency(math, sys) > 0.0
  {
    match sys
    case MAS(p) =>
      assert p.constanteElastica / p.masa > 0.0;
    case PenduloSimple(p) =>
      assert p.gravedad / p.longitud > 0.0;
    case PenduloCompuesto(p) =>
      assert p.masa * p.gravedad > 0.0;
      assert p.masa * p.gravedad * p.distanciaCentroMasa > 0.0;
      assert (p.masa * p.gravedad * p.distanciaCentroMasa) / p.momentoInercia > 0.0;
  }

  /** The motion of every variant repeats after getPeriod(). */
  lemma MotionRepeatsAfterPeriod(math: MathLib, sys: System, t: real)
    requires WellFormed(sys) && AngularFrequency(math, sys) != 0.0 && Periodic(math)
    ensures MotionAt(math, sys, t + Period(math, sys)) == MotionAt(math, sys, t)
  {
    match sys
    case MAS(p) => MasModel.PeriodicState(math, p, t);
    case PenduloSimple(p) => PenduloSimpleModel.PeriodicState(math, p, t);
    case PenduloCompuesto(p) => PenduloCompuestoModel.PeriodicState(math, p, t);
  }

  /** The compound pendulum whose whole mass sits at the end of a simple pendulum's
      string: I = m·L², d = L. */
  function PointMass(p: PenduloSimpleModel.Params): PenduloCompuestoModel.Params {
    PenduloCompuestoModel.Params(p.masa * p.longitud * p.longitud, p.longitud, p.masa, p.gravedad, p.anguloInicial)
  }

  /** A simple pendulum is its point-mass compound pendulum: for a positive mass both
      classes compute the same ω, the same motion at every time and the same readings. */
  lemma {:induction false} PointMassIsCompound(math: MathLib, p: PenduloSimpleModel.Params, t: real)
    requires PenduloSimpleModel.WellFormed(p) && p.masa > 0.0
    ensures WellFormed(PenduloCompuesto(PointMass(p)))
    ensures AngularFrequency(math, PenduloCompuesto(PointMass(p))) == AngularFrequency(math, PenduloSimple(p))
    ensures MotionAt(math, PenduloCompuesto(PointMass(p)), t) == MotionAt(math, PenduloSimple(p), t)
    ensures var m := MotionAt(math, PenduloSimple(p), t);
      && Position(math, PenduloCompuesto(PointMass(p)), m) == Position(math, PenduloSimple(p), m)
      && Velocity(math, PenduloCompuesto(PointMass(p)), m) == Velocity(math, PenduloSimple(p), m)
      && Acceleration(math, PenduloCompuesto(PointMass(p)), m) == Acceleration(math, PenduloSimple(p), m)
      && KineticEnergy(math, PenduloCompuesto(PointMass(p)), m) == KineticEnergy(math, PenduloSimple(p), m)
      && PotentialEnergy(math, PenduloCompuesto(PointMass(p)), m) == PotentialEnergy(math, PenduloSimple(p), m)
  {
    var m, L, g := p.masa, p.longitud, p.gravedad;
    var c := PointMass(p);
    var mL := m * L;
    assert mL > 0.0;
    assert mL * L > 0.0;
    var q := g / L;
    assert q * L == g;
    assert m * g * L == q * (m * L * L);
    assert PenduloCompuestoModel.TorqueRatio(c) == q;
    var omega := PenduloSimpleModel.AngularFrequency(math, p);
    assert PenduloCompuestoModel.AngularFrequency(math, c) == omega;
    var st := Pendulum.AngularAt(math, p.anguloInicial, omega, t);
    assert PenduloSimpleModel.StateAt(math, p, t) == st;
    assert PenduloCompuestoModel.StateAt(math, c, t) == st;
    var w := st.velocidadAngular;
    assert 0.5 * (m * L * L) * w * w == 0.5 * m * (L * w) * (L * w);
  }

  /** No two rows of getUnknowns share a key. */
  lemma UnknownsDistinct()
    ensures DistinctNames(Unknowns())
  {
  }

  /** getUnknowns: six quantities in fixed order, every value 0, with their units. */
  lemma UnknownsTable()
    ensures Names(Unknowns())
         == ["Posición", "Velocidad", "Aceleración", "Energía Cinética", "Energía Potencial", "Energía Total"]
    ensures forall i :: 0 <= i < |Unknowns()| ==> Unknowns()[i].value == 0.0
    ensures Unknowns()[0].unit == "m" && Unknowns()[1].unit == "m/s" && Unknowns()[2].unit == "m/s²"
    ensures Unknowns()[3].unit == "J" && Unknowns()[4].unit == "J" && Unknowns()[5].unit == "J"
    ensures DistinctNames(Unknowns())
  {
    UnknownsDistinct();
  }

  /** getCalculations: eight lines, line i is label i, the formatted reading i and unit i,
      the readings being ω, T, x, v, a, Ec, Ep, Et in that order. */
  lemma CalculationsFollowReadings(math: MathLib, sys: System, m: Motion)
    requires WellFormed(sys) && Fits(sys, m) && AngularFrequency(math, sys) != 0.0
    ensures |Calculations(math, sys, m)| == 8
    ensures forall i :: 0 <= i < 8 ==>
      Calculations(math, sys, m)[i]
        == CalculationLabels[i] + math.toFixed4(Readings(math, sys, m)[i]) + CalculationUnits[i]
    ensures Readings(math, sys, m)[7] == Readings(math, sys, m)[5] + Readings(math, sys, m)[6]
  {
    var c, rd := Calculations(math, sys, m), Readings(math, sys, m);
    forall i | 0 <= i < 8
      ensures c[i] == CalculationLabels[i] + math.toFixed4(rd[i]) + CalculationUnits[i]
    {
      if i == 0 {} else if i == 1 {} else if i == 2 {} else if i == 3 {}
      else if i == 4 {} else if i == 5 {} else if i == 6 {} else {}
    }
  }

  /** The mass field of whichever variant, as the renderer reads it. */
  function Mass(sys: System): real {
    match sys
    case MAS(p) => p.masa
    case PenduloSimple(p) => p.masa
    case PenduloCompuesto(p) => p.masa
  }

  /** The renderer reads `getParameters()['Masa (m)'].value`: every variant has that key and
      it holds the mass. */
  lemma MassKeyPresent(sys: System)
    ensures Lookup(Parameters(sys), "Masa (m)") == Some(Mass(sys))
  {
    ParametersFollowOrder(sys);
    match sys
    case MAS(p) => LookupDistinct(Parameters(sys), 0);
    case PenduloSimple(p) => LookupDistinct(Parameters(sys), 1);
    case PenduloCompuesto(p) => LookupDistinct(Parameters(sys), 2);
  }

  /** The values the controls construct by default, at t = 0, given lawful sin, cos and sqrt. */
  lemma DefaultMasAtRest(math: MathLib)
    requires TrigAtZero(math) && SqrtSquares(math)
    ensures MotionAt(math, MAS(MasModel.Params(1.0, 10.0, 2.0, 0.0)), 0.0)
         == Linear(MasModel.State(2.0, 0.0, -20.0))
  {
    MasModel.StartsAtAmplitude(math, MasModel.Params(1.0, 10.0, 2.0, 0.0));
  }

  lemma DefaultCompoundFrequency(math: MathLib)
    ensures AngularFrequency(math, PenduloCompuesto(PenduloCompuestoModel.Params(0.5, 0.5, 1.0, 9.81, 0.3)))
         == math.sqrt(9.81)
  {
    assert (1.0 * 9.81 * 0.5) / 0.5 == 9.81;
  }

  // -------------------------------------------------------------------- class

  class Oscillator {
    const math: MathLib
    var time: real
    var isRunning: bool
    var slowMotion: bool
    var timeStep: real
    var sys: System
    var motion: Motion

    function Model(): OscState
      reads this
    {
      OscState(time, isRunning, slowMotion, timeStep, sys, motion)
    }

    predicate Valid()
      reads this
    {
      Consistent(math, Model())
    }

    /** new MAS(masa, k, A, phi) */
    constructor MAS(math: MathLib, masa: real := 1.0, k: real := 10.0, A: real := 2.0, phi: real := 0.0)
      requires masa > 0.0
      ensures Valid() && this.math == math
      ensures Model() == Initial(math, System.MAS(MasModel.Params(masa, k, A, phi)))
    {
      this.math := math;
      time, isRunning, slowMotion, timeStep := 0.0, false, false, DefaultTimeStep;
      var variant := System.MAS(MasModel.Params(masa, k, A, phi));
      sys := variant;
      motion := ZeroMotion(variant);
      new;
      Reset();
    }

    /** new PenduloSimple(L, m, g, theta0) */
    constructor PenduloSimple(math: MathLib, L: real := 1.0, m: real := 1.0, g: real := 9.81, theta0: real := 0.3)
      requires L > 0.0
      ensures Valid() && this.math == math
      ensures Model() == Initial(math, System.PenduloSimple(PenduloSimpleModel.Params(L, m, g, theta0)))
    {
      this.math := math;
      time, isRunning, slowMotion, timeStep := 0.0, false, false, DefaultTimeStep;
      var variant := System.PenduloSimple(PenduloSimpleModel.Params(L, m, g, theta0));
      sys := variant;
      motion := ZeroMotion(variant);
      new;
      Reset();
    }

    /** new PenduloCompuesto(I, d, m, g, theta0) */
    constructor PenduloCompuesto(math: MathLib, I: real := 0.5, d: real := 0.5, m: real := 1.0,
                                 g: real := 9.81, theta0: real := 0.3)
      requires I > 0.0
      ensures Valid() && this.math == math
      ensures Model() == Initial(math, System.PenduloCompuesto(PenduloCompuestoModel.Params(I, d, m, g, theta0)))
    {
      this.math := math;
      time, isRunning, slowMotion, timeStep := 0.0, false, false, DefaultTimeStep;
      var variant := System.PenduloCompuesto(PenduloCompuestoModel.Params(I, d, m, g, theta0));
      sys := variant;
      motion := ZeroMotion(variant);
      new;
      Reset();
    }

    method Update(deltaTime: real)
      requires Valid()
      modifies this
      ensures Valid() && Model() == AfterUpdate(math, old(Model()), deltaTime)
    {
      if !isRunning {
        return;
      }
      var dt := if slowMotion then deltaTime * SlowMotionFactor else deltaTime;
      time := time + dt;
      motion := MotionAt(math, sys, time);
    }

    method Reset()
      requires WellFormed(sys)
      modifies this
      ensures Valid() && Model() == AfterReset(math, old(Model()))
    {
      time := 0.0;
      motion := MotionAt(math, sys, time);
    }

    method Start()
      requires Valid()
      modifies this
      ensures Valid() && Model() == AfterStart(old(Model()))
    {
      isRunning := true;
    }

    method Pause()
      requires Valid()
      modifies this
      ensures Valid() && Model() == AfterPause(old(Model()))
    {
      isRunning := false;
    }

    method SetSlowMotion(enabled: bool)
      requires Valid()
      modifies this
      ensures Valid() && Model() == AfterSetSlowMotion(old(Model()), enabled)
    {
      slowMotion := enabled;
    }

    method SetTimeStep(step: real)
      requires Valid()
      modifies this
      ensures Valid() && Model() == AfterSetTimeStep(old(Model()), step)
    {
      timeStep := step;
    }

    /** The common shape of the nine setters: assign one field, then reset(). */
    method SetParam(q: Param, v: real)
      requires Valid() && Admissible(sys, q, v)
      modifies this
      ensures Valid() && Model() == AfterSet(math, old(Model()), q, v)
    {
      sys := WithParam(sys, q, v);
      Reset();
    }

    method SetMasa(m: real)
      requires Valid() && (sys.MAS? ==> m > 0.0)
      modifies this
      ensures Valid() && Model() == AfterSet(math, old(Model()), Masa, m)
    {
      SetParam(Masa, m);
    }

    method SetConstanteElastica(k: real)
      requires Valid() && sys.MAS?
      modifies this
      ensures Valid() && Model() == AfterSet(math, old(Model()), ConstanteElastica, k)
    {
      SetParam(ConstanteElastica, k);
    }

    method SetAmplitud(A: real)
      requires Valid() && sys.MAS?
      modifies this
      ensures Valid() && Model() == AfterSet(math, old(Model()), Amplitud, A)
    {
      SetParam(Amplitud, A);
    }

    method SetFaseInicial(phi: real)
      requires Valid() && sys.MAS?
      modifies this
      ensures Valid() && Model() == AfterSet(math, old(Model()), FaseInicial, phi)
    {
      SetParam(FaseInicial, phi);
    }

    method SetLongitud(L: real)
      requires Valid() && sys.PenduloSimple? && L > 0.0
      modifies this
      ensures Valid() && Model() == AfterSet(math, old(Model()), Longitud, L)
    {
      SetParam(Longitud, L);
    }

    method SetGravedad(g: real)
      requires Valid() && !sys.MAS?
      modifies this
      ensures Valid() && Model() == AfterSet(math, old(Model()), Gravedad, g)
    {
      SetParam(Gravedad, g);
    }

    method SetAnguloInicial(theta0: real)
      requires Valid() && !sys.MAS?
      modifies this
      ensures Valid() && Model() == AfterSet(math, old(Model()), AnguloInicial, theta0)
    {
      SetParam(AnguloInicial, theta0);
    }

    method SetMomentoInercia(I: real)
      requires Valid() && sys.PenduloCompuesto? && I > 0.0
      modifies this
      ensures Valid() && Model() == AfterSet(math, old(Model()), MomentoInercia, I)
    {
      SetParam(MomentoInercia, I);
    }

    method SetDistanciaCentroMasa(d: real)
      requires Valid() && sys.PenduloCompuesto?
      modifies this
      ensures Valid() && Model() == AfterSet(math, old(Model()), DistanciaCentroMasa, d)
    {
      SetParam(DistanciaCentroMasa, d);
    }

    function GetTime(): real
      reads this
    {
      time
    }

    predicate IsPaused()
      reads this
    {
      Paused(Model())
    }
  }
}
