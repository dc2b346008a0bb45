# Oscillator simulator — a verified Dafny model

This project models the computational core of an educational simulator of
three oscillators: the simple harmonic motion of a mass on a spring (MAS),
the simple pendulum (Péndulo Simple) and the compound pendulum (Péndulo
Compuesto). The model covers three parts:

- **The oscillator state machine.** There is a clock, a running flag, a
  slow-motion flag and a time step. `update(dt)` recomputes the kinematic
  state in closed form from the new time, `reset()` returns the clock to
  zero, and each parameter setter changes one parameter and resets. The
  report tables are getParameters, getKnownData, getUnknowns, getEquations
  and getCalculations.
- **The rolling buffer behind the real-time charts.** Seven parallel
  series are capped at 100 samples with first-in-first-out eviction. The
  chart update is throttled to one redraw per 100 ms.
- **Two renderer computations.** One maps the mass to the radius of the
  drawn disc. The other builds the legend: which items it lists, the
  height of its box and where each row goes.

Files:

- `numerics.dfy` (module `Numerics`): the numeric library the program calls
  (`Math.sqrt`, `Math.sin`, `Math.cos`, `Math.PI`, `toFixed(4)`). It is a
  value of type `MathLib` whose functions are left abstract. The few laws
  some lemmas assume are named predicates (sin 0 = 0 and cos 0 = 1, sqrt
  squares, sqrt of a positive number is positive, 2π-periodicity, cos ≤ 1).
- `tables.dfy` (module `Tables`): the `Record<string, {value, unit}>`
  tables as ordered entry lists, since an object literal keeps its keys in
  insertion order. Lookup by key is `Lookup`.
- `mas.dfy`, `pendulo_simple.dfy`, `pendulo_compuesto.dfy`: the formulas of
  each variant, meaning ω, the period, the closed-form state at time t, the
  projections, the energies and the two report tables. `pendulum.dfy` holds
  what both pendulums share.
- `physics.dfy` (module `Oscillators`): the abstract base class and its
  three subclasses become one class, `Oscillator`, holding a tagged
  `System` value. Each state-changing operation is specified by a pure
  transition function `After…` on an `OscState` snapshot, and each method is
  proved to implement its transition function. The class invariant
  `Valid()` says the cached kinematic state is always the closed form at
  the current time.
- `charts.dfy` (module `Charts`): class `Charts` with seven `seq<real>`
  series, `addData`, `clear` and the throttle of `update`.
- `renderer.dfy` (module `Renderer`): `getMassRadius` and the legend of
  `drawElementsInfo`.

## Model

| member | source | states |
|---|---|---|
| Oscillators.InitialState | src/core/physics.ts:2-5 | a fresh oscillator has time 0, is not running, has slow motion off and time step 0.016, and its cached state is the closed form at time 0 |
| Oscillators.Oscillator.MAS | src/models/mas.ts:17-24 | the constructor stores m, k, A and φ (defaults 1, 10, 2, 0) and then resets, so the object is `Initial` of those parameters |
| Oscillators.Oscillator.PenduloSimple | src/models/penduloSimple.ts:17-24 | the constructor stores L, m, g and θ₀ (defaults 1, 1, 9.81, 0.3) and resets to time 0 |
| Oscillators.Oscillator.PenduloCompuesto | src/models/penduloCompuesto.ts:18-26 | the constructor stores I, d, m, g and θ₀ (defaults 0.5, 0.5, 1, 9.81, 0.3) and resets to time 0 |
| Oscillators.Oscillator.Start | src/core/physics.ts:31-33 | the new state is the old one with the running flag set |
| Oscillators.Oscillator.Pause | src/core/physics.ts:35-37 | the new state is the old one with the running flag cleared |
| Oscillators.StartPause | src/core/physics.ts:31-41 | start and pause are idempotent and change nothing but the flag; isPaused is true after pause and false after start |
| Oscillators.Oscillator.GetTime | src/core/physics.ts:19-21 | no contract; the object's clock field |
| Oscillators.Oscillator.IsPaused | src/core/physics.ts:39-41 | no contract; `Paused(Model())`, the running flag negated, whose behaviour under start and pause `StartPause` states |
| Oscillators.Oscillator.SetSlowMotion | src/core/physics.ts:27-29 | the new state is the old one with the slow-motion flag replaced |
| Oscillators.Oscillator.SetTimeStep | src/core/physics.ts:23-25 | the new state is the old one with the time step replaced |
| Oscillators.ConfigurationSetters | src/core/physics.ts:23-29 | setSlowMotion and setTimeStep set their own field to the argument and leave every other field, time and the running flag included, unchanged |
| Oscillators.TimeStepNotUsed | src/core/physics.ts:5 | update never reads the time step: setting it commutes with update |
| Oscillators.KnownData | src/core/physics.ts:46-48 | getKnownData returns exactly the getParameters table |
| Oscillators.UnknownsTable | src/core/physics.ts:53-62 | six distinct entries in the order Posición, Velocidad, Aceleración, Energía Cinética, Energía Potencial, Energía Total; every value 0; units m, m/s, m/s², J, J, J |
| Oscillators.UnknownsDistinct | src/core/physics.ts:54-61 | no two rows of getUnknowns share a key |
| Oscillators.CalculationsFollowReadings | src/core/physics.ts:72-91 | exactly eight lines; line i is the label for ω, T, x, v, a, Ec, Ep or Et, then that accessor's reading formatted to four places, then its unit; the Et reading is the sum of the Ec and Ep readings |
| Oscillators.Oscillator.Update | src/models/mas.ts:78-95 | update implements `AfterUpdate` and keeps the cached state equal to the closed form at the new time |
| Oscillators.UpdateWhilePaused | src/models/mas.ts:79 | update while paused leaves the whole state unchanged |
| Oscillators.UpdateWhileRunning | src/models/mas.ts:81-95 | update while running advances time by dt, or by 0.1·dt in slow motion, recomputes the state from the new time and changes no other field |
| Oscillators.SlowMotionIsOneTenth | src/models/mas.ts:81 | in slow motion the clock advances by exactly one tenth of the normal advance |
| Oscillators.UpdatesCompose | src/models/mas.ts:81-95 | the state is a function of time alone, so two updates equal one update over the summed interval |
| Oscillators.Oscillator.Reset | src/models/mas.ts:97-104 | reset implements `AfterReset`: time 0 and the closed form at time 0, with the rest of the state unchanged |
| Oscillators.ResetIdempotent | src/models/mas.ts:97-104 | two resets give the same state as one |
| Oscillators.ResetForgetsUpdates | src/models/penduloSimple.ts:111-117 | a reset after an update gives the same state as a reset without it |
| Oscillators.OperationsKeepConsistency | src/models/penduloCompuesto.ts:101-121 | every operation keeps the cached kinematic state equal to the closed form at the current time |
| Oscillators.Oscillator.SetParam | src/models/mas.ts:26-44 | the shared shape of every setter: assign one parameter, then reset |
| Oscillators.Oscillator.SetMasa | src/models/mas.ts:26-29 | setMasa is the setter for the mass |
| Oscillators.Oscillator.SetConstanteElastica | src/models/mas.ts:31-34 | setConstanteElastica is the setter for k |
| Oscillators.Oscillator.SetAmplitud | src/models/mas.ts:36-39 | setAmplitud is the setter for A |
| Oscillators.Oscillator.SetFaseInicial | src/models/mas.ts:41-44 | setFaseInicial is the setter for φ |
| Oscillators.Oscillator.SetLongitud | src/models/penduloSimple.ts:26-29 | setLongitud is the setter for L |
| Oscillators.Oscillator.SetGravedad | src/models/penduloSimple.ts:36-39 | setGravedad is the setter for g, for both pendulums |
| Oscillators.Oscillator.SetAnguloInicial | src/models/penduloSimple.ts:41-44 | setAnguloInicial is the setter for θ₀, for both pendulums |
| Oscillators.Oscillator.SetMomentoInercia | src/models/penduloCompuesto.ts:28-31 | setMomentoInercia is the setter for I |
| Oscillators.Oscillator.SetDistanciaCentroMasa | src/models/penduloCompuesto.ts:33-36 | setDistanciaCentroMasa is the setter for d |
| Oscillators.WithParam | src/models/penduloCompuesto.ts:28-51 | a setter's assignment gives its own parameter the new value, leaves every other parameter of the variant unchanged and keeps the divisor positive |
| Oscillators.SetterResets | src/models/penduloCompuesto.ts:28-51 | after a setter: time is 0, the state is the closed form at 0, the run flags are unchanged, the set parameter has the new value and all other parameters keep theirs |
| Oscillators.SetterDiscardsProgress | src/models/penduloSimple.ts:26-44 | because setters reset, an update before a setter has no effect on the result |
| Oscillators.SetterChangesOneRow | src/models/mas.ts:106-113 | after a setter, getParameters differs from before only in the value of the setter's own row |
| Oscillators.ParametersFollowOrder | src/models/penduloCompuesto.ts:123-131 | row i of getParameters reports the i-th parameter of the variant, and the keys are distinct |
| Oscillators.AngularFrequency | src/core/physics.ts:10 | no contract; getAngularFrequency dispatched to the variant's own ω; `FrequencyIgnoresClock` and `PositiveParametersGiveFrequency` state its properties |
| Oscillators.MotionAt | src/models/mas.ts:84-103 | the fields update() and reset() assign at time t, in the variant's own form (linear for MAS, angular for the pendulums); their properties are in `MotionRepeatsAfterPeriod` and the per-variant lemmas |
| Oscillators.Position | src/core/physics.ts:7 | no contract; getPosition: the cached x for MAS, the projection r·sin θ for each pendulum |
| Oscillators.Velocity | src/core/physics.ts:8 | no contract; getVelocity: the cached v for MAS, r·θ'·cos θ for each pendulum |
| Oscillators.Acceleration | src/core/physics.ts:9 | no contract; getAcceleration: the cached a for MAS, r·θ''·cos θ − r·θ'²·sin θ for each pendulum |
| Oscillators.KineticEnergy | src/core/physics.ts:12 | no contract; getKineticEnergy of the variant |
| Oscillators.PotentialEnergy | src/core/physics.ts:13 | no contract; getPotentialEnergy of the variant |
| Oscillators.TotalEnergy | src/models/mas.ts:74-76 | no contract; Ec + Ep of the variant, the body all three getTotalEnergy share; `CalculationsFollowReadings` states the Et = Ec + Ep reading |
| Oscillators.Parameters | src/core/physics.ts:17 | no contract; getParameters of the variant; `ParametersFollowOrder` and the three `ParametersInOrder` lemmas state its contents |
| Oscillators.Equations | src/core/physics.ts:67 | no contract; getEquations of the variant; the three `EquationsInOrder` lemmas state its contents |
| Oscillators.Unknowns | src/core/physics.ts:53-62 | no contract; the fixed getUnknowns table, whose contents `UnknownsTable` states |
| Oscillators.Calculations | src/core/physics.ts:72-91 | no contract; the eight formatted lines of getCalculations, whose structure `CalculationsFollowReadings` states |
| Oscillators.Period | src/models/mas.ts:50-52 | getPeriod times getAngularFrequency is exactly 2π, for every variant |
| Oscillators.FrequencyIgnoresClock | src/models/mas.ts:46-48 | ω depends on the parameters only: update, reset, start, pause and the configuration setters leave it unchanged |
| Oscillators.PositiveParametersGiveFrequency | src/ui/controls.ts:32 | with the positive values the sliders offer and a lawful sqrt, ω is positive, so the period is defined |
| Oscillators.MotionRepeatsAfterPeriod | src/models/penduloCompuesto.ts:57-59 | with periodic sin and cos, the state at t + T equals the state at t for every variant |
| Oscillators.PointMassIsCompound | src/models/penduloCompuesto.ts:53-99 | for a positive mass, the compound pendulum with I = m·L² and d = L computes the same ω, motion, x, v, a, Ec and Ep as the simple pendulum |
| Oscillators.MassKeyPresent | src/models/penduloSimple.ts:119-126 | every variant's table has the key 'Masa (m)', and looking it up yields the mass |
| Oscillators.DefaultMasAtRest | src/ui/controls.ts:24 | the default spring at time 0 has x = 2, v = 0 and a = -20, given lawful sin, cos and sqrt |
| Oscillators.DefaultCompoundFrequency | src/models/penduloCompuesto.ts:53-55 | the default compound pendulum has ω = √9.81 |
| MasModel.AngularFrequency | src/models/mas.ts:46-48 | no contract; ω = sqrt(k/m); `HookeLaw` uses it |
| MasModel.StateAt | src/models/mas.ts:84-103 | no contract; x = A cos(ωt + φ), v = −Aω sin(ωt + φ), a = −ω²x, as update() and reset() assign them; `PeriodicState`, `StartsAtAmplitude` and `HookeLaw` state its properties |
| MasModel.KineticEnergy | src/models/mas.ts:66-68 | no contract; ½·m·v² |
| MasModel.PotentialEnergy | src/models/mas.ts:70-72 | no contract; ½·k·x² |
| MasModel.Parameters | src/models/mas.ts:106-113 | no contract; the four-row table whose contents `ParametersInOrder` states |
| MasModel.Equations | src/models/mas.ts:115-126 | no contract; the eight equation strings, checked by `EquationsInOrder` |
| MasModel.Period | src/models/mas.ts:50-52 | T·ω = 2π |
| MasModel.HookeLaw | src/models/mas.ts:84-95 | with a lawful sqrt, the acceleration computed by update is -(k/m)·x |
| MasModel.PeriodicState | src/models/mas.ts:84-95 | with periodic sin and cos, the state at t + T equals the state at t |
| MasModel.StartsAtAmplitude | src/models/mas.ts:97-104 | with φ = 0, k ≥ 0 and lawful sin, cos and sqrt, reset puts the mass at x = A, at rest, with a = -(k/m)·A |
| MasModel.EnergiesNonNegative | src/models/mas.ts:66-72 | for non-negative m and k, both energies are non-negative |
| MasModel.ParametersInOrder | src/models/mas.ts:106-113 | four rows Masa (m), Constante Elástica (k), Amplitud (A), Fase Inicial (φ), in that order, holding m, k, A and φ, with units kg, N/m, m, rad, and distinct keys |
| MasModel.EquationsInOrder | src/models/mas.ts:115-126 | eight equations, the first x(t) = A cos(ωt + φ) and the last Et = Ec + Ep |
| Pendulum.AngularAt | src/models/penduloSimple.ts:103-116 | no contract; θ = θ₀ cos(ωt), θ' = −θ₀ω sin(ωt), θ'' = −θ₀ω² cos(ωt), the closed form both pendulums assign; `SmallAngleEquation`, `ReleasedAtRest` and `PeriodicSwing` state its properties |
| Pendulum.Position | src/models/penduloSimple.ts:54-57 | no contract; r·sin θ, where r is L for the simple pendulum and d for the compound one |
| Pendulum.Velocity | src/models/penduloSimple.ts:59-62 | no contract; r·θ'·cos θ |
| Pendulum.Acceleration | src/models/penduloSimple.ts:64-69 | no contract; r·θ''·cos θ − r·θ'²·sin θ |
| Pendulum.PotentialEnergy | src/models/penduloSimple.ts:88-91 | no contract; m·g·r·(1 − cos θ); `PotentialNonNegative` bounds it |
| Pendulum.SmallAngleEquation | src/models/penduloSimple.ts:103-108 | the closed-form angular state obeys θ'' = -ω²·θ at every time |
| Pendulum.ReleasedAtRest | src/models/penduloSimple.ts:111-117 | at time 0 the angle is θ₀, the angular velocity 0 and the angular acceleration -θ₀·ω² |
| Pendulum.PeriodicSwing | src/models/penduloCompuesto.ts:107-113 | with periodic sin and cos, the angular state repeats after 2π/ω |
| Pendulum.PotentialNonNegative | src/models/penduloSimple.ts:88-91 | m·g·r·(1 - cos θ) is non-negative when m, g and r are and cos ≤ 1 |
| Pendulum.AtLowestPoint | src/models/penduloSimple.ts:54-69 | at θ = 0 the projections give x = 0, v = r·θ', a = r·θ'' and the potential energy is 0 |
| PenduloSimpleModel.AngularFrequency | src/models/penduloSimple.ts:46-48 | no contract; ω = sqrt(g/L); `PendulumEquation` uses it |
| PenduloSimpleModel.StateAt | src/models/penduloSimple.ts:103-116 | no contract; `Pendulum.AngularAt` with θ₀ and this variant's ω |
| PenduloSimpleModel.Position | src/models/penduloSimple.ts:54-57 | no contract; `Pendulum.Position` with r = L |
| PenduloSimpleModel.Velocity | src/models/penduloSimple.ts:59-62 | no contract; `Pendulum.Velocity` with r = L |
| PenduloSimpleModel.Acceleration | src/models/penduloSimple.ts:64-69 | no contract; `Pendulum.Acceleration` with r = L |
| PenduloSimpleModel.KineticEnergy | src/models/penduloSimple.ts:83-86 | no contract; ½·m·(L·θ')² |
| PenduloSimpleModel.PotentialEnergy | src/models/penduloSimple.ts:88-91 | no contract; `Pendulum.PotentialEnergy` with r = L |
| PenduloSimpleModel.Parameters | src/models/penduloSimple.ts:119-126 | no contract; the four-row table whose contents `ParametersInOrder` states |
| PenduloSimpleModel.Equations | src/models/penduloSimple.ts:128-139 | no contract; the eight equation strings, checked by `EquationsInOrder` |
| PenduloSimpleModel.Period | src/models/penduloSimple.ts:50-52 | T·ω = 2π |
| PenduloSimpleModel.PendulumEquation | src/models/penduloSimple.ts:103-108 | with a lawful sqrt, θ'' = -(g/L)·θ |
| PenduloSimpleModel.ReleasedAtRest | src/models/penduloSimple.ts:111-117 | after reset the angle is θ₀, the pendulum is at rest with zero kinetic energy, x = L·sin θ₀, and the potential energy is m·g·L·(1 - cos θ₀) |
| PenduloSimpleModel.PeriodicState | src/models/penduloSimple.ts:97-109 | with periodic sin and cos, the state at t + T equals the state at t |
| PenduloSimpleModel.EnergiesNonNegative | src/models/penduloSimple.ts:83-91 | for non-negative m and g, positive L and cos ≤ 1, both energies are non-negative |
| PenduloSimpleModel.ParametersInOrder | src/models/penduloSimple.ts:119-126 | four rows Longitud (L), Masa (m), Gravedad (g), Ángulo Inicial (θ₀), in that order, holding L, m, g and θ₀, with units m, kg, m/s², rad, and distinct keys |
| PenduloSimpleModel.EquationsInOrder | src/models/penduloSimple.ts:128-139 | eight equations, the first θ(t) ≈ θ₀ cos(ωt) and the last Et = Ec + Ep |
| PenduloCompuestoModel.AngularFrequency | src/models/penduloCompuesto.ts:53-55 | no contract; ω = sqrt(`TorqueRatio`), that is sqrt(mgd/I); `TorqueEquation` uses it |
| PenduloCompuestoModel.StateAt | src/models/penduloCompuesto.ts:107-120 | no contract; `Pendulum.AngularAt` with θ₀ and this variant's ω |
| PenduloCompuestoModel.Position | src/models/penduloCompuesto.ts:61-64 | no contract; `Pendulum.Position` with r = d |
| PenduloCompuestoModel.Velocity | src/models/penduloCompuesto.ts:66-68 | no contract; `Pendulum.Velocity` with r = d |
| PenduloCompuestoModel.Acceleration | src/models/penduloCompuesto.ts:70-74 | no contract; `Pendulum.Acceleration` with r = d |
| PenduloCompuestoModel.KineticEnergy | src/models/penduloCompuesto.ts:88-90 | no contract; ½·I·θ'² |
| PenduloCompuestoModel.PotentialEnergy | src/models/penduloCompuesto.ts:92-95 | no contract; `Pendulum.PotentialEnergy` with r = d |
| PenduloCompuestoModel.Parameters | src/models/penduloCompuesto.ts:123-131 | no contract; the five-row table whose contents `ParametersInOrder` states |
| PenduloCompuestoModel.Equations | src/models/penduloCompuesto.ts:133-142 | no contract; the six equation strings, checked by `EquationsInOrder` |
| PenduloCompuestoModel.Period | src/models/penduloCompuesto.ts:57-59 | T·ω = 2π |
| PenduloCompuestoModel.TorqueEquation | src/models/penduloCompuesto.ts:107-113 | with a lawful sqrt, θ'' = -(m·g·d/I)·θ |
| PenduloCompuestoModel.ReleasedAtRest | src/models/penduloCompuesto.ts:115-121 | after reset the angle is θ₀, the body is at rest with zero kinetic energy, and x = d·sin θ₀ |
| PenduloCompuestoModel.PeriodicState | src/models/penduloCompuesto.ts:101-113 | with periodic sin and cos, the state at t + T equals the state at t |
| PenduloCompuestoModel.EnergiesNonNegative | src/models/penduloCompuesto.ts:88-95 | for positive I, non-negative m, g and d and cos ≤ 1, both energies are non-negative |
| PenduloCompuestoModel.ParametersInOrder | src/models/penduloCompuesto.ts:123-131 | five rows I, d, m, g, θ₀ in that order, holding those parameters, with units kg·m², m, kg, m/s², rad, and distinct keys |
| PenduloCompuestoModel.EquationsInOrder | src/models/penduloCompuesto.ts:133-142 | six equations, the first θ(t) ≈ θ₀ cos(ωt) and the last Et = Ec + Ep |
| Tables.Lookup | src/ui/renderer.ts:279 | a key lookup fails exactly when no row has the key, and a found value belongs to a row with that key |
| Tables.LookupDistinct | src/ui/renderer.ts:279 | in a table with distinct keys, looking up row i's key yields row i's value |
| Charts.SampleOf | src/ui/charts.ts:274-280 | the sample read from the oscillator has its current time, and its Et reading is the sum of its Ec and Ep readings |
| Charts.Charts.constructor | src/ui/charts.ts:11-25 | a new buffer has seven empty series and lastChartUpdate 0 |
| Charts.Charts.Clear | src/ui/charts.ts:244-251 | clear leaves all seven series empty and keeps the invariant |
| Charts.Charts.AddData | src/ui/charts.ts:273-302 | each series becomes the old series rolled with the matching reading; the series stay equally long, never exceed 100 samples, and the total-energy series stays the pointwise sum of the other two |
| Charts.Charts.Push | src/ui/charts.ts:283-301 | pushes one value onto each of the seven series and shifts all seven once the time series exceeds 100 |
| Charts.Roll | src/ui/charts.ts:283-301 | a rolled series within capacity stays within capacity, and its last element is the new sample |
| Charts.RollAtCapacity | src/ui/charts.ts:293-301 | at capacity a roll removes exactly index 0 and keeps the order of the rest |
| Charts.RollIsWindow | src/ui/charts.ts:283-301 | from a series within capacity, one roll keeps the last 100 values of the series with the sample appended |
| Charts.RollAllIsWindow | src/ui/charts.ts:18-25 | after any number of addData calls, each series holds exactly the most recent 100 samples pushed, in arrival order |
| Charts.WindowOfWindow | src/ui/charts.ts:293-301 | keeping the last n values and then the last n values of an extension is the same as keeping the last n of the extension |
| Charts.RollKeepsSum | src/ui/charts.ts:287-300 | rolling three aligned series keeps the third the pointwise sum of the other two |
| Charts.NextChartUpdate | src/ui/charts.ts:211-217 | lastChartUpdate becomes now once at least 100 ms have elapsed, and otherwise stays unchanged |
| Charts.Charts.Update | src/ui/charts.ts:210-218 | both branches add exactly one sample; only the redraw branch moves lastChartUpdate |
| Renderer.Clamp | src/ui/renderer.ts:280 | the clamped mass lies in [0.1, 5], equals the mass inside that range, and equals the nearer bound outside it |
| Renderer.MassRadius | src/ui/renderer.ts:274-286 | the radius lies in [5, 50]; masses at or below 0.1 give 5, and masses at or above 5 give 50 |
| Renderer.MassRadiusMonotone | src/ui/renderer.ts:280-283 | a heavier mass never gets a smaller radius |
| Renderer.MassRadiusInRange | src/ui/renderer.ts:280-283 | inside [0.1, 5] the map is strictly increasing and inverting the linear map recovers the mass |
| Renderer.GetMassRadius | src/ui/renderer.ts:274-286 | the radius read through the 'Masa (m)' row is the mapped mass of the variant, always in [5, 50] |
| Renderer.Legend | src/ui/renderer.ts:294-311 | every legend is non-empty and starts with the pivot item |
| Renderer.BoxHeight | src/ui/renderer.ts:313 | no contract; twenty pixels per item plus thirty; `LegendSizes` gives its value for each variant |
| Renderer.LegendSizes | src/ui/renderer.ts:297-313 | the legend starts with 'Pivote / Suspension'; MAS lists 4 items in a 110-pixel box and each pendulum lists 3 in a 90-pixel box; the spring's mass, the point mass and the centre of mass appear where the source pushes them |
| Renderer.LegendLabelsDistinct | src/ui/renderer.ts:297-311 | no two legend items share a caption |
| Renderer.DrawElementsInfo | src/ui/renderer.ts:289-341 | the pushed items are `Legend`; the box is 250 wide and `items·20 + 30` high at canvas height - 120; row i's dot is at y = box.y + 35 + 20·i with its label 5 px lower; every dot lies strictly inside the box |

## Left out

- Canvas drawing in renderer.ts is not modelled: render, the three scene renderers, the spring and trajectory drawing, drawInfo, roundRect and resize handling. They only issue drawing calls. DrawElementsInfo returns the positions it would draw at instead.
- Renderer.DrawElementsInfo: the early `if (!this.oscillator) return` after the pivot is pushed is not modelled. drawElementsInfo is called only from render, which has already returned when there is no oscillator, so that branch is never taken.
- Chart.js (initializeCharts and the dataset refresh in update) is not modelled, because it is a third-party library. The clock `performance.now()` is the parameter `now` of `Charts.Update`.
- controls.ts, main.ts, RA1Panel.ts and chart.d.ts are not part of this model. They are DOM construction, event wiring, an animation loop, HTML string building and type declarations. Of their content the model keeps the positivity the sliders guarantee and the default arguments. The positivity appears as the requires of the constructors and setters and of `PositiveParametersGiveFrequency`; the slider minimums themselves (0.1, 0.5, 0.1) are not stated. The defaults appear as the concrete examples `DefaultMasAtRest` and `DefaultCompoundFrequency`.
- Floating point is not modelled: numbers are exact reals, and NaN, Infinity and rounding are absent. `sqrt`, `sin`, `cos`, `π` and `toFixed(4)` are abstract, so concrete values such as ω ≈ 3.1623 are not stated.
- Oscillators.Oscillator.MAS, Oscillators.Oscillator.SetMasa: require a positive mass for the spring, because ω divides by it. The source does not check; it would produce Infinity or NaN. The sliders never offer such values.
- Oscillators.Oscillator.PenduloSimple, Oscillators.Oscillator.SetLongitud: require L > 0 for the same reason.
- Oscillators.Oscillator.PenduloCompuesto, Oscillators.Oscillator.SetMomentoInercia: require I > 0 for the same reason.
- Oscillators.Period: requires ω ≠ 0, since the source would return Infinity there. Calculations therefore carries the same requirement.
- Oscillators.Oscillator.Update: the cached state is assigned as one `Motion` value computed by `MotionAt` rather than field by field. Each component is still the closed form the source writes out.
- Subclass-only accessors getAngulo, getVelocidadAngular and getAceleracionAngular are the fields of the `Angular` motion value and have no separate member.
- Energy conservation and the small-angle approximation are not proved against real physics. Only the identity the code computes is stated: Et is Ec + Ep.
