/**
 * The rolling sample buffer behind the four real-time charts (class Charts).
 * Seven parallel series receive one reading of the oscillator per call; once
 * a series would hold more than maxDataPoints samples its oldest sample is
 * dropped, so the charts show a sliding window of the most recent samples.
 * Drawing through Chart.js is not modelled, and the clock read by update()
 * is its parameter `now`.
 */
module Charts {
  import Oscillators

  /** One reading of the oscillator: t, x, v, a, Ec, Ep, Et. */
  datatype Sample = Sample(t: real, x: real, v: real, a: real, ec: real, ep: real, et: real)

  /** What addData reads through the oscillator's accessors. */
  function SampleOf(o: Oscillators.Oscillator): (s: Sample)
    reads o
    requires o.Valid()
    ensures s.t == o.time
    ensures s.et == s.ec + s.ep
  {
    var math, sys, m := o.math, o.sys, o.motion;
    Sample(o.GetTime(),
           Oscillators.Position(math, sys, m), Oscillators.Velocity(math, sys, m),
           Oscillators.Acceleration(math, sys, m),
           Oscillators.KineticEnergy(math, sys, m), Oscillators.PotentialEnergy(math, sys, m),
           Oscillators.TotalEnergy(math, sys, m))
  }

  /** push(x), then shift() if the series is now longer than cap. */
  function Roll(series: seq<real>, x: real, cap: nat): (r: seq<real>)
    ensures |series| <= cap ==> |r| <= cap
    ensures cap > 0 ==> |r| > 0 && r[|r| - 1] == x
  {
    var pushed := series + [x];
    if |pushed| > cap then pushed[1..] else pushed
  }

  /** The last cap elements of s (all of s when it is shorter). */
  function Window(s: seq<real>, cap: nat): (w: seq<real>)
    ensures |w| == if |s| <= cap then |s| else cap
  {
    if |s| <= cap then s else s[|s| - cap..]
  }

  /** The series after one addData per element of xs, oldest first. */
  function RollAll(series: seq<real>, xs: seq<real>, cap: nat): seq<real>
    decreases |xs|
  {
    if xs == [] then series else RollAll(Roll(series, xs[0], cap), xs[1..], cap)
  }

  /** From a buffer within capacity, one roll keeps the most recent cap values. */
  lemma RollIsWindow(series: seq<real>, x: real, cap: nat)
    requires |series| <= cap
    ensures Roll(series, x, cap) == Window(series + [x], cap)
  {
  }

  /** Windowing twice is windowing once. */
  lemma WindowOfWindow(s: seq<real>, t: seq<real>, cap: nat)
    ensures Window(Window(s, cap) + t, cap) == Window(s + t, cap)
  {
    var w := Window(s, cap);
    if |s| > cap {
      var k := |s| - cap;
      assert s + t == s[..k] + (w + t);
      if |w + t| > cap {
        assert (s + t)[|s + t| - cap..] == (w + t)[|w + t| - cap..];
      } else {
        assert |t| == 0;
        assert w + t == w;
        assert s + t == s;
      }
    }
  }

  /** FIFO eviction: whatever samples arrive, the buffer holds exactly the most recent
      maxDataPoints of everything pushed, in arrival order. */
  lemma {:induction false} RollAllIsWindow(series: seq<real>, xs: seq<real>, cap: nat)
    requires |series| <= cap
    ensures RollAll(series, xs, cap) == Window(series + xs, cap)
    decreases |xs|
  {
    if xs == [] {
      assert series + xs == series;
    } else {
      var r := Roll(series, xs[0], cap);
      RollIsWindow(series, xs[0], cap);
      RollAllIsWindow(r, xs[1..], cap);
      WindowOfWindow(series + [xs[0]], xs[1..], cap);
      assert series + [xs[0]] + xs[1..] == series + xs;
    }
  }

  /** A roll at capacity drops exactly index 0 and keeps the order of the rest. */
  lemma RollAtCapacity(series: seq<real>, x: real, cap: nat)
    requires |series| == cap > 0
    ensures Roll(series, x, cap) == series[1..] + [x]
  {
  }

  /** Rolling three aligned series keeps the third the sum of the other two. */
  lemma RollKeepsSum(ec: seq<real>, ep: seq<real>, et: seq<real>, a: real, b: real, cap: nat)
    requires |ep| == |ec| && |et| == |ec|
    requires forall i :: 0 <= i < |et| ==> et[i] == ec[i] + ep[i]
    ensures |Roll(ep, b, cap)| == |Roll(ec, a, cap)| && |Roll(et, a + b, cap)| == |Roll(ec, a, cap)|
    ensures forall i :: 0 <= i < |Roll(et, a + b, cap)| ==>
      Roll(et, a + b, cap)[i] == Roll(ec, a, cap)[i] + Roll(ep, b, cap)[i]
  {
  }

  /** The throttle: lastChartUpdate moves to now only once the interval has elapsed. */
  function NextChartUpdate(last: real, now: real, interval: real): (r: real)
    ensures now - last >= interval ==> r == now
    ensures now - last < interval ==> r == last
  {
    if now - last < interval then last else now
  }

  class Charts {
    const updateIntervalMS: real := 100.0
    const maxDataPoints: nat := 100
    var lastChartUpdate: real
    var timeData: seq<real>
    var positionData: seq<real>
    var velocityData: seq<real>
    var accelerationData: seq<real>
    var kineticEnergyData: seq<real>
    var potentialEnergyData: seq<real>
    var totalEnergyData: seq<real>

    /** The series stay aligned, within capacity, and the total-energy series is the sum
        of the other two energy series sample by sample. */
    predicate Valid()
      reads this
    {
      && |positionData| == |timeData|
      && |velocityData| == |timeData|
      && |accelerationData| == |timeData|
      && |kineticEnergyData| == |timeData|
      && |potentialEnergyData| == |timeData|
      && |totalEnergyData| == |timeData|
      && |timeData| <= maxDataPoints
      && forall i :: 0 <= i < |totalEnergyData| ==>
           totalEnergyData[i] == kineticEnergyData[i] + potentialEnergyData[i]
    }

    constructor ()
      ensures Valid() && lastChartUpdate == 0.0
      ensures timeData == positionData == velocityData == accelerationData == []
      ensures kineticEnergyData == potentialEnergyData == totalEnergyData == []
    {
      lastChartUpdate := 0.0;
      timeData, positionData, velocityData, accelerationData := [], [], [], [];
      kineticEnergyData, potentialEnergyData, totalEnergyData := [], [], [];
    }

    method Clear()
      modifies this
      ensures Valid() && lastChartUpdate == old(lastChartUpdate)
      ensures timeData == positionData == velocityData == accelerationData == []
      ensures kineticEnergyData == potentialEnergyData == totalEnergyData == []
    {
      timeData := [];
      positionData := [];
      velocityData := [];
      accelerationData := [];
      kineticEnergyData := [];
      potentialEnergyData := [];
      totalEnergyData := [];
    }

    /** addData(oscillator): one reading of the oscillator is pushed onto every series,
        then the oldest sample of each is dropped once a series exceeds maxDataPoints. */
    method AddData(o: Oscillators.Oscillator)
      requires Valid() && o.Valid()
      modifies this
      ensures Valid() && lastChartUpdate == old(lastChartUpdate)
      ensures var s := SampleOf(o);
        && timeData == Roll(old(timeData), s.t, maxDataPoints)
        && positionData == Roll(old(positionData), s.x, maxDataPoints)
        && velocityData == Roll(old(velocityData), s.v, maxDataPoints)
        && accelerationData == Roll(old(accelerationData), s.a, maxDataPoints)
        && kineticEnergyData == Roll(old(kineticEnergyData), s.ec, maxDataPoints)
        && potentialEnergyData == Roll(old(potentialEnergyData), s.ep, maxDataPoints)
        && totalEnergyData == Roll(old(totalEnergyData), s.et, maxDataPoints)
    {
      Push(SampleOf(o));
    }

    /** The body of addData once the reading s has been taken. */
    method Push(s: Sample)
      requires Valid() && s.et == s.ec + s.ep
      modifies this
      ensures Valid() && lastChartUpdate == old(lastChartUpdate)
      ensures timeData == Roll(old(timeData), s.t, maxDataPoints)
      ensures positionData == Roll(old(positionData), s.x, maxDataPoints)
      ensures velocityData == Roll(old(velocityData), s.v, maxDataPoints)
      ensures accelerationData == Roll(old(accelerationData), s.a, maxDataPoints)
      ensures kineticEnergyData == Roll(old(kineticEnergyData), s.ec, maxDataPoints)
      ensures potentialEnergyData == Roll(old(potentialEnergyData), s.ep, maxDataPoints)
      ensures totalEnergyData == Roll(old(totalEnergyData), s.et, maxDataPoints)
    {
      RollKeepsSum(kineticEnergyData, potentialEnergyData, totalEnergyData, s.ec, s.ep, maxDataPoints);
      var ts, xs, vs, accs := timeData + [s.t], positionData + [s.x], velocityData + [s.v], accelerationData + [s.a];
      var ecs, eps, ets := kineticEnergyData + [s.ec], potentialEnergyData + [s.ep], totalEnergyData + [s.et];
      if |ts| > maxDataPoints {
        ts, xs, vs, accs := ts[1..], xs[1..], vs[1..], accs[1..];
        ecs, eps, ets := ecs[1..], eps[1..], ets[1..];
      }
      timeData, positionData, velocityData, accelerationData := ts, xs, vs, accs;
      kineticEnergyData, potentialEnergyData, totalEnergyData := ecs, eps, ets;
    }

    /** update(oscillator) with the clock reading `now`: one sample is added on both
        branches; only the redraw branch moves lastChartUpdate. */
    method Update(o: Oscillators.Oscillator, now: real)
      requires Valid() && o.Valid()
      modifies this
      ensures Valid()
      ensures lastChartUpdate == NextChartUpdate(old(lastChartUpdate), now, updateIntervalMS)
      ensures var s := SampleOf(o);
        && timeData == Roll(old(timeData), s.t, maxDataPoints)
        && positionData == Roll(old(positionData), s.x, maxDataPoints)
        && velocityData == Roll(old(velocityData), s.v, maxDataPoints)
        && accelerationData == Roll(old(accelerationData), s.a, maxDataPoints)
        && kineticEnergyData == Roll(old(kineticEnergyData), s.ec, maxDataPoints)
        && potentialEnergyData == Roll(old(potentialEnergyData), s.ep, maxDataPoints)
        && totalEnergyData == Roll(old(totalEnergyData), s.et, maxDataPoints)
    {
      if now - lastChartUpdate < updateIntervalMS {
        AddData(o);
        return;
      }
      lastChartUpdate := now;
      AddData(o);
    }
  }
}
