/**
 * The two computations of the canvas renderer that are not drawing calls:
 * getMassRadius, which turns the oscillator's mass into the radius of the
 * disc drawn for it, and the legend that drawElementsInfo builds — which
 * items it lists for each variant, the height of the box around them and
 * where each row goes. The canvas itself is not modelled; the positions the
 * legend would be drawn at are returned instead.
 */
module Renderer {
  import opened Tables
  import Oscillators

  // ---------------------------------------------------------------- mass radius

  const M_MIN: real := 0.1
  const M_MAX: real := 5.0
  const R_MIN: real := 5.0
  const R_MAX: real := 50.0

  /** Math.max(M_min, Math.min(M_max, m)). */
  function Clamp(m: real): (v: real)
    ensures M_MIN <= v <= M_MAX
    ensures M_MIN <= m <= M_MAX ==> v == m
    ensures m <= M_MIN ==> v == M_MIN
    ensures m >= M_MAX ==> v == M_MAX
  {
    var low := if M_MAX < m then M_MAX else m;
    if M_MIN > low then M_MIN else low
  }

  /** The clamped mass mapped linearly from [M_MIN, M_MAX] onto [R_MIN, R_MAX]. */
  function MassRadius(masaActual: real): (r: real)
    ensures R_MIN <= r <= R_MAX
    ensures masaActual <= M_MIN ==> r == R_MIN
    ensures masaActual >= M_MAX ==> r == R_MAX
  {
    var value := Clamp(masaActual);
    ((value - M_MIN) / (M_MAX - M_MIN)) * (R_MAX - R_MIN) + R_MIN
  }

  /** A heavier mass is never drawn smaller. */
  lemma MassRadiusMonotone(m1: real, m2: real)
    requires m1 <= m2
    ensures MassRadius(m1) <= MassRadius(m2)
  {
  }

  /** Inside the clamping range the map is strictly increasing, and it can be inverted:
      the radius determines the mass. */
  lemma MassRadiusInRange(m1: real, m2: real)
    requires M_MIN <= m1 < m2 <= M_MAX
    ensures MassRadius(m1) < MassRadius(m2)
    ensures M_MIN + (MassRadius(m1) - R_MIN) * ((M_MAX - M_MIN) / (R_MAX - R_MIN)) == m1
  {
  }

  /** getMassRadius(oscillator): the radius read from the 'Masa (m)' row of
      getParameters(). Every variant has that row, so the lookup never fails. */
  function GetMassRadius(sys: Oscillators.System): (r: real)
    ensures R_MIN <= r <= R_MAX
    ensures r == MassRadius(Oscillators.Mass(sys))
  {
    Oscillators.MassKeyPresent(sys);
    match Lookup(Oscillators.Parameters(sys), "Masa (m)")
    case Some(masaActual) => MassRadius(masaActual)
  }

  // --------------------------------------------------------------------- legend

  datatype LegendItem = LegendItem(color: string, caption: string)

  /** The rounded box drawn behind the legend. */
  datatype Box = Box(x: int, y: int, width: int, height: int, radius: int)

  /** Where one legend item is drawn: the centre of its dot and the baseline of its label. */
  datatype LegendRow = LegendRow(item: LegendItem, dotX: int, dotY: int, textX: int, textY: int)

  const StartX: int := 10
  const DotRadius: int := 5
  const BorderRadius: int := 5

  const Pivot := LegendItem("#64748b", "Pivote / Suspension")

  /** The items drawElementsInfo lists for each variant: the pivot, then the variant's own. */
  function Legend(sys: Oscillators.System): (items: seq<LegendItem>)
    ensures |items| > 0 && items[0] == Pivot
  {
    [Pivot] +
    match sys
    case MAS(_) =>
      [LegendItem("rgba(37, 99, 235, 0.4)", "Trayectoria"),
       LegendItem("#2563eb", "Masa (m)"),
       LegendItem("#334155", "Resorte")]
    case PenduloCompuesto(_) =>
      [LegendItem("#dc2626", "Centro de Masa (CM)"),
       LegendItem("#c026d3", "Cuerpo Rígido")]
    case PenduloSimple(_) =>
      [LegendItem("#16a34a", "Masa Puntual (m)"),
       LegendItem("#1e293b", "Hilo")]
  }

  /** Twenty pixels per item plus thirty for the title and margins. */
  function BoxHeight(items: seq<LegendItem>): int {
    |items| * 20 + 30
  }

  /** Every legend starts with the pivot; the spring oscillator shows four items and
      both pendulums three, so the box is 110 or 90 pixels high. */
  lemma LegendSizes(sys: Oscillators.System)
    ensures Legend(sys)[0].caption == "Pivote / Suspension"
    ensures sys.MAS? ==> |Legend(sys)| == 4 && BoxHeight(Legend(sys)) == 110
    ensures !sys.MAS? ==> |Legend(sys)| == 3 && BoxHeight(Legend(sys)) == 90
    ensures sys.MAS? ==> Legend(sys)[2].caption == "Masa (m)"
    ensures sys.PenduloSimple? ==> Legend(sys)[1].caption == "Masa Puntual (m)"
    ensures sys.PenduloCompuesto? ==> Legend(sys)[1].caption == "Centro de Masa (CM)"
  {
  }

  /** No two items of a legend share a label, so each element is named once. */
  lemma LegendLabelsDistinct(sys: Oscillators.System)
    ensures forall i, j :: 0 <= i < j < |Legend(sys)| ==> Legend(sys)[i].caption != Legend(sys)[j].caption
  {
  }

  /** drawElementsInfo(oscillator) on a canvas canvasHeight pixels high: the items are
      pushed one by one, the box is sized from their count, and the loop places each
      row twenty pixels below the previous, so every dot lies inside the box. */
  method DrawElementsInfo(sys: Oscillators.System, canvasHeight: int)
    returns (box: Box, rows: seq<LegendRow>)
    ensures box == Box(StartX, canvasHeight - 120, 250, BoxHeight(Legend(sys)), BorderRadius)
    ensures |rows| == |Legend(sys)|
    ensures forall i :: 0 <= i < |rows| ==>
      && rows[i].item == Legend(sys)[i]
      && rows[i].dotX == StartX + 20 && rows[i].textX == StartX + 35
      && rows[i].dotY == box.y + 35 + 20 * i && rows[i].textY == rows[i].dotY + 5
    ensures forall i :: 0 <= i < |rows| ==>
      box.y < rows[i].dotY - DotRadius && rows[i].dotY + DotRadius < box.y + box.height
      && rows[i].textY < box.y + box.height
  {
    var startX := StartX;
    var startY := canvasHeight - 120;
    var borderRadius := BorderRadius;
    var currentY := startY + 20;
    var elements: seq<LegendItem> := [];

    elements := elements + [Pivot];
    match sys {
      case MAS(_) =>
        elements := elements + [LegendItem("rgba(37, 99, 235, 0.4)", "Trayectoria")];
        elements := elements + [LegendItem("#2563eb", "Masa (m)")];
        elements := elements + [LegendItem("#334155", "Resorte")];
      case PenduloCompuesto(_) =>
        elements := elements + [LegendItem("#dc2626", "Centro de Masa (CM)")];
        elements := elements + [LegendItem("#c026d3", "Cuerpo Rígido")];
      case PenduloSimple(_) =>
        elements := elements + [LegendItem("#16a34a", "Masa Puntual (m)")];
        elements := elements + [LegendItem("#1e293b", "Hilo")];
    }
    assert elements == Legend(sys);

    var boxHeight := |elements| * 20 + 30;
    box := Box(startX, startY, 250, boxHeight, borderRadius);
    currentY := currentY + 15;

    rows := [];
    var k := 0;
    while k < |elements|
      invariant 0 <= k <= |elements|
      invariant |rows| == k
      invariant currentY == startY + 35 + 20 * k
      invariant forall i :: 0 <= i < k ==>
        && rows[i].item == elements[i]
        && rows[i].dotX == startX + 20 && rows[i].textX == startX + 35
        && rows[i].dotY == startY + 35 + 20 * i && rows[i].textY == rows[i].dotY + 5
    {
      var item := elements[k];
      rows := rows + [LegendRow(item, startX + 20, currentY, startX + 35, currentY + 5)];
      currentY := currentY + 20;
      k := k + 1;
    }
  }
}
