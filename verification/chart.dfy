/**
 * Placing the loading on the envelope chart: a value on a chart axis is
 * mapped linearly to a page coordinate, given two calibration points that
 * tie axis values to coordinates of the background image.
 */
module Chart {

  /**
   * `_map2range`: the affine map sending minGraph to minPx and maxGraph to
   * maxPx. The point (v, r) lies on the line through those two points.
   */
  function Map2Range(v: real, maxGraph: real, minGraph: real, maxPx: real, minPx: real): (r: real)
    requires maxGraph != minGraph
    ensures (r - minPx) * (maxGraph - minGraph) == (v - minGraph) * (maxPx - minPx)
  {
    var graphRange := maxGraph - minGraph;
    var pxRange := maxPx - minPx;
    ((v - minGraph) * pxRange) / graphRange + minPx
  }

  /** The two calibration points are hit exactly. */
  lemma Map2RangeEndpoints(maxGraph: real, minGraph: real, maxPx: real, minPx: real)
    requires maxGraph != minGraph
    ensures Map2Range(minGraph, maxGraph, minGraph, maxPx, minPx) == minPx
    ensures Map2Range(maxGraph, maxGraph, minGraph, maxPx, minPx) == maxPx
  {
    var d := maxGraph - minGraph;
    assert (d * (maxPx - minPx)) / d == maxPx - minPx;
  }

  /** The map is increasing exactly when the slope is positive. */
  lemma Map2RangeMonotone(v: real, u: real, maxGraph: real, minGraph: real, maxPx: real, minPx: real)
    requires maxGraph != minGraph
    requires v < u
    ensures Map2Range(v, maxGraph, minGraph, maxPx, minPx) < Map2Range(u, maxGraph, minGraph, maxPx, minPx)
      <==> (maxPx - minPx) / (maxGraph - minGraph) > 0.0
  {
    var slope := (maxPx - minPx) / (maxGraph - minGraph);
    Map2RangeSlope(v, maxGraph, minGraph, maxPx, minPx);
    Map2RangeSlope(u, maxGraph, minGraph, maxPx, minPx);
    var diff := Map2Range(u, maxGraph, minGraph, maxPx, minPx) - Map2Range(v, maxGraph, minGraph, maxPx, minPx);
    assert diff == (u - v) * slope;
    if slope > 0.0 {
      assert diff > 0.0;
    } else {
      assert (u - v) * slope <= 0.0;
    }
  }

  /** The map is the line of slope (maxPx - minPx) / (maxGraph - minGraph) through (minGraph, minPx). */
  lemma Map2RangeSlope(v: real, maxGraph: real, minGraph: real, maxPx: real, minPx: real)
    requires maxGraph != minGraph
    ensures Map2Range(v, maxGraph, minGraph, maxPx, minPx)
      == minPx + (v - minGraph) * ((maxPx - minPx) / (maxGraph - minGraph))
  {
    var d, p := maxGraph - minGraph, maxPx - minPx;
    assert ((v - minGraph) * p) / d == (v - minGraph) * (p / d);
  }

  /** Mapping back with the ranges exchanged returns the value: the map is a bijection. */
  lemma Map2RangeRoundTrip(v: real, maxGraph: real, minGraph: real, maxPx: real, minPx: real)
    requires maxGraph != minGraph && maxPx != minPx
    ensures Map2Range(Map2Range(v, maxGraph, minGraph, maxPx, minPx), maxPx, minPx, maxGraph, minGraph) == v
  {
    var r := Map2Range(v, maxGraph, minGraph, maxPx, minPx);
    var back := Map2Range(r, maxPx, minPx, maxGraph, minGraph);
    assert (back - minGraph) * (maxPx - minPx) == (r - minPx) * (maxGraph - minGraph);
    assert (back - minGraph) * (maxPx - minPx) == (v - minGraph) * (maxPx - minPx);
  }

  // ---------------------------------------------------------------------
  // The calibration of the background image

  const CM_TO_MM: real := 10.0

  /** The CoG axis: 875 mm at x = 212, 1225 mm at x = 384.25. */
  const COG_MIN_MM: real := 875.0
  const COG_MAX_MM: real := 1225.0
  const COG_MIN_X: real := 212.0
  const COG_MAX_X: real := 384.25

  /** The weight axis: 650 kg at 275 below the chart top, 1050 kg at 49.75 below it. */
  const WEIGHT_MIN_KG: real := 650.0
  const WEIGHT_MAX_KG: real := 1050.0
  const WEIGHT_MIN_DROP: real := 275.0
  const WEIGHT_MAX_DROP: real := 49.75

  /** The vertical line runs this far down from the chart top; the horizontal one spans x = 200 to 400. */
  const VERTICAL_LENGTH: real := 285.0
  const HORIZONTAL_LEFT: real := 200.0
  const HORIZONTAL_RIGHT: real := 400.0

  datatype Segment = Segment(x1: real, y1: real, x2: real, y2: real)

  /** The two lines drawn for one scenario: one at the CoG, one at the weight. */
  datatype LinePair = LinePair(vertical: Segment, horizontal: Segment)

  /** The x coordinate of the CoG line, for a CoG in centimetres. */
  function CoGLineX(cogCm: real): real {
    Map2Range(cogCm * CM_TO_MM, COG_MAX_MM, COG_MIN_MM, COG_MAX_X, COG_MIN_X)
  }

  /** How far below the chart top the weight line sits. */
  function WeightDrop(weightKg: real): real {
    Map2Range(weightKg, WEIGHT_MAX_KG, WEIGHT_MIN_KG, WEIGHT_MAX_DROP, WEIGHT_MIN_DROP)
  }

  /** The lines for a CoG and a weight, below a chart top at height `top` on the page. */
  function LinesAt(cogCm: real, weightKg: real, top: real): LinePair {
    var x := CoGLineX(cogCm);
    var y := top - WeightDrop(weightKg);
    LinePair(
      Segment(x, top, x, top - VERTICAL_LENGTH),
      Segment(HORIZONTAL_LEFT, y, HORIZONTAL_RIGHT, y))
  }

  /** A further-aft CoG draws further right; 87.5 cm lands on x = 212 and 122.5 cm on x = 384.25. */
  lemma CoGLineIncreasing(c: real, d: real)
    requires c < d
    ensures CoGLineX(c) < CoGLineX(d)
    ensures CoGLineX(87.5) == COG_MIN_X && CoGLineX(122.5) == COG_MAX_X
  {
    Map2RangeMonotone(c * CM_TO_MM, d * CM_TO_MM, COG_MAX_MM, COG_MIN_MM, COG_MAX_X, COG_MIN_X);
    Map2RangeEndpoints(COG_MAX_MM, COG_MIN_MM, COG_MAX_X, COG_MIN_X);
  }

  /**
   * A heavier aircraft draws its weight line higher on the page: the drop
   * below the chart top shrinks from 275 at 650 kg to 49.75 at 1050 kg.
   */
  lemma WeightLineRises(w: real, v: real, c: real, d: real, top: real)
    requires w < v
    ensures LinesAt(c, w, top).horizontal.y1 < LinesAt(d, v, top).horizontal.y1
    ensures WeightDrop(WEIGHT_MIN_KG) == WEIGHT_MIN_DROP && WeightDrop(WEIGHT_MAX_KG) == WEIGHT_MAX_DROP
  {
    Map2RangeMonotone(w, v, WEIGHT_MAX_KG, WEIGHT_MIN_KG, WEIGHT_MAX_DROP, WEIGHT_MIN_DROP);
    Map2RangeEndpoints(WEIGHT_MAX_KG, WEIGHT_MIN_KG, WEIGHT_MAX_DROP, WEIGHT_MIN_DROP);
  }

  /**
   * For a loading inside the chart's ranges the two lines cross: the CoG
   * line lies between x = 212 and 384.25 and the weight line between 275
   * and 49.75 below the top, both inside the other segment's span.
   */
  lemma LinesCrossInsideChart(cogCm: real, weightKg: real, top: real)
    requires 87.5 <= cogCm <= 122.5
    requires WEIGHT_MIN_KG <= weightKg <= WEIGHT_MAX_KG
    ensures var p := LinesAt(cogCm, weightKg, top);
      && COG_MIN_X <= p.vertical.x1 <= COG_MAX_X
      && HORIZONTAL_LEFT < p.vertical.x1 < HORIZONTAL_RIGHT
      && top - WEIGHT_MIN_DROP <= p.horizontal.y1 <= top - WEIGHT_MAX_DROP
      && p.vertical.y2 < p.horizontal.y1 < p.vertical.y1
  {
    Map2RangeSlope(cogCm * CM_TO_MM, COG_MAX_MM, COG_MIN_MM, COG_MAX_X, COG_MIN_X);
    Map2RangeSlope(weightKg, WEIGHT_MAX_KG, WEIGHT_MIN_KG, WEIGHT_MAX_DROP, WEIGHT_MIN_DROP);
  }
}
