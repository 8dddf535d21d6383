/** The Open Cell verdicts of a Radioss mesh: edge bands, time series, peaks, thresholds. */
module EdgeBand {

  datatype Part = OpenCell | ChassisRear
  datatype Edge = Top | Bottom | Left | Right

  datatype Point = Point(x: real, y: real, z: real)
  datatype Node = Node(part: Part, position: Point)
  datatype Element = Element(id: int, time: real, part: Part, nodes: seq<int>, principal: real)

  datatype Key = Key(time: real, id: int)

  type Nodes = map<Key, Node>

  const EDGES: seq<Edge> := [Top, Bottom, Left, Right]

  // ---------------------------------------------------------------- the base frame

  ghost predicate IsBaseTime(nodes: Nodes, base: real) {
    (exists k :: k in nodes && k.time == base) && forall k :: k in nodes ==> base <= k.time
  }

  function OpenKeys(nodes: Nodes, base: real): set<Key> {
    set k | k in nodes && k.time == base && nodes[k].part == OpenCell
  }

  datatype Box = Box(minX: real, maxX: real, minY: real, maxY: real)

  predicate Inside(p: Point, b: Box) { b.minX <= p.x <= b.maxX && b.minY <= p.y <= b.maxY }

  /** The smallest box around the open-cell nodes of the base frame. */
  ghost predicate IsBox(nodes: Nodes, base: real, b: Box) {
    var open := OpenKeys(nodes, base);
    (forall k :: k in open ==> Inside(nodes[k].position, b))
    && (exists k :: k in open && nodes[k].position.x == b.minX)
    && (exists k :: k in open && nodes[k].position.x == b.maxX)
    && (exists k :: k in open && nodes[k].position.y == b.minY)
    && (exists k :: k in open && nodes[k].position.y == b.maxY)
  }

  predicate OpenNode(nodes: Nodes, base: real, id: int) {
    Key(base, id) in nodes && nodes[Key(base, id)].part == OpenCell
  }

  /** All nodes of the element are open-cell nodes of the base frame. */
  predicate Connected(nodes: Nodes, base: real, ids: seq<int>) { forall n :: n in ids ==> OpenNode(nodes, base, n) }

  function Total(nodes: Nodes, base: real, ids: seq<int>): Point
    requires Connected(nodes, base, ids)
  {
    if ids == [] then Point(0.0, 0.0, 0.0)
    else
      assert OpenNode(nodes, base, ids[|ids| - 1]);
      var t := Total(nodes, base, ids[..|ids| - 1]);
      var p := nodes[Key(base, ids[|ids| - 1])].position;
      Point(t.x + p.x, t.y + p.y, t.z + p.z)
  }

  function Centroid(nodes: Nodes, base: real, ids: seq<int>): Point
    requires Connected(nodes, base, ids) && ids != []
  {
    var t := Total(nodes, base, ids);
    var n := |ids| as real;
    Point(t.x / n, t.y / n, t.z / n)
  }

  /** How far from an edge, as a part of the width or height. */
  function Distance(b: Box, c: Point, edge: Edge): real
    requires b.maxX > b.minX && b.maxY > b.minY
  {
    match edge
    case Top => (b.maxY - c.y) / (b.maxY - b.minY)
    case Bottom => (c.y - b.minY) / (b.maxY - b.minY)
    case Left => (c.x - b.minX) / (b.maxX - b.minX)
    case Right => (b.maxX - c.x) / (b.maxX - b.minX)
  }

  function Near(b: Box, c: Point, ratio: real): set<Edge>
    requires b.maxX > b.minX && b.maxY > b.minY
  {
    set edge | edge in EDGES && Distance(b, c, edge) <= ratio
  }

  // ---------------------------------------------------------------- geometry

  lemma ProductSign(d: real, n: real)
    requires n > 0.0
    ensures d > 0.0 ==> d * n > 0.0
  {
  }

  lemma MeanBetween(total: real, n: real, lo: real, hi: real)
    requires n > 0.0 && lo * n <= total <= hi * n
    ensures lo <= total / n <= hi
  {
    var m := total / n;
    assert m * n == total;
    assert (lo - m) * n == lo * n - total && (m - hi) * n == total - hi * n;
    ProductSign(lo - m, n);
    ProductSign(m - hi, n);
  }

  lemma OneMoreTerm(lo: real, hi: real, total: real, x: real, n: real)
    requires lo * n <= total <= hi * n && lo <= x <= hi
    ensures lo * (n + 1.0) <= total + x <= hi * (n + 1.0)
  {
    assert lo * (n + 1.0) == lo * n + lo;
    assert hi * (n + 1.0) == hi * n + hi;
  }

  lemma NodeInside(nodes: Nodes, base: real, id: int, b: Box)
    requires OpenNode(nodes, base, id) && IsBox(nodes, base, b)
    ensures Inside(nodes[Key(base, id)].position, b)
  {
    assert Key(base, id) in OpenKeys(nodes, base);
  }

  lemma {:induction false} TotalBetween(nodes: Nodes, base: real, ids: seq<int>, b: Box)
    requires Connected(nodes, base, ids) && IsBox(nodes, base, b)
    ensures var t, n := Total(nodes, base, ids), |ids| as real;
            b.minX * n <= t.x <= b.maxX * n && b.minY * n <= t.y <= b.maxY * n
  {
    hide IsBox;
    if ids != [] {
      var rest, id := ids[..|ids| - 1], ids[|ids| - 1];
      TotalBetween(nodes, base, rest, b);
      assert OpenNode(nodes, base, id);
      NodeInside(nodes, base, id, b);
      var t, p, n := Total(nodes, base, rest), nodes[Key(base, id)].position, |rest| as real;
      assert |ids| as real == n + 1.0;
      OneMoreTerm(b.minX, b.maxX, t.x, p.x, n);
      OneMoreTerm(b.minY, b.maxY, t.y, p.y, n);
    }
  }

  /** The centroid of an accepted element lies in the box, so every distance is a ratio between zero and one. */
  lemma CentroidInside(nodes: Nodes, base: real, ids: seq<int>, b: Box)
    requires Connected(nodes, base, ids) && ids != [] && IsBox(nodes, base, b)
    ensures Inside(Centroid(nodes, base, ids), b)
  {
    TotalBetween(nodes, base, ids, b);
    var t, n := Total(nodes, base, ids), |ids| as real;
    MeanBetween(t.x, n, b.minX, b.maxX);
    MeanBetween(t.y, n, b.minY, b.maxY);
  }

  lemma Fraction(part: real, whole: real)
    requires whole > 0.0
    ensures part / whole + (whole - part) / whole == 1.0
    ensures 0.0 <= part <= whole ==> 0.0 <= part / whole <= 1.0
  {
    assert part / whole * whole == part;
    if 0.0 <= part <= whole {
      MeanBetween(part, whole, 0.0, 1.0);
    }
  }

  lemma DistancesAddUp(b: Box, c: Point)
    requires b.maxX > b.minX && b.maxY > b.minY
    ensures Distance(b, c, Top) + Distance(b, c, Bottom) == 1.0
    ensures Distance(b, c, Left) + Distance(b, c, Right) == 1.0
    ensures Inside(c, b) ==> forall edge :: 0.0 <= Distance(b, c, edge) <= 1.0
  {
    Fraction(b.maxY - c.y, b.maxY - b.minY);
    Fraction(c.y - b.minY, b.maxY - b.minY);
    Fraction(c.x - b.minX, b.maxX - b.minX);
    Fraction(b.maxX - c.x, b.maxX - b.minX);
  }

  /** No centroid counts for two opposite edges, exactly when the band ratio is below one half. */
  lemma OppositeEdges(b: Box, ratio: real)
    requires b.maxX > b.minX && b.maxY > b.minY
    ensures ratio < 0.5
       <==> forall c: Point :: !({Top, Bottom} <= Near(b, c, ratio)) && !({Left, Right} <= Near(b, c, ratio))
  {
    var middle := Point((b.minX + b.maxX) / 2.0, (b.minY + b.maxY) / 2.0, 0.0);
    forall c: Point {
      DistancesAddUp(b, c);
    }
    assert EDGES[0] == Top && EDGES[1] == Bottom && EDGES[2] == Left && EDGES[3] == Right;
    DistancesAddUp(b, middle);
    assert b.maxY - middle.y == middle.y - b.minY && b.maxX - middle.x == middle.x - b.minX;
    assert ratio >= 0.5 ==> Near(b, middle, ratio) == {Top, Bottom, Left, Right};
  }
}
