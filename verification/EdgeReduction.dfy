/** From the elements of every frame to one verdict per edge. */
module EdgeReduction {
  import opened EdgeBand

  // The edges an element counts for, by element id; the last listed row of an id decides.
  type Bands = map<int, set<Edge>>

  predicate Usable(nodes: Nodes, base: real, es: seq<Element>) {
    forall e :: e in es ==> Connected(nodes, base, e.nodes) && e.nodes != []
  }

  predicate HasArea(b: Box) { b.maxX > b.minX && b.maxY > b.minY }

  function BandsOf(nodes: Nodes, base: real, b: Box, ratio: real, es: seq<Element>): Bands
    requires Usable(nodes, base, es) && HasArea(b)
  {
    if es == [] then map[]
    else
      var e := es[|es| - 1];
      assert e in es;
      BandsOf(nodes, base, b, ratio, es[..|es| - 1])[e.id := Near(b, Centroid(nodes, base, e.nodes), ratio)]
  }

  predicate InBand(bands: Bands, e: Element, edge: Edge) { e.id in bands && edge in bands[e.id] }

  /** The in-band elements of one edge in one frame, in listing order. */
  function Group(es: seq<Element>, bands: Bands, edge: Edge, time: real): seq<Element> {
    if es == [] then []
    else
      var e := es[|es| - 1];
      var rest := Group(es[..|es| - 1], bands, edge, time);
      if InBand(bands, e, edge) && e.time == time then rest + [e] else rest
  }

  lemma {:induction false} GroupHas(es: seq<Element>, bands: Bands, edge: Edge, time: real, x: Element)
    ensures x in Group(es, bands, edge, time) <==> x in es && InBand(bands, x, edge) && x.time == time
  {
    if es != [] {
      GroupHas(es[..|es| - 1], bands, edge, time, x);
      assert es == es[..|es| - 1] + [es[|es| - 1]];
    }
  }

  function OpenElements(es: seq<Element>): seq<Element> {
    if es == [] then []
    else
      var rest := OpenElements(es[..|es| - 1]);
      if es[|es| - 1].part == OpenCell then rest + [es[|es| - 1]] else rest
  }

  // ---------------------------------------------------------------- reports

  datatype Sample = Sample(time: real, value: real)

  datatype EdgeReport = EdgeReport(edge: Edge, series: seq<Sample>, peak: Element, value: real, fails: bool)

  /** x is in the band and no in-band element of its frame has a larger stress. */
  predicate FrameMaximum(es: seq<Element>, bands: Bands, edge: Edge, x: Element) {
    x in es && InBand(bands, x, edge)
    && forall e :: e in es && InBand(bands, e, edge) && e.time == x.time ==> e.principal <= x.principal
  }

  ghost predicate SeriesOk(es: seq<Element>, bands: Bands, edge: Edge, series: seq<Sample>) {
    && (forall i, j :: 0 <= i < j < |series| ==> series[i].time < series[j].time)
    && (forall s :: s in series ==> exists x :: FrameMaximum(es, bands, edge, x) && s == Sample(x.time, x.principal))
    && (forall e :: e in es && InBand(bands, e, edge) ==> exists s :: s in series && s.time == e.time)
  }

  ghost predicate ReportOk(es: seq<Element>, bands: Bands, threshold: real, r: EdgeReport) {
    SeriesOk(es, bands, r.edge, r.series) && FrameMaximum(es, bands, r.edge, r.peak)
    && r.value == r.peak.principal && Sample(r.peak.time, r.value) in r.series
    && (forall s :: s in r.series ==> s.value <= r.value)
    && (r.fails <==> r.value >= threshold)
  }

  /** The scalar is the largest stress over all in-band elements of all frames and the largest of the series, and the
      verdict is FAIL exactly when some in-band element of some frame reaches the threshold. */
  ghost predicate VerdictExact(es: seq<Element>, bands: Bands, threshold: real, r: EdgeReport) {
    (forall e :: e in es && InBand(bands, e, r.edge) ==> e.principal <= r.value)
    && (exists e :: e in es && InBand(bands, e, r.edge) && e.principal == r.value)
    && (forall s :: s in r.series ==> s.value <= r.value) && (exists s :: s in r.series && s.value == r.value)
    && (r.fails <==> exists e :: e in es && InBand(bands, e, r.edge) && e.principal >= threshold)
  }

  lemma VerdictIsExact(es: seq<Element>, bands: Bands, threshold: real, r: EdgeReport)
    requires ReportOk(es, bands, threshold, r)
    ensures VerdictExact(es, bands, threshold, r)
  {
    forall e | e in es && InBand(bands, e, r.edge) ensures e.principal <= r.value {
      var s :| s in r.series && s.time == e.time;
      var x :| FrameMaximum(es, bands, r.edge, x) && s == Sample(x.time, x.principal);
      assert e.principal <= x.principal;
    }
    assert r.peak in es && InBand(bands, r.peak, r.edge);
  }

  // ---------------------------------------------------------------- the loops

  method BaseTime(nodes: Nodes) returns (base: real)
    requires nodes != map[]
    ensures IsBaseTime(nodes, base)
  {
    var left := nodes.Keys;
    var k :| k in left;
    base := k.time;
    while left != {}
      invariant left <= nodes.Keys && (exists k :: k in nodes && k.time == base)
      invariant forall k :: k in nodes.Keys - left ==> base <= k.time
      decreases left
    {
      var k :| k in left;
      left := left - {k};
      if k.time < base {
        base := k.time;
      }
    }
  }

  method BoundingBox(nodes: Nodes, base: real) returns (b: Box)
    requires OpenKeys(nodes, base) != {}
    ensures IsBox(nodes, base, b)
  {
    var open := OpenKeys(nodes, base);
    var k :| k in open;
    var p := nodes[k].position;
    b := Box(p.x, p.x, p.y, p.y);
    var left := open;
    while left != {}
      invariant left <= open
      invariant forall k :: k in open - left ==> Inside(nodes[k].position, b)
      invariant exists k :: k in open && nodes[k].position.x == b.minX
      invariant exists k :: k in open && nodes[k].position.x == b.maxX
      invariant exists k :: k in open && nodes[k].position.y == b.minY
      invariant exists k :: k in open && nodes[k].position.y == b.maxY
      decreases left
    {
      var k :| k in left;
      left := left - {k};
      var q := nodes[k].position;
      b := Box(if q.x < b.minX then q.x else b.minX, if q.x > b.maxX then q.x else b.maxX,
               if q.y < b.minY then q.y else b.minY, if q.y > b.maxY then q.y else b.maxY);
    }
  }

  /** The first element with the largest stress. */
  method FirstMaximum(es: seq<Element>) returns (m: Element)
    requires es != []
    ensures m in es && forall e :: e in es ==> e.principal <= m.principal
    ensures exists i :: 0 <= i < |es| && es[i] == m && forall j :: 0 <= j < i ==> es[j].principal < m.principal
  {
    m := es[0];
    ghost var at := 0;
    for n := 1 to |es|
      invariant 0 <= at < n && es[at] == m
      invariant forall j :: 0 <= j < n ==> es[j].principal <= m.principal
      invariant forall j :: 0 <= j < at ==> es[j].principal < m.principal
    {
      if es[n].principal > m.principal {
        m, at := es[n], n;
      }
    }
  }

  type Groups = map<(Edge, real), seq<Element>>

  ghost predicate GroupsOk(grouped: Groups, es: seq<Element>, bands: Bands) {
    forall edge, time ::
      if (edge, time) in grouped then
        grouped[(edge, time)] == Group(es, bands, edge, time) && grouped[(edge, time)] != []
      else
        Group(es, bands, edge, time) == []
  }

  method Append(grouped: Groups, edge: Edge, e: Element) returns (r: Groups)
    ensures r == grouped[(edge, e.time) := (if (edge, e.time) in grouped then grouped[(edge, e.time)] else []) + [e]]
  {
    r := grouped[(edge, e.time) := (if (edge, e.time) in grouped then grouped[(edge, e.time)] else []) + [e]];
  }

  /** The dictionary after the edges before n of one more element. */
  ghost predicate Between(grouped: Groups, es: seq<Element>, e: Element, bands: Bands, done: seq<Edge>) {
    forall edge, time ::
      var now := if edge in done then Group(es + [e], bands, edge, time) else Group(es, bands, edge, time);
      if (edge, time) in grouped then grouped[(edge, time)] == now && now != [] else now == []
  }

  lemma GroupNext(es: seq<Element>, e: Element, bands: Bands, edge: Edge, time: real)
    ensures Group(es + [e], bands, edge, time)
         == if InBand(bands, e, edge) && e.time == time then Group(es, bands, edge, time) + [e]
            else Group(es, bands, edge, time)
  {
    assert (es + [e])[..|es|] == es;
  }

  method AddElement(start: Groups, ghost es: seq<Element>, e: Element, bands: Bands) returns (grouped: Groups)
    requires GroupsOk(start, es, bands) && e.id in bands
    ensures GroupsOk(grouped, es + [e], bands)
  {
    hide Group;
    grouped := start;
    for n := 0 to |EDGES|
      invariant Between(grouped, es, e, bands, EDGES[..n])
    {
      forall edge, time ensures Group(es + [e], bands, edge, time)
           == if InBand(bands, e, edge) && e.time == time then Group(es, bands, edge, time) + [e]
              else Group(es, bands, edge, time)
      {
        GroupNext(es, e, bands, edge, time);
      }
      assert EDGES[..n + 1] == EDGES[..n] + [EDGES[n]];
      assert EDGES[n] !in EDGES[..n];
      if EDGES[n] in bands[e.id] {
        grouped := Append(grouped, EDGES[n], e);
      }
    }
    assert EDGES[..|EDGES|] == EDGES;
    forall edge: Edge ensures edge in EDGES {
      EveryEdge(edge);
    }
  }

  method GroupElements(es: seq<Element>, bands: Bands) returns (grouped: Groups)
    requires forall e :: e in es ==> e.id in bands
    ensures GroupsOk(grouped, es, bands)
  {
    grouped := map[];
    for n := 0 to |es|
      invariant GroupsOk(grouped, es[..n], bands)
    {
      hide GroupsOk, InBand;
      grouped := AddElement(grouped, es[..n], es[n], bands);
      assert es[..n + 1] == es[..n] + [es[n]];
    }
    assert es[..|es|] == es;
  }

  /** sorted({time for ...}): the times of the keys of one edge in ascending order. */
  method Sorted(keys: set<(Edge, real)>, edge: Edge) returns (r: seq<real>)
    requires forall k :: k in keys ==> k.0 == edge
    ensures forall t :: t in r <==> (edge, t) in keys
    ensures forall i, j :: 0 <= i < j < |r| ==> r[i] < r[j]
  {
    r := [];
    var left := keys;
    while left != {}
      invariant left <= keys
      invariant forall t :: t in r <==> (edge, t) in keys - left
      invariant forall i, j :: 0 <= i < j < |r| ==> r[i] < r[j]
      invariant forall i, k :: 0 <= i < |r| && k in left ==> r[i] < k.1
      decreases left
    {
      var least := Least(left);
      r := r + [least.1];
      left := left - {least};
    }
  }

  method Least(keys: set<(Edge, real)>) returns (m: (Edge, real))
    requires keys != {}
    ensures m in keys && forall k :: k in keys ==> m.1 <= k.1
  {
    m :| m in keys;
    var left := keys;
    while left != {}
      invariant left <= keys && m in keys && forall k :: k in keys - left ==> m.1 <= k.1
      decreases left
    {
      var k :| k in left;
      left := left - {k};
      if k.1 < m.1 {
        m := k;
      }
    }
  }

  lemma GroupMaximum(es: seq<Element>, bands: Bands, edge: Edge, time: real, m: Element)
    requires m in Group(es, bands, edge, time)
    requires forall e :: e in Group(es, bands, edge, time) ==> e.principal <= m.principal
    ensures FrameMaximum(es, bands, edge, m) && m.time == time
  {
    hide Group;
    GroupHas(es, bands, edge, time, m);
    forall e | e in es && InBand(bands, e, edge) && e.time == m.time ensures e.principal <= m.principal {
      GroupHas(es, bands, edge, time, e);
    }
  }

  lemma HasGroup(grouped: Groups, es: seq<Element>, bands: Bands, edge: Edge, e: Element)
    requires GroupsOk(grouped, es, bands) && e in es && InBand(bands, e, edge)
    ensures (edge, e.time) in grouped
  {
    GroupHas(es, bands, edge, e.time, e);
  }

  /** One sample per frame that has a group for the edge, and the frame maxima. */
  method EdgePoints(grouped: Groups, es: seq<Element>, bands: Bands, edge: Edge)
    returns (points: seq<Element>, series: seq<Sample>)
    requires GroupsOk(grouped, es, bands)
    ensures SeriesOk(es, bands, edge, series) && |points| == |series|
    ensures forall i :: 0 <= i < |points| ==>
              FrameMaximum(es, bands, edge, points[i]) && series[i] == Sample(points[i].time, points[i].principal)
  {
    var times := Sorted((set k | k in grouped && k.0 == edge), edge);
    points, series := [], [];
    hide Group, FrameMaximum;
    for n := 0 to |times|
      invariant |points| == |series| == n
      invariant forall i :: 0 <= i < n ==>
                  FrameMaximum(es, bands, edge, points[i]) && points[i].time == times[i]
                  && series[i] == Sample(points[i].time, points[i].principal)
    {
      assert times[n] in times;
      var candidates := grouped[(edge, times[n])];
      var m := FirstMaximum(candidates);
      GroupMaximum(es, bands, edge, times[n], m);
      points, series := points + [m], series + [Sample(m.time, m.principal)];
    }
    hide GroupsOk;
    forall e | e in es && InBand(bands, e, edge) ensures exists s :: s in series && s.time == e.time {
      HasGroup(grouped, es, bands, edge, e);
      assert e.time in times;
      var i :| 0 <= i < |times| && times[i] == e.time;
      assert series[i] in series;
    }
  }

  // ---------------------------------------------------------------- the Open Cell section

  datatype Error = TooFew | BadArea | Unmatched(element: Element) | EmptyBand(edge: Edge)

  datatype Outcome = Absent | Rejected(error: Error) | Accepted(box: Box, bands: Bands, reports: seq<EdgeReport>)

  predicate Occupied(bands: Bands, es: seq<Element>, edge: Edge) { exists e :: e in es && InBand(bands, e, edge) }

  /** What an accepted mesh satisfies. */
  ghost predicate Acceptable(nodes: Nodes, base: real, b: Box, ratio: real, es: seq<Element>) {
    |OpenKeys(nodes, base)| >= 4 && es != [] && IsBox(nodes, base, b) && HasArea(b) && Usable(nodes, base, es)
    && forall edge: Edge :: Occupied(BandsOf(nodes, base, b, ratio, es), es, edge)
  }

  ghost predicate Reason(nodes: Nodes, base: real, ratio: real, es: seq<Element>, error: Error) {
    match error
    case TooFew => |OpenKeys(nodes, base)| < 4 || es == []
    case BadArea => exists b :: IsBox(nodes, base, b) && !HasArea(b)
    case Unmatched(e) => e in es && !Connected(nodes, base, e.nodes)
    case EmptyBand(edge) =>
      exists b :: IsBox(nodes, base, b) && HasArea(b) && Usable(nodes, base, es)
                  && !Occupied(BandsOf(nodes, base, b, ratio, es), es, edge)
  }

  method ElementBands(nodes: Nodes, base: real, b: Box, ratio: real, es: seq<Element>)
    returns (bands: Bands, bad: seq<Element>)
    requires HasArea(b) && forall e :: e in es ==> e.nodes != []
    ensures bad == [] ==> Usable(nodes, base, es) && bands == BandsOf(nodes, base, b, ratio, es)
    ensures bad != [] ==> bad[0] in es && !Connected(nodes, base, bad[0].nodes)
  {
    bands, bad := map[], [];
    for n := 0 to |es|
      invariant Usable(nodes, base, es[..n]) && bands == BandsOf(nodes, base, b, ratio, es[..n])
    {
      var e := es[n];
      if !Connected(nodes, base, e.nodes) {
        bad := [e];
        return;
      }
      assert es[..n + 1][..n] == es[..n];
      assert es[..n + 1] == es[..n] + [e];
      bands := bands[e.id := Near(b, Centroid(nodes, base, e.nodes), ratio)];
    }
    assert es[..|es|] == es;
  }

  lemma {:induction false} BandsCover(nodes: Nodes, base: real, b: Box, ratio: real, es: seq<Element>)
    requires Usable(nodes, base, es) && HasArea(b)
    ensures forall e :: e in es ==> e.id in BandsOf(nodes, base, b, ratio, es)
  {
    if es != [] {
      BandsCover(nodes, base, b, ratio, es[..|es| - 1]);
      assert es == es[..|es| - 1] + [es[|es| - 1]];
    }
  }

  lemma OneBox(nodes: Nodes, base: real, a: Box, b: Box)
    requires IsBox(nodes, base, a) && IsBox(nodes, base, b)
    ensures a == b
  {
  }

  method EdgeReports(es: seq<Element>, bands: Bands, threshold: real)
    returns (reports: seq<EdgeReport>, empty: seq<Edge>)
    requires forall e :: e in es ==> e.id in bands
    ensures empty == [] ==> |reports| == |EDGES|
    ensures empty == [] ==> forall i :: 0 <= i < |EDGES| ==>
              reports[i].edge == EDGES[i] && ReportOk(es, bands, threshold, reports[i])
    ensures empty != [] ==> forall e :: e in es ==> !InBand(bands, e, empty[0])
  {
    hide GroupsOk, FrameMaximum;
    var grouped := GroupElements(es, bands);
    reports, empty := [], [];
    for n := 0 to |EDGES|
      invariant |reports| == n
      invariant forall i :: 0 <= i < n ==> reports[i].edge == EDGES[i] && ReportOk(es, bands, threshold, reports[i])
    {
      var points, series := EdgePoints(grouped, es, bands, EDGES[n]);
      if points == [] {
        empty := [EDGES[n]];
        return;
      }
      var peak := FirstMaximum(points);
      var r := EdgeReport(EDGES[n], series, peak, peak.principal, peak.principal >= threshold);
      assert ReportOk(es, bands, threshold, r) by {
        var i :| 0 <= i < |points| && points[i] == peak;
        assert series[i] in series;
        forall s | s in series ensures s.value <= peak.principal {
          var j :| 0 <= j < |series| && series[j] == s;
          assert points[j] in points;
        }
      }
      reports := reports + [r];
    }
  }

  /** The Open Cell section: absent, rejected for one of four reasons, or one verdict per edge. */
  method OpenCellSection(nodes: Nodes, base: real, elements: seq<Element>, threshold: real, ratio: real)
    returns (r: Outcome)
    requires forall e :: e in elements ==> e.nodes != []
    ensures var es := OpenElements(elements);
            (r.Absent? <==> OpenKeys(nodes, base) == {} && es == [])
            && (r.Accepted? ==>
                  && Acceptable(nodes, base, r.box, ratio, es)
                  && r.bands == BandsOf(nodes, base, r.box, ratio, es)
                  && |r.reports| == |EDGES|
                  && forall i :: 0 <= i < |EDGES| ==>
                       r.reports[i].edge == EDGES[i] && ReportOk(es, r.bands, threshold, r.reports[i])
                       && VerdictExact(es, r.bands, threshold, r.reports[i]))
            && (r.Rejected? ==>
                  Reason(nodes, base, ratio, es, r.error) && forall b :: !Acceptable(nodes, base, b, ratio, es))
  {
    hide BandsOf, SeriesOk, FrameMaximum, Near, Connected, VerdictExact;
    var open := OpenKeys(nodes, base);
    var es := OpenElements(elements);
    OpenAreElements(elements);
    if open == {} && es == [] {
      return Absent;
    }
    if |open| < 4 || es == [] {
      return Rejected(TooFew);
    }
    var b := BoundingBox(nodes, base);
    forall c | IsBox(nodes, base, c) ensures c == b {
      OneBox(nodes, base, b, c);
    }
    hide IsBox;
    if b.maxX - b.minX <= 0.0 || b.maxY - b.minY <= 0.0 {
      return Rejected(BadArea);
    }
    var bands, bad := ElementBands(nodes, base, b, ratio, es);
    if bad != [] {
      return Rejected(Unmatched(bad[0]));
    }
    BandsCover(nodes, base, b, ratio, es);
    var reports, empty := EdgeReports(es, bands, threshold);
    if empty != [] {
      assert !Occupied(bands, es, empty[0]);
      return Rejected(EmptyBand(empty[0]));
    }
    forall edge: Edge ensures Occupied(bands, es, edge) {
      EveryEdge(edge);
      var i :| 0 <= i < |EDGES| && EDGES[i] == edge;
      PeakInBand(es, bands, threshold, reports[i]);
    }
    forall i | 0 <= i < |EDGES| ensures VerdictExact(es, bands, threshold, reports[i]) {
      VerdictIsExact(es, bands, threshold, reports[i]);
    }
    r := Accepted(b, bands, reports);
  }

  lemma PeakInBand(es: seq<Element>, bands: Bands, threshold: real, r: EdgeReport)
    requires ReportOk(es, bands, threshold, r)
    ensures r.peak in es && InBand(bands, r.peak, r.edge)
  {
  }

  lemma EveryEdge(edge: Edge)
    ensures exists i :: 0 <= i < |EDGES| && EDGES[i] == edge
  {
    assert EDGES[0] == Top && EDGES[1] == Bottom && EDGES[2] == Left && EDGES[3] == Right;
  }

  lemma {:induction false} OpenAreElements(es: seq<Element>)
    ensures forall e :: e in OpenElements(es) <==> e in es && e.part == OpenCell
  {
    if es != [] {
      OpenAreElements(es[..|es| - 1]);
      assert es == es[..|es| - 1] + [es[|es| - 1]];
    }
  }

  // ---------------------------------------------------------------- which elements are in a band

  /** The last listed row of an id decides its edges, through its centroid in the base frame. */
  lemma {:induction false} BandOfLast(nodes: Nodes, base: real, b: Box, ratio: real, es: seq<Element>, i: nat)
    requires Usable(nodes, base, es) && HasArea(b) && i < |es| && forall j :: i < j < |es| ==> es[j].id != es[i].id
    ensures Connected(nodes, base, es[i].nodes) && es[i].nodes != []
    ensures es[i].id in BandsOf(nodes, base, b, ratio, es)
    ensures BandsOf(nodes, base, b, ratio, es)[es[i].id] == Near(b, Centroid(nodes, base, es[i].nodes), ratio)
  {
    hide Near, Centroid, Connected;
    assert es[i] in es;
    var n := |es| - 1;
    if i < n {
      BandOfLast(nodes, base, b, ratio, es[..n], i);
    }
  }

  lemma LastListed(es: seq<Element>, e: Element) returns (i: nat)
    requires e in es
    ensures i < |es| && es[i].id == e.id && forall j :: i < j < |es| ==> es[j].id != e.id
  {
    i := |es| - 1;
    while es[i].id != e.id
      invariant i < |es| && (exists k :: 0 <= k <= i && es[k] == e)
      invariant forall j :: i < j < |es| ==> es[j].id != e.id
      decreases i
    {
      i := i - 1;
    }
  }

  /** Each element counts for exactly the edges its own centroid is near if and only if the last listed row of its id is
      near the same edges. */
  lemma BandIsOwnExactly(nodes: Nodes, base: real, b: Box, ratio: real, es: seq<Element>, e: Element, last: nat)
    requires Usable(nodes, base, es) && HasArea(b) && e in es
    requires last < |es| && es[last].id == e.id && forall j :: last < j < |es| ==> es[j].id != e.id
    ensures Connected(nodes, base, e.nodes) && e.nodes != [] && Connected(nodes, base, es[last].nodes)
            && es[last].nodes != []
    ensures (forall edge :: InBand(BandsOf(nodes, base, b, ratio, es), e, edge)
                            <==> edge in Near(b, Centroid(nodes, base, e.nodes), ratio))
       <==> Near(b, Centroid(nodes, base, es[last].nodes), ratio) == Near(b, Centroid(nodes, base, e.nodes), ratio)
  {
    BandOfLast(nodes, base, b, ratio, es, last);
    hide BandsOf, Near, Centroid;
    var own := Near(b, Centroid(nodes, base, e.nodes), ratio);
    var band := Near(b, Centroid(nodes, base, es[last].nodes), ratio);
    if forall edge :: InBand(BandsOf(nodes, base, b, ratio, es), e, edge) <==> edge in own {
      forall edge: Edge ensures edge in band <==> edge in own {
        assert InBand(BandsOf(nodes, base, b, ratio, es), e, edge) <==> edge in own;
      }
      assert band == own;
    }
  }

  /** In particular when the rows of the id agree on its nodes. */
  lemma BandIsOwn(nodes: Nodes, base: real, b: Box, ratio: real, es: seq<Element>, e: Element, edge: Edge)
    requires Usable(nodes, base, es) && HasArea(b) && e in es
    requires forall f :: f in es && f.id == e.id ==> f.nodes == e.nodes
    ensures Connected(nodes, base, e.nodes) && e.nodes != []
    ensures InBand(BandsOf(nodes, base, b, ratio, es), e, edge)
            <==> edge in Near(b, Centroid(nodes, base, e.nodes), ratio)
  {
    var last := LastListed(es, e);
    assert es[last] in es;
    BandIsOwnExactly(nodes, base, b, ratio, es, e, last);
  }

  // ---------------------------------------------------------------- a row that moves its id

  function Corners(): Nodes {
    map[Key(0.0, 1) := Node(OpenCell, Point(0.0, 0.0, 0.0)), Key(0.0, 2) := Node(OpenCell, Point(10.0, 0.0, 0.0)),
        Key(0.0, 3) := Node(OpenCell, Point(10.0, 10.0, 0.0)), Key(0.0, 4) := Node(OpenCell, Point(0.0, 10.0, 0.0))]
  }

  /** One element id in two frames, at the lower left corner first and at the upper right one later. */
  function Frames(): seq<Element> {
    [Element(7, 0.0, OpenCell, [1, 1, 1], 90.0), Element(7, 1.0, OpenCell, [3, 3, 3], 10.0)]
  }

  lemma CornerCentroid(id: int)
    requires id == 1 || id == 3
    ensures Connected(Corners(), 0.0, [id, id, id])
    ensures Centroid(Corners(), 0.0, [id, id, id]) == Corners()[Key(0.0, id)].position
  {
    var nodes, p := Corners(), Corners()[Key(0.0, id)].position;
    assert OpenNode(nodes, 0.0, id);
    assert Connected(nodes, 0.0, [id, id, id]);
    assert [id, id, id][..2] == [id, id] && [id, id][..1] == [id] && [id][..0] == [];
    assert Total(nodes, 0.0, []) == Point(0.0, 0.0, 0.0);
    assert Total(nodes, 0.0, [id]) == p;
    assert Total(nodes, 0.0, [id, id]) == Point(p.x + p.x, p.y + p.y, p.z + p.z);
  }

  /** The stress of the first frame is counted at the edges of the second: the two can differ. */
  lemma LaterRowDecides()
    ensures var b := Box(0.0, 10.0, 0.0, 10.0);
            IsBox(Corners(), 0.0, b) && HasArea(b) && Usable(Corners(), 0.0, Frames())
            && InBand(BandsOf(Corners(), 0.0, b, 0.1, Frames()), Frames()[0], Top)
            && Top !in Near(b, Centroid(Corners(), 0.0, Frames()[0].nodes), 0.1)
  {
    var nodes, b, es := Corners(), Box(0.0, 10.0, 0.0, 10.0), Frames();
    CornerCentroid(1);
    CornerCentroid(3);
    CornersBox();
    assert Usable(nodes, 0.0, es);
    hide Centroid, IsBox, Total;
    assert EDGES[0] == Top;
    BandOfLast(nodes, 0.0, b, 0.1, es, 1);
  }

  lemma CornersBox()
    ensures IsBox(Corners(), 0.0, Box(0.0, 10.0, 0.0, 10.0))
  {
    var nodes := Corners();
    assert Key(0.0, 1) in OpenKeys(nodes, 0.0) && Key(0.0, 3) in OpenKeys(nodes, 0.0);
    assert nodes[Key(0.0, 1)].position == Point(0.0, 0.0, 0.0) && nodes[Key(0.0, 3)].position == Point(10.0, 10.0, 0.0);
  }

  /** With a band ratio below one half no element of an accepted mesh counts for two opposite edges. */
  lemma NoOppositeEdges(nodes: Nodes, base: real, b: Box, ratio: real, es: seq<Element>, e: Element)
    requires Acceptable(nodes, base, b, ratio, es) && e in es && ratio < 0.5
    ensures var bands := BandsOf(nodes, base, b, ratio, es);
            !(InBand(bands, e, Top) && InBand(bands, e, Bottom)) && !(InBand(bands, e, Left) && InBand(bands, e, Right))
  {
    var i := LastListed(es, e);
    BandOfLast(nodes, base, b, ratio, es, i);
    OppositeEdges(b, ratio);
    var c := Centroid(nodes, base, es[i].nodes);
    hide BandsOf, Near, Centroid;
    assert !({Top, Bottom} <= Near(b, c, ratio)) && !({Left, Right} <= Near(b, c, ratio));
  }
}
