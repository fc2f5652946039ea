/**
 * The yard-map area selector: the area table in base-image coordinates, vertex
 * centroids, the zone zoom windows, even-odd hit-testing, the nearest-centroid
 * fallback, and the selector's state (selection, zone view, view box).
 * Coordinates are exact rationals.
 */
module YardMap {
  import opened Common
  import opened Records
  import opened Lists

  datatype Point = P(x: real, y: real)

  datatype RawArea = RawArea(name: string, poly: seq<Point>)

  /** An area with its polygon's vertex centroid */
  datatype Area = Area(name: string, poly: seq<Point>, cx: real, cy: real)

  datatype ViewBox = ViewBox(x: real, y: real, w: real, h: real)

  /** Size of the base image the polygons are drawn on */
  const BaseW: real := 3307.0
  const BaseH: real := 2339.0

  const MapAreasRaw: seq<RawArea> := [
    RawArea("鋼材・SUB材置場", [P(2220.0, 240.0), P(2520.0, 150.0), P(3100.0, 150.0), P(3100.0, 260.0), P(3200.0, 390.0), P(3200.0, 520.0), P(2450.0, 640.0), P(2300.0, 520.0)]),
    RawArea("曲げ定盤", [P(2320.0, 650.0), P(2560.0, 650.0), P(2560.0, 1230.0), P(2320.0, 1230.0)]),
    RawArea("ブロック置場", [P(2080.0, 710.0), P(2900.0, 710.0), P(2920.0, 1210.0), P(2580.0, 1210.0), P(2580.0, 1360.0), P(2140.0, 1360.0)]),
    RawArea("パイプ置場", [P(2580.0, 1210.0), P(2920.0, 1210.0), P(2920.0, 1360.0), P(2580.0, 1360.0)]),
    RawArea("食堂・協力業者ハウス", [P(2090.0, 600.0), P(2450.0, 600.0), P(2450.0, 710.0), P(2090.0, 710.0)]),
    RawArea("SUB定盤", [P(1250.0, 620.0), P(1700.0, 560.0), P(2050.0, 650.0), P(2140.0, 820.0), P(1800.0, 920.0), P(1380.0, 860.0), P(1250.0, 740.0)]),
    RawArea("SUB工場", [P(1760.0, 780.0), P(2040.0, 780.0), P(2040.0, 910.0), P(1760.0, 910.0)]),
    RawArea("事務所", [P(1760.0, 920.0), P(2040.0, 920.0), P(2040.0, 1000.0), P(1760.0, 1000.0)]),
    RawArea("南定盤3", [P(1700.0, 1300.0), P(1950.0, 1300.0), P(1950.0, 1450.0), P(1700.0, 1450.0)]),
    RawArea("南定盤2", [P(1280.0, 1300.0), P(1700.0, 1300.0), P(1700.0, 1450.0), P(1280.0, 1450.0)]),
    RawArea("加工場", [P(1470.0, 1460.0), P(1630.0, 1460.0), P(1630.0, 1600.0), P(1470.0, 1600.0)]),
    RawArea("パイプ工場", [P(1640.0, 1460.0), P(1860.0, 1460.0), P(1860.0, 1600.0), P(1640.0, 1600.0)]),
    RawArea("電気室・コンプレッサー室", [P(1860.0, 1440.0), P(2070.0, 1500.0), P(2200.0, 1640.0), P(2000.0, 1730.0), P(1780.0, 1620.0)]),
    RawArea("北定盤2", [P(460.0, 600.0), P(650.0, 600.0), P(650.0, 750.0), P(500.0, 820.0), P(420.0, 760.0)]),
    RawArea("ピース切断場", [P(260.0, 560.0), P(410.0, 560.0), P(410.0, 650.0), P(260.0, 650.0)]),
    RawArea("道具置場", [P(430.0, 570.0), P(520.0, 570.0), P(520.0, 650.0), P(430.0, 650.0)]),
    RawArea("施設作業場", [P(260.0, 520.0), P(420.0, 520.0), P(420.0, 560.0), P(260.0, 560.0)]),
    RawArea("旧ガスセンター工場", [P(980.0, 590.0), P(1230.0, 590.0), P(1230.0, 680.0), P(980.0, 680.0)]),
    RawArea("B棟", [P(450.0, 720.0), P(1100.0, 720.0), P(1100.0, 860.0), P(450.0, 860.0)]),
    RawArea("北定盤1", [P(280.0, 850.0), P(500.0, 850.0), P(500.0, 980.0), P(280.0, 980.0)]),
    RawArea("A棟", [P(560.0, 900.0), P(1460.0, 900.0), P(1460.0, 1020.0), P(560.0, 1020.0)]),
    RawArea("DOCK", [P(210.0, 990.0), P(320.0, 990.0), P(320.0, 1090.0), P(210.0, 1090.0)]),
    RawArea("建造船", [P(420.0, 1040.0), P(1440.0, 1040.0), P(1440.0, 1260.0), P(420.0, 1260.0)]),
    RawArea("艤装岸壁", [P(630.0, 1260.0), P(730.0, 1260.0), P(730.0, 1950.0), P(630.0, 1950.0)]),
    RawArea("70t JC", [P(740.0, 1260.0), P(820.0, 1260.0), P(820.0, 1950.0), P(740.0, 1950.0)]),
    RawArea("C棟", [P(850.0, 1300.0), P(1030.0, 1300.0), P(1030.0, 1920.0), P(850.0, 1920.0)]),
    RawArea("艤装品置場", [P(820.0, 1780.0), P(1030.0, 1780.0), P(1030.0, 1920.0), P(820.0, 1920.0)]),
    RawArea("スクラップ場", [P(1040.0, 1850.0), P(1180.0, 1850.0), P(1180.0, 2050.0), P(1040.0, 2050.0)])
  ]

  // ---------------------------------------------------------------------
  // centroidOf
  // ---------------------------------------------------------------------

  function SumX(poly: seq<Point>): real {
    if |poly| == 0 then 0.0 else SumX(poly[..|poly| - 1]) + poly[|poly| - 1].x
  }

  function SumY(poly: seq<Point>): real {
    if |poly| == 0 then 0.0 else SumY(poly[..|poly| - 1]) + poly[|poly| - 1].y
  }

  /** `poly.length || 1` */
  function VertexCount(poly: seq<Point>): (n: nat)
    ensures n >= 1
  {
    if |poly| == 0 then 1 else |poly|
  }

  /** The mean of the vertices; the origin for an empty polygon */
  function Centroid(poly: seq<Point>): Point {
    P(SumX(poly) / VertexCount(poly) as real, SumY(poly) / VertexCount(poly) as real)
  }

  method CentroidOf(poly: seq<Point>) returns (cx: real, cy: real)
    ensures P(cx, cy) == Centroid(poly)
  {
    var n := if |poly| == 0 then 1 else |poly|;
    var sx := 0.0;
    var sy := 0.0;
    var i := 0;
    while i < |poly|
      invariant i <= |poly|
      invariant sx == SumX(poly[..i]) && sy == SumY(poly[..i])
    {
      assert poly[..i + 1][..i] == poly[..i];
      sx := sx + poly[i].x;
      sy := sy + poly[i].y;
      i := i + 1;
    }
    assert poly[..i] == poly;
    cx := sx / n as real;
    cy := sy / n as real;
  }

  predicate XWithin(poly: seq<Point>, lo: real, hi: real) {
    forall i :: 0 <= i < |poly| ==> lo <= poly[i].x <= hi
  }

  predicate YWithin(poly: seq<Point>, lo: real, hi: real) {
    forall i :: 0 <= i < |poly| ==> lo <= poly[i].y <= hi
  }

  lemma {:induction false} SumXBounds(poly: seq<Point>, lo: real, hi: real)
    requires XWithin(poly, lo, hi)
    ensures |poly| as real * lo <= SumX(poly) <= |poly| as real * hi
  {
    if |poly| > 0 {
      SumXBounds(poly[..|poly| - 1], lo, hi);
    }
  }

  lemma {:induction false} SumYBounds(poly: seq<Point>, lo: real, hi: real)
    requires YWithin(poly, lo, hi)
    ensures |poly| as real * lo <= SumY(poly) <= |poly| as real * hi
  {
    if |poly| > 0 {
      SumYBounds(poly[..|poly| - 1], lo, hi);
    }
  }

  lemma MeanBounds(sum: real, n: real, lo: real, hi: real)
    requires n > 0.0 && n * lo <= sum <= n * hi
    ensures lo <= sum / n <= hi
  {
    var q := sum / n;
    assert sum == q * n;
    assert n * (q - lo) >= 0.0;
    assert n * (hi - q) >= 0.0;
  }

  lemma CentroidXInRange(poly: seq<Point>, x0: real, x1: real)
    requires |poly| > 0 && XWithin(poly, x0, x1)
    ensures x0 <= Centroid(poly).x <= x1
  {
    SumXBounds(poly, x0, x1);
    MeanBounds(SumX(poly), |poly| as real, x0, x1);
  }

  lemma CentroidYInRange(poly: seq<Point>, y0: real, y1: real)
    requires |poly| > 0 && YWithin(poly, y0, y1)
    ensures y0 <= Centroid(poly).y <= y1
  {
    SumYBounds(poly, y0, y1);
    MeanBounds(SumY(poly), |poly| as real, y0, y1);
  }

  /** The centroid of a polygon lies in any box that holds all its vertices */
  lemma CentroidInBox(poly: seq<Point>, x0: real, x1: real, y0: real, y1: real)
    requires |poly| > 0 && XWithin(poly, x0, x1) && YWithin(poly, y0, y1)
    ensures x0 <= Centroid(poly).x <= x1 && y0 <= Centroid(poly).y <= y1
  {
    CentroidXInRange(poly, x0, x1);
    CentroidYInRange(poly, y0, y1);
  }

  function WithCentroid(a: RawArea): Area {
    Area(a.name, a.poly, Centroid(a.poly).x, Centroid(a.poly).y)
  }

  /** MAP_AREAS: the table with each area's centroid */
  function MapAreas(): (r: seq<Area>)
    ensures |r| == |MapAreasRaw|
    ensures forall i :: 0 <= i < |r| ==> r[i] == WithCentroid(MapAreasRaw[i])
  {
    seq(|MapAreasRaw|, i requires 0 <= i < |MapAreasRaw| => WithCentroid(MapAreasRaw[i]))
  }

  // ---------------------------------------------------------------------
  // clamp, computeViewBox, areaInViewBox, guessZoneByArea
  // ---------------------------------------------------------------------

  /** `Math.max(lo, Math.min(hi, v))` */
  function Clamp(v: real, lo: real, hi: real): (r: real)
    ensures lo <= hi ==> lo <= r <= hi
    ensures lo <= v <= hi ==> r == v
    ensures r == v || r == lo || r == hi
    ensures lo <= hi && v > hi ==> r == hi
    ensures v < lo || hi < lo ==> r == lo
  {
    if v > hi then (if lo > hi then lo else hi) else if v < lo then lo else v
  }

  const Zoom: real := 2.25
  const FullBox := ViewBox(0.0, 0.0, BaseW, BaseH)

  /** `MAP_VIEW_CFG.centers[zone] || centers.central` */
  function ZoneCenter(zone: string): (c: Point)
    ensures c.x == BaseW / 2.0
    ensures zone == "north" ==> c.y == 720.0
    ensures zone == "south" ==> c.y == 1780.0
    ensures zone != "north" && zone != "south" ==> c.y == 1180.0
  {
    if zone == "north" then P(BaseW / 2.0, 720.0)
    else if zone == "south" then P(BaseW / 2.0, 1780.0)
    else P(BaseW / 2.0, 1180.0)
  }

  /** The whole image for no zone or `'all'`, else a 1/2.25 window around the zone's centre */
  function ComputeViewBox(zone: string): (vb: ViewBox)
    ensures 0.0 <= vb.x && vb.x + vb.w <= BaseW && 0.0 <= vb.y && vb.y + vb.h <= BaseH
    ensures zone == "" || zone == "all" ==> vb == FullBox
    ensures zone != "" && zone != "all" ==> vb.w == BaseW / Zoom && vb.h == BaseH / Zoom
    ensures zone != "" && zone != "all" ==>
      vb.x == Clamp(ZoneCenter(zone).x - vb.w / 2.0, 0.0, BaseW - vb.w)
      && vb.y == Clamp(ZoneCenter(zone).y - vb.h / 2.0, 0.0, BaseH - vb.h)
  {
    if zone == "" || zone == "all" then FullBox
    else
      var w := BaseW / Zoom;
      var h := BaseH / Zoom;
      var c := ZoneCenter(zone);
      ViewBox(Clamp(c.x - w / 2.0, 0.0, BaseW - w), Clamp(c.y - h / 2.0, 0.0, BaseH - h), w, h)
  }

  /** A zone name the table lacks zooms like `'central'` */
  lemma UnknownZoneIsCentral(zone: string)
    requires zone != "" && zone != "all" && zone != "north" && zone != "south"
    ensures ComputeViewBox(zone) == ComputeViewBox("central")
  {
  }

  /** The area's centroid lies in the view box widened by the margin on every side */
  predicate AreaInViewBox(a: Area, vb: ViewBox, margin: real) {
    a.cx >= vb.x - margin && a.cx <= vb.x + vb.w + margin
    && a.cy >= vb.y - margin && a.cy <= vb.y + vb.h + margin
  }

  /** The zone is chosen from the centroid's height alone */
  function GuessZoneByArea(a: Option<Area>): (zone: string)
    ensures zone in {"north", "central", "south"}
    ensures a.Some? && a.value.cy < 950.0 ==> zone == "north"
    ensures a.Some? && 950.0 <= a.value.cy < 1550.0 ==> zone == "central"
    ensures a.Some? && a.value.cy >= 1550.0 ==> zone == "south"
  {
    if a.None? then "central"
    else if a.value.cy < 950.0 then "north"
    else if a.value.cy < 1550.0 then "central"
    else "south"
  }

  /**
   * The zone guessed for an area holds its centroid's height in its window
   * (within the selection margin), for every height from 200 down the image.
   */
  lemma GuessedZoneHoldsHeight(a: Area)
    requires 200.0 <= a.cy <= 2300.0
    ensures var vb := ComputeViewBox(GuessZoneByArea(Some(a)));
      vb.y - 40.0 <= a.cy <= vb.y + vb.h + 40.0
  {
    var h := BaseH / Zoom;
    assert h == 2339.0 / 2.25;
  }

  /**
   * The window does not follow the centroid sideways: every zone window spans
   * the middle of the image, so DOCK at the left edge stays outside it.
   */
  lemma DockOutsideItsZone()
    ensures MapAreas()[21].name == "DOCK"
    ensures MapAreas()[21].cx == 265.0 && MapAreas()[21].cy == 1040.0
    ensures !AreaInViewBox(MapAreas()[21], ComputeViewBox(GuessZoneByArea(Some(MapAreas()[21]))), 40.0)
  {
    var dock := MapAreasRaw[21];
    assert dock.poly == Rect(210.0, 990.0, 320.0, 1090.0);
    RectSums(210.0, 990.0, 320.0, 1090.0);
    var vb := ComputeViewBox("central");
    assert vb.x == BaseW / 2.0 - BaseW / Zoom / 2.0;
  }

  // ---------------------------------------------------------------------
  // pointInPoly
  // ---------------------------------------------------------------------

  /** `(yj - yi) || 1e-9` */
  function Denominator(pi: Point, pj: Point): real {
    if pj.y - pi.y != 0.0 then pj.y - pi.y else 0.000000001
  }

  /** The edge from pj to pi crosses the rightward ray from (x, y) */
  predicate Crosses(x: real, y: real, pi: Point, pj: Point) {
    ((pi.y > y) != (pj.y > y)) && x < (pj.x - pi.x) * (y - pi.y) / Denominator(pi, pj) + pi.x
  }

  /** The 1e-9 fallback is never used: the division is reached only across a height change */
  lemma DenominatorGuardUnused(y: real, pi: Point, pj: Point)
    requires (pi.y > y) != (pj.y > y)
    ensures Denominator(pi, pj) == pj.y - pi.y
  {
  }

  /** The index before i, cyclically */
  function Prev(i: nat, n: nat): nat
    requires i < n
  {
    if i == 0 then n - 1 else i - 1
  }

  /** How many of the edges ending at vertices 0..k-1 cross the ray */
  function Crossings(x: real, y: real, poly: seq<Point>, k: nat): nat
    requires k <= |poly|
  {
    if k == 0 then 0
    else Crossings(x, y, poly, k - 1) + (if Crosses(x, y, poly[k - 1], poly[Prev(k - 1, |poly|)]) then 1 else 0)
  }

  /** The even-odd rule */
  predicate InPoly(x: real, y: real, poly: seq<Point>) {
    Crossings(x, y, poly, |poly|) % 2 == 1
  }

  method PointInPoly(x: real, y: real, poly: seq<Point>) returns (inside: bool)
    ensures inside == InPoly(x, y, poly)
  {
    inside := false;
    if |poly| == 0 {
      return;
    }
    var i := 0;
    var j := |poly| - 1;
    while i < |poly|
      invariant i <= |poly|
      invariant i < |poly| ==> j == Prev(i, |poly|)
      invariant inside == (Crossings(x, y, poly, i) % 2 == 1)
    {
      CrossingsParity(x, y, poly, i);
      if Crosses(x, y, poly[i], poly[j]) {
        inside := !inside;
      }
      j := i;
      i := i + 1;
    }
  }

  /** One more edge flips the parity exactly when it crosses the ray */
  lemma CrossingsParity(x: real, y: real, poly: seq<Point>, i: nat)
    requires i < |poly|
    ensures (Crossings(x, y, poly, i + 1) % 2 == 1)
      == ((Crossings(x, y, poly, i) % 2 == 1) != Crosses(x, y, poly[i], poly[Prev(i, |poly|)]))
  {
    var c := Crossings(x, y, poly, i);
    if Crosses(x, y, poly[i], poly[Prev(i, |poly|)]) {
      assert Crossings(x, y, poly, i + 1) == c + 1;
    } else {
      assert Crossings(x, y, poly, i + 1) == c;
    }
  }

  function Rect(x0: real, y0: real, x1: real, y1: real): seq<Point> {
    [P(x0, y0), P(x1, y0), P(x1, y1), P(x0, y1)]
  }

  lemma RectSums(x0: real, y0: real, x1: real, y1: real)
    ensures SumX(Rect(x0, y0, x1, y1)) == 2.0 * (x0 + x1)
    ensures SumY(Rect(x0, y0, x1, y1)) == 2.0 * (y0 + y1)
  {
    var r := Rect(x0, y0, x1, y1);
    assert r[..1][..0] == [];
    assert SumX(r[..1]) == x0 && SumY(r[..1]) == y0;
    assert r[..2][..1] == r[..1];
    assert SumX(r[..2]) == x0 + x1 && SumY(r[..2]) == 2.0 * y0;
    assert r[..3][..2] == r[..2];
    assert SumX(r[..3]) == 2.0 * x1 + x0 && SumY(r[..3]) == 2.0 * y0 + y1;
    assert r[..3] == r[..|r| - 1];
  }

  /** A vertical edge crosses the ray when it spans the ray's height and lies to its right */
  lemma VerticalEdge(x: real, y: real, a: real, b: real, c: real)
    ensures Crosses(x, y, P(a, b), P(a, c)) <==> ((b > y) != (c > y)) && x < a
  {
    assert (a - a) * (y - b) / Denominator(P(a, b), P(a, c)) == 0.0;
  }

  /** A horizontal edge never crosses the ray */
  lemma HorizontalEdge(x: real, y: real, a: real, b: real, c: real)
    ensures !Crosses(x, y, P(a, c), P(b, c))
  {
  }

  /** For an axis-aligned rectangle the rule keeps the left and top edges and drops the right and bottom */
  lemma RectContains(x: real, y: real, x0: real, y0: real, x1: real, y1: real)
    requires x0 < x1 && y0 < y1
    ensures InPoly(x, y, Rect(x0, y0, x1, y1)) <==> x0 <= x < x1 && y0 <= y < y1
  {
    var r := Rect(x0, y0, x1, y1);
    var left := if y0 <= y < y1 && x < x0 then 1 else 0;
    var right := if y0 <= y < y1 && x < x1 then 1 else 0;
    VerticalEdge(x, y, x0, y0, y1);
    HorizontalEdge(x, y, x1, x0, y0);
    VerticalEdge(x, y, x1, y1, y0);
    HorizontalEdge(x, y, x0, x1, y1);
    assert Crossings(x, y, r, 1) == left;
    assert Crossings(x, y, r, 2) == left;
    assert Crossings(x, y, r, 3) == left + right;
    assert Crossings(x, y, r, 4) == left + right;
  }

  // ---------------------------------------------------------------------
  // findAreaAtPoint, findNearestArea
  // ---------------------------------------------------------------------

  /** The first area, in table order, whose polygon holds the point */
  method FindAreaAtPoint(x: real, y: real, areas: seq<Area>) returns (r: Option<Area>)
    ensures var k := FindIndex(areas, (a: Area) => InPoly(x, y, a.poly));
      r == if k.None? then None else Some(areas[k.value])
  {
    ghost var p := (a: Area) => InPoly(x, y, a.poly);
    var i := 0;
    while i < |areas|
      invariant i <= |areas|
      invariant forall k :: 0 <= k < i ==> !p(areas[k])
    {
      var inside := PointInPoly(x, y, areas[i].poly);
      if inside {
        var k := FindIndex(areas, p);
        assert k.Some? && k.value == i;
        return Some(areas[i]);
      }
      i := i + 1;
    }
    return None;
  }

  function SqDist(a: Area, x: real, y: real): real {
    (a.cx - x) * (a.cx - x) + (a.cy - y) * (a.cy - y)
  }

  /** Among the first k areas, the earliest one at the least squared centroid distance */
  function NearestIn(areas: seq<Area>, x: real, y: real, k: nat): (r: Option<nat>)
    requires k <= |areas|
    ensures r.None? <==> k == 0
    ensures r.Some? ==> r.value < k
    ensures r.Some? ==> forall j :: 0 <= j < k ==> SqDist(areas[r.value], x, y) <= SqDist(areas[j], x, y)
    ensures r.Some? ==> forall j :: 0 <= j < r.value ==> SqDist(areas[j], x, y) > SqDist(areas[r.value], x, y)
  {
    if k == 0 then None
    else
      var b := NearestIn(areas, x, y, k - 1);
      if b.None? || SqDist(areas[k - 1], x, y) < SqDist(areas[b.value], x, y) then Some(k - 1) else b
  }

  /** findNearestArea: a running best under strict `<`, starting from no area at infinite distance */
  method FindNearestArea(x: real, y: real, areas: seq<Area>) returns (best: Option<Area>)
    ensures var k := NearestIn(areas, x, y, |areas|);
      best == if k.None? then None else Some(areas[k.value])
  {
    best := None;
    ghost var bestIndex: Option<nat> := None;
    var bestD := 0.0;
    var i := 0;
    while i < |areas|
      invariant i <= |areas|
      invariant bestIndex == NearestIn(areas, x, y, i)
      invariant bestIndex.None? ==> best.None?
      invariant bestIndex.Some? ==> best == Some(areas[bestIndex.value]) && bestD == SqDist(areas[bestIndex.value], x, y)
    {
      var d := SqDist(areas[i], x, y);
      if best.None? || d < bestD {
        bestD := d;
        best := Some(areas[i]);
        bestIndex := Some(i);
      }
      i := i + 1;
    }
  }

  /** A tap on a non-empty table always picks an area */
  lemma NearestExists(areas: seq<Area>, x: real, y: real)
    requires |areas| > 0
    ensures NearestIn(areas, x, y, |areas|).Some?
  {
  }

  /** C棟 comes before 艤装品置場 in the table, so a point inside C棟 never hits 艤装品置場 */
  lemma BuildingCShadowsFittingStore(x: real, y: real)
    requires InPoly(x, y, MapAreasRaw[25].poly)
    ensures MapAreasRaw[25].name == "C棟" && MapAreasRaw[26].name == "艤装品置場"
    ensures var k := FindIndex(MapAreas(), (a: Area) => InPoly(x, y, a.poly));
      k.Some? && k.value <= 25
  {
    var areas := MapAreas();
    assert areas[25].poly == MapAreasRaw[25].poly;
  }

  /** The two polygons overlap: (900, 1850) lies in both */
  lemma BuildingCOverlapsFittingStore()
    ensures InPoly(900.0, 1850.0, MapAreasRaw[25].poly) && InPoly(900.0, 1850.0, MapAreasRaw[26].poly)
  {
    assert MapAreasRaw[25].poly == Rect(850.0, 1300.0, 1030.0, 1920.0);
    assert MapAreasRaw[26].poly == Rect(820.0, 1780.0, 1030.0, 1920.0);
    RectContains(900.0, 1850.0, 850.0, 1300.0, 1030.0, 1920.0);
    RectContains(900.0, 1850.0, 820.0, 1780.0, 1030.0, 1920.0);
  }

  // ---------------------------------------------------------------------
  // The map list
  // ---------------------------------------------------------------------

  const MapListCap := 120

  /** renderMapList's filter: inside the zoom window (margin 220) unless showing all, and matching the text */
  predicate ListsArea(view: string, vb: ViewBox, f: string, a: Area) {
    (view == "all" || AreaInViewBox(a, vb, 220.0)) && (f == "" || Includes(a.name, f))
  }

  /** renderMapList's items: the first 120 of the table's areas that pass the filter, in table order */
  function MapList(areas: seq<Area>, view: string, vb: ViewBox, filterText: string): (r: seq<Area>)
    ensures var kept := Filter(areas, (a: Area) => ListsArea(view, vb, Trim(filterText), a));
      |r| == (if |kept| < MapListCap then |kept| else MapListCap) && r == kept[..|r|]
    ensures forall a :: a in r ==> a in areas && ListsArea(view, vb, Trim(filterText), a)
    ensures |Filter(areas, (a: Area) => ListsArea(view, vb, Trim(filterText), a))| <= MapListCap ==>
      forall a :: a in areas && ListsArea(view, vb, Trim(filterText), a) ==> a in r
  {
    var f := Trim(filterText);
    var kept := Filter(areas, (a: Area) => ListsArea(view, vb, f, a));
    assert forall a :: a in kept <==> a in areas && ListsArea(view, vb, f, a);
    Take(kept, MapListCap)
  }

  // ---------------------------------------------------------------------
  // The selector's state
  // ---------------------------------------------------------------------

  /** mapSelected, mapView and mapViewBox */
  class MapSelector {
    var selected: Option<Area>
    var view: string
    var viewBox: ViewBox

    /** The view box always belongs to the view */
    ghost predicate Valid()
      reads this
    {
      viewBox == ComputeViewBox(view)
    }

    constructor()
      ensures Valid() && selected.None? && view == "all" && viewBox == FullBox
    {
      selected := None;
      view := "all";
      viewBox := FullBox;
    }

    /** setMapView: `zone || 'all'` */
    method SetMapView(zone: string)
      modifies this
      ensures Valid()
      ensures view == (if zone == "" then "all" else zone)
      ensures selected == old(selected)
    {
      view := if zone == "" then "all" else zone;
      viewBox := ComputeViewBox(view);
    }

    /** setMapSelection: re-zooms to the area's zone when a zoomed view misses it */
    method SetMapSelection(area: Option<Area>)
      requires Valid()
      modifies this
      ensures Valid() && selected == area
      ensures if area.Some? && old(view) != "all" && !AreaInViewBox(area.value, old(viewBox), 40.0)
        then view == GuessZoneByArea(area)
        else view == old(view) && viewBox == old(viewBox)
    {
      selected := area;
      if area.Some? && view != "all" && !AreaInViewBox(area.value, viewBox, 40.0) {
        SetMapView(GuessZoneByArea(area));
      }
    }

    method ClearMapSelection()
      modifies this
      ensures selected.None? && view == old(view) && viewBox == old(viewBox)
    {
      selected := None;
    }

    /** openMapModal: no selection, whole image */
    method OpenMapModal()
      modifies this
      ensures Valid() && selected.None? && view == "all" && viewBox == FullBox
    {
      selected := None;
      SetMapView("all");
    }

    /**
     * handleMapTap, given the tap in base coordinates (none when the host has no
     * transform): the area hit, or else the nearest one, becomes the selection.
     */
    method HandleMapTap(p: Option<Point>)
      requires Valid()
      modifies this
      ensures Valid()
      ensures p.None? ==> selected == old(selected) && view == old(view)
      ensures p.Some? ==> selected.Some? && selected.value in MapAreas()
      ensures p.Some? && FindIndex(MapAreas(), (a: Area) => InPoly(p.value.x, p.value.y, a.poly)).Some? ==>
        selected == Some(MapAreas()[FindIndex(MapAreas(), (a: Area) => InPoly(p.value.x, p.value.y, a.poly)).value])
      ensures p.Some? && FindIndex(MapAreas(), (a: Area) => InPoly(p.value.x, p.value.y, a.poly)).None? ==>
        selected == Some(MapAreas()[NearestIn(MapAreas(), p.value.x, p.value.y, |MapAreas()|).value])
      ensures p.Some? ==>
        if old(view) != "all" && !AreaInViewBox(selected.value, old(viewBox), 40.0)
        then view == GuessZoneByArea(selected)
        else view == old(view) && viewBox == old(viewBox)
    {
      if p.None? {
        return;
      }
      var areas := MapAreas();
      var hit := FindAreaAtPoint(p.value.x, p.value.y, areas);
      var picked := hit;
      if hit.None? {
        picked := FindNearestArea(p.value.x, p.value.y, areas);
        NearestExists(areas, p.value.x, p.value.y);
      }
      SetMapSelection(picked);
    }
  }
}
