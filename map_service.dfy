/**
 * The history map picture (`src/services/map_service.py`): the entries with
 * both coordinates, oldest first, drawn as circle markers (green first, red
 * last, blue between) joined by a blue route line, on an 800x600
 * OpenStreetMap canvas. Rendering the tiles to PNG is left to an oracle.
 */
module MapService {
  import opened Common
  import opened Registry
  import opened Sorting
  import Routes

  /** One point of the picture: coordinates and date of an entry. */
  datatype Point = Point(lat: real, lon: real, date: int)

  /** `CircleMarker((lon, lat), color, size)`: note the longitude comes first. */
  datatype CircleMarker = CircleMarker(coord: (real, real), color: string, width: nat)

  /** `Line(coordinates, color, width)`. */
  datatype Line = Line(coords: seq<(real, real)>, color: string, width: nat)

  /** Everything a `StaticMap` renders: canvas size, tile server, markers, lines. */
  datatype MapContents = MapContents(width: nat, height: nat, urlTemplate: string,
                                     markers: seq<CircleMarker>, lines: seq<Line>)

  const Green: string := "#22c55e"
  const Red: string := "#ef4444"
  const Blue: string := "#3b82f6"
  const TileUrl: string := "https://tile.openstreetmap.org/{z}/{x}/{y}.png"
  const MapWidth: nat := 800
  const MapHeight: nat := 600
  const EndSize: nat := 12
  const MiddleSize: nat := 8
  const LineWidth: nat := 3

  /** `latitude is not None and longitude is not None`: here 0.0 counts. */
  predicate HasCoordinates(h: StoneHistory) {
    h.latitude.Some? && h.longitude.Some?
  }

  function PointFrom(h: StoneHistory): Point
    requires HasCoordinates(h)
  {
    Point(h.latitude.value, h.longitude.value, h.createdAt)
  }

  /** The points of the entries with both coordinates, in history order. */
  function CollectPoints(history: seq<StoneHistory>): (r: seq<Point>)
    ensures |r| <= |history|
    ensures |r| == Count(history, HasCoordinates)
    ensures forall k :: 0 <= k < |r| ==> r[k] == PointFrom(Filter(history, HasCoordinates)[k])
    ensures forall p :: p in r <==> exists h :: h in history && HasCoordinates(h) && p == PointFrom(h)
  {
    var kept := Filter(history, HasCoordinates);
    var r := seq(|kept|, k requires 0 <= k < |kept| => PointFrom(kept[k]));
    assert forall h :: h in kept ==> PointFrom(h) in r by {
      forall h | h in kept ensures PointFrom(h) in r {
        var k :| 0 <= k < |kept| && kept[k] == h;
        assert r[k] == PointFrom(h);
      }
    }
    assert forall k :: 0 <= k < |r| ==> kept[k] in kept && r[k] == PointFrom(kept[k]);
    r
  }

  function Date(p: Point): int { p.date }

  /** `points.sort(key=lambda x: x["date"])`. */
  function ByDate(points: seq<Point>): seq<Point> {
    SortBy(points, Date)
  }

  /** The marker of the point at position `i`. */
  function MarkerFor(points: seq<Point>, i: nat): CircleMarker
    requires i < |points|
  {
    var colour := if i == 0 then Green else if i == |points| - 1 then Red else Blue;
    var size := if i == 0 || i == |points| - 1 then EndSize else MiddleSize;
    CircleMarker((points[i].lon, points[i].lat), colour, size)
  }

  /** The markers of the points, one per point, in order. */
  function Markers(points: seq<Point>): (ms: seq<CircleMarker>)
    ensures |ms| == |points|
  {
    seq(|points|, i requires 0 <= i < |points| => MarkerFor(points, i))
  }

  /** The route: one blue line through all points in order, only for two points or more. */
  function RouteLines(points: seq<Point>): (ls: seq<Line>)
  {
    if |points| > 1 then [Line(seq(|points|, i requires 0 <= i < |points| => (points[i].lon, points[i].lat)), Blue, LineWidth)]
    else []
  }

  function HasColour(colour: string): CircleMarker -> bool {
    (m: CircleMarker) => m.color == colour
  }

  /** Lemma: the markers of a colour, counted over the first marker, the middle ones and the last. */
  lemma CountParts(first: CircleMarker, middle: seq<CircleMarker>, last: CircleMarker, colour: string)
    ensures Count([first] + middle + [last], HasColour(colour))
         == (if first.color == colour then 1 else 0) + Count(middle, HasColour(colour))
            + (if last.color == colour then 1 else 0)
  {
    var p := HasColour(colour);
    FilterAppend([first] + middle, [last], p);
    FilterAppend([first], middle, p);
    FilterSingleton(first, p);
    FilterSingleton(last, p);
  }

  /** Lemma: the markers strictly between the first and the last are blue. */
  lemma MiddleIsBlue(points: seq<Point>)
    requires |points| >= 2
    ensures var ms := Markers(points);
            forall i :: 1 <= i < |points| - 1 ==> ms[i].color == Blue
  {
  }

  /**
   * Lemma: the picture has exactly one green marker, one red marker when
   * there are two points or more and none for a single point, and a blue
   * marker for every other point.
   */
  lemma MarkerColours(points: seq<Point>)
    requires |points| >= 1
    ensures var ms := Markers(points);
            && Count(ms, HasColour(Green)) == 1
            && Count(ms, HasColour(Red)) == (if |points| > 1 then 1 else 0)
            && Count(ms, HasColour(Blue)) == (if |points| > 1 then |points| - 2 else 0)
  {
    var ms := Markers(points);
    if |points| == 1 {
      assert ms == [MarkerFor(points, 0)];
    } else {
      var n := |points|;
      var middle := ms[1..n - 1];
      MiddleIsBlue(points);
      assert forall i :: 0 <= i < |middle| ==> middle[i] == ms[i + 1];
      assert ms[0].color == Green && ms[n - 1].color == Red;
      assert ms == [ms[0]] + middle + [ms[n - 1]];
      CountParts(ms[0], middle, ms[n - 1], Green);
      CountParts(ms[0], middle, ms[n - 1], Red);
      CountParts(ms[0], middle, ms[n - 1], Blue);
      FilterNone(middle, HasColour(Green));
      FilterNone(middle, HasColour(Red));
      FilterAll(middle, HasColour(Blue));
    }
  }

  /**
   * Lemma: the green marker stands on an oldest point and the red one on a
   * newest point, and the route passes through the markers in the order
   * they are drawn.
   */
  lemma ChronologicalDrawing(history: seq<StoneHistory>)
    requires CollectPoints(history) != []
    ensures var pts := ByDate(CollectPoints(history));
            var ms := Markers(pts);
            && (forall p :: p in CollectPoints(history) ==> pts[0].date <= p.date && p.date <= pts[|pts| - 1].date)
            && ms[0].coord == (pts[0].lon, pts[0].lat)
            && ms[|ms| - 1].coord == (pts[|pts| - 1].lon, pts[|pts| - 1].lat)
            && (|pts| > 1 ==> RouteLines(pts)[0].coords == seq(|ms|, i requires 0 <= i < |ms| => ms[i].coord))
  {
    var points := CollectPoints(history);
    var pts := ByDate(points);
    forall p | p in points ensures pts[0].date <= p.date && p.date <= pts[|pts| - 1].date {
      assert p in multiset(pts);
      var j :| 0 <= j < |pts| && pts[j] == p;
      assert Date(pts[0]) <= Date(pts[j]) <= Date(pts[|pts| - 1]);
    }
  }

  /**
   * Lemma: an entry at latitude 0.0 is drawn on the picture but is not a
   * point of the web map, which treats 0.0 as a missing coordinate.
   */
  lemma ZeroLatitude(h: StoneHistory)
    requires h.latitude == Some(0.0) && h.longitude.Some?
    ensures CollectPoints([h]) == [PointFrom(h)]
    ensures Routes.MapPoints([h]) == []
  {
    assert Filter([h], HasCoordinates) == [h];
    assert SortBy([h], Routes.CreatedAt) == [h];
    assert Filter([h], Routes.Located) == [];
  }

  /** `staticmap.StaticMap`: the canvas and what has been added to it. */
  class StaticMap {
    const width: nat
    const height: nat
    const urlTemplate: string
    var markers: seq<CircleMarker>
    var lines: seq<Line>

    constructor (width: nat, height: nat, urlTemplate: string)
      ensures this.width == width && this.height == height && this.urlTemplate == urlTemplate
      ensures markers == [] && lines == []
    {
      this.width := width;
      this.height := height;
      this.urlTemplate := urlTemplate;
      markers := [];
      lines := [];
    }

    function Contents(): MapContents
      reads this
    {
      MapContents(width, height, urlTemplate, markers, lines)
    }

    method AddMarker(marker: CircleMarker)
      modifies this
      ensures markers == old(markers) + [marker] && lines == old(lines)
    {
      markers := markers + [marker];
    }

    method AddLine(line: Line)
      modifies this
      ensures lines == old(lines) + [line] && markers == old(markers)
    {
      lines := lines + [line];
    }
  }

  /**
   * `generate_stone_map_image`: None when no entry has both coordinates;
   * otherwise the PNG that `render` makes of an 800x600 map holding the
   * markers of the points in date order and, for two points or more, the
   * route through them. The stone's name is not used.
   */
  method GenerateStoneMapImage(history: seq<StoneHistory>, stoneName: string,
                               render: MapContents -> Bytes) returns (png: Option<Bytes>)
    ensures png.None? <==> CollectPoints(history) == []
    ensures png.Some? ==>
              var pts := ByDate(CollectPoints(history));
              png.value == render(MapContents(MapWidth, MapHeight, TileUrl, Markers(pts), RouteLines(pts)))
  {
    var points := CollectPoints(history);
    if points == [] {
      return None;
    }
    points := ByDate(points);
    var m := new StaticMap(MapWidth, MapHeight, TileUrl);
    for i := 0 to |points|
      invariant m.markers == Markers(points)[..i] && m.lines == []
    {
      var colour: string;
      var size: nat;
      if i == 0 {
        colour, size := Green, EndSize;
      } else if i == |points| - 1 {
        colour, size := Red, EndSize;
      } else {
        colour, size := Blue, MiddleSize;
      }
      assert CircleMarker((points[i].lon, points[i].lat), colour, size) == MarkerFor(points, i);
      assert Markers(points)[..i + 1] == Markers(points)[..i] + [MarkerFor(points, i)];
      m.AddMarker(CircleMarker((points[i].lon, points[i].lat), colour, size));
    }
    assert Markers(points)[..|points|] == Markers(points);
    if |points| > 1 {
      var coordinates := seq(|points|, k requires 0 <= k < |points| => (points[k].lon, points[k].lat));
      m.AddLine(Line(coordinates, Blue, LineWidth));
    }
    assert m.lines == RouteLines(points);
    return Some(render(m.Contents()));
  }
}
