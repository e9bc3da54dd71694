/** The animated full-trip map (`src/components/sections/FullMap.tsx`): the
    route list built from the days, the three-region projection of
    coordinates onto the canvas, the per-frame animation step, which routes a
    frame draws and how far, the sampled Bezier trail of a route, and the
    hover and click hit-tests. Canvas drawing itself is left out. */
module FullMap {
  import opened Common
  import opened TripData
  import Trip

  // ---------------------------------------------------------------------------
  // Routes
  // ---------------------------------------------------------------------------

  /** The three route colours: flights `#ff6a6a`, boats `#9b59b6`, and the
      default car colour `#4ecdc4`. */
  datatype RouteColor = PlaneRed | BoatPurple | CarTeal

  function Hex(c: RouteColor): string
  {
    match c
    case PlaneRed => "#ff6a6a"
    case BoatPurple => "#9b59b6"
    case CarTeal => "#4ecdc4"
  }

  /** One leg of the trip between two consecutive places of a day. */
  datatype Route = Route(from: string, to: string, color: RouteColor, day: int)

  /** The colour of a leg: an airport at either end wins, then transport at
      either end, and otherwise the default. */
  function LegColor(from: Location, to: Location): (c: RouteColor)
    ensures c == PlaneRed <==> from.kind == Airport || to.kind == Airport
    ensures c == BoatPurple <==> from.kind != Airport && to.kind != Airport
                                 && (from.kind == Transport || to.kind == Transport)
    ensures c == CarTeal <==> from.kind !in {Airport, Transport} && to.kind !in {Airport, Transport}
  {
    if from.kind == Airport || to.kind == Airport then PlaneRed
    else if from.kind == Transport || to.kind == Transport then BoatPurple
    else CarTeal
  }

  /** The legs of a list of places, one per consecutive pair, in order. */
  function Legs(locs: seq<Location>, day: int): (r: seq<Route>)
    ensures |r| == if |locs| == 0 then 0 else |locs| - 1
    ensures forall i :: 0 <= i < |r| ==>
      r[i] == Route(locs[i].name, locs[i + 1].name, LegColor(locs[i], locs[i + 1]), day)
  {
    if |locs| < 2 then []
    else [Route(locs[0].name, locs[1].name, LegColor(locs[0], locs[1]), day)] + Legs(locs[1..], day)
  }

  /** The legs of one day. */
  function DayRoutes(d: DayData): seq<Route>
  {
    Legs(d.locations, d.day)
  }

  /** `generateRoutes`: every day's legs, in day order. */
  function GenerateRoutes(days: seq<DayData>): seq<Route>
  {
    FlatMap(days, DayRoutes)
  }

  /** The number of legs the days give, Σ max(0, |locations| - 1). */
  function RouteCount(days: seq<DayData>): nat
  {
    if |days| == 0 then 0
    else (if |days[0].locations| == 0 then 0 else |days[0].locations| - 1) + RouteCount(days[1..])
  }

  /** `generateRoutes` emits exactly one route per consecutive pair. */
  lemma {:induction false} GenerateRoutesCount(days: seq<DayData>)
    ensures |GenerateRoutes(days)| == RouteCount(days)
  {
    if |days| > 0 {
      GenerateRoutesCount(days[1..]);
    }
  }

  /** The leg from place `i` to place `i + 1` of day `k` is route
      `RouteCount(days[..k]) + i`, carries day `k`'s number and the colour of
      its two ends: day order first, then route order within a day. */
  lemma GenerateRoutesAt(days: seq<DayData>, k: nat, i: nat)
    requires k < |days| && i + 1 < |days[k].locations|
    ensures RouteCount(days[..k]) + i < |GenerateRoutes(days)|
    ensures var from, to := days[k].locations[i], days[k].locations[i + 1];
      GenerateRoutes(days)[RouteCount(days[..k]) + i] == Route(from.name, to.name, LegColor(from, to), days[k].day)
  {
    FlatMapAt(days, DayRoutes, k, i);
    GenerateRoutesCount(days[..k]);
  }

  /** Every route is the leg between two consecutive places of some day and
      carries that day's number. */
  lemma GenerateRoutesSource(days: seq<DayData>, j: nat) returns (k: nat, i: nat)
    requires j < |GenerateRoutes(days)|
    ensures k < |days| && i + 1 < |days[k].locations|
    ensures j == RouteCount(days[..k]) + i
    ensures var from, to := days[k].locations[i], days[k].locations[i + 1];
      GenerateRoutes(days)[j] == Route(from.name, to.name, LegColor(from, to), days[k].day)
  {
    k, i := FlatMapSource(days, DayRoutes, j);
    GenerateRoutesCount(days[..k]);
    GenerateRoutesAt(days, k, i);
  }

  /** The trip has 29 legs: 3 + 5 + 6 + 5 + 3 + 7. */
  lemma TripRouteCount()
    ensures |GenerateRoutes(Trip.TripDays)| == 29
  {
    GenerateRoutesCount(Trip.TripDays);
    var days := Trip.TripDays;
    assert RouteCount(days[5..]) == 7 by { assert days[5..][1..] == []; }
    assert RouteCount(days[4..]) == 10 by { assert days[4..][1..] == days[5..]; }
    assert RouteCount(days[3..]) == 15 by { assert days[3..][1..] == days[4..]; }
    assert RouteCount(days[2..]) == 21 by { assert days[2..][1..] == days[3..]; }
    assert RouteCount(days[1..]) == 26 by { assert days[1..][1..] == days[2..]; }
  }

  // ---------------------------------------------------------------------------
  // Projection
  // ---------------------------------------------------------------------------

  /** The three regions the map lays out side by side. */
  datatype Region = Shanghai | HongKong | Bali

  /** Which region's layout a coordinate uses: the northern hemisphere east
      of longitude 120 is Shanghai, the rest of it Hong Kong, and everything
      else Bali. */
  function RegionOf(lat: real, lng: real): Region
  {
    if lat > 0.0 then (if lng > 120.0 then Shanghai else HongKong) else Bali
  }

  /** A latitude/longitude rectangle. */
  datatype GeoBox = GeoBox(minLat: real, maxLat: real, minLng: real, maxLng: real)

  /** The geographic extent of each region. */
  function RegionBox(r: Region): GeoBox
  {
    match r
    case Shanghai => GeoBox(31.0, 31.3, 121.5, 122.0)
    case HongKong => GeoBox(22.2, 22.4, 113.9, 114.3)
    case Bali => GeoBox(-9.0, -8.5, 114.5, 116.0)
  }

  /** Where a region sits on the canvas, as fractions of the canvas size:
      left edge and width, top edge and height. */
  datatype Layout = Layout(left: real, width: real, top: real, height: real)

  function RegionLayout(r: Region): Layout
  {
    match r
    case Shanghai => Layout(0.85, 0.12, 0.15, 0.15)
    case HongKong => Layout(0.70, 0.12, 0.25, 0.15)
    case Bali => Layout(0.35, 0.45, 0.45, 0.50)
  }

  predicate InGeoBox(r: Region, lat: real, lng: real)
  {
    var b := RegionBox(r);
    b.minLat <= lat <= b.maxLat && b.minLng <= lng <= b.maxLng
  }

  /** The pixel rectangle of a region on a `width` by `height` canvas. */
  predicate InPixelRect(r: Region, p: Point, width: nat, height: nat)
  {
    match r
    case Shanghai => 0.85 * width as real <= p.x <= 0.97 * width as real && 0.15 * height as real <= p.y <= 0.30 * height as real
    case HongKong => 0.70 * width as real <= p.x <= 0.82 * width as real && 0.25 * height as real <= p.y <= 0.40 * height as real
    case Bali => 0.35 * width as real <= p.x <= 0.80 * width as real && 0.45 * height as real <= p.y <= 0.95 * height as real
  }

  /** `latLngToCanvas`: picks the region, then maps the region's box linearly
      onto its pixel rectangle, north up. A coordinate inside its region's box
      lands inside that region's pixel rectangle. */
  function LatLngToCanvas(lat: real, lng: real, width: nat, height: nat): (p: Point)
    ensures forall r :: InGeoBox(r, lat, lng) ==> RegionOf(lat, lng) == r && InPixelRect(r, p, width, height)
  {
    var region := RegionOf(lat, lng);
    var b := RegionBox(region);
    var l := RegionLayout(region);
    var w, h := width as real, height as real;
    var p := Point(
      w * l.left + ((lng - b.minLng) / (b.maxLng - b.minLng)) * w * l.width,
      h * l.top + ((b.maxLat - lat) / (b.maxLat - b.minLat)) * h * l.height);
    ProjectionInRect(lat, lng, width, height, p);
    p
  }

  lemma ProjectionInRect(lat: real, lng: real, width: nat, height: nat, p: Point)
    requires var r := RegionOf(lat, lng); var b := RegionBox(r); var l := RegionLayout(r);
      p == Point(
        width as real * l.left + ((lng - b.minLng) / (b.maxLng - b.minLng)) * width as real * l.width,
        height as real * l.top + ((b.maxLat - lat) / (b.maxLat - b.minLat)) * height as real * l.height)
    ensures forall r :: InGeoBox(r, lat, lng) ==> RegionOf(lat, lng) == r && InPixelRect(r, p, width, height)
  {
    BoxDeterminesRegion(lat, lng);
    var r := RegionOf(lat, lng);
    if InGeoBox(r, lat, lng) {
      var b, l := RegionBox(r), RegionLayout(r);
      var w, h := width as real, height as real;
      var fx, fy := (lng - b.minLng) / (b.maxLng - b.minLng), (b.maxLat - lat) / (b.maxLat - b.minLat);
      assert fx * w * l.width == fx * (w * l.width);
      assert fy * h * l.height == fy * (h * l.height);
      AxisWithin(lng - b.minLng, b.maxLng - b.minLng, w * l.left, w * l.width, p.x);
      AxisWithin(b.maxLat - lat, b.maxLat - b.minLat, h * l.top, h * l.height, p.y);
    }
  }

  /** A coordinate placed at a fraction `num / den` of an extent from an
      origin stays between the origin and the far end. */
  lemma AxisWithin(num: real, den: real, origin: real, extent: real, pos: real)
    requires 0.0 <= num <= den && 0.0 < den && 0.0 <= extent
    requires pos == origin + (num / den) * extent
    ensures origin <= pos <= origin + extent
  {
    DivWithin(num, den);
    ScaleWithin(num / den, extent);
  }

  /** A coordinate inside a region's box is dispatched to that region. */
  lemma BoxDeterminesRegion(lat: real, lng: real)
    ensures forall r :: InGeoBox(r, lat, lng) ==> RegionOf(lat, lng) == r
  {
    forall r | InGeoBox(r, lat, lng)
      ensures RegionOf(lat, lng) == r
    {
      match r
      case Shanghai =>
      case HongKong =>
      case Bali =>
    }
  }

  /** Within one region the projection keeps east to the right and north up:
      x grows with longitude and y shrinks as latitude grows. */
  lemma ProjectionMonotone(lat1: real, lng1: real, lat2: real, lng2: real, width: nat, height: nat)
    requires RegionOf(lat1, lng1) == RegionOf(lat2, lng2)
    ensures lng1 <= lng2 ==> LatLngToCanvas(lat1, lng1, width, height).x <= LatLngToCanvas(lat2, lng2, width, height).x
    ensures lat1 <= lat2 ==> LatLngToCanvas(lat1, lng1, width, height).y >= LatLngToCanvas(lat2, lng2, width, height).y
  {
    var r := RegionOf(lat1, lng1);
    var b := RegionBox(r);
    var l := RegionLayout(r);
    var w, h := width as real, height as real;
    var sx := w * l.width / (b.maxLng - b.minLng);
    var sy := h * l.height / (b.maxLat - b.minLat);
    MulNonneg(w, l.width);
    MulNonneg(h, l.height);
    assert LatLngToCanvas(lat1, lng1, width, height).x == w * l.left + (lng1 - b.minLng) * sx;
    assert LatLngToCanvas(lat2, lng2, width, height).x == w * l.left + (lng2 - b.minLng) * sx;
    assert LatLngToCanvas(lat1, lng1, width, height).y == h * l.top + (b.maxLat - lat1) * sy;
    assert LatLngToCanvas(lat2, lng2, width, height).y == h * l.top + (b.maxLat - lat2) * sy;
    if lng1 <= lng2 {
      MulNonneg(lng2 - lng1, sx);
      assert (lng2 - b.minLng) * sx - (lng1 - b.minLng) * sx == (lng2 - lng1) * sx;
    }
    if lat1 <= lat2 {
      MulNonneg(lat2 - lat1, sy);
      assert (b.maxLat - lat1) * sy - (b.maxLat - lat2) * sy == (lat2 - lat1) * sy;
    }
  }

  /** On a non-empty canvas the three pixel rectangles do not overlap, so a
      projected place inside its box is drawn in its own region only. */
  lemma PixelRectsDisjoint(p: Point, width: nat, height: nat, r1: Region, r2: Region)
    requires width > 0 && height > 0
    requires InPixelRect(r1, p, width, height) && InPixelRect(r2, p, width, height)
    ensures r1 == r2
  {
  }

  /** Every place of the trip lies inside the box of the region it is laid
      out in, so every marker of the trip lands in its region's rectangle. */
  lemma TripPlacesInTheirBoxes(k: nat, i: nat)
    requires k < |Trip.TripDays| && i < |Trip.TripDays[k].locations|
    ensures var l := Trip.TripDays[k].locations[i]; InGeoBox(RegionOf(l.lat, l.lng), l.lat, l.lng)
  {
    var d := Trip.TripDays[k];
    if k == 0 { assert d == Trip.Day1; }
    else if k == 1 { assert d == Trip.Day2; }
    else if k == 2 { assert d == Trip.Day3; }
    else if k == 3 { assert d == Trip.Day4; }
    else if k == 4 { assert d == Trip.Day5; }
    else { assert d == Trip.Day6; }
  }

  // ---------------------------------------------------------------------------
  // Animation
  // ---------------------------------------------------------------------------

  /** The animation's state: how far along the current route the light is,
      and which route it is on. */
  datatype Anim = Anim(progress: real, routeIndex: nat)

  /** The state on mount, and after the reset button. */
  const Start: Anim := Anim(0.0, 0)

  /** Progress gained per frame per unit of speed. */
  const ProgressPerFrame: real := 0.003

  predicate ValidAnim(s: Anim, routeCount: nat)
  {
    0.0 <= s.progress < 1.0 && 0 <= s.routeIndex < routeCount
  }

  /** One frame's update of `animate`: while playing and on screen the
      progress grows by `speed * 0.003`; on reaching 1 it restarts at 0 on the
      next route, wrapping after the last. The source leaves the index
      undefined when there are no routes, so at least one route is required. */
  function Advance(s: Anim, playing: bool, visible: bool, speed: real, routeCount: nat): (s': Anim)
    requires routeCount > 0
    ensures !(playing && visible) ==> s' == s
    ensures playing && visible && s.progress + speed * ProgressPerFrame < 1.0 ==>
      s' == Anim(s.progress + speed * ProgressPerFrame, s.routeIndex)
    ensures playing && visible && s.progress + speed * ProgressPerFrame >= 1.0 ==>
      s' == Anim(0.0, (s.routeIndex + 1) % routeCount)
    ensures s'.routeIndex != s.routeIndex ==> s'.progress == 0.0
    ensures 0.0 <= speed ==>
      (s'.routeIndex == s.routeIndex && s'.progress >= s.progress) ||
      (s'.routeIndex == (s.routeIndex + 1) % routeCount && s'.progress == 0.0)
  {
    if playing && visible then
      var p := s.progress + speed * ProgressPerFrame;
      if p >= 1.0 then Anim(0.0, (s.routeIndex + 1) % routeCount) else Anim(p, s.routeIndex)
    else s
  }

  /** The step keeps the state valid for any non-negative speed, which
      covers the 1 to 10 range of the speed slider. */
  lemma AdvanceKeepsValid(s: Anim, playing: bool, visible: bool, speed: real, routeCount: nat)
    requires routeCount > 0 && ValidAnim(s, routeCount) && 0.0 <= speed
    ensures ValidAnim(Advance(s, playing, visible, speed, routeCount), routeCount)
  {
  }

  /** The reset button puts the light back at the start of the first route. */
  function Reset(s: Anim): (s': Anim)
    ensures forall n: nat :: n > 0 ==> ValidAnim(s', n)
    ensures s'.routeIndex == 0 && s'.progress == 0.0
  {
    Start
  }

  /** How far a frame draws route `index`: routes already passed are drawn
      whole, the current one up to the light, later ones not at all. */
  function RouteFrameProgress(index: nat, s: Anim): (r: Option<real>)
    ensures r.Some? <==> index <= s.routeIndex
    ensures index < s.routeIndex ==> r == Some(1.0)
    ensures index == s.routeIndex ==> r == Some(s.progress)
  {
    if index < s.routeIndex then Some(1.0)
    else if index == s.routeIndex then Some(s.progress)
    else None
  }

  /** What a frame strokes for one route. */
  datatype Stroke = Stroke(routeIndex: nat, from: Point, to: Point, color: RouteColor, progress: real)

  /** `allLocations.find(l => l.name === name)`: the first place with the name. */
  function FindByName(locs: seq<TaggedLocation>, name: string): (r: Option<nat>)
    ensures r.Some? ==> r.value < |locs|
  {
    if |locs| == 0 then None
    else if locs[0].Name() == name then Some(0)
    else match FindByName(locs[1..], name)
      case None => None
      case Some(j) => Some(j + 1)
  }

  /** `find` gives the first place with the name, and nothing exactly when no
      place has it. */
  lemma {:induction false} FindByNameFirst(locs: seq<TaggedLocation>, name: string)
    ensures FindByName(locs, name).None? <==> forall j :: 0 <= j < |locs| ==> locs[j].Name() != name
    ensures FindByName(locs, name).Some? ==>
      && locs[FindByName(locs, name).value].Name() == name
      && forall j :: 0 <= j < FindByName(locs, name).value ==> locs[j].Name() != name
  {
    if |locs| > 0 && locs[0].Name() != name {
      FindByNameFirst(locs[1..], name);
      forall j | 1 <= j < |locs|
        ensures locs[j] == locs[1..][j - 1]
      {
      }
    }
  }

  /** Both ends of `route` are found among the places. */
  predicate RouteFound(route: Route, locs: seq<TaggedLocation>)
  {
    FindByName(locs, route.from).Some? && FindByName(locs, route.to).Some?
  }

  /** A frame strokes route `index` when both its ends are found and the
      light has reached it. */
  predicate Stroked(route: Route, index: nat, locs: seq<TaggedLocation>, s: Anim)
  {
    RouteFound(route, locs) && RouteFrameProgress(index, s).Some?
  }

  /** The strokes of routes `from` onwards, in route order. */
  function StrokesFrom(routes: seq<Route>, locs: seq<TaggedLocation>, s: Anim, width: nat, height: nat, from: nat): seq<Stroke>
    requires from <= |routes|
    decreases |routes| - from
  {
    if from == |routes| then []
    else
      var rest := StrokesFrom(routes, locs, s, width, height, from + 1);
      if Stroked(routes[from], from, locs, s) then [RouteStroke(routes[from], from, locs, s, width, height)] + rest
      else rest
  }

  /** The stroke of a route a frame draws: from the canvas position of its
      first end to that of its second, in its colour, as far as the frame
      draws it. */
  function RouteStroke(route: Route, index: nat, locs: seq<TaggedLocation>, s: Anim, width: nat, height: nat): (st: Stroke)
    requires Stroked(route, index, locs, s)
    ensures st.routeIndex == index && st.color == route.color
    ensures Some(st.progress) == RouteFrameProgress(index, s)
    ensures var a := FindByName(locs, route.from).value;
      st.from == LatLngToCanvas(locs[a].loc.lat, locs[a].loc.lng, width, height)
    ensures var b := FindByName(locs, route.to).value;
      st.to == LatLngToCanvas(locs[b].loc.lat, locs[b].loc.lng, width, height)
  {
    var a, b := FindByName(locs, route.from).value, FindByName(locs, route.to).value;
    Stroke(
      index,
      LatLngToCanvas(locs[a].loc.lat, locs[a].loc.lng, width, height),
      LatLngToCanvas(locs[b].loc.lat, locs[b].loc.lng, width, height),
      route.color,
      RouteFrameProgress(index, s).value)
  }

  /** The routes one frame of `animate` strokes. */
  function FrameStrokes(routes: seq<Route>, locs: seq<TaggedLocation>, s: Anim, width: nat, height: nat): seq<Stroke>
  {
    StrokesFrom(routes, locs, s, width, height, 0)
  }

  /** Every route's two ends are places of `allLocations`. */
  lemma RouteEndsListed(days: seq<DayData>, j: nat)
    requires j < |GenerateRoutes(days)|
    ensures FindByName(AllLocations(days), GenerateRoutes(days)[j].from).Some?
    ensures FindByName(AllLocations(days), GenerateRoutes(days)[j].to).Some?
  {
    var k, i := GenerateRoutesSource(days, j);
    AllLocationsAt(days, k, i);
    AllLocationsAt(days, k, i + 1);
    FindByNameFirst(AllLocations(days), GenerateRoutes(days)[j].from);
    FindByNameFirst(AllLocations(days), GenerateRoutes(days)[j].to);
  }

  /** Every route's two ends are found among the places. */
  predicate EndsFound(routes: seq<Route>, locs: seq<TaggedLocation>)
  {
    forall j {:trigger RouteFound(routes[j], locs)} :: 0 <= j < |routes| ==> RouteFound(routes[j], locs)
  }

  /** When every route's ends are found, one stroke is drawn per route from
      `from` up to the current one. */
  lemma {:induction false} StrokesFromLength(routes: seq<Route>, locs: seq<TaggedLocation>, s: Anim, width: nat, height: nat, from: nat)
    requires from <= |routes| && ValidAnim(s, |routes|) && EndsFound(routes, locs)
    ensures |StrokesFrom(routes, locs, s, width, height, from)| == if from <= s.routeIndex then s.routeIndex + 1 - from else 0
    decreases |routes| - from
  {
    if from < |routes| {
      assert RouteFound(routes[from], locs);
      StrokesFromLength(routes, locs, s, width, height, from + 1);
      StrokesFromStep(routes, locs, s, width, height, from);
    }
  }

  /** When every route's ends are found, the routes from `from` up to the
      current one are stroked in order, whole before the current one and up
      to the light on it. */
  lemma StrokesFromShape(routes: seq<Route>, locs: seq<TaggedLocation>, s: Anim, width: nat, height: nat, from: nat)
    requires from <= |routes| && ValidAnim(s, |routes|) && EndsFound(routes, locs)
    ensures |StrokesFrom(routes, locs, s, width, height, from)| == if from <= s.routeIndex then s.routeIndex + 1 - from else 0
    ensures forall j :: 0 <= j < |StrokesFrom(routes, locs, s, width, height, from)| ==>
      && StrokesFrom(routes, locs, s, width, height, from)[j].routeIndex == from + j
      && StrokesFrom(routes, locs, s, width, height, from)[j].color == routes[from + j].color
      && StrokesFrom(routes, locs, s, width, height, from)[j].progress == (if from + j < s.routeIndex then 1.0 else s.progress)
    ensures forall j :: 0 <= j < |StrokesFrom(routes, locs, s, width, height, from)| ==>
      && RouteFound(routes[from + j], locs) && from + j <= s.routeIndex
      && StrokesFrom(routes, locs, s, width, height, from)[j] == RouteStroke(routes[from + j], from + j, locs, s, width, height)
  {
    StrokesFromLength(routes, locs, s, width, height, from);
    forall j: nat | j < |StrokesFrom(routes, locs, s, width, height, from)| {
      StrokeAt(routes, locs, s, width, height, from, j);
    }
  }

  /** Stroke `j` of those from route `from` onwards is route `from + j`'s. */
  lemma {:induction false} StrokeAt(routes: seq<Route>, locs: seq<TaggedLocation>, s: Anim, width: nat, height: nat, from: nat, j: nat)
    requires from <= |routes| && ValidAnim(s, |routes|) && EndsFound(routes, locs)
    requires from + j <= s.routeIndex
    ensures j < |StrokesFrom(routes, locs, s, width, height, from)|
    ensures RouteFound(routes[from + j], locs) && from + j <= s.routeIndex
    ensures StrokesFrom(routes, locs, s, width, height, from)[j] == RouteStroke(routes[from + j], from + j, locs, s, width, height)
    ensures var st := StrokesFrom(routes, locs, s, width, height, from)[j];
      && st.routeIndex == from + j
      && st.color == routes[from + j].color
      && st.progress == (if from + j < s.routeIndex then 1.0 else s.progress)
    decreases j
  {
    assert RouteFound(routes[from], locs);
    StrokesFromStep(routes, locs, s, width, height, from);
    var r, rest := StrokesFrom(routes, locs, s, width, height, from), StrokesFrom(routes, locs, s, width, height, from + 1);
    var first := RouteStroke(routes[from], from, locs, s, width, height);
    assert r == [first] + rest;
    if j == 0 {
      assert r[0] == first;
    } else {
      StrokeAt(routes, locs, s, width, height, from + 1, j - 1);
      assert r[j] == rest[j - 1];
    }
  }

  /** One step of `StrokesFrom` when both ends of route `from` are found:
      the route's stroke is prepended exactly when the frame has reached it. */
  lemma StrokesFromStep(routes: seq<Route>, locs: seq<TaggedLocation>, s: Anim, width: nat, height: nat, from: nat)
    requires from < |routes|
    requires RouteFound(routes[from], locs)
    ensures from <= s.routeIndex ==>
      StrokesFrom(routes, locs, s, width, height, from) ==
        [RouteStroke(routes[from], from, locs, s, width, height)] + StrokesFrom(routes, locs, s, width, height, from + 1)
    ensures s.routeIndex < from ==>
      StrokesFrom(routes, locs, s, width, height, from) == StrokesFrom(routes, locs, s, width, height, from + 1)
  {
  }

  /** Each frame of the trip map strokes exactly the routes up to the current
      one: all earlier ones complete, the current one at the light's progress. */
  lemma FrameStrokesShape(days: seq<DayData>, s: Anim, width: nat, height: nat)
    requires ValidAnim(s, |GenerateRoutes(days)|)
    ensures var r := FrameStrokes(GenerateRoutes(days), AllLocations(days), s, width, height);
      |r| == s.routeIndex + 1 &&
      forall j :: 0 <= j < |r| ==>
        && r[j].routeIndex == j
        && r[j].progress == (if j < s.routeIndex then 1.0 else s.progress)
  {
    var routes := GenerateRoutes(days);
    forall j | 0 <= j < |routes|
      ensures RouteFound(routes[j], AllLocations(days))
    {
      RouteEndsListed(days, j);
    }
    assert EndsFound(routes, AllLocations(days));
    StrokesFromShape(routes, AllLocations(days), s, width, height, 0);
  }

  // ---------------------------------------------------------------------------
  // Route trail
  // ---------------------------------------------------------------------------

  /** Number of pieces a whole route's trail is drawn in. */
  const Segments: int := 20

  /** The polyline `drawRoute` strokes for a route drawn up to `progress`:
      nothing when `progress` is not positive; otherwise the start, the curve
      samples at 1/20, 2/20, ... up to ⌊20·progress⌋/20, and the light's
      position on the curve. */
  method Trail(from: Point, ctrl: Point, to: Point, progress: real) returns (path: seq<Point>)
    ensures progress <= 0.0 ==> path == []
    ensures progress > 0.0 ==> |path| == (progress * Segments as real).Floor + 2
    ensures progress > 0.0 ==> path[0] == from && path[|path| - 1] == Bezier(from, ctrl, to, progress)
    ensures forall i :: 1 <= i < |path| - 1 ==> path[i] == Bezier(from, ctrl, to, i as real / Segments as real)
    ensures 0.0 < progress <= 1.0 ==> |path| <= Segments + 2
    ensures progress == 1.0 ==> path[|path| - 1] == to
  {
    if progress <= 0.0 {
      return [];
    }
    var t := progress;
    var last := (t * Segments as real).Floor;
    path := [from];
    var i := 1;
    while i <= last
      invariant 1 <= i <= last + 1
      invariant |path| == i && path[0] == from
      invariant forall k :: 1 <= k < i ==> path[k] == Bezier(from, ctrl, to, k as real / Segments as real)
    {
      path := path + [Bezier(from, ctrl, to, i as real / Segments as real)];
      i := i + 1;
    }
    path := path + [Bezier(from, ctrl, to, t)];
  }

  // ---------------------------------------------------------------------------
  // Place markers
  // ---------------------------------------------------------------------------

  /** The marker colours of the full map's `typeColors`, keyed by the
      `type` string. */
  const PlaceColors: map<string, string> := map[
    "airport" := "#ff6a6a", "hotel" := "#4ecdc4", "attraction" := "#ffe66d",
    "transport" := "#9b59b6", "restaurant" := "#e74c3c"]

  /** `typeColors[loc.type] || '#fff'`: every kind has an entry, so the
      white fallback is never used. */
  function PlaceColor(kind: LocationType): (c: string)
    ensures TypeName(kind) in PlaceColors && c == PlaceColors[TypeName(kind)]
    ensures c != "#fff"
  {
    var key := TypeName(kind);
    if key in PlaceColors then PlaceColors[key] else "#fff"
  }

  /** The five kinds get five different marker colours. */
  lemma PlaceColorsDistinct(a: LocationType, b: LocationType)
    ensures PlaceColor(a) == PlaceColor(b) <==> a == b
  {
  }

  /** What `drawLocation` draws for one place: a dot of radius 7 in the
      kind's colour, a pulse ring, and, when hovered, a glow of radius 25 and
      the place's name 22 pixels below the dot. */
  datatype PlaceMarker = PlaceMarker(at: Point, color: string, radius: real, pulse: real, glow: bool, caption: Option<(string, Point)>)

  /** The marker of `loc` at canvas point `at`; `wave` is the value of
      `Math.sin(Date.now() / 300)` for the frame, which lies in [-1, 1]. */
  function PlaceMarkerFor(loc: TaggedLocation, at: Point, hovered: Option<string>, wave: real): (m: PlaceMarker)
    requires -1.0 <= wave <= 1.0
    ensures m.at == at && m.color == PlaceColor(loc.loc.kind) && m.radius == 7.0
    ensures 7.0 <= m.pulse <= 13.0
    ensures m.glow <==> hovered == Some(loc.Name())
    ensures m.caption.Some? <==> m.glow
    ensures m.caption.Some? ==> m.caption.value == (loc.Name(), Point(at.x, at.y + 22.0))
  {
    var isHovered := hovered == Some(loc.Name());
    PlaceMarker(at, PlaceColor(loc.loc.kind), 7.0, 10.0 + wave * 3.0, isHovered,
                if isHovered then Some((loc.Name(), Point(at.x, at.y + 22.0))) else None)
  }

  /** The markers of one frame: every place of `allLocations` at its canvas
      position, in list order. */
  function FrameMarkers(locs: seq<TaggedLocation>, width: nat, height: nat, hovered: Option<string>, wave: real): (ms: seq<PlaceMarker>)
    requires -1.0 <= wave <= 1.0
    ensures |ms| == |locs|
    ensures forall i :: 0 <= i < |locs| ==>
      ms[i] == PlaceMarkerFor(locs[i], LatLngToCanvas(locs[i].loc.lat, locs[i].loc.lng, width, height), hovered, wave)
  {
    seq(|locs|, i requires 0 <= i < |locs| =>
      PlaceMarkerFor(locs[i], LatLngToCanvas(locs[i].loc.lat, locs[i].loc.lng, width, height), hovered, wave))
  }

  /** The glowing markers of a frame are exactly the places whose marker the
      hover hit-test can have reported: those named like the hovered place. */
  lemma GlowingMarkers(locs: seq<TaggedLocation>, width: nat, height: nat, hovered: Option<string>, wave: real, i: nat)
    requires -1.0 <= wave <= 1.0 && i < |locs|
    ensures FrameMarkers(locs, width, height, hovered, wave)[i].glow <==> hovered.Some? && locs[i].Name() == hovered.value
  {
  }

  /** A route is drawn in the marker colour of the end that decides its
      colour: an airport's red, else a transport place's purple, else the
      hotel teal. */
  lemma RouteColorsAreMarkerColors(from: Location, to: Location)
    ensures from.kind == Airport || to.kind == Airport ==> Hex(LegColor(from, to)) == PlaceColor(Airport)
    ensures from.kind != Airport && to.kind != Airport && (from.kind == Transport || to.kind == Transport) ==>
      Hex(LegColor(from, to)) == PlaceColor(Transport)
    ensures from.kind !in {Airport, Transport} && to.kind !in {Airport, Transport} ==>
      Hex(LegColor(from, to)) == PlaceColor(Hotel)
  {
  }

  // ---------------------------------------------------------------------------
  // Hit-tests
  // ---------------------------------------------------------------------------

  /** Whether the pointer is over a place's marker. */
  predicate OverMarker(l: TaggedLocation, pointer: Point, width: nat, height: nat)
  {
    WithinHitRadius(pointer, LatLngToCanvas(l.loc.lat, l.loc.lng, width, height))
  }

  /** `handleMouseMove`: the first place in list order whose marker is under
      the pointer, or nothing. */
  method Hover(locs: seq<TaggedLocation>, pointer: Point, width: nat, height: nat) returns (hovered: Option<string>)
    ensures hovered.None? <==> forall j :: 0 <= j < |locs| ==> !OverMarker(locs[j], pointer, width, height)
    ensures hovered.Some? ==> exists j ::
      && 0 <= j < |locs|
      && OverMarker(locs[j], pointer, width, height)
      && locs[j].Name() == hovered.value
      && forall i :: 0 <= i < j ==> !OverMarker(locs[i], pointer, width, height)
  {
    var j := 0;
    while j < |locs|
      invariant 0 <= j <= |locs|
      invariant forall i :: 0 <= i < j ==> !OverMarker(locs[i], pointer, width, height)
    {
      if OverMarker(locs[j], pointer, width, height) {
        return Some(locs[j].Name());
      }
      j := j + 1;
    }
    return None;
  }

  /** `handleClick`: selects the first place under the pointer that has
      attraction details; when there is none the selection stays as it was. */
  method Click(locs: seq<TaggedLocation>, pointer: Point, width: nat, height: nat, details: map<string, string>, selected: Option<string>)
    returns (selected': Option<string>)
    ensures (forall j :: 0 <= j < |locs| ==> !(OverMarker(locs[j], pointer, width, height) && locs[j].Name() in details))
      ==> selected' == selected
    ensures selected' != selected ==> exists j ::
      && 0 <= j < |locs|
      && OverMarker(locs[j], pointer, width, height)
      && locs[j].Name() in details
      && selected' == Some(locs[j].Name())
      && forall i :: 0 <= i < j ==> !(OverMarker(locs[i], pointer, width, height) && locs[i].Name() in details)
    ensures forall j :: 0 <= j < |locs| ==>
      (OverMarker(locs[j], pointer, width, height) && locs[j].Name() in details &&
       (forall i :: 0 <= i < j ==> !(OverMarker(locs[i], pointer, width, height) && locs[i].Name() in details)))
      ==> selected' == Some(locs[j].Name())
    ensures selected'.Some? && selected'.value !in details ==> selected' == selected
  {
    var j := 0;
    while j < |locs|
      invariant 0 <= j <= |locs|
      invariant forall i :: 0 <= i < j ==> !(OverMarker(locs[i], pointer, width, height) && locs[i].Name() in details)
    {
      if OverMarker(locs[j], pointer, width, height) && locs[j].Name() in details {
        return Some(locs[j].Name());
      }
      j := j + 1;
    }
    return selected;
  }
}
