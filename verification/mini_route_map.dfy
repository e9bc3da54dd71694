/** The small per-day route map (`src/components/MiniRouteMap.tsx`): the
    padded projection of a day's places onto the canvas, the light that runs
    along the legs, the arc of each leg, the markers and their labels, the
    hover tooltip, and the pointer events. Canvas drawing itself is left out. */
module MiniRouteMap {
  import opened Common
  import opened TripData

  // ---------------------------------------------------------------------------
  // Bounds and projection
  // ---------------------------------------------------------------------------

  /** Horizontal and vertical padding kept free around the route. */
  const PaddingX: real := 70.0
  const PaddingY: real := 60.0

  /** `Math.min(...xs)`. */
  function MinOf(xs: seq<real>): (m: real)
    requires |xs| > 0
    ensures m in xs
    ensures forall i :: 0 <= i < |xs| ==> m <= xs[i]
  {
    if |xs| == 1 then xs[0] else Min(xs[0], MinOf(xs[1..]))
  }

  /** `Math.max(...xs)`. */
  function MaxOf(xs: seq<real>): (m: real)
    requires |xs| > 0
    ensures m in xs
    ensures forall i :: 0 <= i < |xs| ==> xs[i] <= m
  {
    if |xs| == 1 then xs[0] else Max(xs[0], MaxOf(xs[1..]))
  }

  function Lats(locs: seq<Location>): (r: seq<real>)
    ensures |r| == |locs| && forall i :: 0 <= i < |locs| ==> r[i] == locs[i].lat
  {
    seq(|locs|, i requires 0 <= i < |locs| => locs[i].lat)
  }

  function Lngs(locs: seq<Location>): (r: seq<real>)
    ensures |r| == |locs| && forall i :: 0 <= i < |locs| ==> r[i] == locs[i].lng
  {
    seq(|locs|, i requires 0 <= i < |locs| => locs[i].lng)
  }

  /** The extent of a non-empty list of values, max minus min. */
  function Spread(xs: seq<real>): real
    requires |xs| > 0
  {
    MaxOf(xs) - MinOf(xs)
  }

  /** `(max - min) * 0.15 || 0.01`: 15% of the extent, or 0.01 when that is
      zero (all places on one line). Never zero for a real extent. */
  function Margin(span: real): (m: real)
    ensures 0.0 < span ==> m == 0.15 * span
    ensures span == 0.0 ==> m == 0.01
    ensures 0.0 <= span ==> 0.0 < m
  {
    var m := span * 0.15;
    if m == 0.0 then 0.01 else m
  }

  /** `value || 1`. */
  function OrOne(v: real): real
  {
    if v == 0.0 then 1.0 else v
  }

  /** The margin-widened bounds of a day's places, the ranges the projection
      divides by, and the canvas size. */
  datatype Projection = Projection(
    minLat: real, maxLat: real, minLng: real, maxLng: real,
    latRange: real, lngRange: real,
    width: nat, height: nat)

  /** A projection whose ranges can be divided by. */
  predicate Proper(p: Projection)
  {
    0.0 < p.latRange && 0.0 < p.lngRange
  }

  /** The bounds both `draw` and `handleMouseMove` compute from the day's
      places. The `|| 1` fallback of the ranges never applies: the ranges are
      the widened extents, 1.3 times the extent or 0.02 for a flat one, and
      every place lies strictly inside the widened bounds. */
  function MakeProjection(locs: seq<Location>, width: nat, height: nat): (p: Projection)
    requires |locs| > 0
    ensures Proper(p)
    ensures p.minLat == MinOf(Lats(locs)) - Margin(Spread(Lats(locs)))
    ensures p.maxLat == MaxOf(Lats(locs)) + Margin(Spread(Lats(locs)))
    ensures p.minLng == MinOf(Lngs(locs)) - Margin(Spread(Lngs(locs)))
    ensures p.maxLng == MaxOf(Lngs(locs)) + Margin(Spread(Lngs(locs)))
    ensures p.latRange == p.maxLat - p.minLat && p.lngRange == p.maxLng - p.minLng
    ensures Spread(Lats(locs)) > 0.0 ==> p.latRange == 1.3 * Spread(Lats(locs))
    ensures Spread(Lats(locs)) == 0.0 ==> p.latRange == 0.02
    ensures Spread(Lngs(locs)) > 0.0 ==> p.lngRange == 1.3 * Spread(Lngs(locs))
    ensures Spread(Lngs(locs)) == 0.0 ==> p.lngRange == 0.02
    ensures forall i :: 0 <= i < |locs| ==>
      && p.minLat < locs[i].lat < p.maxLat
      && p.minLng < locs[i].lng < p.maxLng
    ensures p.width == width && p.height == height
  {
    var lats, lngs := Lats(locs), Lngs(locs);
    var latMargin := Margin(MaxOf(lats) - MinOf(lats));
    var lngMargin := Margin(MaxOf(lngs) - MinOf(lngs));
    var minLat, maxLat := MinOf(lats) - latMargin, MaxOf(lats) + latMargin;
    var minLng, maxLng := MinOf(lngs) - lngMargin, MaxOf(lngs) + lngMargin;
    Projection(minLat, maxLat, minLng, maxLng, OrOne(maxLat - minLat), OrOne(maxLng - minLng), width, height)
  }

  /** The position of a coordinate before clamping: longitude across the
      padded width, latitude up the padded height. */
  function RawScreenPos(p: Projection, lat: real, lng: real): Point
    requires Proper(p)
  {
    Point(
      PaddingX + ((lng - p.minLng) / p.lngRange) * (p.width as real - 2.0 * PaddingX),
      p.height as real - PaddingY - ((lat - p.minLat) / p.latRange) * (p.height as real - 2.0 * PaddingY))
  }

  /** `Math.max(lo, Math.min(hi, v))`. */
  function Clamp(lo: real, hi: real, v: real): (r: real)
    ensures lo <= r
    ensures lo <= hi ==> r <= hi
    ensures lo <= v <= hi ==> r == v
  {
    Max(lo, Min(hi, v))
  }

  /** Clamping keeps the order of values. */
  lemma ClampMonotone(lo: real, hi: real, a: real, b: real)
    requires a <= b
    ensures Clamp(lo, hi, a) <= Clamp(lo, hi, b)
  {
  }

  /** `getScreenPos`: the raw position clamped into the padded canvas. The
      clamp keeps every point at least the padding from the top-left edges,
      and from the bottom-right ones whenever the canvas is wide and tall
      enough to have a padded area. */
  function ScreenPos(p: Projection, lat: real, lng: real): (q: Point)
    requires Proper(p)
    ensures PaddingX <= q.x && PaddingY <= q.y
    ensures 2.0 * PaddingX <= p.width as real ==> q.x <= p.width as real - PaddingX
    ensures 2.0 * PaddingY <= p.height as real ==> q.y <= p.height as real - PaddingY
  {
    var raw := RawScreenPos(p, lat, lng);
    Point(Clamp(PaddingX, p.width as real - PaddingX, raw.x), Clamp(PaddingY, p.height as real - PaddingY, raw.y))
  }

  /** On a canvas with room for the padding, the clamp of `getScreenPos`
      never moves a place of the day: its raw position is already inside the
      padded area, so drawing and the unclamped hit-test agree. */
  lemma ClampIsNoOp(locs: seq<Location>, width: nat, height: nat, i: nat)
    requires 0 <= i < |locs|
    requires 2.0 * PaddingX <= width as real && 2.0 * PaddingY <= height as real
    ensures var p := MakeProjection(locs, width, height);
      var raw := RawScreenPos(p, locs[i].lat, locs[i].lng);
      && ScreenPos(p, locs[i].lat, locs[i].lng) == raw
      && PaddingX <= raw.x <= width as real - PaddingX
      && PaddingY <= raw.y <= height as real - PaddingY
  {
    var p := MakeProjection(locs, width, height);
    InsideBoundsNotClamped(p, locs[i].lat, locs[i].lng);
  }

  /** A coordinate strictly inside the bounds of a projection without the
      `|| 1` fallback projects into the padded area, where the clamp leaves
      it alone. */
  lemma InsideBoundsNotClamped(p: Projection, lat: real, lng: real)
    requires p.latRange == p.maxLat - p.minLat && p.lngRange == p.maxLng - p.minLng
    requires p.minLat < lat < p.maxLat && p.minLng < lng < p.maxLng
    requires 2.0 * PaddingX <= p.width as real && 2.0 * PaddingY <= p.height as real
    ensures Proper(p)
    ensures var raw := RawScreenPos(p, lat, lng);
      && ScreenPos(p, lat, lng) == raw
      && PaddingX <= raw.x <= p.width as real - PaddingX
      && PaddingY <= raw.y <= p.height as real - PaddingY
  {
    var fx := (lng - p.minLng) / p.lngRange;
    var fy := (lat - p.minLat) / p.latRange;
    DivWithin(lng - p.minLng, p.lngRange);
    DivWithin(lat - p.minLat, p.latRange);
    var ex, ey := p.width as real - 2.0 * PaddingX, p.height as real - 2.0 * PaddingY;
    ScaleWithin(fx, ex);
    ScaleWithin(fy, ey);
    var raw := RawScreenPos(p, lat, lng);
    assert raw.x == PaddingX + fx * ex;
    assert raw.y == p.height as real - PaddingY - fy * ey;
  }

  /** The projection keeps east to the right and north up: x grows with
      longitude and y shrinks as latitude grows, before and after the clamp. */
  lemma ScreenPosMonotone(p: Projection, lat1: real, lng1: real, lat2: real, lng2: real)
    requires Proper(p) && 2.0 * PaddingX <= p.width as real && 2.0 * PaddingY <= p.height as real
    ensures lng1 <= lng2 ==> ScreenPos(p, lat1, lng1).x <= ScreenPos(p, lat2, lng2).x
    ensures lat1 <= lat2 ==> ScreenPos(p, lat1, lng1).y >= ScreenPos(p, lat2, lng2).y
  {
    var w, h := p.width as real, p.height as real;
    var r1, r2 := RawScreenPos(p, lat1, lng1), RawScreenPos(p, lat2, lng2);
    if lng1 <= lng2 {
      FractionMonotone(lng1, lng2, p.minLng, p.lngRange, w - 2.0 * PaddingX);
      assert r1.x <= r2.x;
      ClampMonotone(PaddingX, w - PaddingX, r1.x, r2.x);
    }
    if lat1 <= lat2 {
      FractionMonotone(lat1, lat2, p.minLat, p.latRange, h - 2.0 * PaddingY);
      assert r2.y <= r1.y;
      ClampMonotone(PaddingY, h - PaddingY, r2.y, r1.y);
    }
  }

  /** Scaling a fraction of a positive range by a non-negative extent is
      monotone in the value measured. */
  lemma FractionMonotone(a: real, b: real, lo: real, range: real, e: real)
    requires a <= b && 0.0 < range && 0.0 <= e
    ensures ((a - lo) / range) * e <= ((b - lo) / range) * e
  {
    var q1, q2 := (a - lo) / range, (b - lo) / range;
    assert q1 * range == a - lo && q2 * range == b - lo;
    assert (q2 - q1) * range == b - a;
    assert q1 <= q2;
    MulNonneg(q2 - q1, e);
    assert q2 * e - q1 * e == (q2 - q1) * e;
  }

  // ---------------------------------------------------------------------------
  // Colours, arcs and labels
  // ---------------------------------------------------------------------------

  /** `typeColors`, keyed by the location kind's string. */
  const TypeColors: map<string, string> := map[
    "airport" := "#ff6a6a",
    "hotel" := "#4ecdc4",
    "attraction" := "#ffe66d",
    "transport" := "#a0a0a0",
    "restaurant" := "#ff9f43"]

  /** `typeColors[type] || '#ff6a6a'`. Every kind has an entry, so the
      fallback is never taken. */
  function KindColor(kind: LocationType): (c: string)
    ensures TypeName(kind) in TypeColors && c == TypeColors[TypeName(kind)]
  {
    var key := TypeName(kind);
    if key in TypeColors then TypeColors[key] else "#ff6a6a"
  }

  /** The five kinds get five different colours. */
  lemma KindColorsDistinct(a: LocationType, b: LocationType)
    ensures KindColor(a) == KindColor(b) <==> a == b
  {
  }

  /** The control point of a leg's arc: above the midpoint by a fifth of the
      leg's horizontal extent, so the arc bulges upward and is flat only for a
      vertical leg. */
  function ArcControl(start: Point, end: Point): (c: Point)
    ensures c.x == (start.x + end.x) / 2.0
    ensures c.y <= (start.y + end.y) / 2.0
    ensures c.y == (start.y + end.y) / 2.0 <==> start.x == end.x
    ensures (start.y + end.y) / 2.0 - c.y == 0.2 * (if end.x >= start.x then end.x - start.x else start.x - end.x)
  {
    var offset := (if end.x >= start.x then end.x - start.x else start.x - end.x) * 0.2;
    Point((start.x + end.x) / 2.0, (start.y + end.y) / 2.0 - offset)
  }

  /** A leg bends the same way whichever end it is drawn from. */
  lemma ArcControlSymmetric(a: Point, b: Point)
    ensures ArcControl(a, b) == ArcControl(b, a)
  {
  }

  /** `s.substring(0, n)` for a non-negative `n`. */
  function Truncate(s: string, n: nat): (r: string)
    ensures |r| == if |s| < n then |s| else n
    ensures r <= s
  {
    if |s| <= n then s else s[..n]
  }

  /** Truncating to a length the string already fits is a no-op, and
      truncating twice keeps the shorter cut. */
  lemma TruncateFacts(s: string, m: nat, n: nat)
    ensures |s| <= n ==> Truncate(s, n) == s
    ensures Truncate(Truncate(s, m), n) == Truncate(s, if m <= n then m else n)
  {
  }

  /** One leg as drawn: its arc and the colour of the place it leads to. */
  datatype Arc = Arc(start: Point, control: Point, end: Point, color: string)

  /** A place's marker: hovered markers are larger (radius 8, pulse 20, else
      6 and 12) and every marker is labelled with the first six characters of
      the name. */
  datatype Marker = Marker(at: Point, color: string, radius: nat, pulse: nat, caption: string)

  function MarkerFor(loc: Location, at: Point, hovered: Option<string>): (m: Marker)
    ensures m.at == at && m.color == KindColor(loc.kind)
    ensures m.radius == (if hovered == Some(loc.name) then 8 else 6)
    ensures m.pulse == (if hovered == Some(loc.name) then 20 else 12)
    ensures m.caption == Truncate(loc.name, 6)
  {
    var isHovered := hovered == Some(loc.name);
    Marker(at, KindColor(loc.kind), if isHovered then 8 else 6, if isHovered then 20 else 12, Truncate(loc.name, 6))
  }

  // ---------------------------------------------------------------------------
  // Animation
  // ---------------------------------------------------------------------------

  /** Progress gained per frame per unit of speed. */
  const ProgressPerFrame: real := 0.005

  /** The light's progress is a position along the legs: leg `k` is covered
      while the progress runs from `k` to `k + 1`. */
  predicate ValidProgress(progress: real, pointCount: nat)
  {
    0.0 <= progress < (pointCount - 1) as real
  }

  /** The progress step of `draw` (taken only for two or more places): while
      playing and on screen it grows by `0.005 * speed`, and it restarts at 0
      once it reaches the last place. */
  function Advance(progress: real, pointCount: nat, playing: bool, visible: bool, speed: real): (p': real)
    requires pointCount >= 2
    ensures !(playing && visible) ==> p' == progress
    ensures playing && visible && progress + ProgressPerFrame * speed < (pointCount - 1) as real ==>
      p' == progress + ProgressPerFrame * speed
    ensures playing && visible && progress + ProgressPerFrame * speed >= (pointCount - 1) as real ==> p' == 0.0
    ensures 0.0 <= speed ==> p' == 0.0 || progress <= p'
  {
    if playing && visible then
      var p := progress + ProgressPerFrame * speed;
      if p >= (pointCount - 1) as real then 0.0 else p
    else progress
  }

  /** The step keeps the progress on the route for any non-negative speed,
      which covers the 0.5 to 3 range of the speed slider. */
  lemma AdvanceKeepsValid(progress: real, pointCount: nat, playing: bool, visible: bool, speed: real)
    requires pointCount >= 2 && ValidProgress(progress, pointCount) && 0.0 <= speed
    ensures ValidProgress(Advance(progress, pointCount, playing, visible, speed), pointCount)
  {
  }

  /** The reset button puts the light back at the first place. */
  function ResetProgress(): (p: real)
    ensures forall n: nat :: n >= 2 ==> ValidProgress(p, n)
    ensures p == 0.0
  {
    0.0
  }

  /** Where the light is: the leg it is on, the leg's far end, and how far
      along the leg. */
  datatype SegmentPos = SegmentPos(current: int, next: int, t: real)

  /** `currentIndex`, `nextIndex` and `segmentProgress`. For a valid
      progress the light is on a leg between consecutive places, part way
      along it, and leg and fraction add up to the progress again. */
  function Segment(progress: real, pointCount: nat): (s: SegmentPos)
    requires pointCount >= 2
    ensures s.current as real + s.t == progress
    ensures 0.0 <= s.t < 1.0
    ensures ValidProgress(progress, pointCount) ==>
      0 <= s.current < pointCount - 1 && s.next == s.current + 1
  {
    var current := progress.Floor;
    SegmentPos(current, if current + 1 <= pointCount - 1 then current + 1 else pointCount - 1, progress - current as real)
  }

  // ---------------------------------------------------------------------------
  // Tooltip
  // ---------------------------------------------------------------------------

  const TooltipWidth: real := 180.0
  const TooltipHeight: real := 50.0

  /** The tooltip's left edge: centred over the marker, but at least 10 from
      the left edge and 10 from the right one, the right limit winning on a
      canvas too narrow for both. */
  function TooltipX(markerX: real, width: nat): (x: real)
    ensures x <= width as real - TooltipWidth - 10.0
    ensures width as real >= TooltipWidth + 20.0 ==> 10.0 <= x
    ensures 10.0 <= markerX - TooltipWidth / 2.0 <= width as real - TooltipWidth - 10.0 ==> x == markerX - TooltipWidth / 2.0
    ensures markerX - TooltipWidth / 2.0 < 10.0 && width as real >= TooltipWidth + 20.0 ==> x == 10.0
    ensures markerX - TooltipWidth / 2.0 > width as real - TooltipWidth - 10.0 ==> x == width as real - TooltipWidth - 10.0
  {
    Min(Max(markerX - TooltipWidth / 2.0, 10.0), width as real - TooltipWidth - 10.0)
  }

  /** On a canvas wide enough for both margins the tooltip is the marker's
      centred position clamped to [10, width - 190], so it never moves left
      when the marker moves right. */
  lemma TooltipXMonotone(a: real, b: real, width: nat)
    requires width as real >= TooltipWidth + 20.0
    ensures TooltipX(a, width) == Clamp(10.0, width as real - TooltipWidth - 10.0, a - TooltipWidth / 2.0)
    ensures a <= b ==> TooltipX(a, width) <= TooltipX(b, width)
  {
  }

  /** What the tooltip shows: where, the place's name cut to 12 characters,
      and its description cut to 30 characters followed by an ellipsis. */
  datatype Tooltip = Tooltip(x: real, y: real, title: string, text: string)

  /** `locations.findIndex(l => l.name === name)`. */
  function IndexOfName(locs: seq<Location>, name: string): (r: Option<nat>)
    ensures r.None? <==> forall j :: 0 <= j < |locs| ==> locs[j].name != name
    ensures r.Some? ==> r.value < |locs| && locs[r.value].name == name
    ensures r.Some? ==> forall j :: 0 <= j < r.value ==> locs[j].name != name
  {
    if |locs| == 0 then None
    else if locs[0].name == name then Some(0)
    else match IndexOfName(locs[1..], name)
      case None => None
      case Some(j) => Some(j + 1)
  }

  /** The tooltip of a frame: shown only for a non-empty hovered name that is
      one of the day's places and has attraction details; placed above the
      first place with that name. */
  function TooltipFor(locs: seq<Location>, points: seq<Point>, hovered: Option<string>, details: map<string, string>, width: nat)
    : (t: Option<Tooltip>)
    requires |points| == |locs|
    ensures t.Some? <==>
      && hovered.Some? && hovered.value != ""
      && (exists j :: 0 <= j < |locs| && locs[j].name == hovered.value)
      && hovered.value in details
    ensures t.Some? ==>
      var j := IndexOfName(locs, hovered.value).value;
      && t.value.x == TooltipX(points[j].x, width)
      && t.value.y == points[j].y - TooltipHeight - 15.0
      && t.value.title == Truncate(hovered.value, 12)
      && t.value.text == Truncate(details[hovered.value], 30) + "..."
  {
    match hovered
    case None => None
    case Some(name) =>
      if name == "" then None
      else match IndexOfName(locs, name)
        case None => None
        case Some(j) =>
          if name in details then
            var point := points[j];
            Some(Tooltip(TooltipX(point.x, width), point.y - TooltipHeight - 15.0,
                         Truncate(name, 12), Truncate(details[name], 30) + "..."))
          else None
  }

  // ---------------------------------------------------------------------------
  // One frame
  // ---------------------------------------------------------------------------

  /** The moving light: the leg it is on, how far along, where it is drawn,
      and the colour and name of the place it is heading to. */
  datatype Light = Light(segment: nat, t: real, at: Point, color: string, caption: string)

  /** Everything one frame draws over the background grid. */
  datatype Scene = Scene(points: seq<Point>, arcs: seq<Arc>, light: Option<Light>, markers: seq<Marker>, tooltip: Option<Tooltip>)

  /** The result of one call of `draw`: the progress after the step and what
      was drawn, nothing beyond the background for fewer than two places. */
  datatype Frame = Frame(progress: real, scene: Option<Scene>)

  /** The light of a frame. A negative progress, which no sequence of steps
      produces, would index before the first place and is drawn as no light. */
  function LightAt(locs: seq<Location>, points: seq<Point>, progress: real): (l: Option<Light>)
    requires |locs| >= 2 && |points| == |locs|
    ensures ValidProgress(progress, |locs|) ==>
      && l.Some?
      && l.value.segment + 1 < |locs|
      && l.value.segment as real <= progress < l.value.segment as real + 1.0
      && l.value.t == progress - l.value.segment as real
      && l.value.caption == locs[l.value.segment + 1].name
      && l.value.color == KindColor(locs[l.value.segment + 1].kind)
      && l.value.at == Bezier(points[l.value.segment], ArcControl(points[l.value.segment], points[l.value.segment + 1]),
                              points[l.value.segment + 1], l.value.t)
  {
    var seg := Segment(progress, |locs|);
    if 0 <= seg.current < |locs| - 1 then
      var start, end := points[seg.current], points[seg.next];
      var heading := locs[seg.next];
      Some(Light(seg.current, seg.t, Bezier(start, ArcControl(start, end), end, seg.t), KindColor(heading.kind), heading.name))
    else None
  }

  /** `points`: every place of the day through `getScreenPos`. On a canvas
      with room for the padding they all lie inside the padded area. */
  function ScreenPoints(locs: seq<Location>, width: nat, height: nat): (points: seq<Point>)
    requires |locs| > 0
    ensures |points| == |locs|
    ensures forall i :: 0 <= i < |locs| ==> points[i] == ScreenPos(MakeProjection(locs, width, height), locs[i].lat, locs[i].lng)
    ensures 2.0 * PaddingX <= width as real && 2.0 * PaddingY <= height as real ==>
      forall i :: 0 <= i < |locs| ==>
        && PaddingX <= points[i].x <= width as real - PaddingX
        && PaddingY <= points[i].y <= height as real - PaddingY
  {
    var p := MakeProjection(locs, width, height);
    seq(|locs|, i requires 0 <= i < |locs| => ScreenPos(p, locs[i].lat, locs[i].lng))
  }

  /** The legs' arcs, each coloured by the place it leads to. */
  function Arcs(locs: seq<Location>, points: seq<Point>): (arcs: seq<Arc>)
    requires |locs| >= 2 && |points| == |locs|
    ensures |arcs| == |locs| - 1
    ensures forall i :: 0 <= i < |locs| - 1 ==>
      && arcs[i].start == points[i] && arcs[i].end == points[i + 1]
      && arcs[i].control == ArcControl(points[i], points[i + 1])
      && arcs[i].color == KindColor(locs[i + 1].kind)
  {
    seq(|locs| - 1, i requires 0 <= i < |locs| - 1 =>
      Arc(points[i], ArcControl(points[i], points[i + 1]), points[i + 1], KindColor(locs[i + 1].kind)))
  }

  function Markers(locs: seq<Location>, points: seq<Point>, hovered: Option<string>): (markers: seq<Marker>)
    requires |points| == |locs|
    ensures |markers| == |locs|
    ensures forall i :: 0 <= i < |locs| ==> markers[i] == MarkerFor(locs[i], points[i], hovered)
  {
    seq(|locs|, i requires 0 <= i < |locs| => MarkerFor(locs[i], points[i], hovered))
  }

  /** One call of `draw` for the day's places, given the progress before it. */
  function DrawFrame(locs: seq<Location>, width: nat, height: nat, progress: real,
                     playing: bool, visible: bool, speed: real,
                     hovered: Option<string>, details: map<string, string>): (f: Frame)
    ensures |locs| < 2 ==> f == Frame(progress, None)
    ensures |locs| >= 2 ==>
      && f.scene.Some?
      && |f.scene.value.points| == |locs|
      && |f.scene.value.markers| == |locs|
      && |f.scene.value.arcs| == |locs| - 1
      && f.progress == Advance(progress, |locs|, playing, visible, speed)
      && f.scene.value.points == ScreenPoints(locs, width, height)
      && f.scene.value.light == LightAt(locs, f.scene.value.points, f.progress)
      && f.scene.value.tooltip == TooltipFor(locs, f.scene.value.points, hovered, details, width)
    ensures |locs| >= 2 ==> forall i :: 0 <= i < |locs| - 1 ==>
      var s := f.scene.value;
      && s.arcs[i].start == s.points[i] && s.arcs[i].end == s.points[i + 1]
      && s.arcs[i].control == ArcControl(s.points[i], s.points[i + 1])
      && s.arcs[i].color == KindColor(locs[i + 1].kind)
    ensures |locs| >= 2 ==> forall i :: 0 <= i < |locs| ==>
      f.scene.value.markers[i] == MarkerFor(locs[i], f.scene.value.points[i], hovered)
    ensures |locs| >= 2 && ValidProgress(progress, |locs|) && 0.0 <= speed ==>
      && ValidProgress(f.progress, |locs|)
      && f.scene.value.light.Some?
      && f.scene.value.light.value.segment + 1 < |locs|
    ensures |locs| >= 2 && 2.0 * PaddingX <= width as real && 2.0 * PaddingY <= height as real ==>
      forall i :: 0 <= i < |locs| ==>
        && PaddingX <= f.scene.value.points[i].x <= width as real - PaddingX
        && PaddingY <= f.scene.value.points[i].y <= height as real - PaddingY
  {
    if |locs| < 2 then Frame(progress, None)
    else
      var points := ScreenPoints(locs, width, height);
      var arcs := Arcs(locs, points);
      var progress' := Advance(progress, |locs|, playing, visible, speed);
      assert ValidProgress(progress, |locs|) && 0.0 <= speed ==> ValidProgress(progress', |locs|) by {
        if ValidProgress(progress, |locs|) && 0.0 <= speed {
          AdvanceKeepsValid(progress, |locs|, playing, visible, speed);
        }
      }
      var markers := Markers(locs, points, hovered);
      var scene := Scene(points, arcs, LightAt(locs, points, progress'), markers, TooltipFor(locs, points, hovered, details, width));
      Frame(progress', Some(scene))
  }

  // ---------------------------------------------------------------------------
  // Pointer events
  // ---------------------------------------------------------------------------

  /** Whether the pointer is over the unclamped position of a place under
      projection `p`, the position `handleMouseMove` tests against. */
  predicate Hits(p: Projection, loc: Location, pointer: Point)
    requires Proper(p)
  {
    WithinHitRadius(pointer, RawScreenPos(p, loc.lat, loc.lng))
  }

  /** On a canvas with room for the padding, the hover hit-test of a place
      tests the pointer against the very point `draw` put its marker on. */
  lemma HitTestsDrawnPoint(locs: seq<Location>, width: nat, height: nat, pointer: Point, i: nat)
    requires i < |locs|
    requires 2.0 * PaddingX <= width as real && 2.0 * PaddingY <= height as real
    ensures Hits(MakeProjection(locs, width, height), locs[i], pointer) <==>
      WithinHitRadius(pointer, ScreenPoints(locs, width, height)[i])
  {
    ClampIsNoOp(locs, width, height, i);
  }

  /** The scan of `handleMouseMove`: every place is tested and each hit
      overwrites the previous one, so the result is the name of the LAST
      place hit, or nothing. */
  method LastHit(locs: seq<Location>, p: Projection, pointer: Point) returns (hovered: Option<string>)
    requires Proper(p)
    ensures hovered.None? <==> forall j :: 0 <= j < |locs| ==> !Hits(p, locs[j], pointer)
    ensures hovered.Some? ==> exists j ::
      && 0 <= j < |locs|
      && Hits(p, locs[j], pointer)
      && locs[j].name == hovered.value
      && forall i :: j < i < |locs| ==> !Hits(p, locs[i], pointer)
  {
    hovered := None;
    ghost var last: nat := 0;
    var j := 0;
    while j < |locs|
      invariant 0 <= j <= |locs|
      invariant hovered.None? <==> forall i :: 0 <= i < j ==> !Hits(p, locs[i], pointer)
      invariant hovered.Some? ==>
        && last < j
        && Hits(p, locs[last], pointer)
        && locs[last].name == hovered.value
        && forall i :: last < i < j ==> !Hits(p, locs[i], pointer)
    {
      if Hits(p, locs[j], pointer) {
        hovered := Some(locs[j].name);
        last := j;
      }
      j := j + 1;
    }
  }

  /** `handleMouseMove`: the hovered place is the LAST one in the list whose
      marker is under the pointer, or nothing; an empty list hits nothing. */
  method Hover(locs: seq<Location>, pointer: Point, width: nat, height: nat) returns (hovered: Option<string>)
    ensures |locs| == 0 ==> hovered.None?
    ensures |locs| > 0 ==> var p := MakeProjection(locs, width, height);
      && (hovered.None? <==> forall j :: 0 <= j < |locs| ==> !Hits(p, locs[j], pointer))
      && (hovered.Some? ==> exists j ::
        && 0 <= j < |locs|
        && Hits(p, locs[j], pointer)
        && locs[j].name == hovered.value
        && forall i :: j < i < |locs| ==> !Hits(p, locs[i], pointer))
  {
    if |locs| == 0 {
      return None;
    }
    hovered := LastHit(locs, MakeProjection(locs, width, height), pointer);
  }

  /** `handleClick`: reports the hovered name, unless there is none or it is
      empty. */
  function Click(hovered: Option<string>): (reported: Option<string>)
    ensures reported.Some? <==> hovered.Some? && hovered.value != ""
    ensures reported.Some? ==> reported == hovered
  {
    match hovered
    case Some(name) => if name != "" then Some(name) else None
    case None => None
  }

  /** Leaving the canvas clears the hover, so no tooltip is drawn and a click
      reports nothing until the pointer comes back. */
  function MouseLeave(hovered: Option<string>): (h: Option<string>)
    ensures h.None?
    ensures forall locs: seq<Location>, points: seq<Point>, details: map<string, string>, width: nat ::
      |points| == |locs| ==> TooltipFor(locs, points, h, details, width).None?
    ensures Click(h).None?
  {
    None
  }
}
