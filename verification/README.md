# Bali and Hong Kong trip site: a Dafny model of its route maps and day rules

The site presents a six-day trip (Shanghai, Hong Kong, Bali) as a single
page. Apart from markup and animation it contains a few self-contained rules.
This project models them as pure Dafny functions over immutable datatypes
and proves properties about them:

- **Trip data** (`TripData`, `Trip`). The `Location`, `Activity` and
  `DayData` records, and the `allLocations` list, which tags every location
  with its day. `Trip` holds the six days of the trip as constants: names,
  coordinates, kinds, activity icons and linked place names. It also holds
  the key sets of `attractionDetails` and `hotelData`.
- **Full trip map** (`FullMap`).
  - `generateRoutes` and its colour precedence.
  - The three-region `latLngToCanvas` projection.
  - The per-frame progress/route-index step, and which routes a frame
    strokes and how far.
  - The sampled Bezier trail of a route.
  - The hover and click hit-tests, which take the first match.
  - The reset button.
- **Per-day mini map** (`MiniRouteMap`).
  - The padded bounding-box projection with its margin fallback and clamp.
  - The multi-leg progress step and its segment index.
  - The arc control point, the marker colours, sizes and labels, and the
    tooltip placement and truncation.
  - One whole `draw` call.
  - The hover hit-test, which takes the last match, plus click and
    mouse-leave.
- **Day sections** (`DaySection`).
  - The activity-icon colour rule and the click gating of activities.
  - The `dayAttractions` filter and the null-render guards of the attraction
    and hotel cards.
  - The scrollable-list rule and one section per day.
- **Day accordion** (`DayDetail`). The single-open toggle, its initial
  state, the `maxHeight` rule and its own icon colour rule.
- **Shared pieces** (`Common`, `Icons`). The quadratic Bezier curve both maps
  use, the squared-distance hit radius, a generic `flatMap`, and the icon
  groups both colour rules test.

Coordinates, progress values and canvas positions are Dafny `real`s. This is
an idealisation of JavaScript doubles: no rounding, no NaN, no infinities.
Canvas sizes are `nat`s. `Math.sqrt(d) < 15` is modelled as the equivalent
`d < 225`. Attraction details are a `map<string, string>` from place name to
description. `hotelData` is represented by its key set. The play/pause flag,
visibility, speed, pointer position and canvas size are parameters.

## Model

| member | source | states |
|---|---|---|
| Common.Bezier | src/components/sections/FullMap.tsx:247-249 | the curve point is the start at t = 0 and the end at t = 1; for t in [0, 1] each coordinate stays between the least and greatest of start, control and end |
| TripData.ParseLocationType | src/data/tripData.ts:28 | a `type` string is accepted exactly when it is one of airport, hotel, attraction, restaurant, transport |
| TripData.TypeNameRoundTrip | src/data/tripData.ts:28 | the union's strings and the five kinds correspond one to one: printing then reading a kind gives it back, and a string that reads as a kind is that kind's string |
| TripData.TagDay | src/data/tripData.ts:426 | a day's tagged list has one entry per location, entry i being location i unchanged with the day's number added |
| TripData.AllLocationsCount | src/data/tripData.ts:425-427 | `allLocations`, modelled by TripData.AllLocations, has exactly one entry per location of every day |
| TripData.AllLocationsAt | src/data/tripData.ts:425-427 | location i of day k sits at position (locations of earlier days) + i of `allLocations`, unchanged and tagged with day k's number, so day order and within-day order are kept |
| TripData.AllLocationsSource | src/data/tripData.ts:425-427 | conversely, every entry of `allLocations` is some day's location at the position above, tagged with that day's number |
| Trip.DaysNumberedInOrder | src/data/tripData.ts:210-395 | the trip has six days, and the day at array index i is numbered i + 1 |
| Trip.HotelDetailsCoverDaysOneToFive | src/data/tripData.ts:177-208 | `hotelData` has entries for days 1 to 5, each of which declares a hotel; day 6 declares a hotel but has no entry |
| Trip.TripLocationCount | src/data/tripData.ts:210-395 | the six days declare 35 locations in all, so `allLocations` has 35 entries |
| Trip.AttractionsHaveDetails | src/data/tripData.ts:34-175 | every attraction of the six days has an `attractionDetails` entry |
| Trip.LinkedPlacesHaveDetails | src/data/tripData.ts:210-395 | every place an activity links to has an `attractionDetails` entry |
| Icons.GroupsDisjoint | src/components/sections/DaySection.tsx:25-32 | no icon is in two colour groups, so the first-match chain equals plain group membership |
| DaySection.ActivityColor | src/components/sections/DaySection.tsx:25-32 | for each of the six gradients: the icon gets it exactly when it is in that group (flights blue, ground and water transport green, hotel purple, meal orange, sightseeing pink), and grey exactly when it is in none |
| DaySection.ActivityClickTarget | src/components/sections/DaySection.tsx:37-46 | an activity calls back exactly when it has a non-empty linked place name with details, and it passes exactly that name |
| DaySection.DayAttractions | src/components/sections/DaySection.tsx:164-166 | the filter never grows the list and keeps only places of the day that are attractions with details |
| DaySection.DayAttractionsAppend | src/components/sections/DaySection.tsx:164-166 | filtering two concatenated routes is the concatenation of the two filtered routes |
| DaySection.KeptPositions | src/components/sections/DaySection.tsx:164-166 | one position per kept attraction, each a position of the day's route |
| DaySection.KeptPositionsSelect | src/components/sections/DaySection.tsx:164-166 | entry j of `dayAttractions` is the day's location at kept position j |
| DaySection.KeptPositionsIncreasing | src/components/sections/DaySection.tsx:164-166 | the kept positions strictly increase, so route order is kept |
| DaySection.KeptPositionsComplete | src/components/sections/DaySection.tsx:164-166 | the position of every attraction with details is kept |
| DaySection.DayAttractionsSubsequence | src/components/sections/DaySection.tsx:164-166 | the filter is an order-preserving subsequence: kept positions strictly increase, each kept entry is the location at its position, and every detailed attraction's position is kept |
| DaySection.AttractionCard | src/components/sections/DaySection.tsx:66-68 | the card renders nothing exactly when the name has no details, and otherwise shows the name and its description |
| DaySection.GalleryCards | src/components/sections/DaySection.tsx:274-300 | the gallery maps the day's attractions to `AttractionCard`s and keeps only the cards that render, so it never has more cards than attractions |
| DaySection.GalleryComplete | src/components/sections/DaySection.tsx:274-300 | the gallery built from `dayAttractions` has one card per attraction, in order, each with the attraction's description: no card in it renders nothing |
| DaySection.RenderDay | src/components/sections/DaySection.tsx:238-300 | the list scrolls exactly when there are more than 5 activities; each activity's click target follows the gating rule; the hotel heading shows exactly when the day has a hotel; the hotel card (DaySection.HotelCardShown) shows exactly when, in addition, `hotelData` has the day; gallery card j shows `dayAttractions` entry j's name and description |
| DaySection.DaySections | src/components/sections/DaySection.tsx:356-364 | one section per day, section i being day i's |
| DaySection.LastDayHotelCardEmpty | src/components/sections/DaySection.tsx:98-100 | on day 6 of the trip the hotel heading shows but the hotel card renders nothing |
| DayDetail.Toggle | src/components/sections/DayDetail.tsx:186-188 | with `isOpen` modelled by DayDetail.IsOpen: after toggling, the toggled day is open exactly when it was closed before, and no other day is open |
| DayDetail.AtMostOneOpen | src/components/sections/DayDetail.tsx:212 | two open days are the same day |
| DayDetail.InitialOpensDayOne | src/components/sections/DayDetail.tsx:145 | on first render exactly day 1 is open |
| DayDetail.ToggleTwice | src/components/sections/DayDetail.tsx:187 | toggling a day twice restores the state exactly when nothing or that day was open; if another day was open, everything ends up closed |
| DayDetail.MaxHeight | src/components/sections/DayDetail.tsx:85 | a closed panel has max height 0 and an open one its measured content height |
| DayDetail.ActivityColor | src/components/sections/DayDetail.tsx:27-34 | for each of the six badge classes: the icon gets it exactly when it is in the corresponding group |
| DayDetail.SameIconPartition | src/components/sections/DayDetail.tsx:27-34 | two icons share an accordion colour exactly when they share a day-section colour |
| FullMap.LegColor | src/components/sections/FullMap.tsx:66-73 | red exactly when either end is an airport; purple exactly when neither is an airport and one is transport; teal exactly when neither end is either |
| FullMap.Legs | src/components/sections/FullMap.tsx:63-79 | n places give max(0, n − 1) legs, leg i running from place i to place i + 1 with their colour and the day |
| FullMap.GenerateRoutesCount | src/components/sections/FullMap.tsx:58-83 | `generateRoutes`, modelled by FullMap.GenerateRoutes, emits Σ max(0, n − 1) routes |
| FullMap.GenerateRoutesAt | src/components/sections/FullMap.tsx:61-82 | the leg from place i to place i + 1 of day k is route (legs of earlier days) + i, with its ends' colour and day k's number: day order first, then position order |
| FullMap.GenerateRoutesSource | src/components/sections/FullMap.tsx:61-82 | conversely, every route is the leg between two consecutive places of some day, carrying that day's number |
| FullMap.TripRouteCount | src/components/sections/FullMap.tsx:58-83 | the trip has 29 routes |
| FullMap.LatLngToCanvas | src/components/sections/FullMap.tsx:15-55 | a coordinate inside one of the three regional boxes is dispatched to that region and lands inside the region's pixel rectangle (Bali: x in [0.35w, 0.80w], y in [0.45h, 0.95h]) |
| FullMap.BoxDeterminesRegion | src/components/sections/FullMap.tsx:36-52 | the dispatch FullMap.RegionOf, by the sign of the latitude and the 120° longitude split, sends every coordinate inside a region's box to that region |
| FullMap.ProjectionMonotone | src/components/sections/FullMap.tsx:37-52 | within a region, x grows with longitude and y shrinks as latitude grows |
| FullMap.PixelRectsDisjoint | src/components/sections/FullMap.tsx:37-52 | on a non-empty canvas no point lies in two regions' pixel rectangles |
| FullMap.TripPlacesInTheirBoxes | src/components/sections/FullMap.tsx:16-33 | every place of the trip lies inside the box of the region it is dispatched to |
| FullMap.Advance | src/components/sections/FullMap.tsx:321-327 | paused or off-screen: nothing changes; otherwise progress grows by exactly speed·0.003 while the sum stays below 1, and at 1 or more it restarts at 0 on route (index + 1) mod routes; a route change always restarts progress at 0 |
| FullMap.AdvanceKeepsValid | src/components/sections/FullMap.tsx:321-327 | with at least one route and speed ≥ 0, the step keeps 0 ≤ progress < 1 and 0 ≤ index < routes |
| FullMap.Reset | src/components/sections/FullMap.tsx:430-433 | the reset button leaves progress 0 and index 0, a valid state for any non-empty route list |
| FullMap.RouteFrameProgress | src/components/sections/FullMap.tsx:305-309 | a route is drawn exactly when its index is at most the current one: whole before it, at the current progress on it |
| FullMap.FindByNameFirst | src/components/sections/FullMap.tsx:297-298 | `find` returns the first place with the name, and nothing exactly when no place has it |
| FullMap.RouteStroke | src/components/sections/FullMap.tsx:300-309 | a drawn route's stroke carries its index and colour, runs from the canvas position of the first place named like its start to that of the first place named like its end, and is drawn as far as the frame draws that route |
| FullMap.StrokesFromStep | src/components/sections/FullMap.tsx:296-310 | when a route's ends are found, its stroke is emitted before the later routes' exactly when the frame has reached it |
| FullMap.StrokesFromLength | src/components/sections/FullMap.tsx:296-310 | when all ends are found, one stroke is emitted per route from the start index up to the current route |
| FullMap.StrokeAt | src/components/sections/FullMap.tsx:296-310 | when all ends are found, stroke j from the start index on is the stroke of route start + j: both its ends are found and it is reached, and it has that route's ends, colour and frame progress (whole before the current route, the light's progress on it) |
| FullMap.RouteEndsListed | src/components/sections/FullMap.tsx:297-300 | both ends of every generated route are found in `allLocations` |
| FullMap.StrokesFromShape | src/components/sections/FullMap.tsx:295-311 | when all ends are found, exactly the routes from the start index to the current one are stroked, in order, each with its route's canvas ends and colour, whole before the current one and at its progress on it |
| FullMap.FrameStrokesShape | src/components/sections/FullMap.tsx:295-311 | for the trip's routes a frame strokes routes 0 to the current index, earlier ones complete and the current one at the light's progress |
| FullMap.Trail | src/components/sections/FullMap.tsx:245-260 | nothing for progress ≤ 0; otherwise the start, the curve samples at i/20 for i up to ⌊20·progress⌋, and the light's point, so at most 22 points for progress in (0, 1], ending at the route's end at progress 1 |
| FullMap.PlaceColor | src/components/sections/FullMap.tsx:7-13 | every kind has an entry in the full map's `typeColors`, so the white fallback is never used |
| FullMap.PlaceColorsDistinct | src/components/sections/FullMap.tsx:7-13 | two kinds get the same marker colour only if they are the same kind |
| FullMap.PlaceMarkerFor | src/components/sections/FullMap.tsx:168-210 | a marker is a dot of radius 7 in its kind's colour with a pulse ring of radius between 7 and 13; it glows and shows its name 22 pixels below exactly when it is the hovered name |
| FullMap.FrameMarkers | src/components/sections/FullMap.tsx:313-318 | one marker per place of `allLocations`, in order, at the place's canvas position |
| FullMap.GlowingMarkers | src/components/sections/FullMap.tsx:313-318 | a frame's marker glows exactly when its place has the hovered name |
| FullMap.RouteColorsAreMarkerColors | src/components/sections/FullMap.tsx:66-73 | a route has the marker colour of its deciding end: airport red, else transport purple, else the hotel teal |
| FullMap.Hover | src/components/sections/FullMap.tsx:358-378 | nothing exactly when no marker is within radius 15; otherwise the name of the first place in list order within the radius |
| FullMap.Click | src/components/sections/FullMap.tsx:380-396 | selects the first place within radius 15 that has details, always when there is one; with no such place the selection is unchanged |
| MiniRouteMap.MinOf | src/components/MiniRouteMap.tsx:87-89 | the minimum is one of the values and no value is smaller |
| MiniRouteMap.MaxOf | src/components/MiniRouteMap.tsx:88-90 | the maximum is one of the values and no value is larger |
| MiniRouteMap.Margin | src/components/MiniRouteMap.tsx:93-94 | 15% of a positive extent, 0.01 for a zero extent, and positive for every non-negative extent |
| MiniRouteMap.MakeProjection | src/components/MiniRouteMap.tsx:85-102 | each bound is the places' minimum or maximum widened by the margin of their extent (min − margin, max + margin); the ranges are positive and equal the widened extents, so the fallback to a range of 1 never applies; a range is 1.3 times its extent, or 0.02 when flat; every place lies strictly inside the widened bounds |
| MiniRouteMap.Clamp | src/components/MiniRouteMap.tsx:108-111 | the result is at least the lower bound, at most the upper one when the bounds are ordered, and the value itself when it is already between them |
| MiniRouteMap.ClampMonotone | src/components/MiniRouteMap.tsx:108-111 | clamping between fixed bounds keeps the order of values |
| MiniRouteMap.ScreenPos | src/components/MiniRouteMap.tsx:104-112 | the raw linear position MiniRouteMap.RawScreenPos, clamped: x ≥ 70 and y ≥ 60 always; x ≤ width − 70 when width ≥ 140 and y ≤ height − 60 when height ≥ 120 |
| MiniRouteMap.ClampIsNoOp | src/components/MiniRouteMap.tsx:104-112 | on a canvas at least 140 by 120, every place's unclamped position already lies in the padded area, so the clamp changes nothing and the hit-test positions equal the drawn ones |
| MiniRouteMap.InsideBoundsNotClamped | src/components/MiniRouteMap.tsx:105-111 | a coordinate strictly inside the widened bounds projects into the padded area and is left alone by the clamp |
| MiniRouteMap.ScreenPosMonotone | src/components/MiniRouteMap.tsx:105-106 | x is monotone in longitude and y antitone in latitude |
| MiniRouteMap.KindColor | src/components/MiniRouteMap.tsx:11-17 | every kind has an entry in `typeColors`, so the fallback colour is never used |
| MiniRouteMap.KindColorsDistinct | src/components/MiniRouteMap.tsx:11-17 | two kinds get the same colour only if they are the same kind |
| MiniRouteMap.ArcControl | src/components/MiniRouteMap.tsx:122-127 | controlX is the chord's midpoint x, and controlY = midY − 0.2·abs(Δx) ≤ midY, with equality exactly for a vertical leg |
| MiniRouteMap.ArcControlSymmetric | src/components/MiniRouteMap.tsx:122-127 | swapping a leg's ends gives the same control point |
| MiniRouteMap.Truncate | src/components/MiniRouteMap.tsx:251 | `substring(0, n)` is a prefix of length min(n, length) |
| MiniRouteMap.TruncateFacts | src/components/MiniRouteMap.tsx:276-281 | cutting a string that already fits is a no-op, and cutting twice is cutting to the shorter length |
| MiniRouteMap.MarkerFor | src/components/MiniRouteMap.tsx:218-252 | a marker has its kind's colour; its radius is 8 and pulse 20 when it is the hovered name, and 6 and 12 otherwise; its label is the name cut to its first 6 characters |
| MiniRouteMap.Advance | src/components/MiniRouteMap.tsx:165-170 | paused or off-screen: unchanged; otherwise progress grows by exactly 0.005·speed while the sum stays below n − 1, and restarts at 0 exactly when the sum reaches n − 1 |
| MiniRouteMap.AdvanceKeepsValid | src/components/MiniRouteMap.tsx:165-170 | with n ≥ 2 places and speed ≥ 0, the step keeps 0 ≤ progress < n − 1 |
| MiniRouteMap.ResetProgress | src/components/MiniRouteMap.tsx:407 | the reset button leaves progress 0, valid for any route of two or more places |
| MiniRouteMap.Segment | src/components/MiniRouteMap.tsx:172-176 | leg index plus in-leg fraction gives back the progress, and the fraction is in [0, 1); for a valid progress the leg index is in [0, n − 2] and the next index is the leg index plus 1 |
| MiniRouteMap.TooltipX | src/components/MiniRouteMap.tsx:261-263 | the tooltip's left edge is ≤ width − 190, ≥ 10 when width ≥ 200, centred on the marker when that fits, exactly 10 when the centred box would cross the left margin of a canvas at least 200 wide, and exactly width − 190 when it would cross the right margin |
| MiniRouteMap.TooltipXMonotone | src/components/MiniRouteMap.tsx:263 | on a canvas at least 200 wide the left edge is the centred position clamped to [10, width − 190], and it never moves left when the marker moves right |
| MiniRouteMap.IndexOfName | src/components/MiniRouteMap.tsx:256 | `findIndex` returns the first place with the name, and nothing exactly when no place has it |
| MiniRouteMap.TooltipFor | src/components/MiniRouteMap.tsx:254-284 | a tooltip is drawn exactly when the hovered name is non-empty, is a place of the day and has details; it sits above the first place with that name and shows the name cut to 12 and the description cut to 30 plus "..." |
| MiniRouteMap.LightAt | src/components/MiniRouteMap.tsx:172-215 | for a valid progress the light is on a leg between consecutive places, at the fraction of the progress past that leg's index along the leg's arc, coloured and named after the place it heads to |
| MiniRouteMap.ScreenPoints | src/components/MiniRouteMap.tsx:114 | one point per place, point i being `getScreenPos` of place i under the day's projection, all inside the padded area on a canvas at least 140 by 120 |
| MiniRouteMap.Arcs | src/components/MiniRouteMap.tsx:117-148 | one arc per leg, from point i to point i + 1 through the arc control point, coloured by place i + 1's kind |
| MiniRouteMap.Markers | src/components/MiniRouteMap.tsx:218-252 | one marker per place, at that place's point |
| MiniRouteMap.DrawFrame | src/components/MiniRouteMap.tsx:47-285 | with fewer than 2 places only the background is drawn and progress is unchanged; otherwise the points are the places' screen positions, one marker per place and one arc per leg are drawn, progress takes one step, the light is the one for the stepped progress, the tooltip is the one for the hovered name, and from a valid progress with speed ≥ 0 the light is drawn on a leg |
| MiniRouteMap.LastHit | src/components/MiniRouteMap.tsx:333-346 | nothing exactly when no place is within radius 15 of the pointer; otherwise the name of a place within the radius after which no place is hit |
| MiniRouteMap.HitTestsDrawnPoint | src/components/MiniRouteMap.tsx:335-338 | on a canvas at least 140 by 120, the hover test of a place is against exactly its `getScreenPos` point, where `draw` puts its marker whenever the day has two or more places (a one-place day draws no marker but is still hit-tested) |
| MiniRouteMap.Hover | src/components/MiniRouteMap.tsx:304-348 | nothing for an empty list, and nothing exactly when no place is within radius 15 of the pointer; otherwise the name of the LAST place in list order within the radius |
| MiniRouteMap.Click | src/components/MiniRouteMap.tsx:351-355 | a name is reported exactly when the hover is non-null and non-empty, and it is the hovered name |
| MiniRouteMap.MouseLeave | src/components/MiniRouteMap.tsx:381 | leaving the canvas clears the hover, after which no tooltip is drawn and a click reports nothing |

## Left out

- Canvas drawing is not modelled: background, grid, region labels, gradients, shadows, dashes, line widths, fonts and the `Date.now()` dash offset of the mini map. What is kept is the geometry of points, arcs, strokes, trail and light; the colours, radii and labels of the markers; the colour and caption of the mini map's light; and the tooltip's position and text.
- `Math.sin(Date.now() / 300)` in the full map's pulse ring is a clock reading. `FullMap.PlaceMarkerFor` takes its value as a parameter in [-1, 1].
- The full map's moving light (a radius-15 glow with a radius-5 white centre) is drawn at the last point of `FullMap.Trail`, whose contract gives that point. Its styling is not modelled.
- `requestAnimationFrame` loops, the resize listeners and `IntersectionObserver` are browser I/O. Visibility, play state, speed and canvas size are parameters of the step functions.
- The play/pause buttons only negate a flag. The slider only sets `speed`. The place-count badge only shows the list length.
- The full map's arc control point (`dist`, `curveAmount`) divides by the chord length, which gives NaN for coincident ends. `FullMap.Trail` takes the control point as a parameter instead.
- Numbers are idealised: JavaScript doubles are modelled as exact reals, so there is no rounding, NaN or infinity.
- The `attractionDetails[name]` lookups are modelled as `map` membership. On the source's object literals the lookup is also truthy for names inherited from `Object.prototype` (`"constructor"`, `"toString"`, `"__proto__"`). For such a name the gallery card would render `undefined` fields, a click would fire and select the place, and the mini map's tooltip would throw on `detail.description.substring`. None of this is modelled. No place or activity of the trip has such a name.
- `MiniRouteMap.Truncate` counts Unicode scalar values, whereas JavaScript `substring` counts UTF-16 code units. The two agree on the trip's Chinese names and descriptions, which lie in the Basic Multilingual Plane.
- FullMap.Advance: requires at least one route. With no routes the source computes `(index + 1) % 0`, which is NaN. The trip has 29 routes.
- MiniRouteMap.MakeProjection: requires at least one place, since `Math.min()` of an empty list is Infinity. `draw` uses it only for two or more places. `MiniRouteMap.Hover` handles the empty list, which hits nothing.
- MiniRouteMap.LightAt: draws no light for a negative progress. There the source reads `points[-1]`, which is `undefined`, and reading `.x` of it throws a TypeError that stops the animation loop. No sequence of steps or resets produces a negative progress.
- Text and light offsets are not modelled: the mini map light's glow radius 15 and core radius 4, its caption 20 pixels above it, the marker labels 18 pixels below the markers, and the tooltip text's 10-pixel inset and 18- and 35-pixel baselines.
- Descriptions, images, times, highlights, tips and hotel names in `tripData.ts` are content. The model keeps names, coordinates, kinds, icons, linked place names, day numbers and the key sets of `attractionDetails` and `hotelData`.
- `MapSection.tsx` is a Leaflet wrapper, and `Timeline.tsx` and the GSAP parts of `DayDetail.tsx` are scroll animations. These are foreign-library calls.
- `AttractionModal.tsx` (body-overflow side effects and a timed close) is not part of this model. Nor are `Hero.tsx`, `Footer.tsx`, `Navbar.tsx`, `BackToTop.tsx`, `TravelTips.tsx`, `App.tsx` or `gsap.d.ts`, which hold static markup, scroll calls and type declarations.
