/** The per-day sections of the site (`src/components/sections/DaySection.tsx`):
    the colour rule of the activity icons, which activities open the detail
    dialog, which attraction and hotel cards render, and one section per day.
    Attraction details are a map from place name to description; hotel
    details are known by the set of day numbers `hotelData` has keys for. */
module DaySection {
  import opened Common
  import opened TripData
  import opened Icons
  import Trip

  /** The gradient classes of an activity's icon badge, picked by the first
      matching test: flights, ground and water transport, hotels, meals,
      sightseeing, and grey for everything else. */
  function ActivityColor(icon: string): (r: string)
    ensures r == "from-blue-500 to-blue-600" <==> icon in FlightIcons
    ensures r == "from-green-500 to-green-600" <==> icon in GroundIcons
    ensures r == "from-purple-500 to-purple-600" <==> icon in LodgingIcons
    ensures r == "from-orange-500 to-orange-600" <==> icon in DiningIcons
    ensures r == "from-pink-500 to-pink-600" <==> icon in SightseeingIcons
    ensures r == "from-gray-500 to-gray-600" <==> Ungrouped(icon)
  {
    if icon == "✈️" || icon == "🛬" then "from-blue-500 to-blue-600"
    else if icon == "🚗" || icon == "🚌" || icon == "🚇" || icon == "🏍️" || icon == "🚤" then "from-green-500 to-green-600"
    else if icon == "🏨" then "from-purple-500 to-purple-600"
    else if icon == "🍽️" then "from-orange-500 to-orange-600"
    else if icon == "👀" || icon == "📸" then "from-pink-500 to-pink-600"
    else "from-gray-500 to-gray-600"
  }

  /** The name an activity passes to the click callback, if any: only a
      non-empty linked place name that has attraction details (the empty
      string is falsy in the source's `&&` chain). */
  function ActivityClickTarget(a: Activity, details: map<string, string>): (r: Option<string>)
    ensures r.Some? <==> a.locationName.Some? && a.locationName.value != "" && a.locationName.value in details
    ensures r.Some? ==> r == a.locationName
  {
    match a.locationName
    case Some(name) => if name != "" && name in details then Some(name) else None
    case None => None
  }

  /** A place shown in the day's attraction gallery. */
  predicate IsDetailedAttraction(l: Location, details: map<string, string>)
  {
    l.kind == Attraction && l.name in details
  }

  /** `dayAttractions`: the day's attractions that have details, in route order. */
  function DayAttractions(locs: seq<Location>, details: map<string, string>): (r: seq<Location>)
    ensures |r| <= |locs|
    ensures forall j :: 0 <= j < |r| ==> r[j] in locs && IsDetailedAttraction(r[j], details)
  {
    if |locs| == 0 then []
    else
      var rest := DayAttractions(locs[1..], details);
      if IsDetailedAttraction(locs[0], details) then [locs[0]] + rest else rest
  }

  /** Filtering commutes with concatenation, so the gallery of a route made
      of two parts is the two parts' galleries in order. */
  lemma {:induction false} DayAttractionsAppend(a: seq<Location>, b: seq<Location>, details: map<string, string>)
    ensures DayAttractions(a + b, details) == DayAttractions(a, details) + DayAttractions(b, details)
  {
    if |a| == 0 {
      assert a + b == b;
    } else {
      assert (a + b)[1..] == a[1..] + b;
      DayAttractionsAppend(a[1..], b, details);
    }
  }

  /** Every position in `s`, one further on. */
  function Shift(s: seq<nat>): (r: seq<nat>)
    ensures |r| == |s| && forall j :: 0 <= j < |s| ==> r[j] == s[j] + 1
  {
    seq(|s|, j requires 0 <= j < |s| => s[j] + 1)
  }

  /** The positions of the day's route that `dayAttractions` keeps. */
  function KeptPositions(locs: seq<Location>, details: map<string, string>): (idx: seq<nat>)
    ensures |idx| == |DayAttractions(locs, details)|
    ensures forall j :: 0 <= j < |idx| ==> idx[j] < |locs|
  {
    if |locs| == 0 then []
    else
      var rest := Shift(KeptPositions(locs[1..], details));
      if IsDetailedAttraction(locs[0], details) then [0] + rest else rest
  }

  /** Entry `j` of `dayAttractions` is the location at kept position `j`. */
  lemma {:induction false} KeptPositionsSelect(locs: seq<Location>, details: map<string, string>)
    ensures forall j :: 0 <= j < |KeptPositions(locs, details)| ==>
      DayAttractions(locs, details)[j] == locs[KeptPositions(locs, details)[j]]
  {
    if |locs| > 0 {
      KeptPositionsSelect(locs[1..], details);
      var tail := KeptPositions(locs[1..], details);
      var rest := DayAttractions(locs[1..], details);
      forall j | 0 <= j < |tail|
        ensures rest[j] == locs[tail[j] + 1]
      {
        assert locs[1..][tail[j]] == locs[tail[j] + 1];
      }
      var r, idx := DayAttractions(locs, details), KeptPositions(locs, details);
      if IsDetailedAttraction(locs[0], details) {
        assert r == [locs[0]] + rest && idx == [0] + Shift(tail);
        forall j | 1 <= j < |idx|
          ensures r[j] == locs[idx[j]]
        {
          assert r[j] == rest[j - 1] && idx[j] == tail[j - 1] + 1;
        }
      } else {
        assert r == rest && idx == Shift(tail);
      }
    }
  }

  /** The kept positions strictly increase. */
  lemma {:induction false} KeptPositionsIncreasing(locs: seq<Location>, details: map<string, string>)
    ensures forall j, j' :: 0 <= j < j' < |KeptPositions(locs, details)| ==>
      KeptPositions(locs, details)[j] < KeptPositions(locs, details)[j']
  {
    if |locs| > 0 {
      KeptPositionsIncreasing(locs[1..], details);
      var tail, idx := KeptPositions(locs[1..], details), KeptPositions(locs, details);
      forall j, j' | 0 <= j < j' < |idx|
        ensures idx[j] < idx[j']
      {
        if IsDetailedAttraction(locs[0], details) {
          assert idx == [0] + Shift(tail);
          assert idx[j'] == tail[j' - 1] + 1;
          if 0 < j {
            assert idx[j] == tail[j - 1] + 1;
          }
        } else {
          assert idx == Shift(tail);
          assert idx[j] == tail[j] + 1 && idx[j'] == tail[j'] + 1;
        }
      }
    }
  }

  /** Every detailed attraction's position is kept. */
  lemma {:induction false} KeptPositionsComplete(locs: seq<Location>, details: map<string, string>)
    ensures forall i :: 0 <= i < |locs| && IsDetailedAttraction(locs[i], details) ==> i in KeptPositions(locs, details)
  {
    if |locs| > 0 {
      KeptPositionsComplete(locs[1..], details);
      var tail := KeptPositions(locs[1..], details);
      var idx := KeptPositions(locs, details);
      forall i | 1 <= i < |locs| && IsDetailedAttraction(locs[i], details)
        ensures i in idx
      {
        assert locs[1..][i - 1] == locs[i];
        var j :| 0 <= j < |tail| && tail[j] == i - 1;
        assert Shift(tail)[j] == i;
      }
    }
  }

  /** `dayAttractions` is an order-preserving subsequence of the day's
      locations that keeps exactly the detailed attractions: `idx` lists the
      kept positions, strictly increasing, and every detailed attraction's
      position is among them. */
  lemma DayAttractionsSubsequence(locs: seq<Location>, details: map<string, string>) returns (idx: seq<nat>)
    ensures |idx| == |DayAttractions(locs, details)|
    ensures forall j :: 0 <= j < |idx| ==> idx[j] < |locs| && DayAttractions(locs, details)[j] == locs[idx[j]]
    ensures forall j, j' :: 0 <= j < j' < |idx| ==> idx[j] < idx[j']
    ensures forall i :: 0 <= i < |locs| && IsDetailedAttraction(locs[i], details) ==> i in idx
  {
    idx := KeptPositions(locs, details);
    KeptPositionsSelect(locs, details);
    KeptPositionsIncreasing(locs, details);
    KeptPositionsComplete(locs, details);
  }

  /** What an attraction card shows: the place and its description. */
  datatype AttractionCardView = AttractionCardView(name: string, description: string)

  /** `AttractionCard`: renders nothing for a name without details. */
  function AttractionCard(name: string, details: map<string, string>): (r: Option<AttractionCardView>)
    ensures r.None? <==> name !in details
    ensures r.Some? ==> r.value.name == name && r.value.description == details[name]
  {
    if name in details then Some(AttractionCardView(name, details[name])) else None
  }

  /** `HotelCard`: renders only when `hotelData` has the day. */
  function HotelCardShown(day: int, hotelDays: set<int>): bool
  {
    day in hotelDays
  }

  /** The cards of the gallery that render. */
  function GalleryCards(attractions: seq<Location>, details: map<string, string>): (r: seq<AttractionCardView>)
    ensures |r| <= |attractions|
  {
    if |attractions| == 0 then []
    else
      var rest := GalleryCards(attractions[1..], details);
      match AttractionCard(attractions[0].name, details)
      case Some(card) => [card] + rest
      case None => rest
  }

  /** The gallery built from `dayAttractions` never meets a card that renders
      nothing: every detailed attraction gets its card, in route order. */
  lemma {:induction false} GalleryComplete(locs: seq<Location>, details: map<string, string>)
    ensures var attrs := DayAttractions(locs, details);
      var cards := GalleryCards(attrs, details);
      |cards| == |attrs| &&
      forall j :: 0 <= j < |cards| ==> cards[j] == AttractionCardView(attrs[j].name, details[attrs[j].name])
  {
    if |locs| > 0 {
      GalleryComplete(locs[1..], details);
      var rest := DayAttractions(locs[1..], details);
      if IsDetailedAttraction(locs[0], details) {
        assert DayAttractions(locs, details) == [locs[0]] + rest;
        assert ([locs[0]] + rest)[1..] == rest;
      }
    }
  }

  /** What one day's section shows. */
  datatype DayView = DayView(
    day: int,
    scrollable: bool,
    clickTargets: seq<Option<string>>,
    hotelSection: bool,
    hotelCard: bool,
    gallery: seq<AttractionCardView>)

  /** `DayContent` for one day. */
  function RenderDay(d: DayData, details: map<string, string>, hotelDays: set<int>): (v: DayView)
    ensures v.day == d.day
    ensures v.scrollable <==> |d.activities| > 5
    ensures |v.clickTargets| == |d.activities|
    ensures forall i :: 0 <= i < |d.activities| ==> v.clickTargets[i] == ActivityClickTarget(d.activities[i], details)
    ensures v.hotelSection <==> d.hasHotel
    ensures v.hotelCard <==> d.hasHotel && d.day in hotelDays
    ensures |v.gallery| == |DayAttractions(d.locations, details)|
    ensures forall j :: 0 <= j < |v.gallery| ==>
      var a := DayAttractions(d.locations, details)[j];
      v.gallery[j] == AttractionCardView(a.name, details[a.name])
  {
    GalleryComplete(d.locations, details);
    DayView(
      d.day,
      |d.activities| > 5,
      seq(|d.activities|, i requires 0 <= i < |d.activities| => ActivityClickTarget(d.activities[i], details)),
      d.hasHotel,
      d.hasHotel && HotelCardShown(d.day, hotelDays),
      GalleryCards(DayAttractions(d.locations, details), details))
  }

  /** `DaySections`: one section per day, in the order of the days. */
  function DaySections(days: seq<DayData>, details: map<string, string>, hotelDays: set<int>): (r: seq<DayView>)
    ensures |r| == |days|
    ensures forall i :: 0 <= i < |days| ==> r[i] == RenderDay(days[i], details, hotelDays)
  {
    if |days| == 0 then []
    else [RenderDay(days[0], details, hotelDays)] + DaySections(days[1..], details, hotelDays)
  }

  /** On the last day of the trip the hotel heading shows, but the hotel card
      under it renders nothing, because `hotelData` stops at day 5. */
  lemma LastDayHotelCardEmpty(details: map<string, string>)
    ensures var v := RenderDay(Trip.Day6, details, Trip.HotelDays);
      v.day == 6 && v.hotelSection && !v.hotelCard
  {
  }
}
