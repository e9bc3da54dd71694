/** The trip's data model: locations, activities and days, and the flattened
    list of every location tagged with the day it belongs to
    (`src/data/tripData.ts`). */
module TripData {
  import opened Common

  /** The five kinds a location can have; the string literal union of the
      `Location.type` field. */
  datatype LocationType = Airport | Hotel | Attraction | Restaurant | Transport

  /** A place on a day's route. The optional picture and description are
      content and are left out. */
  datatype Location = Location(name: string, lat: real, lng: real, kind: LocationType)

  /** One line of a day's schedule: its icon and, when it refers to a place,
      that place's name. Time and description are content and are left out. */
  datatype Activity = Activity(icon: string, locationName: Option<string>)

  /** One day of the trip: its number, schedule, route and whether the day
      declares a hotel (the optional `hotel` field). */
  datatype DayData = DayData(day: int, activities: seq<Activity>, locations: seq<Location>, hasHotel: bool)

  /** An element of `allLocations`: a location spread into a fresh record
      with the extra field `day`. */
  datatype TaggedLocation = TaggedLocation(loc: Location, day: int)
  {
    function Name(): string { loc.name }
  }

  /** The string the source uses for each location kind. */
  function TypeName(t: LocationType): string
  {
    match t
    case Airport => "airport"
    case Hotel => "hotel"
    case Attraction => "attraction"
    case Restaurant => "restaurant"
    case Transport => "transport"
  }

  /** Reads a `type` string; anything outside the union is rejected. */
  function ParseLocationType(s: string): (r: Option<LocationType>)
    ensures r.Some? <==> s in {"airport", "hotel", "attraction", "restaurant", "transport"}
  {
    if s == "airport" then Some(Airport)
    else if s == "hotel" then Some(Hotel)
    else if s == "attraction" then Some(Attraction)
    else if s == "restaurant" then Some(Restaurant)
    else if s == "transport" then Some(Transport)
    else None
  }

  /** The union's strings name the kinds one-to-one. */
  lemma TypeNameRoundTrip(t: LocationType, s: string)
    ensures ParseLocationType(TypeName(t)) == Some(t)
    ensures ParseLocationType(s) == Some(t) ==> s == TypeName(t)
  {
  }

  /** The locations of one day, each tagged with that day's number
      (`day.locations.map(loc => ({ ...loc, day: day.day }))`). */
  function TagDay(d: DayData): (r: seq<TaggedLocation>)
    ensures |r| == |d.locations|
    ensures forall i :: 0 <= i < |r| ==> r[i].loc == d.locations[i] && r[i].day == d.day
  {
    TagLocations(d.locations, d.day)
  }

  function TagLocations(locs: seq<Location>, day: int): (r: seq<TaggedLocation>)
    ensures |r| == |locs|
    ensures forall i :: 0 <= i < |r| ==> r[i].loc == locs[i] && r[i].day == day
  {
    if |locs| == 0 then [] else [TaggedLocation(locs[0], day)] + TagLocations(locs[1..], day)
  }

  /** `allLocations`: every day's tagged locations, in day order. */
  function AllLocations(days: seq<DayData>): seq<TaggedLocation>
  {
    FlatMap(days, TagDay)
  }

  /** The number of locations the days declare, Σ |day.locations|. */
  function LocationCount(days: seq<DayData>): nat
  {
    if |days| == 0 then 0 else |days[0].locations| + LocationCount(days[1..])
  }

  /** `allLocations` has exactly one entry per declared location. */
  lemma {:induction false} AllLocationsCount(days: seq<DayData>)
    ensures |AllLocations(days)| == LocationCount(days)
  {
    if |days| > 0 {
      AllLocationsCount(days[1..]);
    }
  }

  /** Location `i` of day `k` is entry `LocationCount(days[..k]) + i` of
      `allLocations`, unchanged and tagged with day `k`'s number: days keep
      their order, and so do the locations within a day. */
  lemma AllLocationsAt(days: seq<DayData>, k: nat, i: nat)
    requires k < |days| && i < |days[k].locations|
    ensures LocationCount(days[..k]) + i < |AllLocations(days)|
    ensures AllLocations(days)[LocationCount(days[..k]) + i] == TaggedLocation(days[k].locations[i], days[k].day)
  {
    FlatMapAt(days, TagDay, k, i);
    AllLocationsCount(days[..k]);
  }

  /** Every entry of `allLocations` is some day's location tagged with that
      day's number. */
  lemma AllLocationsSource(days: seq<DayData>, j: nat) returns (k: nat, i: nat)
    requires j < |AllLocations(days)|
    ensures k < |days| && i < |days[k].locations|
    ensures j == LocationCount(days[..k]) + i
    ensures AllLocations(days)[j] == TaggedLocation(days[k].locations[i], days[k].day)
  {
    k, i := FlatMapSource(days, TagDay, j);
    AllLocationsCount(days[..k]);
    AllLocationsAt(days, k, i);
  }
}
