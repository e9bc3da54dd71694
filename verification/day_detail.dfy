/** The day-by-day accordion (`src/components/sections/DayDetail.tsx`): at
    most one day is open at a time, clicking a day's header toggles it, and a
    closed panel collapses to height 0. */
module DayDetail {
  import opened Common
  import opened Icons
  import DaySection

  /** The accordion's state: the number of the one open day, if any. */
  datatype Accordion = Accordion(openDay: Option<int>)

  /** The state on first render: day 1 is open. */
  const Initial: Accordion := Accordion(Some(1))

  /** `isOpen` of the panel of `day`. */
  predicate IsOpen(s: Accordion, day: int)
  {
    s.openDay == Some(day)
  }

  /** `toggleDay`: closes `day` if it is the open one, otherwise opens it
      (closing whichever day was open before). */
  function Toggle(s: Accordion, day: int): (s': Accordion)
    ensures IsOpen(s', day) <==> !IsOpen(s, day)
    ensures forall other :: other != day ==> !IsOpen(s', other)
  {
    Accordion(if s.openDay == Some(day) then None else Some(day))
  }

  /** Whatever happened before, no two days are open at once. */
  lemma AtMostOneOpen(s: Accordion, d1: int, d2: int)
    ensures IsOpen(s, d1) && IsOpen(s, d2) ==> d1 == d2
  {
  }

  /** Only day 1 is open on first render. */
  lemma InitialOpensDayOne(day: int)
    ensures IsOpen(Initial, day) <==> day == 1
  {
  }

  /** Toggling the same day twice gets back to where it started exactly when
      nothing was open or that day itself was open; if another day was open,
      the double toggle leaves everything closed. */
  lemma ToggleTwice(s: Accordion, day: int)
    ensures Toggle(Toggle(s, day), day) == s <==> s.openDay.None? || s.openDay == Some(day)
    ensures s.openDay.Some? && s.openDay != Some(day) ==> Toggle(Toggle(s, day), day).openDay.None?
  {
  }

  /** The `maxHeight` style of a panel: the measured content height when open,
      0 when closed. */
  function MaxHeight(s: Accordion, day: int, contentHeight: nat): (h: nat)
    ensures !IsOpen(s, day) ==> h == 0
    ensures IsOpen(s, day) ==> h == contentHeight
  {
    if IsOpen(s, day) then contentHeight else 0
  }

  /** The badge classes of an activity's icon in the accordion: the same
      groups and order as the day sections, with light backgrounds. */
  function ActivityColor(icon: string): (r: string)
    ensures r == "bg-blue-100 text-blue-600" <==> icon in FlightIcons
    ensures r == "bg-green-100 text-green-600" <==> icon in GroundIcons
    ensures r == "bg-purple-100 text-purple-600" <==> icon in LodgingIcons
    ensures r == "bg-orange-100 text-orange-600" <==> icon in DiningIcons
    ensures r == "bg-pink-100 text-pink-600" <==> icon in SightseeingIcons
    ensures r == "bg-gray-100 text-gray-600" <==> Ungrouped(icon)
  {
    if icon == "✈️" || icon == "🛬" then "bg-blue-100 text-blue-600"
    else if icon == "🚗" || icon == "🚌" || icon == "🚇" || icon == "🏍️" || icon == "🚤" then "bg-green-100 text-green-600"
    else if icon == "🏨" then "bg-purple-100 text-purple-600"
    else if icon == "🍽️" then "bg-orange-100 text-orange-600"
    else if icon == "👀" || icon == "📸" then "bg-pink-100 text-pink-600"
    else "bg-gray-100 text-gray-600"
  }

  /** The two colour rules split the icons the same way: two icons share a
      colour in the accordion exactly when they share one in the day
      sections. */
  lemma SameIconPartition(a: string, b: string)
    ensures ActivityColor(a) == ActivityColor(b) <==> DaySection.ActivityColor(a) == DaySection.ActivityColor(b)
  {
  }
}
