/** The icon groups both activity lists colour by
    (`getActivityColor` in `DaySection.tsx` and `DayDetail.tsx`). */
module Icons {

  const FlightIcons: set<string> := {"✈️", "🛬"}
  const GroundIcons: set<string> := {"🚗", "🚌", "🚇", "🏍️", "🚤"}
  const LodgingIcons: set<string> := {"🏨"}
  const DiningIcons: set<string> := {"🍽️"}
  const SightseeingIcons: set<string> := {"👀", "📸"}

  /** Icons outside every group fall back to the neutral colour. */
  predicate Ungrouped(icon: string)
  {
    icon !in FlightIcons && icon !in GroundIcons && icon !in LodgingIcons
    && icon !in DiningIcons && icon !in SightseeingIcons
  }

  /** No icon belongs to two groups, so the first-match chain of the source
      and plain group membership agree. */
  lemma GroupsDisjoint()
    ensures FlightIcons !! GroundIcons && FlightIcons !! LodgingIcons
    ensures FlightIcons !! DiningIcons && FlightIcons !! SightseeingIcons
    ensures GroundIcons !! LodgingIcons && GroundIcons !! DiningIcons
    ensures GroundIcons !! SightseeingIcons && LodgingIcons !! DiningIcons
    ensures LodgingIcons !! SightseeingIcons && DiningIcons !! SightseeingIcons
  {
  }
}
