/** The trip itself, as the site ships it (`src/data/tripData.ts`): six days
    with their activities' icons and linked places, their routes, the names
    that have attraction details and the days that have hotel details.
    Descriptions, pictures, dates and other text are content and left out. */
module Trip {
  import opened Common
  import opened TripData

  const Day1: DayData := DayData(
    1,
    [
      Activity("✈️", Some("上海浦东机场")),
      Activity("🛬", Some("香港机场")),
      Activity("✈️", Some("香港机场")),
      Activity("🛬", Some("巴厘岛登巴萨机场")),
      Activity("🏨", Some("乌鲁瓦图万丽酒店")),
      Activity("🍽️", None)
    ],
    [
      Location("上海浦东机场", 31.1443, 121.8083, Airport),
      Location("香港机场", 22.3080, 113.9185, Airport),
      Location("巴厘岛登巴萨机场", -8.7467, 115.1668, Airport),
      Location("乌鲁瓦图万丽酒店", -8.8291, 115.1590, Hotel)
    ],
    true)

  const Day2: DayData := DayData(
    2,
    [
      Activity("🚗", None),
      Activity("👀", Some("情人崖")),
      Activity("✈️", Some("乌鲁瓦图滑翔伞")),
      Activity("🍽️", None),
      Activity("🏛️", Some("乌鲁瓦图寺")),
      Activity("🏖️", Some("宾艮海滩")),
      Activity("🚗", None),
      Activity("👣", Some("沙努尔海滩")),
      Activity("🍽️", None)
    ],
    [
      Location("乌鲁瓦图万丽酒店", -8.8291, 115.1590, Hotel),
      Location("情人崖", -8.8289, 115.0835, Attraction),
      Location("乌鲁瓦图滑翔伞", -8.8300, 115.0850, Attraction),
      Location("乌鲁瓦图寺", -8.8291, 115.0840, Attraction),
      Location("宾艮海滩", -8.8050, 115.1100, Attraction),
      Location("沙努尔凯悦酒店", -8.6800, 115.2650, Hotel)
    ],
    true)

  const Day3: DayData := DayData(
    3,
    [
      Activity("🚤", Some("沙努尔码头")),
      Activity("🏍️", None),
      Activity("👀", Some("恶魔的眼泪")),
      Activity("🍽️", Some("梦幻海滩")),
      Activity("📸", Some("黄桥")),
      Activity("👣", Some("金银岛观景台")),
      Activity("🏨", Some("蓝梦岛阿尔纳套房")),
      Activity("🍽️", None)
    ],
    [
      Location("沙努尔码头", -8.6800, 115.2650, Transport),
      Location("蓝梦岛码头", -8.6780, 115.4400, Transport),
      Location("恶魔的眼泪", -8.7280, 115.4550, Attraction),
      Location("梦幻海滩", -8.7300, 115.4500, Attraction),
      Location("黄桥", -8.7200, 115.4400, Attraction),
      Location("金银岛观景台", -8.7180, 115.4450, Attraction),
      Location("蓝梦岛阿尔纳套房", -8.7250, 115.4450, Hotel)
    ],
    true)

  const Day4: DayData := DayData(
    4,
    [
      Activity("🚤", Some("佩妮达岛码头")),
      Activity("👀", Some("精灵坠崖")),
      Activity("👀", Some("天神浴池")),
      Activity("🍽️", None),
      Activity("🚤", Some("沙努尔码头")),
      Activity("🚗", None),
      Activity("🏨", Some("努沙杜瓦丽思卡尔顿")),
      Activity("🍽️", None)
    ],
    [
      Location("沙努尔码头", -8.6800, 115.2650, Transport),
      Location("佩妮达岛码头", -8.6780, 115.5150, Transport),
      Location("精灵坠崖", -8.7500, 115.4750, Attraction),
      Location("天神浴池", -8.7350, 115.3800, Attraction),
      Location("破碎海滩", -8.7330, 115.3820, Attraction),
      Location("努沙杜瓦丽思卡尔顿", -8.8150, 115.2300, Hotel)
    ],
    true)

  const Day5: DayData := DayData(
    5,
    [
      Activity("👣", None),
      Activity("🍽️", None),
      Activity("🚗", None),
      Activity("✈️", Some("巴厘岛登巴萨机场")),
      Activity("🛬", Some("香港机场")),
      Activity("🏨", Some("东涌福朋喜来登"))
    ],
    [
      Location("努沙杜瓦丽思卡尔顿", -8.8150, 115.2300, Hotel),
      Location("登巴萨机场", -8.7467, 115.1668, Airport),
      Location("香港机场", 22.3080, 113.9185, Airport),
      Location("东涌福朋喜来登", 22.2950, 113.9400, Hotel)
    ],
    true)

  const Day6: DayData := DayData(
    6,
    [
      Activity("🚌", None),
      Activity("👣", Some("尖沙咀")),
      Activity("👀", Some("维多利亚港")),
      Activity("🚤", Some("天星小轮")),
      Activity("👀", Some("金紫荆广场")),
      Activity("🍽️", None),
      Activity("🚇", Some("旺角")),
      Activity("👣", Some("油麻地庙街")),
      Activity("🚌", None),
      Activity("✈️", Some("香港机场"))
    ],
    [
      Location("东涌福朋喜来登", 22.2950, 113.9400, Hotel),
      Location("尖沙咀", 22.2980, 114.1720, Attraction),
      Location("维多利亚港", 22.2850, 114.1650, Attraction),
      Location("天星小轮", 22.2870, 114.1680, Transport),
      Location("金紫荆广场", 22.2830, 114.1730, Attraction),
      Location("旺角", 22.3190, 114.1690, Attraction),
      Location("油麻地庙街", 22.3130, 114.1710, Attraction),
      Location("香港机场", 22.3080, 113.9185, Airport)
    ],
    true)

  /** `tripData`, in the order the site lists the days. */
  const TripDays: seq<DayData> := [Day1, Day2, Day3, Day4, Day5, Day6]

  /** The keys of `attractionDetails`. */
  const AttractionNames: set<string> := {
    "上海浦东机场",
    "香港机场",
    "巴厘岛登巴萨机场",
    "乌鲁瓦图万丽酒店",
    "情人崖",
    "乌鲁瓦图寺",
    "宾艮海滩",
    "乌鲁瓦图滑翔伞",
    "沙努尔凯悦酒店",
    "沙努尔海滩",
    "沙努尔码头",
    "恶魔的眼泪",
    "梦幻海滩",
    "黄桥",
    "金银岛观景台",
    "蓝梦岛阿尔纳套房",
    "佩妮达岛码头",
    "精灵坠崖",
    "天神浴池",
    "破碎海滩",
    "努沙杜瓦丽思卡尔顿",
    "Bali Collection",
    "东涌福朋喜来登",
    "尖沙咀",
    "重庆大厦",
    "星光大道",
    "维多利亚港",
    "天星小轮",
    "金紫荆广场",
    "旺角",
    "金鱼街",
    "油麻地庙街"
  }

  /** The keys of `hotelData`. */
  const HotelDays: set<int> := {1, 2, 3, 4, 5}

  /** The days are numbered 1 to 6, consecutively, in array order. */
  lemma DaysNumberedInOrder()
    ensures |TripDays| == 6
    ensures forall i :: 0 <= i < |TripDays| ==> TripDays[i].day == i + 1
  {
  }

  /** Days 1 to 5 declare a hotel that `hotelData` describes; day 6 declares a
      hotel too, but `hotelData` has no entry for it. */
  lemma HotelDetailsCoverDaysOneToFive()
    ensures forall i :: 0 <= i < 5 ==> TripDays[i].hasHotel && TripDays[i].day in HotelDays
    ensures TripDays[5].hasHotel && TripDays[5].day !in HotelDays
  {
  }

  /** `allLocations` lists 35 places: 4 + 6 + 7 + 6 + 4 + 8. */
  lemma TripLocationCount()
    ensures |AllLocations(TripDays)| == 35
  {
    AllLocationsCount(TripDays);
    assert LocationCount([Day6]) == 8 by { assert [Day6][1..] == []; }
    assert LocationCount([Day5, Day6]) == 12 by { assert [Day5, Day6][1..] == [Day6]; }
    assert LocationCount([Day4, Day5, Day6]) == 18 by { assert [Day4, Day5, Day6][1..] == [Day5, Day6]; }
    assert LocationCount([Day3, Day4, Day5, Day6]) == 25 by {
      assert [Day3, Day4, Day5, Day6][1..] == [Day4, Day5, Day6];
    }
    assert LocationCount([Day2, Day3, Day4, Day5, Day6]) == 31 by {
      assert [Day2, Day3, Day4, Day5, Day6][1..] == [Day3, Day4, Day5, Day6];
    }
    assert TripDays[1..] == [Day2, Day3, Day4, Day5, Day6];
  }

  /** Every attraction of the trip has details, so each day's gallery shows
      all of its attractions. */
  lemma AttractionsHaveDetails()
    ensures forall d, i :: 0 <= d < |TripDays| && 0 <= i < |TripDays[d].locations| ==>
      (TripDays[d].locations[i].kind == Attraction ==> TripDays[d].locations[i].name in AttractionNames)
  {
  }

  /** Every place an activity links to has details, so every linked activity
      opens the detail dialog. */
  lemma LinkedPlacesHaveDetails()
    ensures forall d, k :: 0 <= d < |TripDays| && 0 <= k < |TripDays[d].activities| ==>
      (TripDays[d].activities[k].locationName.Some? ==> TripDays[d].activities[k].locationName.value in AttractionNames)
  {
  }
}
