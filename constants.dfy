/**
 The static game data: the crop table, the size of the grid and the
 experience needed per level.
 */
module Constants {
  import opened Types

  /** Number of plots created when the game starts. */
  const INITIAL_PLOTS_COUNT: int := 9

  /** Experience points per level. */
  const XP_PER_LEVEL: int := 100

  /**
   The crop table, looked up by kind. Every plantable kind takes a positive
   number of days to mature, so the growth ratio of a planted plot is always
   defined; the `Empty` sentinel matures in 0 days and rewards nothing.
   */
  function CropOf(t: CropType): (c: Crop)
    ensures c.cropType == t
    ensures c.xpReward >= 0
    ensures t != Empty ==> c.daysToMature > 0 && 1 <= c.waterNeeds <= 10
    ensures t == Empty ==> c.daysToMature == 0 && c.waterNeeds == 0 && c.xpReward == 0
  {
    match t
    case Maize => Crop(Maize, 10, 6, 50)
    case Tomato => Crop(Tomato, 7, 8, 35)
    case Rape => Crop(Rape, 4, 7, 20)
    case Spinach => Crop(Spinach, 5, 9, 25)
    case Onion => Crop(Onion, 8, 4, 30)
    case Empty => Crop(Empty, 0, 0, 0)
  }

  /** The crops offered for planting: every kind except the sentinel. */
  function Plantable(): (kinds: seq<CropType>)
    ensures forall t :: t in kinds <==> t != Empty
    ensures |kinds| == 5
  {
    Filter(AllCropTypes)
  }

  function Filter(ts: seq<CropType>): (r: seq<CropType>)
    ensures forall t :: t in r <==> t in ts && t != Empty
    ensures |r| <= |ts|
  {
    if ts == [] then []
    else if ts[0] == Empty then Filter(ts[1..])
    else [ts[0]] + Filter(ts[1..])
  }
}
