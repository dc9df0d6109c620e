/**
 The value types of the farm simulation: crop kinds, growth stages, plots,
 the static crop definition and the player's progression record.
 */
module Types {

  /** The six crop kinds; `Empty` is the "no crop" sentinel of an unplanted plot. */
  datatype CropType = Maize | Tomato | Rape | Spinach | Onion | Empty

  /** Every crop kind, each once. */
  const AllCropTypes: seq<CropType> := [Maize, Tomato, Rape, Spinach, Onion, Empty]

  lemma AllCropTypesListed(t: CropType)
    ensures t in AllCropTypes
    ensures |AllCropTypes| == 6
    ensures forall i, j :: 0 <= i < j < |AllCropTypes| ==> AllCropTypes[i] != AllCropTypes[j]
  {
  }

  /** Growth stages, in the order of their numeric enum values 0..4. */
  datatype GrowthStage = Seed | Sprout | Growing | Mature | Withered

  /** The numeric value the enum assigns to a stage. */
  function Ordinal(s: GrowthStage): (n: nat)
    ensures n <= 4
  {
    match s
    case Seed => 0
    case Sprout => 1
    case Growing => 2
    case Mature => 3
    case Withered => 4
  }

  /** The reverse enum lookup: the stage whose value is `n`, if any. */
  function StageOf(n: int): (s: Option<GrowthStage>)
    ensures s.Some? <==> 0 <= n <= 4
    ensures s.Some? ==> Ordinal(s.value) == n
  {
    if n == 0 then Some(Seed)
    else if n == 1 then Some(Sprout)
    else if n == 2 then Some(Growing)
    else if n == 3 then Some(Mature)
    else if n == 4 then Some(Withered)
    else None
  }

  /** The enum values are distinct and strictly increasing along the lifecycle. */
  lemma StageOrdinalRoundTrip(s: GrowthStage)
    ensures StageOf(Ordinal(s)) == Some(s)
    ensures Ordinal(Seed) < Ordinal(Sprout) < Ordinal(Growing) < Ordinal(Mature) < Ordinal(Withered)
  {
  }

  datatype Option<T> = None | Some(value: T)

  /**
   The static definition of a crop kind. The display name, description and
   icon are not part of the model: no transition reads them.
   */
  datatype Crop = Crop(cropType: CropType, daysToMature: int, waterNeeds: int, xpReward: int)

  /**
   One cell of the farm grid. `waterLevel` is meant to stay in 0..100;
   `health` starts at 100 on planting and is never raised afterwards.
   */
  datatype Plot = Plot(
    id: int,
    crop: CropType,
    growthStage: GrowthStage,
    daysPlanted: int,
    waterLevel: int,
    health: int)

  /** The player's progression record and the calendar. */
  datatype GameState = GameState(xp: int, level: int, day: int, money: int)
}
