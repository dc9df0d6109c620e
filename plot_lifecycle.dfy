/**
 The per-plot state machine: planting, watering, clearing and the daily
 tick, the invariant every plot keeps, and what a run of days does to a
 plot that is left in the ground.
 */
module PlotLifecycle {
  import opened Types
  import opened Constants

  const MAX_WATER: int := 100
  const FULL_HEALTH: int := 100
  /** Water a freshly planted plot starts with. */
  const PLANTING_WATER: int := 50
  /** Water one watering action adds, up to MAX_WATER. */
  const WATERING_AMOUNT: int := 40
  /** Water lost on every day a crop stands in the plot. */
  const EVAPORATION: int := 15
  /** Health lost on a day that ends with no water left. */
  const DROUGHT_DAMAGE: int := 20

  function Min(a: int, b: int): int { if a <= b then a else b }
  function Max(a: int, b: int): int { if a >= b then a else b }

  // ---------------------------------------------------------------------
  // Growth thresholds
  // ---------------------------------------------------------------------

  /**
   The growth rule of the daily tick, with progress = days / daysToMature
   compared against 1, 1/2 and 1/5 by cross-multiplication: MATURE from
   full progress, GROWING above one half, SPROUT above one fifth, and
   otherwise the stage the plot already has.
   */
  function Grow(stage: GrowthStage, days: int, daysToMature: int): (r: GrowthStage)
    requires daysToMature > 0
    ensures stage != Mature ==> (r == Mature <==> days >= daysToMature)
    ensures r != stage ==> 5 * days > daysToMature && (r == Sprout || r == Growing || r == Mature)
  {
    if days >= daysToMature then Mature
    else if 2 * days > daysToMature then Growing
    else if 5 * days > daysToMature then Sprout
    else stage
  }

  /** The same rule as the game states it, on the exact ratio. */
  function GrowByRatio(stage: GrowthStage, days: int, daysToMature: int): (r: GrowthStage)
    requires daysToMature > 0
    ensures stage != Mature ==> (r == Mature <==> days >= daysToMature)
    ensures r != stage ==> r == Sprout || r == Growing || r == Mature
  {
    var progress := days as real / daysToMature as real;
    if progress >= 1.0 then Mature
    else if progress > 0.5 then Growing
    else if progress > 0.2 then Sprout
    else stage
  }

  /** The stage a healthy plot shows after `days` days in the ground. */
  function StageAfter(days: int, daysToMature: int): GrowthStage
    requires daysToMature > 0
  {
    Grow(Seed, days, daysToMature)
  }

  /** Comparing the ratio with a fraction is comparing the cross products. */
  lemma RatioAbove(days: int, daysToMature: int, num: int, den: int)
    requires daysToMature > 0 && den > 0
    ensures days as real / daysToMature as real > num as real / den as real <==> days * den > num * daysToMature
    ensures days as real / daysToMature as real >= num as real / den as real <==> days * den >= num * daysToMature
  {
  }

  /** The integer thresholds decide exactly as the ratio does. */
  lemma GrowMatchesRatio(stage: GrowthStage, days: int, daysToMature: int)
    requires daysToMature > 0
    ensures Grow(stage, days, daysToMature) == GrowByRatio(stage, days, daysToMature)
  {
    RatioAbove(days, daysToMature, 1, 1);
    RatioAbove(days, daysToMature, 1, 2);
    RatioAbove(days, daysToMature, 1, 5);
  }

  /** A healthy plot's stage only moves forward as the days go by. */
  lemma StageAfterMonotone(d1: int, d2: int, daysToMature: int)
    requires daysToMature > 0 && d1 <= d2
    ensures Ordinal(StageAfter(d1, daysToMature)) <= Ordinal(StageAfter(d2, daysToMature))
  {
  }

  // ---------------------------------------------------------------------
  // The plot invariant
  // ---------------------------------------------------------------------

  /**
   What holds of every plot at every moment of a game: water in 0..100,
   health at most 100, an empty plot fully reset, and a planted plot
   withered exactly when its health is used up and otherwise at the stage
   its days in the ground give it.
   */
  predicate PlotOk(p: Plot) {
    && 0 <= p.waterLevel <= MAX_WATER
    && p.health <= FULL_HEALTH
    && p.daysPlanted >= 0
    && (p.crop == Empty ==> p.growthStage == Seed && p.daysPlanted == 0 && p.waterLevel == 0)
    && (p.crop != Empty ==> (p.growthStage == Withered <==> p.health <= 0))
    && (p.crop != Empty && p.growthStage != Withered ==>
          p.growthStage == StageAfter(p.daysPlanted, CropOf(p.crop).daysToMature))
  }

  // ---------------------------------------------------------------------
  // Single-plot actions
  // ---------------------------------------------------------------------

  /** Puts a crop in the plot: a seed with half a tank of water and full health. */
  function PlantPlot(p: Plot, crop: CropType): (r: Plot)
    requires crop != Empty
    ensures PlotOk(r)
    ensures r.id == p.id && r.crop == crop
    ensures r.growthStage == Seed && r.daysPlanted == 0
    ensures r.waterLevel == PLANTING_WATER && r.health == FULL_HEALTH
  {
    p.(crop := crop, growthStage := Seed, daysPlanted := 0, waterLevel := PLANTING_WATER, health := FULL_HEALTH)
  }

  /** Adds a watering's worth of water, capped at MAX_WATER. */
  function WaterPlot(p: Plot): (r: Plot)
    ensures r.id == p.id && r.crop == p.crop && r.growthStage == p.growthStage
    ensures r.daysPlanted == p.daysPlanted && r.health == p.health
    ensures r.waterLevel <= p.waterLevel + WATERING_AMOUNT
    ensures 0 <= p.waterLevel <= MAX_WATER ==>
              p.waterLevel <= r.waterLevel <= MAX_WATER &&
              (r.waterLevel == MAX_WATER || r.waterLevel == p.waterLevel + WATERING_AMOUNT)
    ensures p.crop != Empty && PlotOk(p) ==> PlotOk(r)
  {
    p.(waterLevel := Min(MAX_WATER, p.waterLevel + WATERING_AMOUNT))
  }

  /**
   Empties the plot, as harvesting and clearing do. Health is left as it
   was; only the next planting restores it.
   */
  function ClearPlot(p: Plot): (r: Plot)
    ensures r.id == p.id && r.crop == Empty && r.health == p.health
    ensures p.health <= FULL_HEALTH ==> PlotOk(r)
  {
    p.(crop := Empty, growthStage := Seed, daysPlanted := 0, waterLevel := 0)
  }

  /** Clearing a plot that is already empty changes nothing. */
  lemma ClearEmptyIsNoOp(p: Plot)
    requires PlotOk(p) && p.crop == Empty
    ensures ClearPlot(p) == p
  {
  }

  /** Watering without the "plot is planted" guard would break the invariant. */
  lemma WaterNeedsOccupiedGuard()
    ensures var p := Plot(0, Empty, Seed, 0, 0, FULL_HEALTH);
            PlotOk(p) && !PlotOk(WaterPlot(p))
  {
  }

  // ---------------------------------------------------------------------
  // The daily tick
  // ---------------------------------------------------------------------

  /**
   One day for one plot. An empty plot is left alone. A planted plot loses
   water to evaporation and counts one more day; ending the day dry costs
   health; a plot whose health is used up withers, and otherwise a plot that
   is neither mature nor withered grows by the thresholds.
   */
  function Tick(p: Plot): (r: Plot)
    ensures r.id == p.id && r.crop == p.crop
    ensures r.health <= p.health
  {
    if p.crop == Empty then p
    else
      var water := Max(0, p.waterLevel - EVAPORATION);
      var days := p.daysPlanted + 1;
      var health := if water == 0 then p.health - DROUGHT_DAMAGE else p.health;
      var stage :=
        if health <= 0 then Withered
        else if p.growthStage == Mature || p.growthStage == Withered then p.growthStage
        else Grow(p.growthStage, days, CropOf(p.crop).daysToMature);
      p.(waterLevel := water, daysPlanted := days, growthStage := stage, health := health)
  }

  /**
   The tick on a planted plot: water falls by 15 but not below 0, the day
   count rises by one, and health falls by exactly 20 when, and only when,
   the water left after evaporation is 0.
   */
  lemma TickOnPlanted(p: Plot)
    requires p.crop != Empty
    ensures Tick(p).waterLevel == Max(0, p.waterLevel - EVAPORATION)
    ensures Tick(p).daysPlanted == p.daysPlanted + 1
    ensures Tick(p).waterLevel == 0 <==> Tick(p).health == p.health - DROUGHT_DAMAGE
    ensures Tick(p).waterLevel != 0 ==> Tick(p).health == p.health
  {
  }

  lemma TickOnEmpty(p: Plot)
    requires p.crop == Empty
    ensures Tick(p) == p
  {
  }

  /**
   Stage logic of the tick: used-up health forces WITHERED; otherwise a
   plot that is neither mature nor withered takes the stage the ratio
   days / daysToMature gives it.
   */
  lemma TickStage(p: Plot)
    requires p.crop != Empty
    ensures Tick(p).health <= 0 ==> Tick(p).growthStage == Withered
    ensures Tick(p).health > 0 && p.growthStage in {Mature, Withered} ==> Tick(p).growthStage == p.growthStage
    ensures Tick(p).health > 0 && p.growthStage !in {Mature, Withered} ==>
              Tick(p).growthStage == GrowByRatio(p.growthStage, p.daysPlanted + 1, CropOf(p.crop).daysToMature)
  {
  }

  /** The tick keeps the plot invariant. */
  lemma TickKeepsPlotOk(p: Plot)
    requires PlotOk(p)
    ensures PlotOk(Tick(p))
  {
  }

  /** On a plot that keeps the invariant, one tick never moves the stage back. */
  lemma TickStageMonotone(p: Plot)
    requires PlotOk(p)
    ensures Ordinal(Tick(p).growthStage) >= Ordinal(p.growthStage)
  {
  }

  // ---------------------------------------------------------------------
  // A plot left in the ground over several days
  // ---------------------------------------------------------------------

  /** What can happen to a planted plot between sowing and clearing. */
  datatype Care = WaterIt | EndDay

  /** One care event: watering is refused on an empty plot, as the game refuses it. */
  function Apply(p: Plot, e: Care): (r: Plot)
    ensures r.id == p.id && r.crop == p.crop
  {
    match e
    case WaterIt => if p.crop == Empty then p else WaterPlot(p)
    case EndDay => Tick(p)
  }

  function Replay(p: Plot, es: seq<Care>): Plot
    decreases |es|
  {
    if es == [] then p else Replay(Apply(p, es[0]), es[1..])
  }

  /** The number of day ends in a run of care events. */
  function Days(es: seq<Care>): nat {
    if es == [] then 0 else (if es[0] == EndDay then 1 else 0) + Days(es[1..])
  }

  lemma ApplyKeepsPlotOk(p: Plot, e: Care)
    requires PlotOk(p)
    ensures PlotOk(Apply(p, e))
    ensures Ordinal(Apply(p, e).growthStage) >= Ordinal(p.growthStage)
    ensures Apply(p, e).health <= p.health
  {
  }

  /** Watering and days keep the plot invariant, its id and its crop. */
  lemma {:induction false} ReplayKeepsPlotOk(p: Plot, es: seq<Care>)
    requires PlotOk(p)
    ensures PlotOk(Replay(p, es))
    ensures Replay(p, es).id == p.id && Replay(p, es).crop == p.crop
    decreases |es|
  {
    if es != [] {
      ApplyKeepsPlotOk(p, es[0]);
      ReplayKeepsPlotOk(Apply(p, es[0]), es[1..]);
    }
  }

  /** Across any run of days and waterings the stage never moves back. */
  lemma {:induction false} StageNeverRegresses(p: Plot, es: seq<Care>)
    requires PlotOk(p)
    ensures Ordinal(Replay(p, es).growthStage) >= Ordinal(p.growthStage)
    decreases |es|
  {
    if es != [] {
      ApplyKeepsPlotOk(p, es[0]);
      StageNeverRegresses(Apply(p, es[0]), es[1..]);
    }
  }

  /** Health never rises while the crop stands; only replanting restores it. */
  lemma {:induction false} HealthNeverRises(p: Plot, es: seq<Care>)
    ensures Replay(p, es).health <= p.health
    decreases |es|
  {
    if es != [] {
      HealthNeverRises(Apply(p, es[0]), es[1..]);
    }
  }

  /**
   A withered plot stays withered whatever is done to it, watering
   included, until it is cleared.
   */
  lemma {:induction false} WitheredStaysWithered(p: Plot, es: seq<Care>)
    requires PlotOk(p) && p.growthStage == Withered
    ensures Replay(p, es).growthStage == Withered
    decreases |es|
  {
    if es != [] {
      ApplyKeepsPlotOk(p, es[0]);
      WitheredStaysWithered(Apply(p, es[0]), es[1..]);
    }
  }

  /** A planted plot's day count is the number of days it has stood. */
  lemma {:induction false} DaysPlantedCountsDays(p: Plot, es: seq<Care>)
    requires p.crop != Empty
    ensures Replay(p, es).daysPlanted == p.daysPlanted + Days(es)
    decreases |es|
  {
    if es != [] {
      DaysPlantedCountsDays(Apply(p, es[0]), es[1..]);
    }
  }

  /** Two days without water, from at most 15 water, cost exactly 40 health. */
  lemma TwoDryDays(p: Plot)
    requires p.crop != Empty && p.waterLevel <= EVAPORATION
    ensures Replay(p, [EndDay, EndDay]).health == p.health - 2 * DROUGHT_DAMAGE
    ensures Replay(p, [EndDay, EndDay]).waterLevel == 0
  {
  }
}
