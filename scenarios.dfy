/**
 Worked games on a single plot: the thresholds for maize and the two ways
 ten days of maize can end.
 */
module Scenarios {
  import opened Types
  import opened Constants
  import opened PlotLifecycle
  import opened Progression
  import opened App

  /** Maize (10 days): a sprout at day 3, growing at day 6, mature at day 10. */
  lemma MaizeThresholds()
    ensures StageAfter(2, CropOf(Maize).daysToMature) == Seed
    ensures StageAfter(3, CropOf(Maize).daysToMature) == Sprout
    ensures StageAfter(5, CropOf(Maize).daysToMature) == Sprout
    ensures StageAfter(6, CropOf(Maize).daysToMature) == Growing
    ensures StageAfter(9, CropOf(Maize).daysToMature) == Growing
    ensures StageAfter(10, CropOf(Maize).daysToMature) == Mature
  {
  }

  /** Experience 0, 100 and 250 give levels 1, 2 and 3. */
  lemma LevelExamples()
    ensures LevelFor(0) == 1 && LevelFor(99) == 1
    ensures LevelFor(100) == 2 && LevelFor(250) == 3
  {
  }

  /** Watering a planted plot at 80 water gives 100, not 120. */
  lemma WateringFrom80()
    ensures WaterPlot(Plot(0, Maize, Sprout, 3, 80, 100)).waterLevel == MAX_WATER
  {
  }

  /**
   Harvesting a mature plot twice credits the crop once: the first call
   empties the plot, so the second finds nothing to harvest.
   */
  method HarvestTwice(farm: Farm, plotId: int) returns (first: bool, second: bool)
    requires farm.Valid()
    requires 0 <= plotId < |farm.plots| && farm.plots[plotId].growthStage == Mature
    modifies farm
    ensures farm.Valid()
    ensures farm.gameState == RecordHarvest(old(farm.gameState), CropOf(old(farm.plots)[plotId].crop).xpReward)
    ensures farm.plots == old(farm.plots)[plotId := ClearPlot(old(farm.plots)[plotId])]
    ensures farm.plots[plotId].crop == Empty && !second
  {
    first := farm.Harvest(plotId);
    second := farm.Harvest(plotId);
  }

  function TenDays(): seq<Care> {
    [EndDay, EndDay, EndDay, EndDay, EndDay, EndDay, EndDay, EndDay, EndDay, EndDay]
  }

  /** A fresh empty plot with maize just planted. */
  function MaizeSown(): Plot {
    PlantPlot(Plot(0, Empty, Seed, 0, 0, FULL_HEALTH), Maize)
  }

  /**
   Watered twice after sowing (50, then 90, then capped at 100), maize
   survives ten dry days: the water runs out on day 7, four dry days cost
   80 health, and the plant is mature on day 10.
   */
  lemma WateredMaizeMatures()
    ensures Replay(MaizeSown(), [WaterIt, WaterIt] + TenDays()) ==
            Plot(0, Maize, Mature, 10, 0, 20)
  {
    var p := MaizeSown();
    var w1 := Apply(p, WaterIt);
    assert w1.waterLevel == 90;
    var w2 := Apply(w1, WaterIt);
    assert w2.waterLevel == 100;
    ReplaySplit(p, [WaterIt, WaterIt], TenDays());
    assert Replay(p, [WaterIt, WaterIt]) == w2 by {
      assert [WaterIt, WaterIt][1..] == [WaterIt];
      assert [WaterIt][1..] == [];
    }
    var d := w2;
    d := Tick(d); assert d.waterLevel == 85 && d.growthStage == Seed;
    d := Tick(d); assert d.waterLevel == 70 && d.growthStage == Seed;
    d := Tick(d); assert d.waterLevel == 55 && d.growthStage == Sprout;
    d := Tick(d); assert d.waterLevel == 40;
    d := Tick(d); assert d.waterLevel == 25;
    d := Tick(d); assert d.waterLevel == 10 && d.growthStage == Growing;
    d := Tick(d); assert d.waterLevel == 0 && d.health == 80;
    d := Tick(d); assert d.health == 60;
    d := Tick(d); assert d.health == 40;
    d := Tick(d); assert d == Plot(0, Maize, Mature, 10, 0, 20);
  }

  /** `n` days in a row with no watering. */
  function Dry(n: nat): seq<Care> {
    seq(n, _ => EndDay)
  }

  /** One more dry day is one more tick. */
  lemma DryDay(p: Plot, n: nat)
    ensures Replay(p, Dry(n + 1)) == Tick(Replay(p, Dry(n)))
  {
    assert Dry(n + 1) == Dry(n) + [EndDay];
    ReplaySplit(p, Dry(n), [EndDay]);
    assert [EndDay][1..] == [];
  }

  /**
   Left unwatered, maize dries out on day 4 and loses 20 health every day
   from then on: it is still alive after day 7, withers on day 8, and its
   health keeps falling below 0.
   */
  lemma DryMaizeWithers()
    ensures Replay(MaizeSown(), Dry(3)).waterLevel > 0 && Replay(MaizeSown(), Dry(4)).waterLevel == 0
    ensures Replay(MaizeSown(), Dry(7)).growthStage != Withered
    ensures Replay(MaizeSown(), Dry(8)).growthStage == Withered
    ensures Replay(MaizeSown(), TenDays()) == Plot(0, Maize, Withered, 10, 0, -40)
  {
    var p := MaizeSown();
    assert Dry(0) == [];
    var d := p;
    DryDay(p, 0); d := Tick(d); assert d.waterLevel == 35;
    DryDay(p, 1); d := Tick(d); assert d.waterLevel == 20;
    DryDay(p, 2); d := Tick(d); assert d.waterLevel == 5;
    DryDay(p, 3); d := Tick(d); assert d.waterLevel == 0 && d.health == 80;
    DryDay(p, 4); d := Tick(d); assert d.health == 60;
    DryDay(p, 5); d := Tick(d); assert d.health == 40;
    DryDay(p, 6); d := Tick(d); assert d.health == 20 && d.growthStage == Growing;
    DryDay(p, 7); d := Tick(d); assert d.health == 0 && d.growthStage == Withered;
    DryDay(p, 8); d := Tick(d); assert d.health == -20;
    DryDay(p, 9); d := Tick(d); assert d == Plot(0, Maize, Withered, 10, 0, -40);
    assert Dry(10) == TenDays();
  }

  /** Doing one run of care events and then another is doing both in order. */
  lemma {:induction false} ReplaySplit(p: Plot, xs: seq<Care>, ys: seq<Care>)
    ensures Replay(p, xs + ys) == Replay(Replay(p, xs), ys)
    decreases |xs|
  {
    if xs != [] {
      assert (xs + ys)[0] == xs[0];
      assert (xs + ys)[1..] == xs[1..] + ys;
      ReplaySplit(Apply(p, xs[0]), xs[1..], ys);
    } else {
      assert xs + ys == ys;
    }
  }
}
