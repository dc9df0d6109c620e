/**
 The game component: the grid of plots and the progression record, and the
 five player actions that replace them.
 */
module App {
  import opened Types
  import opened Constants
  import opened PlotLifecycle
  import opened Progression

  /** The grid a new game starts with: `n` empty plots numbered 0..n-1. */
  function InitialPlots(n: nat): (plots: seq<Plot>)
    ensures |plots| == n
    ensures forall i :: 0 <= i < n ==> plots[i].id == i && plots[i].crop == Empty && PlotOk(plots[i])
  {
    seq(n, i => Plot(i, Empty, Seed, 0, 0, FULL_HEALTH))
  }

  /** Every plot's id is its position in the grid. */
  predicate IdsAreIndices(plots: seq<Plot>) {
    forall i :: 0 <= i < |plots| ==> plots[i].id == i
  }

  /** The grid invariant: the fixed number of plots, ids 0..n-1, every plot consistent. */
  predicate GridOk(plots: seq<Plot>) {
    |plots| == INITIAL_PLOTS_COUNT && IdsAreIndices(plots) &&
    forall i :: 0 <= i < |plots| ==> PlotOk(plots[i])
  }

  /** The first plot with the given id, if there is one. */
  function Find(plots: seq<Plot>, id: int): (r: Option<Plot>)
    ensures r.None? <==> forall i :: 0 <= i < |plots| ==> plots[i].id != id
    ensures r.Some? ==> exists i :: 0 <= i < |plots| && plots[i] == r.value && r.value.id == id &&
                                    forall j :: 0 <= j < i ==> plots[j].id != id
  {
    if plots == [] then None
    else if plots[0].id == id then Some(plots[0])
    else
      var r := Find(plots[1..], id);
      assert r.Some? ==> exists i :: 1 <= i < |plots| && plots[i] == r.value && r.value.id == id &&
                                     forall j :: 0 <= j < i ==> plots[j].id != id by {
        if r.Some? {
          var k :| 0 <= k < |plots| - 1 && plots[1..][k] == r.value && r.value.id == id &&
                   forall j :: 0 <= j < k ==> plots[1..][j].id != id;
          assert plots[k + 1] == r.value;
          assert forall j :: 0 <= j < k + 1 ==> plots[j].id != id by {
            forall j | 0 <= j < k + 1 ensures plots[j].id != id {
              if j > 0 { assert plots[j] == plots[1..][j - 1]; }
            }
          }
        }
      }
      r
  }

  /** In a grid whose ids are positions, id `k` finds the plot at position `k`, if it exists. */
  lemma FindInGrid(plots: seq<Plot>, id: int)
    requires IdsAreIndices(plots)
    ensures Find(plots, id) == if 0 <= id < |plots| then Some(plots[id]) else None
  {
  }

  /** Replaces every plot carrying the given id by `f` of it; the other plots are kept. */
  function Rewrite(plots: seq<Plot>, id: int, f: Plot -> Plot): (r: seq<Plot>)
    ensures |r| == |plots|
    ensures forall i :: 0 <= i < |r| ==> r[i] == if plots[i].id == id then f(plots[i]) else plots[i]
  {
    seq(|plots|, i requires 0 <= i < |plots| => if plots[i].id == id then f(plots[i]) else plots[i])
  }

  /** In a grid whose ids are positions, a rewrite changes the one plot at that position and no other. */
  lemma RewriteInGrid(plots: seq<Plot>, id: int, f: Plot -> Plot)
    requires IdsAreIndices(plots)
    ensures 0 <= id < |plots| ==> Rewrite(plots, id, f) == plots[id := f(plots[id])]
    ensures !(0 <= id < |plots|) ==> Rewrite(plots, id, f) == plots
  {
  }

  /**
   One plot's day, computed step by step as the game does it, with the
   growth progress taken as the ratio of days to days-to-mature.
   */
  method AdvancePlot(plot: Plot) returns (next: Plot)
    ensures next == Tick(plot)
  {
    if plot.crop == Empty {
      return plot;
    }
    var newWater := Max(0, plot.waterLevel - EVAPORATION);
    var newDaysPlanted := plot.daysPlanted + 1;
    var newStage := plot.growthStage;
    var newHealth := plot.health;

    if newWater == 0 {
      newHealth := newHealth - DROUGHT_DAMAGE;
    }

    if newHealth <= 0 {
      newStage := Withered;
    } else if newStage != Mature && newStage != Withered {
      var cropData := CropOf(plot.crop);
      var progress := newDaysPlanted as real / cropData.daysToMature as real;
      if progress >= 1.0 {
        newStage := Mature;
      } else if progress > 0.5 {
        newStage := Growing;
      } else if progress > 0.2 {
        newStage := Sprout;
      }
    }

    next := plot.(waterLevel := newWater, daysPlanted := newDaysPlanted, growthStage := newStage, health := newHealth);
  }

  /** The daily pass over the whole grid: every plot advanced on its own. */
  method AdvanceAll(plots: seq<Plot>) returns (next: seq<Plot>)
    ensures |next| == |plots|
    ensures forall i :: 0 <= i < |plots| ==> next[i] == Tick(plots[i])
  {
    next := [];
    var i := 0;
    while i < |plots|
      invariant 0 <= i <= |plots|
      invariant |next| == i
      invariant forall j :: 0 <= j < i ==> next[j] == Tick(plots[j])
    {
      var p := AdvancePlot(plots[i]);
      next := next + [p];
      i := i + 1;
    }
  }

  /** The running game: the progression record and the grid. */
  class Farm {
    var gameState: GameState
    var plots: seq<Plot>

    ghost predicate Valid()
      reads this
    {
      Consistent(gameState) && GridOk(plots)
    }

    /** A new game: level 1 with no experience on day 1, and the grid of empty plots. */
    constructor ()
      ensures Valid()
      ensures gameState == InitialGameState
      ensures plots == InitialPlots(INITIAL_PLOTS_COUNT)
    {
      gameState := InitialGameState;
      plots := InitialPlots(INITIAL_PLOTS_COUNT);
    }

    /** Plants `crop` in plot `plotId` if that plot exists and is empty; otherwise changes nothing. */
    method Plant(plotId: int, crop: CropType)
      requires Valid()
      requires crop != Empty
      modifies this
      ensures Valid()
      ensures gameState == old(gameState)
      ensures if 0 <= plotId < |old(plots)| && old(plots)[plotId].crop == Empty
              then plots == old(plots)[plotId := PlantPlot(old(plots)[plotId], crop)]
              else plots == old(plots)
    {
      var selected := Find(plots, plotId);
      FindInGrid(plots, plotId);
      if selected.None? || selected.value.crop != Empty {
        return;
      }
      RewriteInGrid(plots, selected.value.id, p => PlantPlot(p, crop));
      plots := Rewrite(plots, selected.value.id, p => PlantPlot(p, crop));
    }

    /** Waters plot `plotId` if it exists and holds a crop; otherwise changes nothing. */
    method Water(plotId: int)
      requires Valid()
      modifies this
      ensures Valid()
      ensures gameState == old(gameState)
      ensures if 0 <= plotId < |old(plots)| && old(plots)[plotId].crop != Empty
              then plots == old(plots)[plotId := WaterPlot(old(plots)[plotId])]
              else plots == old(plots)
    {
      var selected := Find(plots, plotId);
      FindInGrid(plots, plotId);
      if selected.None? || selected.value.crop == Empty {
        return;
      }
      RewriteInGrid(plots, selected.value.id, WaterPlot);
      plots := Rewrite(plots, selected.value.id, WaterPlot);
    }

    /**
     Harvests plot `plotId` if it exists and is mature: the crop's
     experience and the sell value are credited and the plot is emptied.
     Any other plot or stage changes nothing. `leveledUp` is the game's
     level-up notice.
     */
    method Harvest(plotId: int) returns (leveledUp: bool)
      requires Valid()
      modifies this
      ensures Valid()
      ensures if 0 <= plotId < |old(plots)| && old(plots)[plotId].growthStage == Mature
              then
                var gain := CropOf(old(plots)[plotId].crop).xpReward;
                && gameState == RecordHarvest(old(gameState), gain)
                && leveledUp == LeveledUp(old(gameState), gain)
                && plots == old(plots)[plotId := ClearPlot(old(plots)[plotId])]
              else
                gameState == old(gameState) && plots == old(plots) && !leveledUp
    {
      var selected := Find(plots, plotId);
      FindInGrid(plots, plotId);
      if selected.None? || selected.value.growthStage != Mature {
        return false;
      }
      var xpGain := CropOf(selected.value.crop).xpReward;
      leveledUp := LeveledUp(gameState, xpGain);
      gameState := RecordHarvest(gameState, xpGain);
      RewriteInGrid(plots, selected.value.id, ClearPlot);
      plots := Rewrite(plots, selected.value.id, ClearPlot);
    }

    /**
     Clears plot `plotId` whatever it holds, with no reward. On a plot that
     is already empty this changes nothing.
     */
    method Remove(plotId: int)
      requires Valid()
      modifies this
      ensures Valid()
      ensures gameState == old(gameState)
      ensures if 0 <= plotId < |old(plots)|
              then plots == old(plots)[plotId := ClearPlot(old(plots)[plotId])]
              else plots == old(plots)
      ensures 0 <= plotId < |old(plots)| && old(plots)[plotId].crop == Empty ==> plots == old(plots)
    {
      var selected := Find(plots, plotId);
      FindInGrid(plots, plotId);
      if selected.None? {
        return;
      }
      RewriteInGrid(plots, selected.value.id, ClearPlot);
      if selected.value.crop == Empty {
        ClearEmptyIsNoOp(selected.value);
      }
      plots := Rewrite(plots, selected.value.id, ClearPlot);
    }

    /** Ends the day: the day counter moves on and every plot takes its daily tick. */
    method NextDay()
      requires Valid()
      modifies this
      ensures Valid()
      ensures gameState == NewDay(old(gameState))
      ensures |plots| == |old(plots)|
      ensures forall i :: 0 <= i < |plots| ==> plots[i] == Tick(old(plots)[i])
    {
      gameState := NewDay(gameState);
      var next := AdvanceAll(plots);
      forall i | 0 <= i < |plots|
        ensures PlotOk(next[i])
      {
        TickKeepsPlotOk(plots[i]);
      }
      plots := next;
    }
  }
}
