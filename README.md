# UrbanHarvest farm simulation: a verified model

UrbanHarvest is a casual farming game. The player tends a fixed grid of nine
plots. Each plot can be planted with one of five crops (maize, tomato, rape,
spinach, onion). A plot dries out every day, is damaged by drought, and grows
through the stages SEED, SPROUT, GROWING and MATURE. A mature crop can be
harvested for experience and money. A plot whose health is used up withers and
stays withered until it is cleared. This project models that simulation: the
per-plot state machine, the player's progression record (experience, level,
day, money) and the five player actions.

Files:

- `types.dfy` (module `Types`): the crop kinds, the growth stages with their
  enum values, plots, crop definitions and the progression record.
- `constants.dfy` (module `Constants`): the crop table, the grid size (9) and
  the experience per level (100).
- `plot_lifecycle.dfy` (module `PlotLifecycle`): the single-plot transitions
  (plant, water, clear, daily tick). It also holds the invariant every plot
  keeps (`PlotOk`) and what any run of waterings and days does to a plot left
  in the ground.
- `progression.dfy` (module `Progression`): harvest credit, the level
  formula, the game's level-up flag and the day counter.
- `app.dfy` (module `App`): the game component as a class `Farm`. It holds the
  `gameState` record and the `plots` list, which every action replaces. The
  class has one method per action. The helpers `Find` (look a plot up by id)
  and `Rewrite` (map over the list, replacing plots with a matching id) are
  beside it, and so is the daily pass, written step by step as the game writes
  it.
- `scenarios.dfy` (module `Scenarios`): worked games: maize thresholds, levels,
  watering at 80, a double harvest, and ten days of maize with and without
  water.

How the model reads the game:

- The growth progress `daysPlanted / daysToMature` is compared with 1, 0.5 and
  0.2. The model does this by cross-multiplication: MATURE iff `d >= m`,
  GROWING iff `2d > m`, SPROUT iff `5d > m`. This is exact because every
  plantable crop has `daysToMature > 0`. `PlotLifecycle.GrowMatchesRatio`
  proves that it agrees with the comparison on the exact ratio. The imperative
  `App.AdvancePlot` computes that ratio the way the game does.
- The plot invariant proved for every action is stronger than the documented
  ranges. For a planted plot it also says: withered exactly when health is at
  most 0, and otherwise at the stage that its days in the ground give it. This
  is why the stage never moves backwards and a withered plot never recovers.
- Health has no floor. Repeated drought drives it below 0
  (`Scenarios.DryMaizeWithers` ends at -40).

Three behaviours of the code differ from what a reader of the game might
expect. The model follows the code:

- Harvesting and clearing do not reset health. Only planting sets it back to
  100. A harvest might be expected to reset health to 100; it does not.
- Clearing (`handleRemove`) has no "plot is occupied" check. On an empty plot
  it rewrites fields that are already reset, so it changes nothing
  (`PlotLifecycle.ClearEmptyIsNoOp`).
- The level-up flag compares the new experience's whole hundreds with the
  level held before the harvest. That stored level is already one more than
  the old whole hundreds. So the flag is raised only when one harvest lifts the
  level by two or more (`Progression.LevelUpOnlyOnDoubleJump`). A harvest from
  90 to 140 experience raises the level from 1 to 2 without the flag
  (`Progression.LevelUpMissedOnSingleJump`), although a harvest from 90 to 140
  experience might be expected to report a level-up. The model keeps the flag
  as the code computes it.

## Model

| member | source | states |
|---|---|---|
| `Types.AllCropTypesListed` | types.ts:1-8 | there are exactly six crop kinds, all distinct, and every kind is one of them |
| `Types.Ordinal` | types.ts:10-16 | a stage's enum value lies in 0..4 |
| `Types.StageOf` | types.ts:10-16 | the reverse enum lookup succeeds exactly on 0..4 and returns the stage with that value |
| `Types.StageOrdinalRoundTrip` | types.ts:10-16 | looking up a stage's value gives the stage back, and SEED < SPROUT < GROWING < MATURE < WITHERED |
| `Constants.CropOf` | constants.ts:3-58 | each table entry's kind is its key; every xp reward is non-negative; every plantable crop matures in a positive number of days and has water needs in 1..10; the EMPTY entry has 0 days, 0 water needs and 0 reward |
| `Constants.Plantable` | components/Controls.tsx:41 | the crops offered for planting are exactly the five kinds other than EMPTY |
| `PlotLifecycle.Grow` | App.tsx:128-132 | with integer thresholds: a plot not yet mature becomes MATURE exactly when its days reach days-to-mature; the stage changes only once progress is above one fifth, and then to SPROUT, GROWING or MATURE; `GrowMatchesRatio` shows it decides as the ratio rule does |
| `PlotLifecycle.GrowByRatio` | App.tsx:128-132 | the rule on the exact ratio `d / m`: a plot not yet mature becomes MATURE exactly when `d >= m`, and any change of stage is to SPROUT, GROWING or MATURE; `GrowMatchesRatio` ties it to `Grow` |
| `PlotLifecycle.GrowMatchesRatio` | App.tsx:128-132 | the integer thresholds (`d >= m`, `2d > m`, `5d > m`) choose the same stage as comparing the ratio `d / m` with 1, 0.5 and 0.2 |
| `PlotLifecycle.StageAfterMonotone` | App.tsx:128-132 | more days in the ground never give an earlier stage |
| `PlotLifecycle.PlantPlot` | App.tsx:50-54 | a planted plot keeps its id, holds the chosen crop, is a seed with 0 days, 50 water and 100 health, and satisfies the plot invariant |
| `PlotLifecycle.WaterPlot` | App.tsx:61-65 | watering keeps id, crop, stage, days and health; from water in 0..100 it gives min(100, w + 40): at most 40 more, either 100 or exactly 40 more, never less than before; it keeps the invariant of a planted plot |
| `PlotLifecycle.WaterNeedsOccupiedGuard` | App.tsx:59 | without the "plot is planted" check, watering an empty plot would break the plot invariant |
| `PlotLifecycle.ClearPlot` | App.tsx:87-91 | a cleared plot keeps its id and its health, is empty, and satisfies the plot invariant when its health was at most 100 |
| `PlotLifecycle.ClearEmptyIsNoOp` | App.tsx:95-101 | clearing a plot that is already empty changes nothing |
| `PlotLifecycle.Tick` | App.tsx:108-141 | the daily tick keeps a plot's id and crop and never raises its health |
| `PlotLifecycle.TickOnEmpty` | App.tsx:109 | the tick leaves an empty plot unchanged |
| `PlotLifecycle.TickOnPlanted` | App.tsx:112-120 | on a planted plot the tick sets water to max(0, w - 15) and adds one day; health falls by exactly 20 iff the water after evaporation is 0, and is unchanged otherwise |
| `PlotLifecycle.TickStage` | App.tsx:123-133 | health at most 0 after the tick forces WITHERED; otherwise MATURE and WITHERED are kept, and any other stage becomes the one the ratio of days to days-to-mature gives |
| `PlotLifecycle.TickKeepsPlotOk` | App.tsx:108-141 | the tick keeps the plot invariant |
| `PlotLifecycle.TickStageMonotone` | App.tsx:123-133 | on a plot that keeps the invariant, one tick never lowers the stage's enum value |
| `PlotLifecycle.Apply` | App.tsx:58-141 | watering (refused on an empty plot) and the daily tick keep a plot's id and crop |
| `PlotLifecycle.ApplyKeepsPlotOk` | App.tsx:58-142 | one watering or one day keeps the plot invariant, never lowers the stage and never raises health |
| `PlotLifecycle.ReplayKeepsPlotOk` | App.tsx:58-142 | any run of waterings and days keeps the plot invariant, the plot's id and its crop |
| `PlotLifecycle.StageNeverRegresses` | App.tsx:123-133 | across any run of waterings and days the stage never moves back |
| `PlotLifecycle.HealthNeverRises` | App.tsx:118-120 | across any run of waterings and days health never rises |
| `PlotLifecycle.WitheredStaysWithered` | App.tsx:123-125 | a withered plot stays WITHERED through any run of waterings and days |
| `PlotLifecycle.DaysPlantedCountsDays` | App.tsx:113 | a planted plot's day count grows by exactly the number of days that pass |
| `PlotLifecycle.TwoDryDays` | App.tsx:112-120 | two days from at most 15 water leave the plot dry and cost exactly 40 health |
| `Progression.LevelFor` | App.tsx:82 | from non-negative experience the level is at least 1, and experience lies in [100 (level - 1), 100 level) |
| `Progression.LevelForMonotone` | App.tsx:82 | more experience never gives a lower level |
| `Progression.InitialConsistent` | App.tsx:10-15 | the starting record `InitialGameState` (xp 0, level 1, day 1, money 100) has the level its experience gives |
| `Progression.RecordHarvest` | App.tsx:75-85 | a harvest adds the reward to experience and 15 to money, leaves the day, sets the level to the one the new experience gives, and with a non-negative reward keeps the record consistent and never lowers experience or level |
| `Progression.LeveledUp` | App.tsx:77 | on a consistent record the flag is raised iff the level the new experience gives is at least two above the stored level; `LevelUpOnlyOnDoubleJump` and `LevelUpMissedOnSingleJump` draw the consequences |
| `Progression.LevelUpOnlyOnDoubleJump` | App.tsx:77 | on a consistent record the level-up flag is raised iff the harvest lifts the level by two or more |
| `Progression.LevelUpMissedOnSingleJump` | App.tsx:77-82 | going from 90 to 140 experience raises the level by one and does not raise the flag |
| `Progression.NewDay` | App.tsx:106 | ending the day adds exactly 1 to the day and changes nothing else |
| `Progression.HarvestsKeepLevelFormula` | App.tsx:75-85 | over any run of harvests with non-negative rewards the level stays xp / 100 + 1, experience is the sum of the rewards added, money grows by 15 per harvest and the day does not move |
| `App.InitialPlots` | App.tsx:25-32 | the initial grid has the given number of plots, with ids 0..n-1, all empty and satisfying the plot invariant |
| `App.Find` | App.tsx:38 | the lookup finds nothing iff no plot has the id; otherwise it returns the first plot with that id |
| `App.FindInGrid` | App.tsx:38 | in a grid whose ids are positions, id k finds the plot at position k iff 0 <= k < n |
| `App.Rewrite` | App.tsx:50-54 | the map over the plot list keeps its length, replaces every plot with the matching id and keeps every other plot |
| `App.RewriteInGrid` | App.tsx:97-101 | in a grid whose ids are positions, a rewrite changes only the plot at that position, and changes nothing for an id outside the grid |
| `App.AdvancePlot` | App.tsx:108-142 | the step-by-step daily update of one plot, with the progress taken as a ratio, gives exactly the daily tick |
| `App.AdvanceAll` | App.tsx:108-142 | the daily pass gives a list of the same length whose every plot is the tick of the plot at that position |
| `App.Farm.constructor` | App.tsx:10-32 | a new game has xp 0, level 1, day 1, money 100 and nine empty plots with ids 0..8, and satisfies the game invariant |
| `App.Farm.Plant` | App.tsx:46-56 | on an existing empty plot, planting sets crop, stage SEED, 0 days, 50 water and 100 health on that plot only; on an occupied or missing plot nothing changes; the progression record never changes; the game invariant is kept |
| `App.Farm.Water` | App.tsx:58-67 | on an existing planted plot, water becomes min(100, w + 40) on that plot only; on an empty or missing plot nothing changes; the game invariant is kept |
| `App.Farm.Harvest` | App.tsx:69-93 | on an existing MATURE plot, the crop's reward and 15 money are credited, the level is recomputed, the flag is the game's level-up test, and that plot alone is emptied with its health kept; on any other stage or a missing plot nothing changes; the game invariant is kept |
| `App.Farm.Remove` | App.tsx:95-103 | an existing plot is emptied with its health kept and no reward; an already empty plot or a missing one is left as it was; the game invariant is kept |
| `App.Farm.NextDay` | App.tsx:105-142 | the day increases by exactly 1 with xp, level and money unchanged, every plot takes the daily tick, the number of plots is unchanged, and the game invariant is kept |
| `Scenarios.MaizeThresholds` | App.tsx:128-132 | a healthy maize plant (10 days) is a seed at day 2, a sprout at days 3-5, growing at days 6-9 and mature at day 10 |
| `Scenarios.WateringFrom80` | App.tsx:63 | watering a planted plot at 80 water gives 100, not 120 |
| `Scenarios.HarvestTwice` | App.tsx:69-93 | harvesting a mature plot twice credits its reward and the sell value once, empties that plot, and the second call reports no level-up and changes nothing |
| `Scenarios.LevelExamples` | App.tsx:82 | experience 0 and 99 give level 1, 100 gives level 2 and 250 gives level 3 |
| `Scenarios.WateredMaizeMatures` | App.tsx:46-142 | maize planted, watered twice (to 90, then capped at 100) and left for ten days is MATURE with 20 health |
| `Scenarios.DryMaizeWithers` | App.tsx:46-142 | maize planted and never watered still has water after day 3 and none after day 4, is not withered after day 7, is WITHERED after day 8, and ends day 10 WITHERED with health -40 |

## Left out

- The notification text and its timer, plot selection, the advisory dialog
  and all rendering are not modelled. They do not change plots or progression.
- The chat advisor and its remote generative-AI service are not part of this
  model. They are network I/O with no access to the game state.
- The crops' display names, descriptions and icons are not modelled. No
  transition reads them.
- Floating-point arithmetic is not modelled. The growth ratio is treated as an
  exact rational. For the crops in the table (maturing in 4 to 10 days) the
  double-precision comparison gives the same answer: a ratio equal to 0.2
  rounds to the same double as the literal 0.2, so it is not above it.
- React's asynchronous state updates are not modelled. Each action is one
  atomic step over the current state.
- The empty grid that exists before the initialising effect runs is not
  modelled. `App.Farm.constructor` builds the grid as the effect leaves it.
- A missing selection (`selectedPlot` being null) is modelled as a plot id
  that no plot carries.
- App.Farm.Plant: requires `crop != Empty`. The game does not reject the
  EMPTY sentinel itself. Its only caller offers just the five plantable crops
  (`Constants.Plantable`).
