# Mi Pequeño Huerto: the plant-care game engine in Dafny

This project models the engine of the Android game "Mi Pequeño Huerto".
The player keeps one plant in a pot. A one-second clock tick uses up its
water, lowers or restores its health, may give it a pest, and moves it
along its growth stages. The player waters, fertilizes, treats, harvests
or clears the plant, plants seeds and buys supplies.

The model has one module per Kotlin core file:

- `PlantTypes`: the species catalog (`PlantTypeData`).
- `PlantStages`: the stages and the two stage lists (`PlantStageData`).
- `Plants`: the plant record (`Plant`).
- `GameStates`: the saved game and its guards (`GameState`).
- `DebugConfig`: the build switch and its constants.
- `TimeUtils`, `PlantInfoScreen`, `HomeScreen`: the pure helpers of the screens.

Two modules share `GameViewModel.kt` between them:

- `Reducer` states every handler as a function from the snapshot to the next
  snapshot and the events emitted, in emission order.
- `ViewModel.GameViewModel` is a class with the `_gameState` snapshot and
  the stream of emitted events as fields. Its methods update them step by
  step, as the Kotlin handlers do, and each is proved to produce exactly the
  `Reducer` step.

`GameRun` applies sequences of operations and proves what holds across
them. `KotlinMath` and `Text` hold the Kotlin arithmetic (`coerceIn`,
truncating Long division) and number rendering the rest relies on.

Time and chance are inputs:

- `now` stands for `System.currentTimeMillis()`.
- `roll` stands for the `Math.random()` pest draw.
- `hour` stands for `Calendar.HOUR_OF_DAY`.

Health and water levels are exact reals. A stage threshold
`(growthDuration * durationPercentage).toLong()` is the growth time times
the share in hundredths, divided by 100 and rounded down.

The model keeps the code's own behaviour where it differs from what its
comments and the surrounding design suggest:

- The purchase guards compare the price with `coins`, but the price is taken
  from `points`. No handler ever changes `coins`, so from a new game only the
  free bean seed can ever be bought (`GameRun.FreshGameShopStaysClosed`).
- Overwatering can bring health to 0 without setting the stage to MUERTA.
  The next tick then returns early, so the plant stays in its old stage for
  ever and no death event is emitted (`GameRun.OverwateringKillsWithoutMuerta`).
- `canPlant` accepts a pot holding a dead plant. Planting over it replaces
  the plant without counting the death (`GameRun.PlantingOverDeadPlantSkipsDeathCount`).
- `removePest` does not check that the plant is alive, while the "Anti-Plaga"
  button does (`HomeScreen.AntiPestButtonMatchesHandler`).
- `getGreeting` on the home screen and `getTimeOfDayString` use different
  hour bands; they disagree at 5 and at 20 (`HomeScreen.GreetingAgreesWithTimeOfDay`).
- The debug stage cycle sends a flower from JOVEN to MADURO, a stage its
  list does not have, and from there to FLORECIMIENTO
  (`Reducer.DebugNextStageFollowsNextStage`).

`updatePlantState` tests for recovery on the already penalised health.
`Reducer.HealthAfterTick` states its result in the stacked form, with every
adjustment applied to the old health at once, and proves the two agree.

## Model

| member | source | states |
|---|---|---|
| KotlinMath.Clamp | app/src/main/java/com/example/miprimerhuerto/ui/viewmodel/GameViewModel.kt:82 | `coerceIn(lo, hi)`: the result lies in [lo, hi], equals x inside the range and the nearer bound outside it |
| KotlinMath.TruncDiv | app/src/main/java/com/example/miprimerhuerto/utils/DebugConfig.kt:43 | JVM Long division by a positive divisor: the Euclidean quotient for a non-negative dividend, minus the quotient of the magnitude for a negative one |
| KotlinMath.TruncRem | app/src/main/java/com/example/miprimerhuerto/ui/screens/PlantInfoScreen.kt:406 | JVM `%` by a positive divisor: the usual remainder in [0, b) for a non-negative dividend, a non-positive one above -b otherwise |
| Text.NatToString | app/src/main/java/com/example/miprimerhuerto/ui/screens/PlantInfoScreen.kt:409 | a Long rendered by a string template is a non-empty run of digits with no leading zero, one digit exactly below 10 |
| Text.NatToStringRoundTrip | app/src/main/java/com/example/miprimerhuerto/ui/screens/PlantInfoScreen.kt:409 | reading the digits of a rendered number back gives that number |
| Text.NatToStringInjective | app/src/main/java/com/example/miprimerhuerto/ui/screens/PlantInfoScreen.kt:409 | two different numbers never render as the same text |
| DebugConfig.TimeMultiplierFor | app/src/main/java/com/example/miprimerhuerto/utils/DebugConfig.kt:26 | the clock multiplier is 60 exactly in the debug build and 1 in the production build |
| DebugConfig.NotificationIntervalMinutesFor | app/src/main/java/com/example/miprimerhuerto/utils/DebugConfig.kt:31 | the notification interval is 1 minute in the debug build and 15 otherwise |
| DebugConfig.SnackbarDurationMsFor | app/src/main/java/com/example/miprimerhuerto/utils/DebugConfig.kt:36 | the snackbar lasts 8000 ms in the debug build and 5000 ms otherwise |
| DebugConfig.AdjustedDurationFor | app/src/main/java/com/example/miprimerhuerto/utils/DebugConfig.kt:41-47 | in production the duration is unchanged; in debug a non-negative duration is divided by 60; a duration never grows in magnitude nor changes sign |
| DebugConfig.AdjustedDuration | app/src/main/java/com/example/miprimerhuerto/utils/DebugConfig.kt:41-47 | the shipped scaling keeps a non-negative duration between 0 and itself |
| DebugConfig.ShippedConstants | app/src/main/java/com/example/miprimerhuerto/utils/DebugConfig.kt:14-47 | with `DEBUG_MODE` on, the multiplier is 60, the interval 1 minute, the snackbar 8000 ms and every non-negative duration is divided by 60 |
| PlantTypes.GetInfo | app/src/main/java/com/example/miprimerhuerto/data/model/PlantType.kt:146-148 | the lookup is total: the entry of every species names that species; only GIRASOL and ROSA are not harvestable; growth time and water rate are positive; only FRIJOL is free |
| PlantTypes.AllPlants | app/src/main/java/com/example/miprimerhuerto/data/model/PlantType.kt:150-152 | six entries in the order FRIJOL, RABANO, LECHUGA, GIRASOL, ROSA, TOMATE, every species exactly once, each the catalog entry of its species |
| PlantTypes.InitialPlants | app/src/main/java/com/example/miprimerhuerto/data/model/PlantType.kt:154-160 | the starter species are the first three catalog entries, FRIJOL, RABANO and LECHUGA in that order, all harvestable and priced at most 30 |
| PlantTypes.GrowthMinutesInShippedBuild | app/src/main/java/com/example/miprimerhuerto/data/model/PlantType.kt:30-144 | in the shipped build each species grows in 10, 7, 12, 15, 20 and 14 minutes |
| PlantTypes.CatalogPricesPointsAndRates | app/src/main/java/com/example/miprimerhuerto/data/model/PlantType.kt:30-144 | seed prices 0, 20, 30, 100, 150, 50; harvest points 50, 40, 60, 100, 150, 70; water rates 5, 6, 7, 8, 6, 9 per hour times the clock multiplier, for FRIJOL, RABANO, LECHUGA, GIRASOL, ROSA, TOMATE |
| PlantStages.HarvestableListShape | app/src/main/java/com/example/miprimerhuerto/data/model/PlantStage.kt:25-62 | the crop list is SEMILLA, GERMINACION, PLANTULA, JOVEN, MADURO, COSECHABLE with shares 10, 15, 20, 25, 20, 10 hundredths, with no stage twice |
| PlantStages.DecorativeListShape | app/src/main/java/com/example/miprimerhuerto/data/model/PlantStage.kt:64-95 | the flower list is SEMILLA, GERMINACION, PLANTULA, JOVEN, FLORECIMIENTO with shares 10, 15, 20, 25, 30 hundredths, with no stage twice |
| PlantStages.StagesForPlant | app/src/main/java/com/example/miprimerhuerto/data/model/PlantStage.kt:97-99 | for a harvestable plant the stages SEMILLA, GERMINACION, PLANTULA, JOVEN, MADURO, COSECHABLE with shares 10, 15, 20, 25, 20, 10; otherwise SEMILLA, GERMINACION, PLANTULA, JOVEN, FLORECIMIENTO with shares 10, 15, 20, 25, 30; neither repeats a stage or holds MUERTA |
| PlantStages.IndexOfFirst | app/src/main/java/com/example/miprimerhuerto/data/model/PlantStage.kt:107 | `indexOfFirst`: -1 exactly when no entry holds the stage, else the first position that holds it |
| PlantStages.Find | app/src/main/java/com/example/miprimerhuerto/data/model/PlantStage.kt:102 | `find`: none exactly when no entry holds the stage, else an entry of the list holding it, the only one in a list without repeats |
| PlantStages.StageInfo | app/src/main/java/com/example/miprimerhuerto/data/model/PlantStage.kt:101-103 | none exactly when the stage is not in the plant's list (always for MUERTA), else the unique entry of that stage |
| PlantStages.StageName | app/src/main/java/com/example/miprimerhuerto/data/model/PlantStage.kt:25-95 | every listed stage has a non-empty name; the dead stage, which no list holds, has none |
| PlantStages.StageDescription | app/src/main/java/com/example/miprimerhuerto/data/model/PlantStage.kt:25-95 | every listed stage has a non-empty description; the dead stage has none |
| PlantStages.StageNamesDistinct | app/src/main/java/com/example/miprimerhuerto/data/model/PlantStage.kt:25-95 | no two stages share a name |
| PlantStages.NextStage | app/src/main/java/com/example/miprimerhuerto/data/model/PlantStage.kt:105-113 | a successor exactly when the stage is in the list and not last; it sits one position further on, so it differs from the stage and is never MUERTA or SEMILLA |
| PlantStages.StageDuration | app/src/main/java/com/example/miprimerhuerto/ui/viewmodel/GameViewModel.kt:130 | the stage's share of the growth time, rounded down to whole milliseconds, never negative |
| PlantStages.SharesSumToWhole | app/src/main/java/com/example/miprimerhuerto/data/model/PlantStage.kt:30-94 | the duration shares of each list add up to exactly the whole growth time |
| PlantStages.LastStageHasNoSuccessor | app/src/main/java/com/example/miprimerhuerto/data/model/PlantStage.kt:108-112 | COSECHABLE on a crop and FLORECIMIENTO on a flower have no successor |
| PlantStages.OffListHasNoSuccessor | app/src/main/java/com/example/miprimerhuerto/data/model/PlantStage.kt:108-112 | a stage outside the plant's list (MUERTA, MADURO on a flower, FLORECIMIENTO on a crop) has neither a successor nor stage info |
| PlantStages.SuccessorAt | app/src/main/java/com/example/miprimerhuerto/data/model/PlantStage.kt:108-109 | the successor of the stage at position k is the stage at position k+1 |
| PlantStages.EarlySuccessors | app/src/main/java/com/example/miprimerhuerto/data/model/PlantStage.kt:105-113 | in both lists SEMILLA is followed by GERMINACION, then PLANTULA, then JOVEN |
| PlantStages.HarvestableSuccessors | app/src/main/java/com/example/miprimerhuerto/data/model/PlantStage.kt:25-62 | a crop goes on from JOVEN to MADURO and from MADURO to COSECHABLE |
| PlantStages.DecorativeSuccessors | app/src/main/java/com/example/miprimerhuerto/data/model/PlantStage.kt:64-95 | a flower goes from JOVEN straight to FLORECIMIENTO |
| PlantStages.CropListSuccessors | app/src/main/java/com/example/miprimerhuerto/data/model/PlantStage.kt:105-113 | on every stage of the crop list, `getNextStage` agrees with the written-out stage order |
| PlantStages.CropSuccessors | app/src/main/java/com/example/miprimerhuerto/data/model/PlantStage.kt:105-113 | on every stage, `getNextStage` of a crop agrees with the written-out stage order |
| PlantStages.FlowerListSuccessors | app/src/main/java/com/example/miprimerhuerto/data/model/PlantStage.kt:105-113 | on every stage of the flower list, `getNextStage` agrees with the written-out stage order |
| PlantStages.FlowerSuccessors | app/src/main/java/com/example/miprimerhuerto/data/model/PlantStage.kt:105-113 | on every stage, `getNextStage` of a flower agrees with the written-out stage order |
| PlantStages.NextStageMatchesTable | app/src/main/java/com/example/miprimerhuerto/data/model/PlantStage.kt:105-113 | `getNextStage` equals the independent written-out successor table for every stage and both kinds of plant |
| Plants.NewPlant | app/src/main/java/com/example/miprimerhuerto/data/model/Plant.kt:6-15 | a fresh plant is a live, healthy SEMILLA at full health and water, without pest, needing no water, not harvestable, with every elapsed time zero and no fertilizer time |
| Plants.IsDead | app/src/main/java/com/example/miprimerhuerto/data/model/Plant.kt:17 | dead exactly when health is at most 0 or the stage is MUERTA |
| Plants.NeedsWater | app/src/main/java/com/example/miprimerhuerto/data/model/Plant.kt:19 | needs water exactly below 50 water |
| Plants.NeedsUrgentWater | app/src/main/java/com/example/miprimerhuerto/data/model/Plant.kt:19-21 | urgent need of water (below 25) implies need of water (below 50) |
| Plants.IsHealthy | app/src/main/java/com/example/miprimerhuerto/data/model/Plant.kt:23 | a healthy plant has positive health and needs no water |
| Plants.CanHarvest | app/src/main/java/com/example/miprimerhuerto/data/model/Plant.kt:25-28 | harvestable exactly for a crop species in COSECHABLE with positive health; a harvestable plant is never dead |
| Plants.TimeInCurrentStage | app/src/main/java/com/example/miprimerhuerto/data/model/Plant.kt:30-32 | the stage start plus the elapsed time is the clock |
| Plants.PlantAge | app/src/main/java/com/example/miprimerhuerto/data/model/Plant.kt:34-36 | the planting time plus the age is the clock |
| Plants.TimeSinceLastWater | app/src/main/java/com/example/miprimerhuerto/data/model/Plant.kt:38-40 | the last watering plus the elapsed time is the clock |
| Plants.TimeSinceLastFertilizer | app/src/main/java/com/example/miprimerhuerto/data/model/Plant.kt:42-44 | none exactly when the plant was never fertilized, else the last fertilizing plus the elapsed time is the clock |
| GameStates.DefaultGameState | app/src/main/java/com/example/miprimerhuerto/data/model/GameState.kt:6-26 | a first run: no user or plant, zero currencies and counters, three bean seeds and one radish and one lettuce; those three can be planted; only the bean seed can be bought, nothing else |
| GameStates.HasPlant | app/src/main/java/com/example/miprimerhuerto/data/model/GameState.kt:27 | a plant is present and it is not dead |
| GameStates.SeedCount | app/src/main/java/com/example/miprimerhuerto/data/model/GameState.kt:30 | the owned count of a kind, 0 for a kind missing from the map |
| GameStates.CanPlant | app/src/main/java/com/example/miprimerhuerto/data/model/GameState.kt:29-31 | planting needs at least one seed of the kind and no live plant; with no plant or over a dead plant it depends on the seeds alone |
| GameStates.CanBuySeed | app/src/main/java/com/example/miprimerhuerto/data/model/GameState.kt:33-36 | the seed guard compares the coins, not the points, with the price; the free bean seed passes whenever the coins are not negative |
| GameStates.CanBuyFertilizer | app/src/main/java/com/example/miprimerhuerto/data/model/GameState.kt:38-40 | the fertilizer guard is coins of at least 10 |
| GameStates.CanBuyPesticide | app/src/main/java/com/example/miprimerhuerto/data/model/GameState.kt:42-44 | the pesticide guard is coins of at least 15, so it implies the fertilizer guard |
| Reducer.WaterPerSecond | app/src/main/java/com/example/miprimerhuerto/ui/viewmodel/GameViewModel.kt:58 | the water consumed per one-second tick is positive |
| Reducer.WaterDamage | app/src/main/java/com/example/miprimerhuerto/ui/viewmodel/GameViewModel.kt:66-70 | 0.5 exactly below 25 water, 0.1 exactly from 25 up to 50, none from 50 up: never both penalties |
| Reducer.PestDamage | app/src/main/java/com/example/miprimerhuerto/ui/viewmodel/GameViewModel.kt:73-75 | 0.3 exactly when the plant has a pest |
| Reducer.PestAppears | app/src/main/java/com/example/miprimerhuerto/ui/viewmodel/GameViewModel.kt:91-93 | a pest appears exactly on a pest-free plant whose new health is below 80 and whose draw is below 0.0008; never for a draw of 0.0008 or more |
| Reducer.Recovery | app/src/main/java/com/example/miprimerhuerto/ui/viewmodel/GameViewModel.kt:78-80 | 0.05 exactly when water is at least 50, there is no pest and health is below 100 |
| Reducer.HealthAfterTick | app/src/main/java/com/example/miprimerhuerto/ui/viewmodel/GameViewModel.kt:61-82 | health after the penalties and recovery, clamped: it stays in [0, 100], rises exactly when recovery applies, moves by at most -0.8 and +0.05, and drops by the full 0.8 when water is critical and a pest is present |
| Reducer.CheckStageProgression | app/src/main/java/com/example/miprimerhuerto/ui/viewmodel/GameViewModel.kt:123-137 | MUERTA stays MUERTA; otherwise the stage either stays or becomes its successor, and it changes exactly when the stage is in the list, its share of the growth time has passed and a successor exists |
| Reducer.StageEvent | app/src/main/java/com/example/miprimerhuerto/ui/viewmodel/GameViewModel.kt:113-117 | COSECHABLE announces a ripe plant, MUERTA a death, every other new stage a stage change |
| Reducer.TickPlant | app/src/main/java/com/example/miprimerhuerto/ui/viewmodel/GameViewModel.kt:54-106 | water decays by the per-second rate within [0, 100]; health follows the tick rule; zero health means MUERTA, otherwise the stage progresses; a pest never clears and appears only below 80 health on a low draw; the stage start resets exactly with a stage change; other fields stay |
| Reducer.TickNeverRegresses | app/src/main/java/com/example/miprimerhuerto/data/model/PlantStage.kt:107-109 | after a tick the plant keeps its stage, dies, or moves exactly one position forward along its list |
| Reducer.TickEvents | app/src/main/java/com/example/miprimerhuerto/ui/viewmodel/GameViewModel.kt:96-118 | at most two events: a pest event exactly for a new pest, a death event exactly when the stage becomes MUERTA, a ripeness event exactly when it becomes COSECHABLE, none when nothing changed |
| Reducer.Tick | app/src/main/java/com/example/miprimerhuerto/ui/viewmodel/GameViewModel.kt:48-121 | no plant or a dead plant: nothing happens; otherwise only the plant changes, to the ticked plant, with its events; levels stay in range and coins and points never change |
| Reducer.RegisterUser | app/src/main/java/com/example/miprimerhuerto/ui/viewmodel/GameViewModel.kt:140-150 | the user is set with the registration time, first-run is cleared, nothing else changes, one event |
| Reducer.PlantSeed | app/src/main/java/com/example/miprimerhuerto/ui/viewmodel/GameViewModel.kt:152-169 | without `canPlant` nothing happens; otherwise a fresh plant of the kind, exactly one seed of that kind fewer (never below 0), other seeds and fields unchanged, one event; the death count never changes |
| Reducer.WaterPlant | app/src/main/java/com/example/miprimerhuerto/ui/viewmodel/GameViewModel.kt:171-216 | no live plant: nothing; full water: health drops by 10 (not below 0), points stay, overwatering event; otherwise water rises within [0, 100] and 5 points and the watering event come exactly when the water rose; only plant and points change |
| Reducer.ApplyFertilizer | app/src/main/java/com/example/miprimerhuerto/ui/viewmodel/GameViewModel.kt:218-238 | needs a live plant and a fertilizer; then health rises by 30 capped at 100, one fertilizer fewer, 10 points more, one event; otherwise nothing |
| Reducer.RemovePest | app/src/main/java/com/example/miprimerhuerto/ui/viewmodel/GameViewModel.kt:240-257 | acts exactly when a plant with a pest and a pesticide exist, dead or alive; then the pest is gone, one pesticide fewer, 15 points more, one event |
| Reducer.HarvestPlant | app/src/main/java/com/example/miprimerhuerto/ui/viewmodel/GameViewModel.kt:259-277 | acts exactly when the plant can be harvested; then the pot is empty, the species' harvest points are added and the harvest count rises by one |
| Reducer.RemovePlant | app/src/main/java/com/example/miprimerhuerto/ui/viewmodel/GameViewModel.kt:279-296 | any plant leaves the pot, the death count rises by one exactly when it was dead, nothing else changes |
| Reducer.BuySeed | app/src/main/java/com/example/miprimerhuerto/ui/viewmodel/GameViewModel.kt:298-314 | guarded on coins; then one more seed of the kind, other seeds unchanged, the price taken from the points, coins untouched |
| Reducer.BuyFertilizer | app/src/main/java/com/example/miprimerhuerto/ui/viewmodel/GameViewModel.kt:316-328 | guarded on coins; then one more fertilizer and 10 points fewer |
| Reducer.BuyPesticide | app/src/main/java/com/example/miprimerhuerto/ui/viewmodel/GameViewModel.kt:330-342 | guarded on coins; then one more pesticide and 15 points fewer |
| Reducer.DebugNextStage | app/src/main/java/com/example/miprimerhuerto/ui/viewmodel/GameViewModel.kt:430-439 | the debug cycle always moves to another stage and never to MUERTA |
| Reducer.DebugNextStageFollowsNextStage | app/src/main/java/com/example/miprimerhuerto/ui/viewmodel/GameViewModel.kt:430-439 | the debug cycle takes the ordinary successor where one exists, except from JOVEN on a flower where it visits MADURO, which the flower list lacks; without a successor it restarts at SEMILLA, except from that MADURO |
| Reducer.TriggerDebugStageChange | app/src/main/java/com/example/miprimerhuerto/ui/viewmodel/GameViewModel.kt:422-454 | with debug on, any present plant, dead or alive, takes the next debug stage and restarts its stage clock; otherwise nothing; no event |
| Reducer.TriggerDebugPest | app/src/main/java/com/example/miprimerhuerto/ui/viewmodel/GameViewModel.kt:392-405 | with debug on, any present plant gets a pest; no plant: nothing; no event |
| Reducer.TriggerDebugLowWater | app/src/main/java/com/example/miprimerhuerto/ui/viewmodel/GameViewModel.kt:407-420 | with debug on, any present plant drops to 20 water, which needs urgent watering; no plant: nothing; no event |
| GameRun.Apply | app/src/main/java/com/example/miprimerhuerto/ui/viewmodel/GameViewModel.kt:140-342 | no single operation changes the coins, breaks the level and count invariant, or lowers the points unless it is a purchase |
| GameRun.Run | app/src/main/java/com/example/miprimerhuerto/ui/viewmodel/GameViewModel.kt:140-342 | over any sequence of operations the coins never change, the invariant holds, and without purchases the points never fall |
| GameRun.PennilessActionKeepsPoints | app/src/main/java/com/example/miprimerhuerto/data/model/GameState.kt:33-44 | with zero coins no operation lowers the points, because only the free bean seed passes a purchase guard |
| GameRun.PennilessRunKeepsPoints | app/src/main/java/com/example/miprimerhuerto/data/model/GameState.kt:33-44 | with zero coins the points never fall over any sequence of operations |
| GameRun.FreshGameShopStaysClosed | app/src/main/java/com/example/miprimerhuerto/data/model/GameState.kt:6-44 | from a new game the coins stay 0 for ever, so only the free bean seed can ever be bought, and the points never go negative |
| GameRun.TicksKeepPest | app/src/main/java/com/example/miprimerhuerto/ui/viewmodel/GameViewModel.kt:104 | the clock alone never clears a pest or empties the pot |
| GameRun.DeadPlantStaysDead | app/src/main/java/com/example/miprimerhuerto/ui/viewmodel/GameViewModel.kt:52 | a dead plant keeps its health and stage under every operation except planting over it and the debug stage change |
| GameRun.OverwateringKillsWithoutMuerta | app/src/main/java/com/example/miprimerhuerto/ui/viewmodel/GameViewModel.kt:179-191 | overwatering a full plant with at most 10 health leaves it at 0 health, dead, in its old stage rather than MUERTA, without a death event, and frozen for the clock |
| GameRun.PlantingOverDeadPlantSkipsDeathCount | app/src/main/java/com/example/miprimerhuerto/data/model/GameState.kt:29-31 | planting over a dead plant leaves the death count as it was, one less than clearing the pot first |
| ViewModel.GameViewModel.constructor | app/src/main/java/com/example/miprimerhuerto/ui/viewmodel/GameViewModel.kt:19 | a new view model holds the default snapshot and has emitted nothing |
| ViewModel.GameViewModel.Emit | app/src/main/java/com/example/miprimerhuerto/ui/viewmodel/GameViewModel.kt:383-389 | publishing an event appends it to the emitted events and leaves the snapshot |
| ViewModel.GameViewModel.Save | app/src/main/java/com/example/miprimerhuerto/ui/viewmodel/GameViewModel.kt:344-347 | saving replaces the snapshot and emits nothing |
| ViewModel.GameViewModel.TickHealth | app/src/main/java/com/example/miprimerhuerto/ui/viewmodel/GameViewModel.kt:61-82 | the step-by-step health adjustments end at the tick's health rule |
| ViewModel.GameViewModel.AnnounceStage | app/src/main/java/com/example/miprimerhuerto/ui/viewmodel/GameViewModel.kt:113-117 | emits exactly the stage event of the change |
| ViewModel.GameViewModel.UpdatePlantState | app/src/main/java/com/example/miprimerhuerto/ui/viewmodel/GameViewModel.kt:48-121 | the snapshot becomes the tick's snapshot and the emitted events grow by the tick's events, pest first; the invariant is kept |
| ViewModel.GameViewModel.RegisterUser | app/src/main/java/com/example/miprimerhuerto/ui/viewmodel/GameViewModel.kt:140-150 | snapshot and events are those of the registration step; the invariant is kept |
| ViewModel.GameViewModel.PlantSeed | app/src/main/java/com/example/miprimerhuerto/ui/viewmodel/GameViewModel.kt:152-169 | the in-place seed update produces the planting step; the invariant is kept |
| ViewModel.GameViewModel.WaterPlant | app/src/main/java/com/example/miprimerhuerto/ui/viewmodel/GameViewModel.kt:171-216 | snapshot and events are those of the watering step; the invariant is kept |
| ViewModel.GameViewModel.ApplyFertilizer | app/src/main/java/com/example/miprimerhuerto/ui/viewmodel/GameViewModel.kt:218-238 | snapshot and events are those of the fertilizer step; the invariant is kept |
| ViewModel.GameViewModel.RemovePest | app/src/main/java/com/example/miprimerhuerto/ui/viewmodel/GameViewModel.kt:240-257 | snapshot and events are those of the pest treatment step; the invariant is kept |
| ViewModel.GameViewModel.HarvestPlant | app/src/main/java/com/example/miprimerhuerto/ui/viewmodel/GameViewModel.kt:259-277 | snapshot and events are those of the harvest step; the invariant is kept |
| ViewModel.GameViewModel.RemovePlant | app/src/main/java/com/example/miprimerhuerto/ui/viewmodel/GameViewModel.kt:279-296 | snapshot and events are those of the removal step; the invariant is kept |
| ViewModel.GameViewModel.BuySeed | app/src/main/java/com/example/miprimerhuerto/ui/viewmodel/GameViewModel.kt:298-314 | the in-place seed update produces the seed purchase step; the invariant is kept |
| ViewModel.GameViewModel.BuyFertilizer | app/src/main/java/com/example/miprimerhuerto/ui/viewmodel/GameViewModel.kt:316-328 | snapshot and events are those of the fertilizer purchase step; the invariant is kept |
| ViewModel.GameViewModel.BuyPesticide | app/src/main/java/com/example/miprimerhuerto/ui/viewmodel/GameViewModel.kt:330-342 | snapshot and events are those of the pesticide purchase step; the invariant is kept |
| ViewModel.GameViewModel.TriggerDebugPest | app/src/main/java/com/example/miprimerhuerto/ui/viewmodel/GameViewModel.kt:392-405 | the snapshot becomes that of the debug pest step and nothing is emitted |
| ViewModel.GameViewModel.TriggerDebugLowWater | app/src/main/java/com/example/miprimerhuerto/ui/viewmodel/GameViewModel.kt:407-420 | the snapshot becomes that of the debug low-water step and nothing is emitted |
| ViewModel.GameViewModel.TriggerDebugStageChange | app/src/main/java/com/example/miprimerhuerto/ui/viewmodel/GameViewModel.kt:422-454 | the `when` over the stage produces the debug stage step; nothing is emitted |
| TimeUtils.GreetingsDiffer | app/src/main/java/com/example/miprimerhuerto/utils/TimeUtils.kt:60-63 | the three greetings are pairwise different texts |
| TimeUtils.TimeOfDayString | app/src/main/java/com/example/miprimerhuerto/utils/TimeUtils.kt:56-65 | morning exactly for hours 6 to 11, afternoon exactly for 12 to 20 (both arms), night exactly otherwise |
| PlantInfoScreen.DurationParts | app/src/main/java/com/example/miprimerhuerto/ui/screens/PlantInfoScreen.kt:405-406 | for a non-negative duration: the whole hours, and minutes in [0, 60) that together make its whole minutes |
| PlantInfoScreen.FormatDuration | app/src/main/java/com/example/miprimerhuerto/ui/screens/PlantInfoScreen.kt:404-413 | "{h}h {m}m" from an hour up, "{m}m" from a minute up, and the just-planted text exactly below one minute |
| PlantInfoScreen.Ago | app/src/main/java/com/example/miprimerhuerto/ui/screens/PlantInfoScreen.kt:422-424 | the "Hace" template starts with H and is longer than its prefix |
| PlantInfoScreen.FormatTimeAgo | app/src/main/java/com/example/miprimerhuerto/ui/screens/PlantInfoScreen.kt:415-427 | only the largest whole unit among days, hours and minutes is shown, and "Ahora mismo" exactly below one minute, past or future |
| PlantInfoScreen.ReadRendered | app/src/main/java/com/example/miprimerhuerto/ui/screens/PlantInfoScreen.kt:422-424 | reading a rendered count and unit gives them back |
| PlantInfoScreen.TimeAgoReadsBack | app/src/main/java/com/example/miprimerhuerto/ui/screens/PlantInfoScreen.kt:415-427 | the text states exactly the whole number of days, hours or minutes elapsed in the largest non-zero unit, and carries no count under a minute |
| HomeScreen.Greeting | app/src/main/java/com/example/miprimerhuerto/ui/screens/HomeScreen.kt:40-47 | morning exactly for hours 5 to 11, afternoon exactly for 12 to 19, night exactly otherwise |
| HomeScreen.GreetingAgreesWithTimeOfDay | app/src/main/java/com/example/miprimerhuerto/ui/screens/HomeScreen.kt:42-46 | over the hours of a day the two greeting helpers agree except at 5 and 20 |
| HomeScreen.ShowsCountdown | app/src/main/java/com/example/miprimerhuerto/ui/screens/HomeScreen.kt:380 | the countdown card appears exactly over a live plant |
| HomeScreen.TimeRemaining | app/src/main/java/com/example/miprimerhuerto/ui/screens/HomeScreen.kt:791-799 | no countdown exactly off the list or in COSECHABLE or FLORECIMIENTO; otherwise the stage's share minus the time spent in it, never below 0 |
| HomeScreen.CountdownText | app/src/main/java/com/example/miprimerhuerto/ui/screens/HomeScreen.kt:802-847 | hours and minutes past the hour from one hour up, else whole minutes |
| HomeScreen.CountdownMatchesFormatDuration | app/src/main/java/com/example/miprimerhuerto/ui/screens/HomeScreen.kt:843-847 | from one minute up the countdown reads like `formatDuration`; below it shows "0m", which `formatDuration` never does |
| HomeScreen.TimeToNextStage | app/src/main/java/com/example/miprimerhuerto/ui/screens/HomeScreen.kt:782-847 | a text exactly when there is a countdown, and then its countdown text |
| HomeScreen.CountdownEndsWithStageChange | app/src/main/java/com/example/miprimerhuerto/ui/screens/HomeScreen.kt:797-799 | for a live plant with a countdown, it shows zero exactly when stage progression would move the plant on |
| HomeScreen.PlantButtonFor | app/src/main/java/com/example/miprimerhuerto/ui/screens/HomeScreen.kt:617-633 | the harvest button exactly for a harvestable plant, the clear button exactly for a dead one, neither otherwise |
| HomeScreen.WaterEnabled | app/src/main/java/com/example/miprimerhuerto/ui/screens/HomeScreen.kt:552 | the water button is enabled exactly over a live plant |
| HomeScreen.FertilizeEnabled | app/src/main/java/com/example/miprimerhuerto/ui/screens/HomeScreen.kt:605 | "Fertilizar" is enabled exactly over a live plant with a fertilizer in stock |
| HomeScreen.AntiPestEnabled | app/src/main/java/com/example/miprimerhuerto/ui/screens/HomeScreen.kt:613 | "Anti-Plaga" is enabled exactly over a live plant with a pest and a pesticide in stock, and only when watering is enabled |
| HomeScreen.SeedChoices | app/src/main/java/com/example/miprimerhuerto/ui/screens/HomeScreen.kt:733-734 | the dialog offers exactly the kinds with a positive seed count |
| HomeScreen.WaterButtonMatchesHandler | app/src/main/java/com/example/miprimerhuerto/ui/screens/HomeScreen.kt:592-595 | a disabled water button stands for a watering that changes nothing; an enabled one always records the watering or emits |
| HomeScreen.FertilizeButtonMatchesHandler | app/src/main/java/com/example/miprimerhuerto/ui/screens/HomeScreen.kt:601-607 | "Fertilizar" is enabled exactly when `applyFertilizer` would act |
| HomeScreen.AntiPestButtonMatchesHandler | app/src/main/java/com/example/miprimerhuerto/ui/screens/HomeScreen.kt:609-615 | an enabled "Anti-Plaga" means `removePest` acts; the handler also acts on a dead plant with a pest, which the button does not offer |
| HomeScreen.PlantButtonMatchesHandlers | app/src/main/java/com/example/miprimerhuerto/ui/screens/HomeScreen.kt:617-633 | "Cosechar" is offered exactly when `harvestPlant` acts, and "Limpiar" clears a plant that counts as a death |
| HomeScreen.SeedDialogMatchesCanPlant | app/src/main/java/com/example/miprimerhuerto/ui/screens/HomeScreen.kt:733-734 | with no live plant, the dialog offers exactly the kinds `plantSeed` accepts |

## Left out

- The game loop `startGameLoop` (`delay(1000)` forever) is not modelled: each tick is one call of `UpdatePlantState`, and any order of calls is covered by `GameRun.Run`.
- `viewModelScope.launch` is not modelled: every handler runs as one atomic step. The debug handlers read the snapshot before launching the save; that window is not modelled.
- Clearing the published event (`clearEvent`, which sets it back to null) is not modelled. The model's `emitted` log only grows.
- `emitEvent` publishes through a `StateFlow` that clears itself after 100 ms. The model keeps every event in the `emitted` log, so an event overwritten before the screens read it is not modelled.
- `loadGameState` and the repository's DataStore and JSON persistence are outside the model: `saveGameState` is the field assignment.
- `sendStageChangeNotification`, the notification worker and service, the shake sensor, `MainActivity` and all Compose layout, drawing, colours and navigation are Android services or presentation, and are outside the model.
- `getBackgroundForTime` returns a UI gradient and is not modelled. The one-second refresh loop inside `TimeToNextStage` is UI timing and is not modelled either.
- Float arithmetic is replaced by exact reals. In the shipped debug build every Float stage threshold rounds to the same whole milliseconds as the exact share. In the production build one does not: GIRASOL's FLORECIMIENTO share is 54000000 × 0.30f, which Float computes as 16200001 ms against the exact 16200000. FLORECIMIENTO has no successor and shows no countdown, so no progression or screen reads that value. Float drift in the per-second water and health steps is not modelled.
- Kotlin `Int` overflow of points, coins and counts is not modelled: the model's integers are unbounded. Long overflow of timestamps is not modelled either.
- Each handler reads the clock once as `now`. In the Kotlin code the separate `System.currentTimeMillis()` reads of one handler may differ by a few milliseconds.
- `plantSeed` sets a `lastNotifiedStage` field that `GameState` does not declare; the model omits it.
- The species' `detailedDescription` texts are display copy and are not modelled.
- The order of the seed dialog (the `ownedSeeds` map's iteration order) is not modelled: `HomeScreen.SeedChoices` is a set.
- The hold-to-water gesture waters 2 at a time while the click waters 10. The model takes any amount as a parameter of `WaterPlant`; the button's press timing is UI.
