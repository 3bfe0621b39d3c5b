/**
 * `GameViewModel`: the object the screens talk to. It holds the current
 * snapshot and the stream of emitted events, and updates them step by step
 * as the Kotlin handlers do. Each handler is proved to produce exactly the
 * step of the matching reducer function.
 */
module ViewModel {
  import opened Wrappers
  import opened KotlinMath
  import opened PlantTypes
  import opened PlantStages
  import opened Plants
  import opened GameStates
  import opened Reducer
  import DebugConfig

  /** Emitting two batches in turn emits their concatenation. */
  lemma AppendTwice(log: seq<UiEvent>, first: seq<UiEvent>, second: seq<UiEvent>)
    ensures (log + first) + second == log + (first + second)
  {
  }

  class GameViewModel {
    /** `_gameState`: the snapshot the screens observe and the repository stores. */
    var gameState: GameState
    /** Every event `emitEvent` has published, oldest first. */
    var emitted: seq<UiEvent>

    /**
     * The snapshot invariant `Reducer.WellFormed` (levels in 0..100 and no
     * negative count). Every handler keeps it;
     * no handler needs it, since each one's new state is given by its
     * `Reducer` step whatever the old state was.
     */
    ghost predicate Valid()
      reads this
    {
      WellFormed(gameState)
    }

    /** A fresh view model starts from the default snapshot. */
    constructor ()
      ensures gameState == DefaultGameState() && emitted == []
      ensures Valid()
    {
      gameState := DefaultGameState();
      emitted := [];
    }

    /** `emitEvent`. */
    method Emit(e: UiEvent)
      modifies this
      ensures gameState == old(gameState) && emitted == old(emitted) + [e]
    {
      emitted := emitted + [e];
    }

    /** `saveGameState`: publish (and persist) a new snapshot. */
    method Save(newState: GameState)
      modifies this
      ensures gameState == newState && emitted == old(emitted)
    {
      gameState := newState;
    }

    /** `updatePlantState`, run by the game loop once a second. */
    method UpdatePlantState(now: int, roll: real)
      modifies this
      ensures var r := Tick(old(gameState), now, roll); gameState == r.state && emitted == old(emitted) + r.events
      ensures old(Valid()) ==> Valid()
    {
      var currentState := gameState;
      if currentState.currentPlant.None? {
        assert emitted == emitted + [];
        return;
      }
      var plant := currentState.currentPlant.value;
      if IsDead(plant) {
        assert emitted == emitted + [];
        return;
      }
      var plantInfo := GetInfo(plant.plantType);
      var waterPerSecond := plantInfo.waterConsumptionRate / SECONDS_PER_HOUR;
      var newWaterLevel := Clamp(plant.waterLevel - waterPerSecond, 0.0, 100.0);
      var newHealth := TickHealth(plant.health, newWaterLevel, plant.hasPest);
      var newStage := if newHealth <= 0.0 then MUERTA else CheckStageProgression(plant, plantInfo, now);
      var shouldGeneratePest := !plant.hasPest && newHealth < PEST_HEALTH_THRESHOLD && roll < PEST_PROBABILITY;
      var before := emitted;
      if shouldGeneratePest {
        Emit(PestAppeared);
      }
      var updatedPlant := plant.(waterLevel := newWaterLevel, health := newHealth, stage := newStage,
                                 hasPest := plant.hasPest || shouldGeneratePest,
                                 stageStartedAt := if newStage != plant.stage then now else plant.stageStartedAt);
      TickPlantFromParts(plant, now, roll, newWaterLevel, newHealth, newStage, plant.hasPest || shouldGeneratePest);
      ghost var pestEvents: seq<UiEvent> := if shouldGeneratePest then [PestAppeared] else [];
      ghost var stageEvents: seq<UiEvent> := if newStage != plant.stage then [StageEvent(plant.stage, newStage)] else [];
      assert emitted == before + pestEvents;
      ghost var afterPest := emitted;
      if newStage != plant.stage {
        AnnounceStage(plant.stage, newStage);
      }
      assert emitted == afterPest + stageEvents;
      assert TickEvents(plant, updatedPlant) == pestEvents + stageEvents;
      AppendTwice(before, pestEvents, stageEvents);
      Save(currentState.(currentPlant := Some(updatedPlant)));
    }

    /** The health adjustments of `updatePlantState`, applied one after another. */
    static method TickHealth(health: real, newWaterLevel: real, hasPest: bool) returns (newHealth: real)
      ensures newHealth == HealthAfterTick(health, newWaterLevel, hasPest)
    {
      newHealth := health;
      if newWaterLevel < CRITICAL_WATER {
        newHealth := newHealth - CRITICAL_WATER_DAMAGE;
      } else if newWaterLevel < LOW_WATER {
        newHealth := newHealth - LOW_WATER_DAMAGE;
      }
      if hasPest {
        newHealth := newHealth - PEST_DAMAGE;
      }
      if newWaterLevel >= LOW_WATER && !hasPest && newHealth < 100.0 {
        newHealth := newHealth + RECOVERY;
      }
      newHealth := Clamp(newHealth, 0.0, 100.0);
    }

    /** The `when (newStage)` of `updatePlantState`: one event per stage change. */
    method AnnounceStage(oldStage: PlantStage, newStage: PlantStage)
      modifies this
      ensures gameState == old(gameState) && emitted == old(emitted) + [StageEvent(oldStage, newStage)]
    {
      match newStage
      case COSECHABLE => Emit(PlantReadyToHarvest);
      case MUERTA => Emit(PlantDied);
      case _ => Emit(StageChanged(oldStage, newStage));
    }

    /** `registerUser`: the account is created at `now`. */
    method RegisterUser(name: string, gender: Gender, now: int)
      modifies this
      ensures var r := Reducer.RegisterUser(old(gameState), name, gender, now);
        gameState == r.state && emitted == old(emitted) + r.events
      ensures old(Valid()) ==> Valid()
    {
      var user := User(name, gender, now);
      var newState := gameState.(user := Some(user), isFirstTime := false);
      Save(newState);
      Emit(UserRegistered);
    }

    /** `plantSeed`. */
    method PlantSeed(plantType: PlantType, now: int)
      modifies this
      ensures var r := Reducer.PlantSeed(old(gameState), plantType, now);
        gameState == r.state && emitted == old(emitted) + r.events
      ensures old(Valid()) ==> Valid()
    {
      var currentState := gameState;
      if !CanPlant(currentState, plantType) {
        assert emitted == emitted + [];
        return;
      }
      var newPlant := NewPlant(plantType, now);
      var updatedSeeds := currentState.ownedSeeds;
      updatedSeeds := updatedSeeds[plantType := (if plantType in updatedSeeds then updatedSeeds[plantType] else 0) - 1];
      Save(currentState.(currentPlant := Some(newPlant), ownedSeeds := updatedSeeds));
      Emit(SeedPlanted(plantType));
    }

    /** `waterPlant(amount)`; the screens pass the default amount of 10. */
    method WaterPlant(amount: real, now: int)
      modifies this
      ensures var r := Reducer.WaterPlant(old(gameState), amount, now);
        gameState == r.state && emitted == old(emitted) + r.events
      ensures old(Valid()) ==> Valid()
    {
      var currentState := gameState;
      if currentState.currentPlant.None? {
        assert emitted == emitted + [];
        return;
      }
      var plant := currentState.currentPlant.value;
      if IsDead(plant) {
        assert emitted == emitted + [];
        return;
      }
      if plant.waterLevel >= 100.0 {
        var overwateredPlant := plant.(health := AtLeast(plant.health - OVERWATER_DAMAGE, 0.0), lastWatered := now);
        Save(currentState.(currentPlant := Some(overwateredPlant)));
        Emit(Overwatered);
      } else {
        var newWaterLevel := Clamp(plant.waterLevel + amount, 0.0, 100.0);
        var actualIncrement := newWaterLevel - plant.waterLevel;
        var wateredPlant := plant.(waterLevel := newWaterLevel, lastWatered := now);
        var pointsToAdd := if actualIncrement > 0.0 then WATER_POINTS else 0;
        Save(currentState.(currentPlant := Some(wateredPlant), points := currentState.points + pointsToAdd));
        if pointsToAdd > 0 {
          Emit(PlantWatered(pointsToAdd));
        } else {
          assert emitted == emitted + [];
        }
      }
    }

    /** `applyFertilizer`. */
    method ApplyFertilizer(now: int)
      modifies this
      ensures var r := Reducer.ApplyFertilizer(old(gameState), now);
        gameState == r.state && emitted == old(emitted) + r.events
      ensures old(Valid()) ==> Valid()
    {
      var currentState := gameState;
      if currentState.currentPlant.None? {
        assert emitted == emitted + [];
        return;
      }
      var plant := currentState.currentPlant.value;
      if IsDead(plant) || currentState.fertilizers <= 0 {
        assert emitted == emitted + [];
        return;
      }
      var fertilizedPlant := plant.(health := AtMost(plant.health + FERTILIZER_BOOST, 100.0), lastFertilized := Some(now));
      Save(currentState.(currentPlant := Some(fertilizedPlant), fertilizers := currentState.fertilizers - 1,
                         points := currentState.points + FERTILIZE_POINTS));
      Emit(FertilizerApplied(FERTILIZE_POINTS));
    }

    /** `removePest`. */
    method RemovePest()
      modifies this
      ensures var r := Reducer.RemovePest(old(gameState));
        gameState == r.state && emitted == old(emitted) + r.events
      ensures old(Valid()) ==> Valid()
    {
      var currentState := gameState;
      if currentState.currentPlant.None? {
        assert emitted == emitted + [];
        return;
      }
      var plant := currentState.currentPlant.value;
      if !plant.hasPest || currentState.pesticides <= 0 {
        assert emitted == emitted + [];
        return;
      }
      var treatedPlant := plant.(hasPest := false);
      Save(currentState.(currentPlant := Some(treatedPlant), pesticides := currentState.pesticides - 1,
                         points := currentState.points + PEST_CONTROL_POINTS));
      Emit(PestRemoved(PEST_CONTROL_POINTS));
    }

    /** `harvestPlant`. */
    method HarvestPlant()
      modifies this
      ensures var r := Reducer.HarvestPlant(old(gameState));
        gameState == r.state && emitted == old(emitted) + r.events
      ensures old(Valid()) ==> Valid()
    {
      var currentState := gameState;
      if currentState.currentPlant.None? {
        assert emitted == emitted + [];
        return;
      }
      var plant := currentState.currentPlant.value;
      if !CanHarvest(plant) {
        assert emitted == emitted + [];
        return;
      }
      var harvestPoints := GetInfo(plant.plantType).harvestPoints;
      Save(currentState.(currentPlant := None, points := currentState.points + harvestPoints,
                         totalPlantsHarvested := currentState.totalPlantsHarvested + 1));
      Emit(PlantHarvested(harvestPoints));
    }

    /** `removePlant`. */
    method RemovePlant()
      modifies this
      ensures var r := Reducer.RemovePlant(old(gameState));
        gameState == r.state && emitted == old(emitted) + r.events
      ensures old(Valid()) ==> Valid()
    {
      var currentState := gameState;
      if currentState.currentPlant.None? {
        assert emitted == emitted + [];
        return;
      }
      var plant := currentState.currentPlant.value;
      var newState := if IsDead(plant) then
          currentState.(currentPlant := None, totalPlantsDied := currentState.totalPlantsDied + 1)
        else currentState.(currentPlant := None);
      Save(newState);
      Emit(PlantRemoved);
    }

    /** `buySeed`. */
    method BuySeed(plantType: PlantType)
      modifies this
      ensures var r := Reducer.BuySeed(old(gameState), plantType);
        gameState == r.state && emitted == old(emitted) + r.events
      ensures old(Valid()) ==> Valid()
    {
      var currentState := gameState;
      if !CanBuySeed(currentState, plantType) {
        assert emitted == emitted + [];
        return;
      }
      var plantInfo := GetInfo(plantType);
      var updatedSeeds := currentState.ownedSeeds;
      updatedSeeds := updatedSeeds[plantType := (if plantType in updatedSeeds then updatedSeeds[plantType] else 0) + 1];
      Save(currentState.(ownedSeeds := updatedSeeds, points := currentState.points - plantInfo.basePrice));
      Emit(SeedPurchased(plantType));
    }

    /** `buyFertilizer`. */
    method BuyFertilizer()
      modifies this
      ensures var r := Reducer.BuyFertilizer(old(gameState));
        gameState == r.state && emitted == old(emitted) + r.events
      ensures old(Valid()) ==> Valid()
    {
      var currentState := gameState;
      if !CanBuyFertilizer(currentState) {
        assert emitted == emitted + [];
        return;
      }
      Save(currentState.(fertilizers := currentState.fertilizers + 1, points := currentState.points - FERTILIZER_COST));
      Emit(FertilizerPurchased);
    }

    /** `buyPesticide`. */
    method BuyPesticide()
      modifies this
      ensures var r := Reducer.BuyPesticide(old(gameState));
        gameState == r.state && emitted == old(emitted) + r.events
      ensures old(Valid()) ==> Valid()
    {
      var currentState := gameState;
      if !CanBuyPesticide(currentState) {
        assert emitted == emitted + [];
        return;
      }
      Save(currentState.(pesticides := currentState.pesticides + 1, points := currentState.points - PESTICIDE_COST));
      Emit(PesticidePurchased);
    }

    /** `triggerDebugPest`. */
    method TriggerDebugPest()
      modifies this
      ensures gameState == Reducer.TriggerDebugPest(old(gameState)).state && emitted == old(emitted)
      ensures old(Valid()) ==> Valid()
    {
      var currentState := gameState;
      if DebugConfig.DEBUG_MODE && currentState.currentPlant.Some? {
        var updatedPlant := currentState.currentPlant.value.(hasPest := true);
        Save(currentState.(currentPlant := Some(updatedPlant)));
      }
    }

    /** `triggerDebugLowWater`. */
    method TriggerDebugLowWater()
      modifies this
      ensures gameState == Reducer.TriggerDebugLowWater(old(gameState)).state && emitted == old(emitted)
      ensures old(Valid()) ==> Valid()
    {
      var currentState := gameState;
      if DebugConfig.DEBUG_MODE && currentState.currentPlant.Some? {
        var updatedPlant := currentState.currentPlant.value.(waterLevel := 20.0);
        Save(currentState.(currentPlant := Some(updatedPlant)));
      }
    }

    /** `triggerDebugStageChange`. */
    method TriggerDebugStageChange(now: int)
      modifies this
      ensures gameState == Reducer.TriggerDebugStageChange(old(gameState), now).state && emitted == old(emitted)
      ensures old(Valid()) ==> Valid()
    {
      var currentState := gameState;
      if DebugConfig.DEBUG_MODE && currentState.currentPlant.Some? {
        var plant := currentState.currentPlant.value;
        var currentStage := plant.stage;
        var nextStage: PlantStage;
        match currentStage {
          case SEMILLA => nextStage := GERMINACION;
          case GERMINACION => nextStage := PLANTULA;
          case PLANTULA => nextStage := JOVEN;
          case JOVEN => nextStage := MADURO;
          case MADURO => nextStage := if GetInfo(plant.plantType).isHarvestable then COSECHABLE else FLORECIMIENTO;
          case COSECHABLE => nextStage := SEMILLA;
          case FLORECIMIENTO => nextStage := SEMILLA;
          case MUERTA => nextStage := SEMILLA;
        }
        var updatedPlant := plant.(stage := nextStage, stageStartedAt := now);
        Save(currentState.(currentPlant := Some(updatedPlant)));
      }
    }
  }
}
