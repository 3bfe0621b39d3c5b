/**
 * The game reducer: every operation of the view model as a function from the
 * current snapshot to the next snapshot and the events it emits. The clock
 * (`now`) and the pest draw of `Math.random()` (`roll`) are inputs.
 */
module Reducer {
  import opened Wrappers
  import opened KotlinMath
  import opened PlantTypes
  import opened PlantStages
  import opened Plants
  import opened GameStates
  import DebugConfig

  /** The transient notifications the view model emits for the screens. */
  datatype UiEvent =
    | UserRegistered
    | SeedPlanted(plantType: PlantType)
    | PlantWatered(pointsEarned: int)
    | FertilizerApplied(pointsEarned: int)
    | PestRemoved(pointsEarned: int)
    | PlantHarvested(pointsEarned: int)
    | PlantRemoved
    | SeedPurchased(plantType: PlantType)
    | FertilizerPurchased
    | PesticidePurchased
    | PestAppeared
    | PlantReadyToHarvest
    | PlantDied
    | Overwatered
    | StageChanged(oldStage: PlantStage, newStage: PlantStage)

  /** The snapshot an operation saves and the events it emits, in emission order. */
  datatype Step = Step(state: GameState, events: seq<UiEvent>)

  const CRITICAL_WATER: real := 25.0
  const LOW_WATER: real := 50.0
  const CRITICAL_WATER_DAMAGE: real := 0.5
  const LOW_WATER_DAMAGE: real := 0.1
  const PEST_DAMAGE: real := 0.3
  const RECOVERY: real := 0.05
  const PEST_HEALTH_THRESHOLD: real := 80.0
  const PEST_PROBABILITY: real := 0.0008
  const OVERWATER_DAMAGE: real := 10.0
  const FERTILIZER_BOOST: real := 30.0
  const SECONDS_PER_HOUR: real := 3600.0

  predicate InRange(x: real) {
    0.0 <= x <= 100.0
  }

  /** What every operation keeps: levels in [0, 100] and no negative count. */
  predicate WellFormed(s: GameState) {
    && (s.currentPlant.Some? ==> InRange(s.currentPlant.value.health) && InRange(s.currentPlant.value.waterLevel))
    && (forall t :: t in s.ownedSeeds ==> s.ownedSeeds[t] >= 0)
    && s.fertilizers >= 0 && s.pesticides >= 0
    && s.totalPlantsHarvested >= 0 && s.totalPlantsDied >= 0
  }

  // ---------------------------------------------------------------------------
  // One second of the game clock (`updatePlantState`)
  // ---------------------------------------------------------------------------

  /** The consumption rate is in percent per hour; one tick is one second. */
  function WaterPerSecond(t: PlantType): (r: real)
    ensures r > 0.0
  {
    GetInfo(t).waterConsumptionRate / SECONDS_PER_HOUR
  }

  /** The water-driven health loss of a tick: critical water and low water never both apply. */
  function WaterDamage(water: real): (d: real)
    ensures d == 0.5 <==> water < 25.0
    ensures d == 0.1 <==> 25.0 <= water < 50.0
    ensures d == 0.0 <==> water >= 50.0
  {
    if water < CRITICAL_WATER then CRITICAL_WATER_DAMAGE
    else if water < LOW_WATER then LOW_WATER_DAMAGE
    else 0.0
  }

  function PestDamage(hasPest: bool): (d: real)
    ensures d == 0.3 <==> hasPest
    ensures d == 0.0 <==> !hasPest
  {
    if hasPest then PEST_DAMAGE else 0.0
  }

  /** The slow recovery: only with enough water, no pest and room to grow. */
  function Recovery(health: real, water: real, hasPest: bool): (g: real)
    ensures g == 0.05 <==> water >= 50.0 && !hasPest && health < 100.0
    ensures g == 0.0 <==> !(water >= 50.0 && !hasPest && health < 100.0)
  {
    if water >= LOW_WATER && !hasPest && health < 100.0 then RECOVERY else 0.0
  }

  /**
   * Health after a tick, given the water level after that tick. The code tests
   * for recovery on the already penalised value; the contract states the
   * stacked form, where all adjustments apply to the old health at once.
   */
  function HealthAfterTick(health: real, water: real, hasPest: bool): (h: real)
    ensures h == Clamp(health - WaterDamage(water) - PestDamage(hasPest) + Recovery(health, water, hasPest), 0.0, 100.0)
    ensures InRange(h)
    ensures InRange(health) ==> (h > health <==> water >= 50.0 && !hasPest && health < 100.0)
    ensures InRange(health) ==> health - 0.8 <= h <= health + 0.05
    ensures water < 25.0 && hasPest && 0.8 <= health <= 100.0 ==> h == health - 0.8
  {
    var damaged := health - WaterDamage(water) - PestDamage(hasPest);
    Clamp(if water >= LOW_WATER && !hasPest && damaged < 100.0 then damaged + RECOVERY else damaged, 0.0, 100.0)
  }

  /** `checkStageProgression`: advance along the plant's list once the stage's share of the growth time has passed. */
  function CheckStageProgression(p: Plant, info: PlantTypeInfo, now: int): (r: PlantStage)
    ensures p.stage == MUERTA ==> r == MUERTA
    ensures r == p.stage || NextStage(p.stage, info.isHarvestable) == Some(r)
    ensures p.stage != MUERTA ==>
      (r != p.stage <==>
        && StageInfo(p.stage, info.isHarvestable).Some?
        && TimeInCurrentStage(p, now) >= StageDuration(info.growthDuration, StageInfo(p.stage, info.isHarvestable).value)
        && NextStage(p.stage, info.isHarvestable).Some?)
  {
    if p.stage == MUERTA then MUERTA
    else
      var timeInStage := TimeInCurrentStage(p, now);
      var stages := StagesForPlant(info.isHarvestable);
      match Find(stages, p.stage)
      case None => p.stage
      case Some(current) =>
        if timeInStage >= StageDuration(info.growthDuration, current) then
          NextStage(p.stage, info.isHarvestable).GetOr(p.stage)
        else p.stage
  }

  /** The pest draw: only a pest-free plant below 80 health can catch one. */
  predicate PestAppears(p: Plant, newHealth: real, roll: real)
    ensures PestAppears(p, newHealth, roll) ==> !p.hasPest && newHealth < 80.0
    ensures PestAppears(p, newHealth, roll) <==> !p.hasPest && newHealth < 80.0 && roll < 0.0008
    ensures roll >= 0.0008 ==> !PestAppears(p, newHealth, roll)
  {
    !p.hasPest && newHealth < PEST_HEALTH_THRESHOLD && roll < PEST_PROBABILITY
  }

  /** The one event announcing a stage change. */
  function StageEvent(oldStage: PlantStage, newStage: PlantStage): (e: UiEvent)
    ensures e == PlantReadyToHarvest <==> newStage == COSECHABLE
    ensures e == PlantDied <==> newStage == MUERTA
    ensures e.StageChanged? <==> newStage != COSECHABLE && newStage != MUERTA
  {
    match newStage
    case COSECHABLE => PlantReadyToHarvest
    case MUERTA => PlantDied
    case _ => StageChanged(oldStage, newStage)
  }

  /** The plant after one tick. */
  function TickPlant(p: Plant, now: int, roll: real): (q: Plant)
    ensures q.waterLevel == Clamp(p.waterLevel - WaterPerSecond(p.plantType), 0.0, 100.0)
    ensures q.health == HealthAfterTick(p.health, q.waterLevel, p.hasPest)
    ensures q.health <= 0.0 ==> q.stage == MUERTA
    ensures q.health > 0.0 ==> q.stage == CheckStageProgression(p, GetInfo(p.plantType), now)
    ensures q.health > 0.0 && p.stage != MUERTA ==> q.stage != MUERTA
    ensures p.hasPest ==> q.hasPest
    ensures q.hasPest && !p.hasPest ==> q.health < 80.0 && roll < PEST_PROBABILITY
    ensures !p.hasPest && q.health < 80.0 && roll < PEST_PROBABILITY ==> q.hasPest
    ensures q.stageStartedAt == now || q.stage == p.stage
    ensures q.stage == p.stage ==> q.stageStartedAt == p.stageStartedAt
    ensures q.plantType == p.plantType && q.plantedAt == p.plantedAt
    ensures q.lastWatered == p.lastWatered && q.lastFertilized == p.lastFertilized
  {
    var water := Clamp(p.waterLevel - WaterPerSecond(p.plantType), 0.0, 100.0);
    var health := HealthAfterTick(p.health, water, p.hasPest);
    var stage := if health <= 0.0 then MUERTA else CheckStageProgression(p, GetInfo(p.plantType), now);
    p.(waterLevel := water, health := health, stage := stage,
       hasPest := p.hasPest || PestAppears(p, health, roll),
       stageStartedAt := if stage != p.stage then now else p.stageStartedAt)
  }

  /** The plant after a tick, assembled from its separately computed parts. */
  lemma TickPlantFromParts(p: Plant, now: int, roll: real, water: real, health: real, stage: PlantStage, pest: bool)
    requires water == Clamp(p.waterLevel - WaterPerSecond(p.plantType), 0.0, 100.0)
    requires health == HealthAfterTick(p.health, water, p.hasPest)
    requires stage == if health <= 0.0 then MUERTA else CheckStageProgression(p, GetInfo(p.plantType), now)
    requires pest == (p.hasPest || PestAppears(p, health, roll))
    ensures TickPlant(p, now, roll) ==
      p.(waterLevel := water, health := health, stage := stage, hasPest := pest,
         stageStartedAt := if stage != p.stage then now else p.stageStartedAt)
  {
  }

  /** A tick never moves a plant back: it stays, dies, or takes exactly one step along its list. */
  lemma TickNeverRegresses(p: Plant, now: int, roll: real)
    ensures var q, h := TickPlant(p, now, roll), GetInfo(p.plantType).isHarvestable;
      || q.stage == p.stage
      || q.stage == MUERTA
      || (Position(q.stage, h) == Position(p.stage, h) + 1 && 0 <= Position(p.stage, h))
  {
  }

  /** The events of a tick: the pest first, then at most one stage event. */
  function TickEvents(p: Plant, q: Plant): (es: seq<UiEvent>)
    ensures |es| <= 2
    ensures PestAppeared in es <==> !p.hasPest && q.hasPest
    ensures PlantDied in es <==> q.stage != p.stage && q.stage == MUERTA
    ensures PlantReadyToHarvest in es <==> q.stage != p.stage && q.stage == COSECHABLE
    ensures es == [] <==> q.stage == p.stage && !(q.hasPest && !p.hasPest)
  {
    (if q.hasPest && !p.hasPest then [PestAppeared] else [])
    + (if q.stage != p.stage then [StageEvent(p.stage, q.stage)] else [])
  }

  /** `updatePlantState`: one second passes. */
  function Tick(s: GameState, now: int, roll: real): (r: Step)
    ensures !HasPlant(s) ==> r == Step(s, [])
    ensures HasPlant(s) ==>
      && r.state == s.(currentPlant := Some(TickPlant(s.currentPlant.value, now, roll)))
      && r.events == TickEvents(s.currentPlant.value, TickPlant(s.currentPlant.value, now, roll))
    ensures WellFormed(s) ==> WellFormed(r.state)
    ensures r.state.coins == s.coins && r.state.points == s.points
  {
    match s.currentPlant
    case None => Step(s, [])
    case Some(p) =>
      if IsDead(p) then Step(s, [])
      else
        var q := TickPlant(p, now, roll);
        Step(s.(currentPlant := Some(q)), TickEvents(p, q))
  }

  // ---------------------------------------------------------------------------
  // Player actions: each either fails its guard and changes nothing, or saves
  // a new snapshot and emits one event.
  // ---------------------------------------------------------------------------

  /** `registerUser`: unguarded. */
  function RegisterUser(s: GameState, name: string, gender: Gender, now: int): (r: Step)
    ensures r.state.user == Some(User(name, gender, now)) && !r.state.isFirstTime
    ensures r.state == s.(user := r.state.user, isFirstTime := false)
    ensures r.events == [UserRegistered]
  {
    Step(s.(user := Some(User(name, gender, now)), isFirstTime := false), [UserRegistered])
  }

  /** `plantSeed`: a fresh seed goes into a pot without a live plant, using up one seed of its kind. */
  function PlantSeed(s: GameState, t: PlantType, now: int): (r: Step)
    ensures !CanPlant(s, t) ==> r == Step(s, [])
    ensures CanPlant(s, t) ==>
      && r.state.currentPlant == Some(NewPlant(t, now))
      && SeedCount(r.state, t) == SeedCount(s, t) - 1 >= 0
      && (forall u :: u != t ==> SeedCount(r.state, u) == SeedCount(s, u))
      && r.state == s.(currentPlant := r.state.currentPlant, ownedSeeds := r.state.ownedSeeds)
      && r.events == [SeedPlanted(t)]
    ensures r.state.totalPlantsDied == s.totalPlantsDied
    ensures WellFormed(s) ==> WellFormed(r.state)
  {
    if !CanPlant(s, t) then Step(s, [])
    else
      var seeds := s.ownedSeeds[t := SeedCount(s, t) - 1];
      Step(s.(currentPlant := Some(NewPlant(t, now)), ownedSeeds := seeds), [SeedPlanted(t)])
  }

  /** `waterPlant(amount)`: water a live plant; a full one is overwatered instead. */
  function WaterPlant(s: GameState, amount: real, now: int): (r: Step)
    ensures !HasPlant(s) ==> r == Step(s, [])
    ensures r.state == s.(currentPlant := r.state.currentPlant, points := r.state.points)
    ensures HasPlant(s) && s.currentPlant.value.waterLevel >= 100.0 ==>
      var p := s.currentPlant.value;
      && r.state.currentPlant == Some(p.(health := AtLeast(p.health - 10.0, 0.0), lastWatered := now))
      && r.state.points == s.points
      && r.events == [Overwatered]
    ensures HasPlant(s) && s.currentPlant.value.waterLevel < 100.0 ==>
      var p := s.currentPlant.value;
      var w := Clamp(p.waterLevel + amount, 0.0, 100.0);
      && r.state.currentPlant == Some(p.(waterLevel := w, lastWatered := now))
      && (r.state.points == s.points + WATER_POINTS <==> w > p.waterLevel)
      && (r.state.points == s.points <==> w <= p.waterLevel)
      && (r.events == [PlantWatered(WATER_POINTS)] <==> w > p.waterLevel)
      && (r.events == [] <==> w <= p.waterLevel)
    ensures r.state.points > s.points <==> PlantWatered(WATER_POINTS) in r.events
    ensures WellFormed(s) ==> WellFormed(r.state)
  {
    match s.currentPlant
    case None => Step(s, [])
    case Some(p) =>
      if IsDead(p) then Step(s, [])
      else if p.waterLevel >= 100.0 then
        Step(s.(currentPlant := Some(p.(health := AtLeast(p.health - OVERWATER_DAMAGE, 0.0), lastWatered := now))),
             [Overwatered])
      else
        var newWater := Clamp(p.waterLevel + amount, 0.0, 100.0);
        var pointsToAdd := if newWater - p.waterLevel > 0.0 then WATER_POINTS else 0;
        Step(s.(currentPlant := Some(p.(waterLevel := newWater, lastWatered := now)), points := s.points + pointsToAdd),
             if pointsToAdd > 0 then [PlantWatered(pointsToAdd)] else [])
  }

  /** `applyFertilizer`: a live plant and one fertilizer give health (capped at 100) and points. */
  function ApplyFertilizer(s: GameState, now: int): (r: Step)
    ensures !(HasPlant(s) && s.fertilizers > 0) ==> r == Step(s, [])
    ensures HasPlant(s) && s.fertilizers > 0 ==>
      var p := s.currentPlant.value;
      && r.state == s.(currentPlant := Some(p.(health := AtMost(p.health + 30.0, 100.0), lastFertilized := Some(now))),
                       fertilizers := s.fertilizers - 1, points := s.points + FERTILIZE_POINTS)
      && r.events == [FertilizerApplied(FERTILIZE_POINTS)]
    ensures WellFormed(s) ==> WellFormed(r.state)
  {
    match s.currentPlant
    case None => Step(s, [])
    case Some(p) =>
      if IsDead(p) || s.fertilizers <= 0 then Step(s, [])
      else
        var fertilized := p.(health := AtMost(p.health + FERTILIZER_BOOST, 100.0), lastFertilized := Some(now));
        Step(s.(currentPlant := Some(fertilized), fertilizers := s.fertilizers - 1, points := s.points + FERTILIZE_POINTS),
             [FertilizerApplied(FERTILIZE_POINTS)])
  }

  /** `removePest`: a plant with a pest and one pesticide; there is no check that the plant lives. */
  function RemovePest(s: GameState): (r: Step)
    ensures r.events != [] <==> s.currentPlant.Some? && s.currentPlant.value.hasPest && s.pesticides > 0
    ensures r.events == [] ==> r.state == s
    ensures r.events != [] ==>
      && r.state == s.(currentPlant := Some(s.currentPlant.value.(hasPest := false)),
                       pesticides := s.pesticides - 1, points := s.points + PEST_CONTROL_POINTS)
      && r.events == [PestRemoved(PEST_CONTROL_POINTS)]
    ensures WellFormed(s) ==> WellFormed(r.state)
  {
    match s.currentPlant
    case None => Step(s, [])
    case Some(p) =>
      if !p.hasPest || s.pesticides <= 0 then Step(s, [])
      else
        Step(s.(currentPlant := Some(p.(hasPest := false)), pesticides := s.pesticides - 1,
                points := s.points + PEST_CONTROL_POINTS),
             [PestRemoved(PEST_CONTROL_POINTS)])
  }

  /** `harvestPlant`: a live crop in COSECHABLE leaves the pot for its harvest points. */
  function HarvestPlant(s: GameState): (r: Step)
    ensures r.events != [] <==> s.currentPlant.Some? && CanHarvest(s.currentPlant.value)
    ensures r.events == [] ==> r.state == s
    ensures r.events != [] ==>
      var points := GetInfo(s.currentPlant.value.plantType).harvestPoints;
      && r.state == s.(currentPlant := None, points := s.points + points,
                       totalPlantsHarvested := s.totalPlantsHarvested + 1)
      && r.events == [PlantHarvested(points)]
    ensures WellFormed(s) ==> WellFormed(r.state)
  {
    match s.currentPlant
    case None => Step(s, [])
    case Some(p) =>
      if !CanHarvest(p) then Step(s, [])
      else
        var harvestPoints := GetInfo(p.plantType).harvestPoints;
        Step(s.(currentPlant := None, points := s.points + harvestPoints,
                totalPlantsHarvested := s.totalPlantsHarvested + 1),
             [PlantHarvested(harvestPoints)])
  }

  /** `removePlant`: empties the pot; only a dead plant counts as a death. */
  function RemovePlant(s: GameState): (r: Step)
    ensures s.currentPlant.None? ==> r == Step(s, [])
    ensures s.currentPlant.Some? ==>
      && r.state.currentPlant.None?
      && r.state.totalPlantsDied == s.totalPlantsDied + (if IsDead(s.currentPlant.value) then 1 else 0)
      && r.state == s.(currentPlant := None, totalPlantsDied := r.state.totalPlantsDied)
      && r.events == [PlantRemoved]
    ensures WellFormed(s) ==> WellFormed(r.state)
  {
    match s.currentPlant
    case None => Step(s, [])
    case Some(p) =>
      if IsDead(p) then Step(s.(currentPlant := None, totalPlantsDied := s.totalPlantsDied + 1), [PlantRemoved])
      else Step(s.(currentPlant := None), [PlantRemoved])
  }

  /** `buySeed`: guarded on coins, paid in points. */
  function BuySeed(s: GameState, t: PlantType): (r: Step)
    ensures !CanBuySeed(s, t) ==> r == Step(s, [])
    ensures CanBuySeed(s, t) ==>
      && SeedCount(r.state, t) == SeedCount(s, t) + 1
      && (forall u :: u != t ==> SeedCount(r.state, u) == SeedCount(s, u))
      && r.state.points == s.points - GetInfo(t).basePrice
      && r.state == s.(ownedSeeds := r.state.ownedSeeds, points := r.state.points)
      && r.events == [SeedPurchased(t)]
    ensures WellFormed(s) ==> WellFormed(r.state)
  {
    if !CanBuySeed(s, t) then Step(s, [])
    else
      var seeds := s.ownedSeeds[t := SeedCount(s, t) + 1];
      Step(s.(ownedSeeds := seeds, points := s.points - GetInfo(t).basePrice), [SeedPurchased(t)])
  }

  /** `buyFertilizer`: guarded on coins, paid in points. */
  function BuyFertilizer(s: GameState): (r: Step)
    ensures !CanBuyFertilizer(s) ==> r == Step(s, [])
    ensures CanBuyFertilizer(s) ==>
      && r.state == s.(fertilizers := s.fertilizers + 1, points := s.points - 10)
      && r.events == [FertilizerPurchased]
    ensures WellFormed(s) ==> WellFormed(r.state)
  {
    if !CanBuyFertilizer(s) then Step(s, [])
    else Step(s.(fertilizers := s.fertilizers + 1, points := s.points - FERTILIZER_COST), [FertilizerPurchased])
  }

  /** `buyPesticide`: guarded on coins, paid in points. */
  function BuyPesticide(s: GameState): (r: Step)
    ensures !CanBuyPesticide(s) ==> r == Step(s, [])
    ensures CanBuyPesticide(s) ==>
      && r.state == s.(pesticides := s.pesticides + 1, points := s.points - 15)
      && r.events == [PesticidePurchased]
    ensures WellFormed(s) ==> WellFormed(r.state)
  {
    if !CanBuyPesticide(s) then Step(s, [])
    else Step(s.(pesticides := s.pesticides + 1, points := s.points - PESTICIDE_COST), [PesticidePurchased])
  }

  // ---------------------------------------------------------------------------
  // Debug shortcuts, active only in the debug build; they emit no event.
  // ---------------------------------------------------------------------------

  /**
   * The stage cycle of `triggerDebugStageChange`. It follows the ordinary
   * successor except from JOVEN on a flower, where it visits MADURO, and it
   * restarts at SEMILLA after a last stage or death.
   */
  function DebugNextStage(stage: PlantStage, isHarvestable: bool): (r: PlantStage)
    ensures r != stage && r != MUERTA
  {
    match stage
    case SEMILLA => GERMINACION
    case GERMINACION => PLANTULA
    case PLANTULA => JOVEN
    case JOVEN => MADURO
    case MADURO => if isHarvestable then COSECHABLE else FLORECIMIENTO
    case COSECHABLE => SEMILLA
    case FLORECIMIENTO => SEMILLA
    case MUERTA => SEMILLA
  }

  /**
   * The debug cycle takes the ordinary successor wherever there is one, except
   * from JOVEN on a flower, where it visits MADURO, no stage of a flower; where
   * there is no successor it restarts at SEMILLA, except from that MADURO.
   */
  lemma DebugNextStageFollowsNextStage(stage: PlantStage, isHarvestable: bool)
    ensures NextStage(stage, isHarvestable).Some? && !(stage == JOVEN && !isHarvestable) ==>
              DebugNextStage(stage, isHarvestable) == NextStage(stage, isHarvestable).value
    ensures stage == JOVEN && !isHarvestable ==>
              DebugNextStage(stage, isHarvestable) == MADURO && NextStage(stage, isHarvestable) == Some(FLORECIMIENTO)
    ensures stage == MADURO && !isHarvestable ==>
              DebugNextStage(stage, isHarvestable) == FLORECIMIENTO && NextStage(stage, isHarvestable).None?
    ensures NextStage(stage, isHarvestable).None? && !(stage == MADURO && !isHarvestable) ==>
              DebugNextStage(stage, isHarvestable) == SEMILLA
  {
    NextStageMatchesTable(stage, isHarvestable);
  }

  /** `triggerDebugStageChange`: any plant, dead or alive, moves one step along the debug cycle. */
  function TriggerDebugStageChange(s: GameState, now: int): (r: Step)
    ensures r.events == []
    ensures !DebugConfig.DEBUG_MODE || s.currentPlant.None? ==> r.state == s
    ensures DebugConfig.DEBUG_MODE && s.currentPlant.Some? ==>
      var p := s.currentPlant.value;
      r.state == s.(currentPlant := Some(p.(stage := DebugNextStage(p.stage, GetInfo(p.plantType).isHarvestable),
                                            stageStartedAt := now)))
    ensures WellFormed(s) ==> WellFormed(r.state)
  {
    if DebugConfig.DEBUG_MODE && s.currentPlant.Some? then
      var p := s.currentPlant.value;
      var next := DebugNextStage(p.stage, GetInfo(p.plantType).isHarvestable);
      Step(s.(currentPlant := Some(p.(stage := next, stageStartedAt := now))), [])
    else Step(s, [])
  }

  /** `triggerDebugPest`. */
  function TriggerDebugPest(s: GameState): (r: Step)
    ensures r.events == []
    ensures DebugConfig.DEBUG_MODE && s.currentPlant.Some? ==>
      r.state == s.(currentPlant := Some(s.currentPlant.value.(hasPest := true)))
    ensures !DebugConfig.DEBUG_MODE || s.currentPlant.None? ==> r.state == s
    ensures WellFormed(s) ==> WellFormed(r.state)
  {
    if DebugConfig.DEBUG_MODE && s.currentPlant.Some? then
      Step(s.(currentPlant := Some(s.currentPlant.value.(hasPest := true))), [])
    else Step(s, [])
  }

  /** `triggerDebugLowWater`: the water drops to 20. */
  function TriggerDebugLowWater(s: GameState): (r: Step)
    ensures r.events == []
    ensures DebugConfig.DEBUG_MODE && s.currentPlant.Some? ==>
      r.state == s.(currentPlant := Some(s.currentPlant.value.(waterLevel := 20.0)))
      && NeedsUrgentWater(r.state.currentPlant.value)
    ensures !DebugConfig.DEBUG_MODE || s.currentPlant.None? ==> r.state == s
    ensures WellFormed(s) ==> WellFormed(r.state)
  {
    if DebugConfig.DEBUG_MODE && s.currentPlant.Some? then
      Step(s.(currentPlant := Some(s.currentPlant.value.(waterLevel := 20.0))), [])
    else Step(s, [])
  }
}
