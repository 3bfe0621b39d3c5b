/**
 * The one plant in the pot: its species, stage, health and water level (in
 * [0, 100] by the game's invariant), pest flag and timestamps. The clock read
 * of every getter is its `now` parameter.
 */
module Plants {
  import opened Wrappers
  import opened PlantTypes
  import opened PlantStages

  datatype Plant = Plant(
    plantType: PlantType,
    stage: PlantStage,
    health: real,
    waterLevel: real,
    hasPest: bool,
    plantedAt: int,
    lastWatered: int,
    lastFertilized: Option<int>,
    stageStartedAt: int)

  /** `Plant(type = t)` created at time `now`: every default of the data class. */
  function NewPlant(t: PlantType, now: int): (p: Plant)
    ensures p.plantType == t && p.stage == SEMILLA
    ensures p.health == 100.0 && p.waterLevel == 100.0 && !p.hasPest
    ensures !IsDead(p) && IsHealthy(p) && !NeedsUrgentWater(p) && !NeedsWater(p) && !CanHarvest(p)
    ensures TimeInCurrentStage(p, now) == 0 && PlantAge(p, now) == 0 && TimeSinceLastWater(p, now) == 0
    ensures TimeSinceLastFertilizer(p, now).None?
  {
    Plant(t, SEMILLA, 100.0, 100.0, false, now, now, None, now)
  }

  /** Dead by health or by stage, whichever came first. */
  predicate IsDead(p: Plant)
    ensures IsDead(p) <==> p.health <= 0.0 || p.stage == MUERTA
  {
    p.health <= 0.0 || p.stage == MUERTA
  }

  predicate NeedsWater(p: Plant)
    ensures NeedsWater(p) <==> p.waterLevel < 50.0
  {
    p.waterLevel < 50.0
  }

  predicate NeedsUrgentWater(p: Plant)
    ensures NeedsUrgentWater(p) ==> NeedsWater(p)
  {
    p.waterLevel < 25.0
  }

  predicate IsHealthy(p: Plant)
    ensures IsHealthy(p) ==> p.health > 0.0 && !NeedsWater(p) && !NeedsUrgentWater(p)
  {
    p.health > 70.0 && p.waterLevel > 50.0 && !p.hasPest
  }

  predicate CanHarvest(p: Plant)
    ensures CanHarvest(p) <==> p.plantType in {FRIJOL, RABANO, LECHUGA, TOMATE} && p.stage == COSECHABLE && p.health > 0.0
    ensures CanHarvest(p) ==> !IsDead(p)
  {
    GetInfo(p.plantType).isHarvestable && p.stage == COSECHABLE && !IsDead(p)
  }

  function TimeInCurrentStage(p: Plant, now: int): (r: int)
    ensures p.stageStartedAt + r == now
  {
    now - p.stageStartedAt
  }

  function PlantAge(p: Plant, now: int): (r: int)
    ensures p.plantedAt + r == now
  {
    now - p.plantedAt
  }

  function TimeSinceLastWater(p: Plant, now: int): (r: int)
    ensures p.lastWatered + r == now
  {
    now - p.lastWatered
  }

  function TimeSinceLastFertilizer(p: Plant, now: int): (r: Option<int>)
    ensures r.None? <==> p.lastFertilized.None?
    ensures r.Some? ==> p.lastFertilized.value + r.value == now
  {
    match p.lastFertilized
    case None => None
    case Some(t) => Some(now - t)
  }
}
