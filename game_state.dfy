/**
 * The whole saved game: the player, the single active plant, the two
 * currencies, the inventory and the lifetime counters, with the guards the
 * actions consult.
 */
module GameStates {
  import opened Wrappers
  import opened PlantTypes
  import opened Plants

  datatype Gender = JARDINERO | JARDINERA

  datatype User = User(name: string, gender: Gender, createdAt: int)

  datatype GameState = GameState(
    user: Option<User>,
    currentPlant: Option<Plant>,
    points: int,
    coins: int,
    unlockedPlants: seq<PlantType>,
    ownedSeeds: map<PlantType, int>,
    fertilizers: int,
    pesticides: int,
    totalPlantsHarvested: int,
    totalPlantsDied: int,
    isFirstTime: bool)

  const FERTILIZER_COST: int := 10
  const PESTICIDE_COST: int := 15
  const WATER_POINTS: int := 5
  const FERTILIZE_POINTS: int := 10
  const PEST_CONTROL_POINTS: int := 15

  /** `ownedSeeds[t] ?: 0`. */
  function SeedCount(s: GameState, t: PlantType): (r: int)
    ensures t in s.ownedSeeds ==> r == s.ownedSeeds[t]
    ensures t !in s.ownedSeeds ==> r == 0
  {
    if t in s.ownedSeeds then s.ownedSeeds[t] else 0
  }

  /** `GameState()`: a first run with the starter seeds and nothing else. */
  function DefaultGameState(): (s: GameState)
    ensures s.user.None? && s.currentPlant.None? && s.isFirstTime
    ensures s.points == 0 && s.coins == 0 && s.fertilizers == 0 && s.pesticides == 0
    ensures s.totalPlantsHarvested == 0 && s.totalPlantsDied == 0
    ensures SeedCount(s, FRIJOL) == 3 && SeedCount(s, RABANO) == 1 && SeedCount(s, LECHUGA) == 1
    ensures SeedCount(s, GIRASOL) == 0 && SeedCount(s, ROSA) == 0 && SeedCount(s, TOMATE) == 0
    ensures forall t :: CanPlant(s, t) <==> t in {FRIJOL, RABANO, LECHUGA}
    ensures forall t :: CanBuySeed(s, t) <==> t == FRIJOL
    ensures !CanBuyFertilizer(s) && !CanBuyPesticide(s)
  {
    GameState(None, None, 0, 0, [FRIJOL, RABANO, LECHUGA], map[FRIJOL := 3, RABANO := 1, LECHUGA := 1],
      0, 0, 0, 0, true)
  }

  /** A live plant is in the pot. */
  predicate HasPlant(s: GameState)
    ensures HasPlant(s) <==> s.currentPlant.Some? && !IsDead(s.currentPlant.value)
  {
    s.currentPlant.Some? && !IsDead(s.currentPlant.value)
  }

  /** A seed may be planted when no live plant occupies the pot, even over a dead one. */
  predicate CanPlant(s: GameState, t: PlantType)
    ensures CanPlant(s, t) ==> t in s.ownedSeeds && s.ownedSeeds[t] >= 1
    ensures s.currentPlant.Some? && IsDead(s.currentPlant.value) ==> (CanPlant(s, t) <==> SeedCount(s, t) > 0)
    ensures HasPlant(s) ==> !CanPlant(s, t)
    ensures s.currentPlant.None? ==> (CanPlant(s, t) <==> SeedCount(s, t) > 0)
  {
    !HasPlant(s) && SeedCount(s, t) > 0
  }

  /** The purchase guards compare the price against `coins`. */
  predicate CanBuySeed(s: GameState, t: PlantType)
    ensures CanBuySeed(s, t) <==> s.coins >= GetInfo(t).basePrice
    ensures t == FRIJOL ==> (CanBuySeed(s, t) <==> s.coins >= 0)
  {
    s.coins >= GetInfo(t).basePrice
  }

  predicate CanBuyFertilizer(s: GameState)
    ensures CanBuyFertilizer(s) <==> s.coins >= 10
  {
    s.coins >= FERTILIZER_COST
  }

  predicate CanBuyPesticide(s: GameState)
    ensures CanBuyPesticide(s) <==> s.coins >= 15
    ensures CanBuyPesticide(s) ==> CanBuyFertilizer(s)
  {
    s.coins >= PESTICIDE_COST
  }
}
