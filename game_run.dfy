/**
 * Sequences of view-model operations: the properties that hold across
 * several calls, whatever the order in which the player and the clock act.
 */
module GameRun {
  import opened Wrappers
  import opened PlantTypes
  import opened PlantStages
  import opened Plants
  import opened GameStates
  import opened Reducer

  /** One entry point of the view model, with its arguments. */
  datatype Action =
    | OnTick(now: int, roll: real)
    | OnRegisterUser(name: string, gender: Gender, now: int)
    | OnPlantSeed(seed: PlantType, now: int)
    | OnWaterPlant(amount: real, now: int)
    | OnApplyFertilizer(now: int)
    | OnRemovePest
    | OnHarvestPlant
    | OnRemovePlant
    | OnBuySeed(seed: PlantType)
    | OnBuyFertilizer
    | OnBuyPesticide
    | OnDebugStageChange(now: int)
    | OnDebugPest
    | OnDebugLowWater

  predicate IsPurchase(a: Action) {
    a.OnBuySeed? || a.OnBuyFertilizer? || a.OnBuyPesticide?
  }

  function Apply(s: GameState, a: Action): (r: Step)
    ensures r.state.coins == s.coins
    ensures WellFormed(s) ==> WellFormed(r.state)
    ensures r.state.points < s.points ==> IsPurchase(a)
  {
    match a
    case OnTick(now, roll) => Tick(s, now, roll)
    case OnRegisterUser(name, gender, now) => RegisterUser(s, name, gender, now)
    case OnPlantSeed(t, now) => PlantSeed(s, t, now)
    case OnWaterPlant(amount, now) => WaterPlant(s, amount, now)
    case OnApplyFertilizer(now) => ApplyFertilizer(s, now)
    case OnRemovePest => RemovePest(s)
    case OnHarvestPlant => HarvestPlant(s)
    case OnRemovePlant => RemovePlant(s)
    case OnBuySeed(t) => BuySeed(s, t)
    case OnBuyFertilizer => BuyFertilizer(s)
    case OnBuyPesticide => BuyPesticide(s)
    case OnDebugStageChange(now) => TriggerDebugStageChange(s, now)
    case OnDebugPest => TriggerDebugPest(s)
    case OnDebugLowWater => TriggerDebugLowWater(s)
  }

  /** The snapshot after the actions, in order. No operation ever changes the coins. */
  function Run(s: GameState, acts: seq<Action>): (r: GameState)
    ensures r.coins == s.coins
    ensures WellFormed(s) ==> WellFormed(r)
    ensures (forall i :: 0 <= i < |acts| ==> !IsPurchase(acts[i])) ==> r.points >= s.points
    decreases |acts|
  {
    if acts == [] then s else Run(Apply(s, acts[0]).state, acts[1..])
  }

  /** Without coins the only purchase that goes through is the free seed, which costs no points. */
  lemma PennilessActionKeepsPoints(s: GameState, a: Action)
    requires s.coins == 0
    ensures Apply(s, a).state.points >= s.points
  {
    match a
    case OnBuySeed(t) =>
      if CanBuySeed(s, t) {
        assert GetInfo(t).basePrice == 0;
      }
    case _ =>
  }

  /** Points never drop while the coins are zero. */
  lemma {:induction false} PennilessRunKeepsPoints(s: GameState, acts: seq<Action>)
    requires s.coins == 0
    ensures Run(s, acts).points >= s.points
    decreases |acts|
  {
    if acts != [] {
      PennilessActionKeepsPoints(s, acts[0]);
      PennilessRunKeepsPoints(Apply(s, acts[0]).state, acts[1..]);
    }
  }

  /**
   * From a fresh game, the coins stay at zero, so the shop is closed for ever
   * (except for the free bean seed) and the points can never go negative.
   */
  lemma FreshGameShopStaysClosed(acts: seq<Action>)
    ensures var s := Run(DefaultGameState(), acts);
      && s.coins == 0 && s.points >= 0 && WellFormed(s)
      && !CanBuyFertilizer(s) && !CanBuyPesticide(s)
      && (forall t :: CanBuySeed(s, t) <==> t == FRIJOL)
  {
    PennilessRunKeepsPoints(DefaultGameState(), acts);
  }

  /** The clock alone never clears a pest, nor empties the pot. */
  lemma {:induction false} TicksKeepPest(s: GameState, acts: seq<Action>)
    requires s.currentPlant.Some? && s.currentPlant.value.hasPest
    requires forall i :: 0 <= i < |acts| ==> acts[i].OnTick?
    ensures Run(s, acts).currentPlant.Some? && Run(s, acts).currentPlant.value.hasPest
    decreases |acts|
  {
    if acts != [] {
      TicksKeepPest(Apply(s, acts[0]).state, acts[1..]);
    }
  }

  /**
   * A dead plant stays dead, with its health and stage frozen, under every
   * operation except planting a new seed over it and the debug stage change.
   */
  lemma DeadPlantStaysDead(s: GameState, a: Action)
    requires s.currentPlant.Some? && IsDead(s.currentPlant.value)
    requires !a.OnPlantSeed? && !a.OnDebugStageChange?
    ensures var r := Apply(s, a).state;
      r.currentPlant.Some? ==>
        && IsDead(r.currentPlant.value)
        && r.currentPlant.value.health == s.currentPlant.value.health
        && r.currentPlant.value.stage == s.currentPlant.value.stage
  {
  }

  /**
   * Watering a full plant with at most 10 health leaves it at 0 health in its
   * old stage: dead for every check, yet never in MUERTA and with no PlantDied
   * event, and from then on the clock no longer touches it.
   */
  lemma OverwateringKillsWithoutMuerta(s: GameState, amount: real, now: int, later: int, roll: real)
    requires HasPlant(s) && s.currentPlant.value.stage != MUERTA
    requires s.currentPlant.value.waterLevel >= 100.0 && s.currentPlant.value.health <= 10.0
    ensures var w := WaterPlant(s, amount, now);
      && w.state.currentPlant.Some?
      && w.state.currentPlant.value.health == 0.0
      && IsDead(w.state.currentPlant.value)
      && w.state.currentPlant.value.stage == s.currentPlant.value.stage != MUERTA
      && PlantDied !in w.events
      && Tick(w.state, later, roll) == Step(w.state, [])
  {
  }

  /** Planting over a dead plant skips the death count that clearing the pot first would record. */
  lemma PlantingOverDeadPlantSkipsDeathCount(s: GameState, t: PlantType, now: int)
    requires s.currentPlant.Some? && IsDead(s.currentPlant.value) && SeedCount(s, t) > 0
    ensures var direct := PlantSeed(s, t, now).state;
      && direct.currentPlant == Some(NewPlant(t, now))
      && direct.totalPlantsDied == s.totalPlantsDied
    ensures var cleared := PlantSeed(RemovePlant(s).state, t, now).state;
      && cleared.currentPlant == Some(NewPlant(t, now))
      && cleared.totalPlantsDied == s.totalPlantsDied + 1
  {
  }
}
