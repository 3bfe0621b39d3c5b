/**
 * The logic of the home screen: its greeting, the countdown to the next
 * stage and which action buttons it offers. The clock and the hour of the
 * day are inputs.
 */
module HomeScreen {
  import opened Wrappers
  import opened KotlinMath
  import opened Text
  import opened PlantTypes
  import opened PlantStages
  import opened Plants
  import opened GameStates
  import opened Reducer
  import TimeUtils
  import PlantInfoScreen

  /** `getGreeting`: its bands differ from those of `getTimeOfDayString`. */
  function Greeting(hour: int): (r: string)
    ensures r == TimeUtils.MORNING <==> 5 <= hour <= 11
    ensures r == TimeUtils.AFTERNOON <==> 12 <= hour <= 19
    ensures r == TimeUtils.NIGHT <==> hour < 5 || hour > 19
  {
    TimeUtils.GreetingsDiffer();
    if 5 <= hour <= 11 then TimeUtils.MORNING
    else if 12 <= hour <= 19 then TimeUtils.AFTERNOON
    else TimeUtils.NIGHT
  }

  /** The two greeting helpers agree on every hour of the day except 5 and 20. */
  lemma GreetingAgreesWithTimeOfDay(hour: int)
    requires 0 <= hour < 24
    ensures Greeting(hour) == TimeUtils.TimeOfDayString(hour) <==> hour != 5 && hour != 20
  {
    TimeUtils.GreetingsDiffer();
  }

  /** The countdown card appears only over a live plant. */
  predicate ShowsCountdown(s: GameState)
    ensures ShowsCountdown(s) <==> HasPlant(s)
  {
    s.currentPlant.Some? && !IsDead(s.currentPlant.value)
  }

  /**
   * The time `TimeToNextStage` counts down, or none when it draws nothing:
   * for a stage off the plant's list and for the last stage of either list.
   */
  function TimeRemaining(p: Plant, now: int): (r: Option<int>)
    ensures var h := GetInfo(p.plantType).isHarvestable;
      r.None? <==> StageInfo(p.stage, h).None? || p.stage == COSECHABLE || p.stage == FLORECIMIENTO
    ensures r.Some? ==>
      var info := GetInfo(p.plantType);
      && r.value >= 0
      && r.value == AtLeastLong(StageDuration(info.growthDuration, StageInfo(p.stage, info.isHarvestable).value) - TimeInCurrentStage(p, now), 0)
  {
    var plantInfo := GetInfo(p.plantType);
    // `stages.find { it.stage == plant.stage }` over `getStagesForPlant` is `getStageInfo`
    var currentStageInfo := StageInfo(p.stage, plantInfo.isHarvestable);
    if currentStageInfo.None? || p.stage == COSECHABLE || p.stage == FLORECIMIENTO then None
    else
      var stageDuration := StageDuration(plantInfo.growthDuration, currentStageInfo.value);
      Some(AtLeastLong(stageDuration - TimeInCurrentStage(p, now), 0))
  }

  /** The countdown text: hours and minutes, or minutes alone (down to "0m"). */
  function CountdownText(remaining: int): (r: string)
    requires remaining >= 0
    ensures remaining >= 3600000 ==> r == NatToString(remaining / 3600000) + "h " + NatToString(remaining / 60000 % 60) + "m"
    ensures remaining < 3600000 ==> r == NatToString(remaining / 60000) + "m"
  {
    var hoursRemaining := TruncDiv(remaining, PlantInfoScreen.MILLIS_PER_HOUR);
    var minutesRemaining := TruncRem(TruncDiv(remaining, PlantInfoScreen.MILLIS_PER_MINUTE), 60);
    if hoursRemaining > 0 then NatToString(hoursRemaining) + "h " + NatToString(minutesRemaining) + "m"
    else NatToString(minutesRemaining) + "m"
  }

  /** The countdown shares `formatDuration`'s layout from one minute up; below it shows "0m". */
  lemma CountdownMatchesFormatDuration(remaining: int)
    requires remaining >= 0
    ensures remaining >= 60000 ==> CountdownText(remaining) == PlantInfoScreen.FormatDuration(remaining)
    ensures remaining < 60000 ==> CountdownText(remaining) == "0m" != PlantInfoScreen.FormatDuration(remaining)
  {
    if remaining < 60000 {
      assert NatToString(0) == "0";
    }
  }

  /** What the card shows for a plant, if anything. */
  function TimeToNextStage(p: Plant, now: int): (r: Option<string>)
    ensures r.Some? <==> TimeRemaining(p, now).Some?
    ensures r.Some? ==> r.value == CountdownText(TimeRemaining(p, now).value)
  {
    match TimeRemaining(p, now)
    case None => None
    case Some(remaining) => Some(CountdownText(remaining))
  }

  /**
   * Where the card is drawn, it reaches zero exactly when the next tick moves
   * the plant to its next stage.
   */
  lemma CountdownEndsWithStageChange(p: Plant, now: int)
    requires !IsDead(p)
    requires TimeRemaining(p, now).Some?
    ensures TimeRemaining(p, now) == Some(0) <==> CheckStageProgression(p, GetInfo(p.plantType), now) != p.stage
  {
    var h := GetInfo(p.plantType).isHarvestable;
    NextStageMatchesTable(p.stage, h);
    if p.stage == MADURO && !h {
      OffListHasNoSuccessor(MADURO, false);
    }
  }

  // ---------------------------------------------------------------------------
  // `ActionControls`
  // ---------------------------------------------------------------------------

  /** "Regar" (and the `hasPlant` of every other button): a live plant. */
  predicate WaterEnabled(s: GameState)
    ensures WaterEnabled(s) <==> HasPlant(s)
  {
    s.currentPlant.Some? && !IsDead(s.currentPlant.value)
  }

  /** "Fertilizar". */
  predicate FertilizeEnabled(s: GameState)
    ensures FertilizeEnabled(s) <==> HasPlant(s) && s.fertilizers > 0
  {
    WaterEnabled(s) && s.fertilizers > 0
  }

  /** "Anti-Plaga". */
  predicate AntiPestEnabled(s: GameState)
    ensures AntiPestEnabled(s) <==> HasPlant(s) && s.currentPlant.value.hasPest && s.pesticides > 0
    ensures AntiPestEnabled(s) ==> WaterEnabled(s)
  {
    WaterEnabled(s) && s.currentPlant.value.hasPest && s.pesticides > 0
  }

  /** The fourth button slot: harvest a ripe crop, else clear a dead plant, else nothing. */
  datatype PlantButton = HarvestButton | ClearButton | NoButton

  function PlantButtonFor(s: GameState): (b: PlantButton)
    ensures b == HarvestButton <==> s.currentPlant.Some? && CanHarvest(s.currentPlant.value)
    ensures b == ClearButton <==> s.currentPlant.Some? && IsDead(s.currentPlant.value)
    ensures b == NoButton <==> s.currentPlant.None? || (!CanHarvest(s.currentPlant.value) && !IsDead(s.currentPlant.value))
  {
    match s.currentPlant
    case None => NoButton
    case Some(p) => if CanHarvest(p) then HarvestButton else if IsDead(p) then ClearButton else NoButton
  }

  /** The seed dialog: the types with at least one seed in stock. */
  function SeedChoices(s: GameState): (r: set<PlantType>)
    ensures forall t :: t in r <==> SeedCount(s, t) > 0
  {
    set t | t in s.ownedSeeds && s.ownedSeeds[t] > 0
  }

  /** A disabled water button means watering would change nothing. */
  lemma WaterButtonMatchesHandler(s: GameState, amount: real, now: int)
    ensures !WaterEnabled(s) ==> WaterPlant(s, amount, now) == Step(s, [])
    ensures WaterEnabled(s) ==> WaterPlant(s, amount, now).events != [] || WaterPlant(s, amount, now).state.currentPlant.value.lastWatered == now
  {
  }

  /** "Fertilizar" is enabled exactly when `applyFertilizer` would act. */
  lemma FertilizeButtonMatchesHandler(s: GameState, now: int)
    ensures FertilizeEnabled(s) <==> ApplyFertilizer(s, now).events != []
  {
  }

  /**
   * "Anti-Plaga" enabled means `removePest` acts; the handler also acts on a
   * dead plant with a pest, which the disabled button does not offer.
   */
  lemma AntiPestButtonMatchesHandler(s: GameState)
    ensures AntiPestEnabled(s) ==> RemovePest(s).events != []
    ensures RemovePest(s).events != [] && !AntiPestEnabled(s) ==> IsDead(s.currentPlant.value)
  {
  }

  /** "Cosechar" is offered exactly when `harvestPlant` acts; "Limpiar" clears a plant that counts as a death. */
  lemma PlantButtonMatchesHandlers(s: GameState)
    ensures PlantButtonFor(s) == HarvestButton <==> HarvestPlant(s).events != []
    ensures PlantButtonFor(s) == ClearButton ==> RemovePlant(s).state.totalPlantsDied == s.totalPlantsDied + 1
  {
  }

  /** With the pot free of live plants, the dialog lists exactly the seeds `plantSeed` accepts. */
  lemma SeedDialogMatchesCanPlant(s: GameState, t: PlantType)
    requires !HasPlant(s)
    ensures t in SeedChoices(s) <==> CanPlant(s, t)
  {
  }
}
