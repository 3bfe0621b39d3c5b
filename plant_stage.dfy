/**
 * The growth stages, the two ordered stage lists (one for harvestable crops,
 * one for decorative flowers) with each stage's share of the growth time, and
 * the lookups that drive stage progression.
 */
module PlantStages {
  import opened Wrappers
  import opened KotlinMath

  datatype PlantStage = SEMILLA | GERMINACION | PLANTULA | JOVEN | MADURO | FLORECIMIENTO | COSECHABLE | MUERTA

  /**
   * A stage entry; `durationPercent` is the stage's share of the growth time in
   * hundredths (0.15f is 15). The display name and description of an entry are
   * the same in both lists, so they are functions of the stage.
   */
  datatype PlantStageInfo = PlantStageInfo(stage: PlantStage, durationPercent: nat) {
    function Name(): string { StageName(stage) }
    function Description(): string { StageDescription(stage) }
  }

  /** The name shown for a listed stage; the dead stage has no entry in either list. */
  function StageName(stage: PlantStage): (r: string)
    ensures r == "" <==> stage == MUERTA
  {
    match stage
    case SEMILLA => "Semilla"
    case GERMINACION => "Germinación"
    case PLANTULA => "Plántula"
    case JOVEN => "Joven"
    case MADURO => "Maduro"
    case FLORECIMIENTO => "Florecimiento"
    case COSECHABLE => "Cosechable"
    case MUERTA => ""
  }

  function StageDescription(stage: PlantStage): (r: string)
    ensures r == "" <==> stage == MUERTA
  {
    match stage
    case SEMILLA => "Una pequeña semilla plantada en la tierra"
    case GERMINACION => "La semilla está comenzando a germinar"
    case PLANTULA => "Aparecen las primeras hojas"
    case JOVEN => "La planta está creciendo fuerte"
    case MADURO => "La planta está casi lista"
    case FLORECIMIENTO => "¡La planta está floreciendo hermosamente!"
    case COSECHABLE => "¡La planta está lista para cosechar!"
    case MUERTA => ""
  }

  /** No two stages share a displayed name. */
  lemma StageNamesDistinct(a: PlantStage, b: PlantStage)
    ensures StageName(a) == StageName(b) ==> a == b
  {
    if a != b && a != MUERTA && b != MUERTA {
      assert StageName(a)[0] != StageName(b)[0];
    }
  }

  const HarvestableStages: seq<PlantStageInfo> := [
    PlantStageInfo(SEMILLA, 10),
    PlantStageInfo(GERMINACION, 15),
    PlantStageInfo(PLANTULA, 20),
    PlantStageInfo(JOVEN, 25),
    PlantStageInfo(MADURO, 20),
    PlantStageInfo(COSECHABLE, 10)
  ]

  const DecorativeStages: seq<PlantStageInfo> := [
    PlantStageInfo(SEMILLA, 10),
    PlantStageInfo(GERMINACION, 15),
    PlantStageInfo(PLANTULA, 20),
    PlantStageInfo(JOVEN, 25),
    PlantStageInfo(FLORECIMIENTO, 30)
  ]

  /** The stages of a list, in order. */
  function StagesOf(infos: seq<PlantStageInfo>): (r: seq<PlantStage>)
    ensures |r| == |infos|
    ensures forall i :: 0 <= i < |infos| ==> r[i] == infos[i].stage
  {
    if infos == [] then [] else [infos[0].stage] + StagesOf(infos[1..])
  }

  /** The duration shares of a list, in hundredths, in order. */
  function SharesOf(infos: seq<PlantStageInfo>): (r: seq<nat>)
    ensures |r| == |infos|
    ensures forall i :: 0 <= i < |infos| ==> r[i] == infos[i].durationPercent
  {
    if infos == [] then [] else [infos[0].durationPercent] + SharesOf(infos[1..])
  }

  /** Sum of the duration shares of a list, in hundredths. */
  function TotalPercent(infos: seq<PlantStageInfo>): nat {
    if infos == [] then 0 else infos[0].durationPercent + TotalPercent(infos[1..])
  }

  /** No stage occurs twice in a list. */
  predicate DistinctStages(infos: seq<PlantStageInfo>) {
    forall i, j :: 0 <= i < j < |infos| ==> infos[i].stage != infos[j].stage
  }

  /** The crop list, in order and without repeats. */
  lemma HarvestableListShape()
    ensures StagesOf(HarvestableStages) == [SEMILLA, GERMINACION, PLANTULA, JOVEN, MADURO, COSECHABLE]
    ensures SharesOf(HarvestableStages) == [10, 15, 20, 25, 20, 10]
    ensures DistinctStages(HarvestableStages)
  {
    var r := HarvestableStages;
    assert StagesOf(r) == seq(|r|, i requires 0 <= i < |r| => r[i].stage);
    assert SharesOf(r) == seq(|r|, i requires 0 <= i < |r| => r[i].durationPercent);
  }

  /** The flower list, in order and without repeats. */
  lemma DecorativeListShape()
    ensures StagesOf(DecorativeStages) == [SEMILLA, GERMINACION, PLANTULA, JOVEN, FLORECIMIENTO]
    ensures SharesOf(DecorativeStages) == [10, 15, 20, 25, 30]
    ensures DistinctStages(DecorativeStages)
  {
    var r := DecorativeStages;
    assert StagesOf(r) == seq(|r|, i requires 0 <= i < |r| => r[i].stage);
    assert SharesOf(r) == seq(|r|, i requires 0 <= i < |r| => r[i].durationPercent);
  }

  /** `getStagesForPlant`. */
  function StagesForPlant(isHarvestable: bool): (r: seq<PlantStageInfo>)
    ensures StagesOf(r) == if isHarvestable then [SEMILLA, GERMINACION, PLANTULA, JOVEN, MADURO, COSECHABLE]
                           else [SEMILLA, GERMINACION, PLANTULA, JOVEN, FLORECIMIENTO]
    ensures SharesOf(r) == if isHarvestable then [10, 15, 20, 25, 20, 10] else [10, 15, 20, 25, 30]
    ensures DistinctStages(r)
    ensures |r| > 0 && r[0].stage == SEMILLA
    ensures forall i :: 0 <= i < |r| ==> r[i].stage != MUERTA
  {
    if isHarvestable then HarvestableListShape(); HarvestableStages
    else DecorativeListShape(); DecorativeStages
  }

  /** `indexOfFirst { it.stage == stage }`: the first position holding `stage`, or -1. */
  function IndexOfFirst(infos: seq<PlantStageInfo>, stage: PlantStage): (r: int)
    ensures -1 <= r < |infos|
    ensures r == -1 <==> forall i :: 0 <= i < |infos| ==> infos[i].stage != stage
    ensures r >= 0 ==> infos[r].stage == stage && forall i :: 0 <= i < r ==> infos[i].stage != stage
  {
    if infos == [] then -1
    else if infos[0].stage == stage then 0
    else
      var k := IndexOfFirst(infos[1..], stage);
      if k == -1 then -1 else k + 1
  }

  /** `find { it.stage == stage }`: the first entry holding `stage`, if any. */
  function Find(infos: seq<PlantStageInfo>, stage: PlantStage): (r: Option<PlantStageInfo>)
    ensures r.None? <==> forall i :: 0 <= i < |infos| ==> infos[i].stage != stage
    ensures r.Some? ==> r.value.stage == stage && r.value in infos
    ensures DistinctStages(infos) ==> forall i :: 0 <= i < |infos| && infos[i].stage == stage ==> r == Some(infos[i])
  {
    var k := IndexOfFirst(infos, stage);
    if k < 0 then None else Some(infos[k])
  }

  /** `getStageInfo`: the entry of `stage` in the plant's list; none for MUERTA or a stage of the other list. */
  function StageInfo(stage: PlantStage, isHarvestable: bool): (r: Option<PlantStageInfo>)
    ensures r.None? <==> stage !in StagesOf(StagesForPlant(isHarvestable))
    ensures stage == MUERTA ==> r.None?
    ensures r.Some? ==> r.value.stage == stage && r.value in StagesForPlant(isHarvestable)
    ensures forall i :: 0 <= i < |StagesForPlant(isHarvestable)| && StagesForPlant(isHarvestable)[i].stage == stage ==>
              r == Some(StagesForPlant(isHarvestable)[i])
  {
    Find(StagesForPlant(isHarvestable), stage)
  }

  /** The position of a stage in the plant's list, or -1 when it is not in it. */
  function Position(stage: PlantStage, isHarvestable: bool): int {
    IndexOfFirst(StagesForPlant(isHarvestable), stage)
  }

  /** `getNextStage`: the following entry of the plant's list; none after the last one or off the list. */
  function NextStage(stage: PlantStage, isHarvestable: bool): (r: Option<PlantStage>)
    ensures r.Some? <==> 0 <= Position(stage, isHarvestable) < |StagesForPlant(isHarvestable)| - 1
    ensures r.Some? ==> Position(r.value, isHarvestable) == Position(stage, isHarvestable) + 1
    ensures r.Some? ==> r.value != stage && r.value != MUERTA && r.value != SEMILLA
  {
    var stages := StagesForPlant(isHarvestable);
    var i := IndexOfFirst(stages, stage);
    if 0 <= i < |stages| - 1 then
      IndexOfDistinct(stages, i + 1);
      IndexOfDistinct(stages, 0);
      Some(stages[i + 1].stage)
    else None
  }

  /** In a list without repeats, the first position of an entry's stage is that entry's position. */
  lemma IndexOfDistinct(infos: seq<PlantStageInfo>, k: int)
    requires DistinctStages(infos) && 0 <= k < |infos|
    ensures IndexOfFirst(infos, infos[k].stage) == k
  {
  }

  /** `(growthDuration * durationPercentage).toLong()` with the share as an exact fraction. */
  function StageDuration(growthDuration: int, info: PlantStageInfo): (r: int)
    ensures growthDuration >= 0 ==> r == growthDuration * info.durationPercent / 100
    ensures growthDuration >= 0 ==> r >= 0
  {
    TruncDiv(growthDuration * info.durationPercent, 100)
  }

  /** Both lists share out exactly the whole growth time. */
  lemma {:induction false} SharesSumToWhole()
    ensures TotalPercent(HarvestableStages) == 100
    ensures TotalPercent(DecorativeStages) == 100
  {
    var h, d := HarvestableStages, DecorativeStages;
    assert TotalPercent(h[5..]) == 10;
    assert TotalPercent(h[4..]) == 30;
    assert TotalPercent(h[3..]) == 55;
    assert TotalPercent(h[2..]) == 75;
    assert TotalPercent(h[1..]) == 90;
    assert TotalPercent(d[4..]) == 30;
    assert TotalPercent(d[3..]) == 55;
    assert TotalPercent(d[2..]) == 75;
    assert TotalPercent(d[1..]) == 90;
  }

  /** The last stage of each list has no successor. */
  lemma LastStageHasNoSuccessor()
    ensures NextStage(COSECHABLE, true).None?
    ensures NextStage(FLORECIMIENTO, false).None?
  {
    var h, d := StagesForPlant(true), StagesForPlant(false);
    assert StagesOf(h)[5] == COSECHABLE;
    IndexOfDistinct(h, 5);
    assert StagesOf(d)[4] == FLORECIMIENTO;
    IndexOfDistinct(d, 4);
  }

  /** A stage outside the plant's list (MUERTA, or MADURO for a flower) has no successor. */
  lemma OffListHasNoSuccessor(stage: PlantStage, isHarvestable: bool)
    requires stage !in StagesOf(StagesForPlant(isHarvestable))
    ensures NextStage(stage, isHarvestable).None?
    ensures StageInfo(stage, isHarvestable).None?
  {
    var stages := StagesForPlant(isHarvestable);
    forall i | 0 <= i < |stages| ensures stages[i].stage != stage {
      assert StagesOf(stages)[i] == stages[i].stage;
    }
    assert Position(stage, isHarvestable) == -1;
  }

  /** In either list, the successor of an entry's stage is the next entry's stage. */
  lemma SuccessorAt(isHarvestable: bool, k: int)
    requires 0 <= k < |StagesForPlant(isHarvestable)| - 1
    ensures NextStage(StagesForPlant(isHarvestable)[k].stage, isHarvestable) == Some(StagesForPlant(isHarvestable)[k + 1].stage)
  {
    IndexOfDistinct(StagesForPlant(isHarvestable), k);
  }

  /** Both lists open with SEMILLA, GERMINACION, PLANTULA, JOVEN, in that order. */
  lemma EarlySuccessors(isHarvestable: bool)
    ensures NextStage(SEMILLA, isHarvestable) == Some(GERMINACION)
    ensures NextStage(GERMINACION, isHarvestable) == Some(PLANTULA)
    ensures NextStage(PLANTULA, isHarvestable) == Some(JOVEN)
  {
    var l := StagesForPlant(isHarvestable);
    assert l[0].stage == SEMILLA && l[1].stage == GERMINACION && l[2].stage == PLANTULA && l[3].stage == JOVEN;
    SuccessorAt(isHarvestable, 0);
    SuccessorAt(isHarvestable, 1);
    SuccessorAt(isHarvestable, 2);
  }

  /** A crop goes on from JOVEN through MADURO to COSECHABLE. */
  lemma HarvestableSuccessors()
    ensures NextStage(JOVEN, true) == Some(MADURO)
    ensures NextStage(MADURO, true) == Some(COSECHABLE)
  {
    var h := StagesForPlant(true);
    assert h[3].stage == JOVEN && h[4].stage == MADURO && h[5].stage == COSECHABLE;
    SuccessorAt(true, 3);
    SuccessorAt(true, 4);
  }

  /** A flower goes from JOVEN straight to FLORECIMIENTO. */
  lemma DecorativeSuccessors()
    ensures NextStage(JOVEN, false) == Some(FLORECIMIENTO)
  {
    var d := StagesForPlant(false);
    assert d[3].stage == JOVEN && d[4].stage == FLORECIMIENTO;
    SuccessorAt(false, 3);
  }

  /** The stage order written out stage by stage, independently of the lists. */
  function SuccessorTable(stage: PlantStage, isHarvestable: bool): Option<PlantStage> {
    match stage
    case SEMILLA => Some(GERMINACION)
    case GERMINACION => Some(PLANTULA)
    case PLANTULA => Some(JOVEN)
    case JOVEN => Some(if isHarvestable then MADURO else FLORECIMIENTO)
    case MADURO => if isHarvestable then Some(COSECHABLE) else None
    case COSECHABLE => None
    case FLORECIMIENTO => None
    case MUERTA => None
  }

  /** `getNextStage` on a crop stage agrees with the written-out order. */
  lemma CropListSuccessors(stage: PlantStage)
    requires stage != FLORECIMIENTO && stage != MUERTA
    ensures NextStage(stage, true) == SuccessorTable(stage, true)
  {
    match stage
    case SEMILLA => EarlySuccessors(true);
    case GERMINACION => EarlySuccessors(true);
    case PLANTULA => EarlySuccessors(true);
    case JOVEN => HarvestableSuccessors();
    case MADURO => HarvestableSuccessors();
    case COSECHABLE => LastStageHasNoSuccessor();
  }

  /** `getNextStage` on a crop agrees with the written-out order. */
  lemma CropSuccessors(stage: PlantStage)
    ensures NextStage(stage, true) == SuccessorTable(stage, true)
  {
    if stage == FLORECIMIENTO {
      OffListHasNoSuccessor(FLORECIMIENTO, true);
    } else if stage == MUERTA {
      OffListHasNoSuccessor(MUERTA, true);
    } else {
      CropListSuccessors(stage);
    }
  }

  /** `getNextStage` on a flower stage agrees with the written-out order. */
  lemma FlowerListSuccessors(stage: PlantStage)
    requires stage != MADURO && stage != COSECHABLE && stage != MUERTA
    ensures NextStage(stage, false) == SuccessorTable(stage, false)
  {
    match stage
    case SEMILLA => EarlySuccessors(false);
    case GERMINACION => EarlySuccessors(false);
    case PLANTULA => EarlySuccessors(false);
    case JOVEN => DecorativeSuccessors();
    case FLORECIMIENTO => LastStageHasNoSuccessor();
  }

  /** `getNextStage` on a flower agrees with the written-out order. */
  lemma FlowerSuccessors(stage: PlantStage)
    ensures NextStage(stage, false) == SuccessorTable(stage, false)
  {
    if stage == MADURO {
      OffListHasNoSuccessor(MADURO, false);
    } else if stage == COSECHABLE {
      OffListHasNoSuccessor(COSECHABLE, false);
    } else if stage == MUERTA {
      OffListHasNoSuccessor(MUERTA, false);
    } else {
      FlowerListSuccessors(stage);
    }
  }

  /** `getNextStage` is the written-out order, for both kinds of plant. */
  lemma NextStageMatchesTable(stage: PlantStage, isHarvestable: bool)
    ensures NextStage(stage, isHarvestable) == SuccessorTable(stage, isHarvestable)
  {
    if isHarvestable {
      CropSuccessors(stage);
    } else {
      FlowerSuccessors(stage);
    }
  }
}
