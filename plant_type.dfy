/** The fixed catalog of plant species and what each one costs, yields and needs. */
module PlantTypes {
  import opened DebugConfig

  datatype PlantType = FRIJOL | RABANO | LECHUGA | GIRASOL | ROSA | TOMATE

  /** Catalog entry of one species; `growthDuration` is in milliseconds, the water rate in percent per hour. */
  datatype PlantTypeInfo = PlantTypeInfo(
    plantType: PlantType,
    name: string,
    description: string,
    growthDuration: int,
    isHarvestable: bool,
    waterConsumptionRate: real,
    basePrice: int,
    harvestPoints: int)

  /** One hour in milliseconds, `60 * 60 * 1000L`. */
  const HOUR_MS: int := 60 * 60 * 1000

  /** `getInfo`: the catalog is total, so the lookup never falls back. */
  function GetInfo(t: PlantType): (r: PlantTypeInfo)
    ensures r.plantType == t
    ensures r.isHarvestable <==> t != GIRASOL && t != ROSA
    ensures r.growthDuration > 0 && r.waterConsumptionRate > 0.0
    ensures r.basePrice >= 0 && r.harvestPoints > 0
    ensures r.basePrice == 0 <==> t == FRIJOL
  {
    match t
    case FRIJOL =>
      PlantTypeInfo(FRIJOL, "Frijol", "Una planta rápida de cultivar, ideal para principiantes",
        AdjustedDuration(10 * HOUR_MS), true, 5.0 * TIME_MULTIPLIER as real, 0, 50)
    case RABANO =>
      PlantTypeInfo(RABANO, "Rábano", "Crece rápido y es fácil de cuidar",
        AdjustedDuration(7 * HOUR_MS), true, 6.0 * TIME_MULTIPLIER as real, 20, 40)
    case LECHUGA =>
      PlantTypeInfo(LECHUGA, "Lechuga", "Una verdura fresca y saludable",
        AdjustedDuration(12 * HOUR_MS), true, 7.0 * TIME_MULTIPLIER as real, 30, 60)
    case GIRASOL =>
      PlantTypeInfo(GIRASOL, "Girasol", "Una hermosa flor que sigue al sol",
        AdjustedDuration(15 * HOUR_MS), false, 8.0 * TIME_MULTIPLIER as real, 100, 100)
    case ROSA =>
      PlantTypeInfo(ROSA, "Rosa", "La flor del amor y la belleza",
        AdjustedDuration(20 * HOUR_MS), false, 6.0 * TIME_MULTIPLIER as real, 150, 150)
    case TOMATE =>
      PlantTypeInfo(TOMATE, "Tomate", "Jugoso y delicioso",
        AdjustedDuration(14 * HOUR_MS), true, 9.0 * TIME_MULTIPLIER as real, 50, 70)
  }

  /** The species of a list of catalog entries. */
  function TypesOf(infos: seq<PlantTypeInfo>): set<PlantType> {
    set i | 0 <= i < |infos| :: infos[i].plantType
  }

  /** `getAllPlants`: the map's values in insertion order. */
  function AllPlants(): (r: seq<PlantTypeInfo>)
    ensures |r| == 6
    ensures forall t: PlantType :: t in TypesOf(r)
    ensures forall i, j :: 0 <= i < j < |r| ==> r[i].plantType != r[j].plantType
    ensures forall i :: 0 <= i < |r| ==> r[i] == GetInfo(r[i].plantType)
    ensures && r[0].plantType == FRIJOL && r[1].plantType == RABANO && r[2].plantType == LECHUGA
            && r[3].plantType == GIRASOL && r[4].plantType == ROSA && r[5].plantType == TOMATE
  {
    var r := [GetInfo(FRIJOL), GetInfo(RABANO), GetInfo(LECHUGA), GetInfo(GIRASOL), GetInfo(ROSA), GetInfo(TOMATE)];
    assert forall t: PlantType :: t in TypesOf(r) by {
      forall t: PlantType ensures t in TypesOf(r) {
        var i := match t
          case FRIJOL => 0 case RABANO => 1 case LECHUGA => 2
          case GIRASOL => 3 case ROSA => 4 case TOMATE => 5;
        assert r[i].plantType == t;
      }
    }
    r
  }

  /** `getInitialPlants`: the three starter species, the first three of the catalog. */
  function InitialPlants(): (r: seq<PlantTypeInfo>)
    ensures r == AllPlants()[..3]
    ensures |r| == 3 && r[0].plantType == FRIJOL && r[1].plantType == RABANO && r[2].plantType == LECHUGA
    ensures forall i :: 0 <= i < |r| ==> r[i].isHarvestable && r[i].basePrice <= 30
  {
    [GetInfo(FRIJOL), GetInfo(RABANO), GetInfo(LECHUGA)]
  }

  /** In the shipped build every species grows in as many minutes as its production build takes hours. */
  lemma GrowthMinutesInShippedBuild()
    ensures GetInfo(FRIJOL).growthDuration == 10 * 60000
    ensures GetInfo(RABANO).growthDuration == 7 * 60000
    ensures GetInfo(LECHUGA).growthDuration == 12 * 60000
    ensures GetInfo(GIRASOL).growthDuration == 15 * 60000
    ensures GetInfo(ROSA).growthDuration == 20 * 60000
    ensures GetInfo(TOMATE).growthDuration == 14 * 60000
  {
  }

  /** The catalog's seed prices, harvest points and per-hour water rates (a base rate scaled by the clock multiplier). */
  lemma CatalogPricesPointsAndRates()
    ensures GetInfo(FRIJOL).basePrice == 0 && GetInfo(FRIJOL).harvestPoints == 50
    ensures GetInfo(RABANO).basePrice == 20 && GetInfo(RABANO).harvestPoints == 40
    ensures GetInfo(LECHUGA).basePrice == 30 && GetInfo(LECHUGA).harvestPoints == 60
    ensures GetInfo(GIRASOL).basePrice == 100 && GetInfo(GIRASOL).harvestPoints == 100
    ensures GetInfo(ROSA).basePrice == 150 && GetInfo(ROSA).harvestPoints == 150
    ensures GetInfo(TOMATE).basePrice == 50 && GetInfo(TOMATE).harvestPoints == 70
    ensures GetInfo(FRIJOL).waterConsumptionRate == 5.0 * TIME_MULTIPLIER as real
    ensures GetInfo(RABANO).waterConsumptionRate == 6.0 * TIME_MULTIPLIER as real
    ensures GetInfo(LECHUGA).waterConsumptionRate == 7.0 * TIME_MULTIPLIER as real
    ensures GetInfo(GIRASOL).waterConsumptionRate == 8.0 * TIME_MULTIPLIER as real
    ensures GetInfo(ROSA).waterConsumptionRate == 6.0 * TIME_MULTIPLIER as real
    ensures GetInfo(TOMATE).waterConsumptionRate == 9.0 * TIME_MULTIPLIER as real
  {
  }
}
